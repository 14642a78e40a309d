/**
 * What the handler returns once monitoring has ended: the history lookup for the prompt,
 * the "no outputs" warning, output collection, and the shaping of `output_data` and
 * `errors` into the job result.
 */
module ResultShaping {
  import opened Wrappers
  import opened Strings
  import opened Media
  import opened OutputCollector

  /** The job result dictionary. */
  datatype JobResult =
    | ErrorResult(error: string, details: Option<seq<string>>)
    | Output(images: seq<OutputEntry>, errors: Option<seq<string>>, status: Option<string>)

  /** A prompt's history record; a record without `outputs` has no output nodes. */
  datatype PromptHistory = PromptHistory(outputs: seq<(string, NodeOutput)>)

  const JobFailed: string := "Job processing failed"
  const NotFoundFailed: string := "Job processing failed, prompt ID not found in history."
  const NoImagesStatus: string := "success_no_images"

  function NotFoundMessage(promptId: string): string {
    "Prompt ID " + promptId + " not found in history after execution."
  }

  function NoOutputsWarning(promptId: string): string {
    "No outputs found in history for prompt " + promptId + "."
  }

  /**
   * The final shaping of `output_data` and `errors`: a failure exactly when nothing was
   * produced and something went wrong; otherwise the outputs, the errors when there are
   * any, and the no-media status when there are no outputs.
   */
  function ShapeResult(outputData: seq<OutputEntry>, errors: seq<string>): (r: JobResult)
    ensures r.ErrorResult? <==> outputData == [] && errors != []
    ensures r.ErrorResult? ==> r.error == JobFailed && r.details == Some(errors)
    ensures r.Output? ==> r.images == outputData
    ensures r.Output? ==> r.errors == (if errors == [] then None else Some(errors))
    ensures r.Output? ==> r.status == (if outputData == [] then Some(NoImagesStatus) else None)
  {
    if outputData == [] && errors != [] then ErrorResult(JobFailed, Some(errors))
    else if outputData == [] then Output([], None, Some(NoImagesStatus))
    else Output(outputData, if errors == [] then None else Some(errors), None)
  }

  /** After the history lookup: either a final result, or the nodes to collect and the errors so far. */
  datatype Resolution =
    | NotFound(result: JobResult)
    | Found(outputs: seq<(string, NodeOutput)>, errors: seq<string>)

  /**
   * The history lookup.  A missing prompt ends the job: with its own message alone when
   * nothing went wrong before, otherwise appended to the earlier errors.  A record without
   * output nodes adds a warning, but only when there are no earlier errors.
   */
  function ResolveHistory(promptId: string, history: map<string, PromptHistory>, errors: seq<string>): (r: Resolution)
    ensures r.NotFound? <==> promptId !in history
    ensures r.NotFound? && errors == [] ==> r.result == ErrorResult(NotFoundMessage(promptId), None)
    ensures r.NotFound? && errors != [] ==>
      r.result == ErrorResult(NotFoundFailed, Some(errors + [NotFoundMessage(promptId)]))
    ensures r.Found? ==> r.outputs == history[promptId].outputs
    ensures r.Found? ==> |r.errors| == |errors| + (if r.outputs == [] && errors == [] then 1 else 0)
    ensures r.Found? ==> r.errors[..|errors|] == errors
    ensures r.Found? && r.outputs == [] && errors == [] ==> r.errors == [NoOutputsWarning(promptId)]
  {
    if promptId !in history then
      if errors == [] then NotFound(ErrorResult(NotFoundMessage(promptId), None))
      else NotFound(ErrorResult(NotFoundFailed, Some(errors + [NotFoundMessage(promptId)])))
    else
      var outputs := history[promptId].outputs;
      if outputs == [] && errors == [] then Found(outputs, [NoOutputsWarning(promptId)])
      else Found(outputs, errors)
  }

  /** Everything after the monitoring loop, for the errors it left. */
  function Finish(promptId: string, history: map<string, PromptHistory>, errors: seq<string>,
                  fetch: (string, string, Option<string>) -> Option<seq<byte>>, sink: Sink): JobResult
  {
    match ResolveHistory(promptId, history, errors)
    case NotFound(r) => r
    case Found(outputs, errs) =>
      var e := OutputsEffect(outputs, fetch, sink);
      ShapeResult(e.outputs, errs + e.errors)
  }

  /** The handler's tail, on a collector object. */
  method FinishJob(promptId: string, history: map<string, PromptHistory>, errors: seq<string>,
                   fetch: (string, string, Option<string>) -> Option<seq<byte>>, sink: Sink)
    returns (result: JobResult)
    ensures result == Finish(promptId, history, errors, fetch, sink)
  {
    var resolution := ResolveHistory(promptId, history, errors);
    match resolution {
      case NotFound(r) =>
        result := r;
      case Found(outputs, errs) =>
        var collector := new Collector(errs, fetch, sink);
        collector.CollectOutputs(outputs);
        assert [] + OutputsEffect(outputs, fetch, sink).outputs == OutputsEffect(outputs, fetch, sink).outputs;
        result := ShapeResult(collector.outputData, collector.errors);
    }
  }

  /**
   * The job ends with the no-media status exactly when nothing went wrong earlier, the
   * prompt's record has output nodes, and every media entry in them is a temp entry.
   */
  lemma {:induction false} NoMediaStatusCharacterised(promptId: string, history: map<string, PromptHistory>, errors: seq<string>,
                                                      fetch: (string, string, Option<string>) -> Option<seq<byte>>, sink: Sink)
    ensures Finish(promptId, history, errors, fetch, sink) == Output([], None, Some(NoImagesStatus)) <==>
      errors == [] && promptId in history && history[promptId].outputs != [] &&
      forall n :: 0 <= n < |history[promptId].outputs| ==> CountNonTemp(MediaList(history[promptId].outputs[n].1)) == 0
  {
    if promptId in history {
      var outputs := history[promptId].outputs;
      OutputsEffectAccountsForEveryEntry(outputs, fetch, sink);
    }
  }

  /** Errors recorded before the history lookup always reach the result, first and in order. */
  lemma {:induction false} EarlierErrorsAreReported(promptId: string, history: map<string, PromptHistory>, errors: seq<string>,
                                                    fetch: (string, string, Option<string>) -> Option<seq<byte>>, sink: Sink)
    requires errors != []
    ensures var r := Finish(promptId, history, errors, fetch, sink);
      (r.ErrorResult? && r.details.Some? && |errors| <= |r.details.value| && r.details.value[..|errors|] == errors) ||
      (r.Output? && r.errors.Some? && |errors| <= |r.errors.value| && r.errors.value[..|errors|] == errors)
  {
    var r := Finish(promptId, history, errors, fetch, sink);
    if promptId in history {
      var e := OutputsEffect(history[promptId].outputs, fetch, sink);
      assert (errors + e.errors)[..|errors|] == errors;
    } else {
      assert (errors + [NotFoundMessage(promptId)])[..|errors|] == errors;
    }
  }

  /** When the prompt is in the history, the result's media are exactly what the collector produced. */
  lemma {:induction false} ReturnedMediaAreCollected(promptId: string, history: map<string, PromptHistory>, errors: seq<string>,
                                                     fetch: (string, string, Option<string>) -> Option<seq<byte>>, sink: Sink)
    requires promptId in history
    ensures var r := Finish(promptId, history, errors, fetch, sink);
      r.Output? ==> r.images == OutputsEffect(history[promptId].outputs, fetch, sink).outputs
    ensures var r := Finish(promptId, history, errors, fetch, sink);
      r.ErrorResult? ==> r.error == JobFailed && OutputsEffect(history[promptId].outputs, fetch, sink).outputs == []
  {
  }

  /**
   * A record with one PNG output and a node that only has a `text` key ends in success
   * with no `errors` field: the unhandled key is only logged.
   */
  lemma UnhandledKeyIsNotAWarning(encode: seq<byte> -> string,
                                  fetch: (string, string, Option<string>) -> Option<seq<byte>>)
    requires fetch("out.png", "", Some("output")) == Some([137, 80])
    ensures var png := Descriptor(Some("out.png"), "", Some("output"), "");
      var history := map["p1" := PromptHistory([("9", NodeOutput(map["images" := [png]])),
                                                ("12", NodeOutput(map["text" := []]))])];
      Finish("p1", history, [], fetch, Inline(encode)) ==
        Output([OutputEntry("out.png", Base64, encode([137, 80]))], None, None)
  {
    var png := Descriptor(Some("out.png"), "", Some("output"), "");
    var n9 := NodeOutput(map["images" := [png]]);
    var n12 := NodeOutput(map["text" := []]);
    var nodes := [("9", n9), ("12", n12)];
    var sink := Inline(encode);
    PngIsImage();
    assert MediaList(n9) == [png];
    assert MediaList(n12) == [];
    assert ListEffect("9", [png], fetch, sink) == EntryEffect("9", png, fetch, sink);
    assert EntryEffect("9", png, fetch, sink) == Effect([OutputEntry("out.png", Base64, encode([137, 80]))], []);
    assert nodes[1..] == [("12", n12)] && nodes[1..][1..] == [];
    assert OutputsEffect(nodes[1..], fetch, sink) == Effect([], []);
  }

  lemma PngIsImage()
    ensures KindOf("out.png") == Image
  {
    var low := Lower("out.png");
    assert low == "out.png";
    forall k | 0 <= k < |VideoExtensions|
      ensures !EndsWith(low, VideoExtensions[k])
    {
      assert low[|low| - 4..] == ".png";
      if k == 1 {
        assert low[|low| - 5..] == "t.png";
      }
    }
  }
}
