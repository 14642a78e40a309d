/**
 * The job handler: validation, path normalization, the server check, conversion of image
 * URLs, input uploads, submission, monitoring, history and output collection, and the
 * mapping of the exceptions the body raises to error results.  Every call that leaves the
 * process is an oracle in `Backend`.
 */
module Handler {
  import opened Wrappers
  import opened Strings
  import opened JsonValues
  import opened Validation
  import opened PathNormalization
  import opened ServerProbe
  import opened Uploads
  import opened Submission
  import opened Reconnect
  import opened Monitor
  import opened OutputCollector
  import opened ResultShaping

  const ComfyHost: string := "127.0.0.1:8188"
  const ServerUnreachableMessage: string := "ComfyUI server (" + ComfyHost + ") not reachable after multiple retries."
  const UploadFailedMessage: string := "Failed to upload one or more input images"
  const UnconfirmedExitMessage: string := "Workflow monitoring loop exited without confirmation of completion or error."

  /** What the backend answered to the `/prompt` request. */
  datatype QueueAnswer =
    | BadRequest(body: Option<RejectionBody>, rawText: string, checkpoints: seq<string>)
    | QueueRequestFailed(detail: string)   // a `requests` exception, an error status included
    | QueueCrashed(detail: string)         // any other exception that is not a `ValueError`
    | Accepted(promptId: Option<string>, printed: string)

  datatype HistoryAnswer = HistoryFailed(detail: string) | HistoryOk(history: map<string, PromptHistory>)

  /** The exception classes the handler's body distinguishes. */
  datatype Failure =
    | WebSocketFailure(text: string)
    | RequestFailure(text: string)
    | ValueFailure(text: string)
    | OtherFailure

  /** Everything the handler learns from outside the process. */
  datatype Backend = Backend(
    decode: string -> Option<Json>,                     // `json.loads` of a string input
    serverUp: nat -> bool,                              // whether probe i of `check_server` answered 200
    download: string -> Option<string>,                 // `convert_url_to_base64`
    b64decode: string -> DecodeOutcome,
    post: (string, seq<byte>) -> PostOutcome,           // the upload of an input image
    show: Json -> string,                               // `str()` of a value that is not a string
    wsConnect: Option<Failure>,                         // the first websocket connect, when it raises
    clientId: string,
    envKey: Option<string>,                             // `COMFY_ORG_API_KEY`
    queue: Payload -> QueueAnswer,
    reconnectAttempts: int,                             // `WEBSOCKET_RECONNECT_ATTEMPTS`
    frames: seq<Frame>,
    history: HistoryAnswer,
    fetch: (string, string, Option<string>) -> Option<seq<byte>>,
    sink: Sink)

  datatype JobOutcome =
    | Returned(result: JobResult)
    | UnexpectedError    // `{"error": "An unexpected error occurred: …"}` with the exception's text
    | Escaped            // an exception propagates out of the handler
    | Blocked            // still waiting for a terminal frame

  /** How the job ends, and the payloads it submitted. */
  datatype Run = Run(outcome: JobOutcome, submitted: seq<Payload>)

  /** The handler's `except` clauses. */
  function FailureOutcome(f: Failure): JobOutcome {
    match f
    case WebSocketFailure(text) => Returned(ErrorResult("WebSocket communication error: " + text, None))
    case RequestFailure(text) => Returned(ErrorResult("HTTP communication error with ComfyUI: " + text, None))
    case ValueFailure(text) => Returned(ErrorResult(text, None))
    case OtherFailure => UnexpectedError
  }

  predicate IsUrl(s: string) {
    StartsWith(s, "http://") || StartsWith(s, "https://")
  }

  /** Put `done` in front of a conversion's list; a failure stays a failure. */
  function Prepend(done: seq<Json>, r: Either<string, seq<Json>>): Either<string, seq<Json>> {
    match r
    case Left(url) => Left(url)
    case Right(rest) => Right(done + rest)
  }

  /** Replace every URL `image` by its downloaded base64 form; the first failed download ends the job. */
  function ConvertUrls(items: seq<Json>, download: string -> Option<string>): Either<string, seq<Json>>
  {
    if items == [] then Right([])
    else
      var item := items[0];
      var data := if item.JObj? then Get(item.fields, "image") else JNull;
      if item.JObj? && data.JStr? && IsUrl(data.s) then
        match download(data.s)
        case None => Left(data.s)
        case Some(b64) => Prepend([JObj(item.fields["image" := JStr(b64)])], ConvertUrls(items[1..], download))
      else Prepend([item], ConvertUrls(items[1..], download))
  }

  /** The `name` and `image` of each (validated) image object. */
  function UploadItems(items: seq<Json>, show: Json -> string): seq<UploadItem> {
    seq(|items|, i requires 0 <= i < |items| =>
      var name := if items[i].JObj? then Get(items[i].fields, "name") else JNull;
      UploadItem(if name.JStr? then name.s else show(name),
                 if items[i].JObj? then Get(items[i].fields, "image") else JNull))
  }

  /** The `images` list the handler works on. */
  function ImageList(images: Json): seq<Json> {
    if images.JArr? then images.items else []
  }

  /** From the backend's answer to the submission to the end of the job. */
  function AfterSubmission(answer: QueueAnswer, b: Backend): JobOutcome {
    match answer
    case BadRequest(body, rawText, checkpoints) => FailureOutcome(ValueFailure(RejectionMessage(body, rawText, checkpoints)))
    case QueueRequestFailed(detail) => FailureOutcome(ValueFailure("Error queuing workflow: " + detail))
    case QueueCrashed(detail) => FailureOutcome(ValueFailure("Unexpected error queuing workflow: " + detail))
    case Accepted(promptId, printed) =>
      if promptId.None? || promptId.value == "" then
        FailureOutcome(ValueFailure("Missing 'prompt_id' in queue response: " + printed))
      else AfterMonitor(promptId.value, MonitorRun(b.frames, promptId.value, b.reconnectAttempts), b)
  }

  /** From the end of the monitoring loop to the end of the job. */
  function AfterMonitor(promptId: string, monitored: MonitorOutcome, b: Backend): JobOutcome {
    match monitored
    case Waiting => Blocked
    case Crashed => UnexpectedError
    case ChannelLost(reason) => FailureOutcome(WebSocketFailure(reason))
    case Exited(done, errors) =>
      if !done && errors == [] then FailureOutcome(ValueFailure(UnconfirmedExitMessage))
      else match b.history
        case HistoryFailed(detail) => FailureOutcome(RequestFailure(detail))
        case HistoryOk(history) => Returned(Finish(promptId, history, errors, b.fetch, b.sink))
  }

  /** The whole handler. */
  function Handle(job: Json, b: Backend): Run {
    match ValidateInput(job, b.decode)
    case Raised => Run(Escaped, [])
    case Rejected(message) => Run(Returned(ErrorResult(message, None)), [])
    case Valid(input) => HandleValid(input, b)
  }

  /** The handler once the input is valid. */
  function HandleValid(input: ValidatedInput, b: Backend): Run {
    var workflow := NormalizedWorkflow(input.workflow);
    if !exists i | 0 <= i < ApiAvailableMaxRetries :: b.serverUp(i) then
      Run(Returned(ErrorResult(ServerUnreachableMessage, None)), [])
    else
      match ConvertUrls(ImageList(input.images), b.download)
      case Left(url) => Run(Returned(ErrorResult("Failed to download and convert image from URL: " + url, None)), [])
      case Right(images) =>
        var summary := Summary(UploadItems(images, b.show), b.b64decode, b.post, b.show);
        if images != [] && summary.status == "error" then
          Run(Returned(ErrorResult(UploadFailedMessage, Some(summary.details))), [])
        else if b.wsConnect.Some? then Run(FailureOutcome(b.wsConnect.value), [])
        else
          var payload := BuildPayload(workflow, b.clientId, input.apiKey, b.envKey);
          Run(AfterSubmission(b.queue(payload), b), [payload])
  }

  /** The URL conversion loop, rewriting `image` members in order. */
  method ConvertImageUrls(items: seq<Json>, download: string -> Option<string>) returns (r: Either<string, seq<Json>>)
    ensures r == ConvertUrls(items, download)
  {
    var converted: seq<Json> := [];
    var i := 0;
    assert items[0..] == items;
    PrependNothing(ConvertUrls(items, download));
    while i < |items|
      invariant 0 <= i <= |items|
      invariant ConvertUrls(items, download) == Prepend(converted, ConvertUrls(items[i..], download))
    {
      var item := items[i];
      assert items[i..][0] == item && items[i..][1..] == items[i + 1..];
      var data := if item.JObj? then Get(item.fields, "image") else JNull;
      if item.JObj? && data.JStr? && IsUrl(data.s) {
        var b64 := download(data.s);
        if b64.None? {
          return Left(data.s);
        }
        item := JObj(item.fields["image" := JStr(b64.value)]);
      }
      PrependTwice(converted, [item], ConvertUrls(items[i + 1..], download));
      converted := converted + [item];
      i := i + 1;
    }
    assert converted + [] == converted;
    return Right(converted);
  }

  lemma PrependNothing(r: Either<string, seq<Json>>)
    ensures Prepend([], r) == r
  {
    if r.Right? {
      assert [] + r.right == r.right;
    }
  }

  lemma PrependTwice(a: seq<Json>, b: seq<Json>, r: Either<string, seq<Json>>)
    ensures Prepend(a, Prepend(b, r)) == Prepend(a + b, r)
  {
    if r.Right? {
      assert a + (b + r.right) == (a + b) + r.right;
    }
  }

  /** The URL an image object carries in `image`, if it carries one. */
  function UrlOf(item: Json): Option<string> {
    var data := if item.JObj? then Get(item.fields, "image") else JNull;
    if item.JObj? && data.JStr? && IsUrl(data.s) then Some(data.s) else None
  }

  /** An image whose URL cannot be downloaded. */
  predicate DownloadFails(item: Json, download: string -> Option<string>) {
    UrlOf(item).Some? && download(UrlOf(item).value).None?
  }

  /** An image after conversion: a URL image carries its download, any other image is kept. */
  function ConvertedItem(item: Json, download: string -> Option<string>): Json {
    if UrlOf(item).Some? && download(UrlOf(item).value).Some? then
      JObj(item.fields["image" := JStr(download(UrlOf(item).value).value)])
    else item
  }

  /**
   * Conversion succeeds exactly when every URL downloads, and then yields one image per
   * input image, each URL replaced by its download and every other image unchanged.
   */
  lemma {:induction false} ConvertUrlsSucceeds(items: seq<Json>, download: string -> Option<string>)
    ensures ConvertUrls(items, download).Right? <==> forall i :: 0 <= i < |items| ==> !DownloadFails(items[i], download)
    ensures var r := ConvertUrls(items, download);
      r.Right? ==> |r.right| == |items| && forall i :: 0 <= i < |items| ==> r.right[i] == ConvertedItem(items[i], download)
  {
    if items != [] {
      var tail := items[1..];
      ConvertUrlsSucceeds(tail, download);
      assert forall i :: 1 <= i < |items| ==> items[i] == tail[i - 1];
      if ConvertUrls(items, download).Right? {
        var r := ConvertUrls(items, download).right;
        assert r == [ConvertedItem(items[0], download)] + ConvertUrls(tail, download).right;
      }
    }
  }

  /** A failed conversion names the URL of the first image whose download fails. */
  lemma {:induction false} ConvertUrlsFirstFailure(items: seq<Json>, download: string -> Option<string>)
    ensures var r := ConvertUrls(items, download);
      r.Left? ==>
        exists k :: 0 <= k < |items| && DownloadFails(items[k], download) &&
          UrlOf(items[k]).value == r.left && forall j :: 0 <= j < k ==> !DownloadFails(items[j], download)
  {
    if items != [] && ConvertUrls(items, download).Left? && !DownloadFails(items[0], download) {
      var tail := items[1..];
      ConvertUrlsFirstFailure(tail, download);
      var k :| 0 <= k < |tail| && DownloadFails(tail[k], download) &&
        UrlOf(tail[k]).value == ConvertUrls(tail, download).left &&
        forall j :: 0 <= j < k ==> !DownloadFails(tail[j], download);
      assert items[k + 1] == tail[k];
      assert forall j :: 1 <= j < k + 1 ==> items[j] == tail[j - 1];
    }
  }

  /**
   * The handler body on the model's objects and loops: the path-normalizing workflow
   * object, the server poll, the URL and upload loops, the monitoring loop and the
   * collector.
   */
  method RunHandler(job: Json, b: Backend) returns (run: Run)
    ensures run == Handle(job, b)
  {
    var validation := ValidateInput(job, b.decode);
    if validation.Raised? {
      return Run(Escaped, []);
    }
    if validation.Rejected? {
      return Run(Returned(ErrorResult(validation.message, None)), []);
    }
    run := RunValidJob(validation.input, b);
  }

  method RunValidJob(input: ValidatedInput, b: Backend) returns (run: Run)
    ensures run == HandleValid(input, b)
  {
    var doc := new WorkflowDoc(input.workflow);
    doc.NormalizePaths();
    var up, probes, sleeps := CheckServer(ApiAvailableMaxRetries, b.serverUp);
    if !up {
      return Run(Returned(ErrorResult(ServerUnreachableMessage, None)), []);
    }
    var converted := ConvertImageUrls(ImageList(input.images), b.download);
    if converted.Left? {
      return Run(Returned(ErrorResult("Failed to download and convert image from URL: " + converted.left, None)), []);
    }
    var images := converted.right;
    var failed, details := UploadStage(images, b);
    if failed {
      return Run(Returned(ErrorResult(UploadFailedMessage, Some(details))), []);
    }
    if b.wsConnect.Some? {
      return Run(FailureOutcome(b.wsConnect.value), []);
    }
    var payload := BuildPayload(doc.root, b.clientId, input.apiKey, b.envKey);
    var outcome := SubmitAndWait(payload, b);
    return Run(outcome, [payload]);
  }

  /** Upload the (converted) images when there are any; reports whether the job must stop. */
  method UploadStage(images: seq<Json>, b: Backend) returns (failed: bool, details: seq<string>)
    ensures var summary := Summary(UploadItems(images, b.show), b.b64decode, b.post, b.show);
      failed == (images != [] && summary.status == "error") && (failed ==> details == summary.details)
  {
    failed, details := false, [];
    if images != [] {
      var summary := UploadImages(UploadItems(images, b.show), b.b64decode, b.post, b.show);
      failed, details := summary.status == "error", summary.details;
    }
  }

  /** Queue the payload, watch the execution and collect the outputs. */
  method SubmitAndWait(payload: Payload, b: Backend) returns (outcome: JobOutcome)
    ensures outcome == AfterSubmission(b.queue(payload), b)
  {
    var answer := b.queue(payload);
    if !answer.Accepted? || answer.promptId.None? || answer.promptId.value == "" {
      return AfterSubmission(answer, b);
    }
    var promptId := answer.promptId.value;
    var monitored := MonitorExecution(b.frames, promptId, b.reconnectAttempts);
    if !monitored.Exited? || (!monitored.executionDone && monitored.errors == []) || b.history.HistoryFailed? {
      return AfterMonitor(promptId, monitored, b);
    }
    var result := FinishJob(promptId, b.history.history, monitored.errors, b.fetch, b.sink);
    return Returned(result);
  }

  /**
   * At most one payload is ever submitted, and it is the normalized workflow with the
   * credential chosen by precedence; closed connections along the way are handled by
   * reconnecting, never by submitting again.
   */
  lemma {:induction false} SubmittedOnce(job: Json, b: Backend)
    ensures var run := Handle(job, b);
      |run.submitted| <= 1 &&
      (run.submitted != [] ==>
         ValidateInput(job, b.decode).Valid? &&
         var input := ValidateInput(job, b.decode).input;
         run.submitted == [BuildPayload(NormalizedWorkflow(input.workflow), b.clientId, input.apiKey, b.envKey)])
    ensures forall frames :: Handle(job, b.(frames := frames)).submitted == Handle(job, b).submitted
  {
  }

  /** Nothing outside the process is consulted for an input that fails validation. */
  lemma {:induction false} InvalidInputAnsweredAtOnce(job: Json, b: Backend)
    requires ValidateInput(job, b.decode).Rejected?
    ensures Handle(job, b) == Run(Returned(ErrorResult(ValidateInput(job, b.decode).message, None)), [])
  {
  }

  /**
   * Once the monitoring loop has exited, the history is always consulted: the check for an
   * exit without confirmation can never fire.
   */
  lemma {:induction false} ExitAlwaysReachesHistory(promptId: string, b: Backend)
    requires MonitorRun(b.frames, promptId, b.reconnectAttempts).Exited?
    ensures var m := MonitorRun(b.frames, promptId, b.reconnectAttempts);
      AfterMonitor(promptId, m, b) ==
        match b.history
        case HistoryFailed(detail) => Returned(ErrorResult("HTTP communication error with ComfyUI: " + detail, None))
        case HistoryOk(history) => Returned(Finish(promptId, history, m.errors, b.fetch, b.sink))
  {
    ExitIsConfirmed(b.frames, promptId, b.reconnectAttempts);
  }

  /** A failed upload ends the job before anything is submitted, with every upload error as details. */
  lemma {:induction false} UploadFailureStopsBeforeSubmission(job: Json, b: Backend)
    requires ValidateInput(job, b.decode).Valid?
    requires exists i | 0 <= i < ApiAvailableMaxRetries :: b.serverUp(i)
    requires var converted := ConvertUrls(ImageList(ValidateInput(job, b.decode).input.images), b.download);
      converted.Right? && converted.right != [] &&
      exists k | 0 <= k < |converted.right| ::
        Outcome(UploadItems(converted.right, b.show)[k], b.b64decode, b.post, b.show).Failed?
    ensures Handle(job, b).submitted == []
    ensures Handle(job, b).outcome.Returned? && Handle(job, b).outcome.result.ErrorResult?
    ensures Handle(job, b).outcome.result.error == UploadFailedMessage
  {
    var images := ConvertUrls(ImageList(ValidateInput(job, b.decode).input.images), b.download).right;
    SummaryCharacterised(UploadItems(images, b.show), b.b64decode, b.post, b.show);
  }
}
