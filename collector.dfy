/**
 * The output collector and transport sink of the handler: for each output node of the
 * execution record it gathers the media entries, filters them, classifies each as image or
 * video, fetches its bytes and either encodes them inline (base64) or stages them in a
 * temporary file for the external uploader.  The backend's `/view` endpoint, the base64
 * encoder, the temporary-file writes and the uploader are oracles.
 */
module OutputCollector {
  import opened Wrappers
  import opened Strings
  import opened Media

  /** One element of a node's media list. */
  datatype MediaEntry =
    | NonObject(typeName: string, text: string)   // a stray value such as a boolean
    | Descriptor(filename: Option<string>, subfolder: string, tag: Option<string>, printed: string)  // printed: the dict as `str()` shows it

  /** One node of the execution record's `outputs`: its output keys and their lists. */
  datatype NodeOutput = NodeOutput(fields: map<string, seq<MediaEntry>>)

  datatype Transport = Base64 | S3Url

  /** An element of the job's `images` result. */
  datatype OutputEntry = OutputEntry(filename: string, transport: Transport, data: string)

  datatype UploadOutcome = UploadedTo(url: string) | UploadFailed(error: string)

  /**
   * What staging one file for upload does: the temporary file's path, whether writing the
   * bytes to it raised, what the uploader answered, and whether removing the file after a
   * successful upload raised.
   */
  datatype Transfer = Transfer(tempPath: string, writeError: Option<string>, upload: UploadOutcome,
                               removeError: Option<string>)

  /** Where fetched bytes go: inline base64, or an external store through a temp file. */
  datatype Sink =
    | Inline(encode: seq<byte> -> string)
    | External(transfer: string -> Transfer)

  /** What processing some entries adds to `output_data` and to `errors`, in order. */
  datatype Effect = Effect(outputs: seq<OutputEntry>, errors: seq<string>)

  const MediaKeys: set<string> := {"images", "gifs", "animated"}

  function Combine(a: Effect, b: Effect): Effect {
    Effect(a.outputs + b.outputs, a.errors + b.errors)
  }

  function Field(node: NodeOutput, key: string): seq<MediaEntry> {
    if key in node.fields then node.fields[key] else []
  }

  /** A node's media list: its `images`, then `gifs`, then `animated` entries. */
  function MediaList(node: NodeOutput): seq<MediaEntry> {
    Field(node, "images") + Field(node, "gifs") + Field(node, "animated")
  }

  /** Output keys the collector only reports in the log. */
  function UnhandledKeys(node: NodeOutput): set<string> {
    node.fields.Keys - MediaKeys
  }

  predicate IsTemp(e: MediaEntry) {
    e.Descriptor? && e.tag == Some("temp")
  }

  predicate MissingFilename(e: MediaEntry) {
    e.Descriptor? && (e.filename.None? || e.filename.value == "")
  }

  function NonObjectWarning(nodeId: string, typeName: string, text: string): string {
    "Skipping non-dict media file in node " + nodeId + ": " + typeName + " = " + text
  }

  function MissingFilenameWarning(nodeId: string, printed: string): string {
    "Skipping media file in node " + nodeId + " due to missing filename: " + printed
  }

  function FetchFailedError(kind: MediaKind, filename: string): string {
    "Failed to fetch " + kind.Name() + " data for " + filename + " from /view endpoint."
  }

  function UploadError(filename: string, error: string): string {
    "Error uploading " + filename + " to S3: " + error
  }

  function TooLargeError(filename: string): string {
    "Video file " + filename + " is too large for base64 encoding (max 100 MB)"
  }

  /** The `data` of an inline entry: a data URI for videos, the bare payload for images. */
  function InlineData(filename: string, kind: MediaKind, payload: string): string {
    if kind.Video? then "data:" + MimeType(filename) + ";base64," + payload else payload
  }

  /** What the sink does with the fetched, non-empty bytes of one file. */
  function TransportEffect(filename: string, kind: MediaKind, bytes: seq<byte>, sink: Sink): (r: Effect)
    ensures |r.outputs| + |r.errors| == 1
    ensures forall o :: o in r.outputs ==> o.filename == filename
    ensures r.outputs != [] ==> r.outputs[0].transport == (if sink.Inline? then Base64 else S3Url)
    ensures sink.Inline? && ExceedsInlineCeiling(kind, |bytes|) ==> r.outputs == []
    ensures sink.Inline? && !ExceedsInlineCeiling(kind, |bytes|) ==>
      r.outputs == [OutputEntry(filename, Base64, InlineData(filename, kind, sink.encode(bytes)))]
    ensures sink.External? ==> (r.outputs != [] <==>
      var t := sink.transfer(filename);
      t.writeError.None? && t.upload.UploadedTo? && t.removeError.None?)
    ensures sink.External? && r.outputs != [] ==> r.outputs[0].data == sink.transfer(filename).upload.url
  {
    match sink
    case Inline(encode) =>
      if ExceedsInlineCeiling(kind, |bytes|) then Effect([], [TooLargeError(filename)])
      else Effect([OutputEntry(filename, Base64, InlineData(filename, kind, encode(bytes)))], [])
    case External(transfer) =>
      var t := transfer(filename);
      if t.writeError.Some? then Effect([], [UploadError(filename, t.writeError.value)])
      else match t.upload
        case UploadedTo(url) =>
          if t.removeError.Some? then Effect([], [UploadError(filename, t.removeError.value)])
          else Effect([OutputEntry(filename, S3Url, url)], [])
        case UploadFailed(error) => Effect([], [UploadError(filename, error)])
  }

  /**
   * What one media entry contributes.  A temp entry contributes nothing; every other entry
   * contributes exactly one output or exactly one error, and an output always carries the
   * entry's own (non-empty) filename.
   */
  function EntryEffect(nodeId: string, e: MediaEntry,
                       fetch: (string, string, Option<string>) -> Option<seq<byte>>, sink: Sink): (r: Effect)
    ensures IsTemp(e) ==> r == Effect([], [])
    ensures !IsTemp(e) ==> |r.outputs| + |r.errors| == 1
    ensures e.NonObject? || MissingFilename(e) ==> r.outputs == []
    ensures forall o :: o in r.outputs ==>
      !IsTemp(e) && e.Descriptor? && e.filename == Some(o.filename) && o.filename != ""
    ensures r.outputs != [] ==> fetch(r.outputs[0].filename, e.subfolder, e.tag).Some?
  {
    match e
    case NonObject(typeName, text) => Effect([], [NonObjectWarning(nodeId, typeName, text)])
    case Descriptor(filename, subfolder, tag, printed) =>
      if tag == Some("temp") then Effect([], [])
      else if filename.None? || filename.value == "" then Effect([], [MissingFilenameWarning(nodeId, printed)])
      else
        var name := filename.value;
        var kind := KindOf(name);
        var bytes := fetch(name, subfolder, tag);
        if bytes.None? || bytes.value == [] then Effect([], [FetchFailedError(kind, name)])
        else TransportEffect(name, kind, bytes.value, sink)
  }

  /** What a list of entries contributes, entry by entry in order. */
  function ListEffect(nodeId: string, es: seq<MediaEntry>,
                      fetch: (string, string, Option<string>) -> Option<seq<byte>>, sink: Sink): Effect
  {
    if es == [] then Effect([], [])
    else Combine(EntryEffect(nodeId, es[0], fetch, sink), ListEffect(nodeId, es[1..], fetch, sink))
  }

  function NodeEffect(nodeId: string, node: NodeOutput,
                      fetch: (string, string, Option<string>) -> Option<seq<byte>>, sink: Sink): Effect
  {
    ListEffect(nodeId, MediaList(node), fetch, sink)
  }

  /** What the whole record contributes, node by node in the record's order. */
  function OutputsEffect(nodes: seq<(string, NodeOutput)>,
                         fetch: (string, string, Option<string>) -> Option<seq<byte>>, sink: Sink): Effect
  {
    if nodes == [] then Effect([], [])
    else Combine(NodeEffect(nodes[0].0, nodes[0].1, fetch, sink), OutputsEffect(nodes[1..], fetch, sink))
  }

  function CountNonTemp(es: seq<MediaEntry>): nat {
    if es == [] then 0 else (if IsTemp(es[0]) then 0 else 1) + CountNonTemp(es[1..])
  }

  function DropTemp(es: seq<MediaEntry>): (r: seq<MediaEntry>)
    ensures forall e :: e in r ==> !IsTemp(e)
  {
    if es == [] then [] else (if IsTemp(es[0]) then [] else [es[0]]) + DropTemp(es[1..])
  }

  lemma AppendAssoc<T>(a: seq<T>, b: seq<T>, c: seq<T>)
    ensures (a + b) + c == a + (b + c)
  {
  }

  lemma CombineAssoc(x: Effect, y: Effect, z: Effect)
    ensures Combine(x, Combine(y, z)) == Combine(Combine(x, y), z)
  {
    assert x.outputs + (y.outputs + z.outputs) == (x.outputs + y.outputs) + z.outputs;
    assert x.errors + (y.errors + z.errors) == (x.errors + y.errors) + z.errors;
  }

  lemma CombineUnit(x: Effect)
    ensures Combine(Effect([], []), x) == x && Combine(x, Effect([], [])) == x
  {
    assert [] + x.outputs == x.outputs && x.outputs + [] == x.outputs;
    assert [] + x.errors == x.errors && x.errors + [] == x.errors;
  }

  /** Processing two lists one after the other is processing their concatenation. */
  lemma {:induction false} ListEffectAppend(nodeId: string, a: seq<MediaEntry>, b: seq<MediaEntry>,
                                            fetch: (string, string, Option<string>) -> Option<seq<byte>>, sink: Sink)
    ensures ListEffect(nodeId, a + b, fetch, sink) ==
      Combine(ListEffect(nodeId, a, fetch, sink), ListEffect(nodeId, b, fetch, sink))
  {
    var eb := ListEffect(nodeId, b, fetch, sink);
    if a == [] {
      assert a + b == b;
      CombineUnit(eb);
    } else {
      var x := EntryEffect(nodeId, a[0], fetch, sink);
      var ea := ListEffect(nodeId, a[1..], fetch, sink);
      assert (a + b)[0] == a[0] && (a + b)[1..] == a[1..] + b;
      assert ListEffect(nodeId, a + b, fetch, sink) == Combine(x, ListEffect(nodeId, a[1..] + b, fetch, sink));
      ListEffectAppend(nodeId, a[1..], b, fetch, sink);
      CombineAssoc(x, ea, eb);
    }
  }

  /** The loop step of `ProcessNode`: one more entry appends its own effect. */
  lemma ListEffectSnoc(nodeId: string, es: seq<MediaEntry>, e: MediaEntry,
                       fetch: (string, string, Option<string>) -> Option<seq<byte>>, sink: Sink)
    ensures ListEffect(nodeId, es + [e], fetch, sink) ==
      Combine(ListEffect(nodeId, es, fetch, sink), EntryEffect(nodeId, e, fetch, sink))
  {
    ListEffectAppend(nodeId, es, [e], fetch, sink);
    assert [e][0] == e && [e][1..] == [];
    CombineUnit(EntryEffect(nodeId, e, fetch, sink));
  }

  /** A node's outputs and errors are those of its images, then its gifs, then its animated entries. */
  lemma {:induction false} NodeEffectInKeyOrder(nodeId: string, node: NodeOutput,
                                                fetch: (string, string, Option<string>) -> Option<seq<byte>>, sink: Sink)
    ensures NodeEffect(nodeId, node, fetch, sink) ==
      Combine(Combine(ListEffect(nodeId, Field(node, "images"), fetch, sink),
                      ListEffect(nodeId, Field(node, "gifs"), fetch, sink)),
              ListEffect(nodeId, Field(node, "animated"), fetch, sink))
  {
    var images, gifs, animated := Field(node, "images"), Field(node, "gifs"), Field(node, "animated");
    ListEffectAppend(nodeId, images + gifs, animated, fetch, sink);
    ListEffectAppend(nodeId, images, gifs, fetch, sink);
  }

  /** Every non-temp entry yields exactly one output or one error; temp entries yield nothing. */
  lemma {:induction false} ListEffectAccountsForEveryEntry(nodeId: string, es: seq<MediaEntry>,
                                                           fetch: (string, string, Option<string>) -> Option<seq<byte>>, sink: Sink)
    ensures var r := ListEffect(nodeId, es, fetch, sink);
      |r.outputs| + |r.errors| == CountNonTemp(es)
  {
    if es != [] {
      ListEffectAccountsForEveryEntry(nodeId, es[1..], fetch, sink);
    }
  }

  /** Temp entries are skipped silently: removing them changes nothing. */
  lemma {:induction false} TempEntriesContributeNothing(nodeId: string, es: seq<MediaEntry>,
                                                        fetch: (string, string, Option<string>) -> Option<seq<byte>>, sink: Sink)
    ensures ListEffect(nodeId, es, fetch, sink) == ListEffect(nodeId, DropTemp(es), fetch, sink)
  {
    if es != [] {
      TempEntriesContributeNothing(nodeId, es[1..], fetch, sink);
      var rest := DropTemp(es[1..]);
      if IsTemp(es[0]) {
        var er := ListEffect(nodeId, rest, fetch, sink);
        assert DropTemp(es) == [] + rest;
        assert [] + rest == rest;
        assert [] + er.outputs == er.outputs && [] + er.errors == er.errors;
      } else {
        assert DropTemp(es) == [es[0]] + rest;
        assert ([es[0]] + rest)[0] == es[0] && ([es[0]] + rest)[1..] == rest;
      }
    }
  }

  /** No temp entry, and no entry without a filename, ever reaches `output_data`. */
  lemma {:induction false} OutputsComeFromNamedNonTempEntries(nodeId: string, es: seq<MediaEntry>,
                                                              fetch: (string, string, Option<string>) -> Option<seq<byte>>, sink: Sink)
    ensures forall o :: o in ListEffect(nodeId, es, fetch, sink).outputs ==>
      exists k :: 0 <= k < |es| && !IsTemp(es[k]) && es[k].Descriptor? && es[k].filename == Some(o.filename)
  {
    if es != [] {
      OutputsComeFromNamedNonTempEntries(nodeId, es[1..], fetch, sink);
      var e0 := EntryEffect(nodeId, es[0], fetch, sink);
      var er := ListEffect(nodeId, es[1..], fetch, sink);
      forall o | o in ListEffect(nodeId, es, fetch, sink).outputs
        ensures exists k :: 0 <= k < |es| && !IsTemp(es[k]) && es[k].Descriptor? && es[k].filename == Some(o.filename)
      {
        if o in e0.outputs {
          assert !IsTemp(es[0]) && es[0].Descriptor? && es[0].filename == Some(o.filename);
        } else {
          assert o in er.outputs;
          var k :| 0 <= k < |es[1..]| && !IsTemp(es[1..][k]) && es[1..][k].Descriptor? && es[1..][k].filename == Some(o.filename);
          assert es[k + 1] == es[1..][k];
        }
      }
    }
  }

  /** The record's outputs and errors account for every non-temp media entry of every node. */
  lemma {:induction false} OutputsEffectAccountsForEveryEntry(nodes: seq<(string, NodeOutput)>,
                                                              fetch: (string, string, Option<string>) -> Option<seq<byte>>, sink: Sink)
    ensures var r := OutputsEffect(nodes, fetch, sink);
      |r.outputs| + |r.errors| == 0 <==> forall n :: 0 <= n < |nodes| ==> CountNonTemp(MediaList(nodes[n].1)) == 0
  {
    if nodes != [] {
      OutputsEffectAccountsForEveryEntry(nodes[1..], fetch, sink);
      ListEffectAccountsForEveryEntry(nodes[0].0, MediaList(nodes[0].1), fetch, sink);
      if forall n :: 0 <= n < |nodes[1..]| ==> CountNonTemp(MediaList(nodes[1..][n].1)) == 0 {
        forall n | 1 <= n < |nodes| ensures CountNonTemp(MediaList(nodes[n].1)) == 0 {
          assert nodes[n] == nodes[1..][n - 1];
        }
      } else {
        var n :| 0 <= n < |nodes[1..]| && CountNonTemp(MediaList(nodes[1..][n].1)) != 0;
        assert nodes[n + 1] == nodes[1..][n];
      }
    }
  }

  /** A named, non-temp entry whose fetch yields nothing produces one "Failed to fetch" error and no output. */
  lemma FetchFailureYieldsOneError(nodeId: string, e: MediaEntry,
                                   fetch: (string, string, Option<string>) -> Option<seq<byte>>, sink: Sink)
    requires e.Descriptor? && !IsTemp(e) && !MissingFilename(e)
    requires var b := fetch(e.filename.value, e.subfolder, e.tag); b.None? || b.value == []
    ensures var r := EntryEffect(nodeId, e, fetch, sink);
      r.outputs == [] && |r.errors| == 1 && StartsWith(r.errors[0], "Failed to fetch ")
  {
    var name := e.filename.value;
    var msg := FetchFailedError(KindOf(name), name);
    assert msg[..|"Failed to fetch "|] == "Failed to fetch ";
  }

  /**
   * An inline video's data is a data URI: `data:`, its MIME type, `;base64,`, then the
   * payload; an inline image's data is the bare payload.
   */
  lemma {:induction false} InlineDataShape(filename: string, kind: MediaKind, payload: string)
    ensures kind.Video? ==>
      StartsWith(InlineData(filename, kind, payload), "data:video/") &&
      EndsWith(InlineData(filename, kind, payload), ";base64," + payload)
    ensures kind.Image? ==> InlineData(filename, kind, payload) == payload
  {
    if kind.Video? {
      var mime := MimeType(filename);
      MimeIsVideo(filename);
      var d := "data:" + mime + ";base64," + payload;
      assert d[..|"data:video/"|] == "data:" + mime[..6];
      assert d == "data:" + mime + (";base64," + payload);
      assert d[|d| - |";base64," + payload|..] == ";base64," + payload;
    }
  }

  lemma {:induction false} MimeIsVideo(filename: string)
    ensures StartsWith(MimeType(filename), "video/")
  {
    var m := MimeType(filename);
    assert m in ["video/mp4", "video/webm", "video/quicktime", "video/x-msvideo",
                 "video/x-matroska", "video/x-flv", "video/x-ms-wmv"];
  }

  /**
   * An entry whose write, upload or clean-up fails adds one "Error uploading" error, and
   * the entries after it are processed as if it had not been there.
   */
  lemma {:induction false} UploadFailureContinues(nodeId: string, es: seq<MediaEntry>,
                                                  fetch: (string, string, Option<string>) -> Option<seq<byte>>, sink: Sink)
    requires es != [] && sink.External?
    requires es[0].Descriptor? && !IsTemp(es[0]) && !MissingFilename(es[0])
    requires var b := fetch(es[0].filename.value, es[0].subfolder, es[0].tag); b.Some? && b.value != []
    requires var t := sink.transfer(es[0].filename.value);
      t.writeError.Some? || t.upload.UploadFailed? || t.removeError.Some?
    ensures var r := ListEffect(nodeId, es, fetch, sink);
      var rest := ListEffect(nodeId, es[1..], fetch, sink);
      r.outputs == rest.outputs && |r.errors| == |rest.errors| + 1 &&
      StartsWith(r.errors[0], "Error uploading ") && r.errors[1..] == rest.errors
  {
    var name := es[0].filename.value;
    var t := sink.transfer(name);
    var err := if t.writeError.Some? then t.writeError.value
               else if t.upload.UploadFailed? then t.upload.error
               else t.removeError.value;
    var msg := UploadError(name, err);
    assert EntryEffect(nodeId, es[0], fetch, sink) == Effect([], [msg]);
    assert msg[..|"Error uploading "|] == "Error uploading ";
    var rest := ListEffect(nodeId, es[1..], fetch, sink);
    assert [] + rest.outputs == rest.outputs;
    assert ([msg] + rest.errors)[1..] == rest.errors;
  }

  /**
   * Temp-file bookkeeping of one external transfer exactly as the source does it.  `live`
   * is the set of temporary files on disk and `bound` what `temp_file_path` holds from an
   * earlier entry, if anything.  The file exists from the moment
   * `NamedTemporaryFile(delete=False)` opens it, but `temp_file_path` is rebound only after
   * the write.  The failure path removes the file `temp_file_path` names, and only when it
   * still exists.  Returns the files left on disk and the new binding.
   */
  function TempFilesAfterAsWritten(live: set<string>, bound: Option<string>, t: Transfer): (set<string>, Option<string>) {
    var created := live + {t.tempPath};
    if t.writeError.Some? then
      // the `except` guard sees the earlier binding, if any
      (if bound.Some? && bound.value in created then created - {bound.value} else created, bound)
    else
      // removed after a good upload, or by the `except` guard after a failed one
      (created - {t.tempPath}, Some(t.tempPath))
  }

  /**
   * As written, when the earlier binding (if any) names a file already removed, the new
   * temporary file stays on disk exactly when the write raised; every other file is as
   * before, and `temp_file_path` is rebound exactly when the write succeeded.
   */
  lemma AsWrittenLeaksExactlyOnWriteFailure(live: set<string>, bound: Option<string>, t: Transfer)
    requires t.tempPath !in live
    requires bound.Some? ==> bound.value !in live && bound.value != t.tempPath
    ensures var (after, rebound) := TempFilesAfterAsWritten(live, bound, t);
      (t.tempPath in after <==> t.writeError.Some?) &&
      after - {t.tempPath} == live &&
      (rebound == bound <==> t.writeError.Some? || bound == Some(t.tempPath))
  {
    var created := live + {t.tempPath};
    if t.writeError.Some? && bound.Some? {
      assert bound.value !in created;
    }
    if t.writeError.None? {
      assert (created - {t.tempPath}) - {t.tempPath} == live;
    }
  }

  /**
   * A write that raises (a full disk, say) on the second file staged leaves that file
   * behind in the source, although the first file was cleaned up.
   */
  lemma WriteFailureLeaksTempFile()
    ensures var first := Transfer("/tmp/tmp0001.png", None, UploadedTo("s3://bucket/a.png"), None);
      var second := Transfer("/tmp/tmpab12cd.png", Some("[Errno 28] No space left on device"), UploadFailed(""), None);
      var (afterFirst, bound) := TempFilesAfterAsWritten({}, None, first);
      afterFirst == {} && TempFilesAfterAsWritten(afterFirst, bound, second).0 == {"/tmp/tmpab12cd.png"}
  {
    var first := Transfer("/tmp/tmp0001.png", None, UploadedTo("s3://bucket/a.png"), None);
    var second := Transfer("/tmp/tmpab12cd.png", Some("[Errno 28] No space left on device"), UploadFailed(""), None);
    AsWrittenLeaksExactlyOnWriteFailure({}, None, first);
    var (afterFirst, bound) := TempFilesAfterAsWritten({}, None, first);
    AsWrittenLeaksExactlyOnWriteFailure(afterFirst, bound, second);
  }

  /**
   * The collector's state: `output_data`, `errors` and the temporary files currently on
   * disk.  The fetch oracle and the sink are fixed for the job.
   */
  class Collector {
    var outputData: seq<OutputEntry>
    var errors: seq<string>
    ghost var liveTemps: set<string>
    const fetch: (string, string, Option<string>) -> Option<seq<byte>>
    const sink: Sink

    /** Every path the temp-file oracle hands out is new. */
    ghost predicate FreshTemps()
      reads this
    {
      sink.External? ==> forall name :: sink.transfer(name).tempPath !in liveTemps
    }

    constructor (initialErrors: seq<string>, fetch: (string, string, Option<string>) -> Option<seq<byte>>, sink: Sink)
      ensures outputData == [] && errors == initialErrors && liveTemps == {}
      ensures this.fetch == fetch && this.sink == sink
      ensures FreshTemps()
    {
      outputData := [];
      errors := initialErrors;
      liveTemps := {};
      this.fetch := fetch;
      this.sink := sink;
    }

    /**
     * External mode: write the bytes to a temporary file, upload it, and remove the file
     * whether the upload succeeds or fails.  A removal that raises after a good upload
     * turns the upload into an error.  Unlike the source, a write that raises also removes
     * the file (see `TempFilesAfterAsWritten`).
     */
    method StageAndUpload(filename: string, t: Transfer)
      requires t.tempPath !in liveTemps
      modifies this
      ensures liveTemps == old(liveTemps)
      ensures t.writeError.Some? ==>
        outputData == old(outputData) && errors == old(errors) + [UploadError(filename, t.writeError.value)]
      ensures t.writeError.None? && t.upload.UploadedTo? && t.removeError.None? ==>
        outputData == old(outputData) + [OutputEntry(filename, S3Url, t.upload.url)] && errors == old(errors)
      ensures t.writeError.None? && t.upload.UploadedTo? && t.removeError.Some? ==>
        outputData == old(outputData) && errors == old(errors) + [UploadError(filename, t.removeError.value)]
      ensures t.writeError.None? && t.upload.UploadFailed? ==>
        outputData == old(outputData) && errors == old(errors) + [UploadError(filename, t.upload.error)]
    {
      liveTemps := liveTemps + {t.tempPath};
      if t.writeError.Some? {
        errors := errors + [UploadError(filename, t.writeError.value)];
        liveTemps := liveTemps - {t.tempPath};
        return;
      }
      match t.upload {
        case UploadedTo(url) =>
          liveTemps := liveTemps - {t.tempPath};
          if t.removeError.Some? {
            errors := errors + [UploadError(filename, t.removeError.value)];
          } else {
            outputData := outputData + [OutputEntry(filename, S3Url, url)];
          }
        case UploadFailed(error) =>
          errors := errors + [UploadError(filename, error)];
          liveTemps := liveTemps - {t.tempPath};
      }
    }

    /** Inline mode: refuse oversized videos, otherwise encode and append. */
    method EncodeInline(filename: string, kind: MediaKind, bytes: seq<byte>, encode: seq<byte> -> string)
      modifies this
      ensures liveTemps == old(liveTemps)
      ensures ExceedsInlineCeiling(kind, |bytes|) ==>
        outputData == old(outputData) && errors == old(errors) + [TooLargeError(filename)]
      ensures !ExceedsInlineCeiling(kind, |bytes|) ==>
        errors == old(errors) &&
        outputData == old(outputData) + [OutputEntry(filename, Base64, InlineData(filename, kind, encode(bytes)))]
    {
      if kind.Video? && |bytes| > MaxInlineVideoBytes {
        errors := errors + [TooLargeError(filename)];
        return;
      }
      var data := encode(bytes);
      if kind.Video? {
        data := "data:" + MimeType(filename) + ";base64," + data;
      }
      outputData := outputData + [OutputEntry(filename, Base64, data)];
    }

    /** One media entry of node `nodeId`. */
    method ProcessEntry(nodeId: string, e: MediaEntry)
      requires FreshTemps()
      modifies this
      ensures liveTemps == old(liveTemps)
      ensures outputData == old(outputData) + EntryEffect(nodeId, e, fetch, sink).outputs
      ensures errors == old(errors) + EntryEffect(nodeId, e, fetch, sink).errors
    {
      match e {
        case NonObject(typeName, text) =>
          errors := errors + [NonObjectWarning(nodeId, typeName, text)];
        case Descriptor(filename, subfolder, tag, printed) =>
          if tag == Some("temp") {
            return;
          }
          if filename.None? || filename.value == "" {
            errors := errors + [MissingFilenameWarning(nodeId, printed)];
            return;
          }
          var name := filename.value;
          var kind := if IsVideoFile(name) then Video else Image;
          var bytes := fetch(name, subfolder, tag);
          if bytes.None? || |bytes.value| == 0 {
            errors := errors + [FetchFailedError(kind, name)];
            return;
          }
          match sink {
            case External(transfer) =>
              StageAndUpload(name, transfer(name));
            case Inline(encode) =>
              EncodeInline(name, kind, bytes.value, encode);
          }
      }
    }

    /**
     * One output node: process its media list in order.  The keys it does not handle are
     * returned (the source only logs them); they add nothing to `errors`.
     */
    method ProcessNode(nodeId: string, node: NodeOutput) returns (unhandled: set<string>)
      requires FreshTemps()
      modifies this
      ensures liveTemps == old(liveTemps)
      ensures outputData == old(outputData) + NodeEffect(nodeId, node, fetch, sink).outputs
      ensures errors == old(errors) + NodeEffect(nodeId, node, fetch, sink).errors
      ensures unhandled == UnhandledKeys(node)
    {
      var media := Field(node, "images") + Field(node, "gifs") + Field(node, "animated");
      var i := 0;
      while i < |media|
        invariant 0 <= i <= |media|
        invariant liveTemps == old(liveTemps)
        invariant outputData == old(outputData) + ListEffect(nodeId, media[..i], fetch, sink).outputs
        invariant errors == old(errors) + ListEffect(nodeId, media[..i], fetch, sink).errors
      {
        ghost var done := ListEffect(nodeId, media[..i], fetch, sink);
        ghost var step := EntryEffect(nodeId, media[i], fetch, sink);
        ProcessEntry(nodeId, media[i]);
        assert media[..i + 1] == media[..i] + [media[i]];
        ListEffectSnoc(nodeId, media[..i], media[i], fetch, sink);
        AppendAssoc(old(outputData), done.outputs, step.outputs);
        AppendAssoc(old(errors), done.errors, step.errors);
        i := i + 1;
      }
      assert media[..i] == media;
      unhandled := node.fields.Keys - MediaKeys;
    }

    /** Every output node of the record, in order. */
    method CollectOutputs(nodes: seq<(string, NodeOutput)>)
      requires FreshTemps()
      modifies this
      ensures liveTemps == old(liveTemps)
      ensures outputData == old(outputData) + OutputsEffect(nodes, fetch, sink).outputs
      ensures errors == old(errors) + OutputsEffect(nodes, fetch, sink).errors
    {
      var i := 0;
      while i < |nodes|
        invariant 0 <= i <= |nodes|
        invariant liveTemps == old(liveTemps)
        invariant outputData == old(outputData) + OutputsEffect(nodes[..i], fetch, sink).outputs
        invariant errors == old(errors) + OutputsEffect(nodes[..i], fetch, sink).errors
      {
        ghost var done := OutputsEffect(nodes[..i], fetch, sink);
        ghost var step := NodeEffect(nodes[i].0, nodes[i].1, fetch, sink);
        var _ := ProcessNode(nodes[i].0, nodes[i].1);
        assert nodes[..i + 1] == nodes[..i] + [nodes[i]];
        OutputsEffectSnoc(nodes[..i], nodes[i], fetch, sink);
        AppendAssoc(old(outputData), done.outputs, step.outputs);
        AppendAssoc(old(errors), done.errors, step.errors);
        i := i + 1;
      }
      assert nodes[..i] == nodes;
    }
  }

  /** The loop step of `CollectOutputs`: one more node appends its own effect. */
  lemma {:induction false} OutputsEffectSnoc(nodes: seq<(string, NodeOutput)>, n: (string, NodeOutput),
                                             fetch: (string, string, Option<string>) -> Option<seq<byte>>, sink: Sink)
    ensures OutputsEffect(nodes + [n], fetch, sink) ==
      Combine(OutputsEffect(nodes, fetch, sink), NodeEffect(n.0, n.1, fetch, sink))
  {
    var en := NodeEffect(n.0, n.1, fetch, sink);
    if nodes == [] {
      assert nodes + [n] == [n];
      assert [n][1..] == [];
      CombineUnit(en);
    } else {
      var x := NodeEffect(nodes[0].0, nodes[0].1, fetch, sink);
      var rest := OutputsEffect(nodes[1..], fetch, sink);
      assert (nodes + [n])[0] == nodes[0] && (nodes + [n])[1..] == nodes[1..] + [n];
      assert OutputsEffect(nodes + [n], fetch, sink) == Combine(x, OutputsEffect(nodes[1..] + [n], fetch, sink));
      OutputsEffectSnoc(nodes[1..], n, fetch, sink);
      CombineAssoc(x, rest, en);
    }
  }
}
