/**
 * `upload_images`: push each input image to the backend, collecting a success line or an
 * error line per image; one failure does not stop the others.  Base64 decoding and the
 * HTTP POST are oracles.
 */
module Uploads {
  import opened Strings
  import opened JsonValues

  /** One element of `images`: its name (as printed) and its `image` value. */
  datatype UploadItem = UploadItem(name: string, image: Json)

  /** How `base64.b64decode` ended: bytes, a `binascii.Error`, or another exception (non-ASCII text, say). */
  datatype DecodeOutcome = Decoded(bytes: seq<byte>) | DecodeError(detail: string) | DecodeRaised(detail: string)

  /** How the POST to `/upload/image` ended. */
  datatype PostOutcome =
    | Posted
    | PostTimeout
    | PostFailed(detail: string)     // another `requests` exception, an HTTP error status included
    | PostCrashed(detail: string)    // any other exception

  datatype ItemOutcome = Uploaded(line: string) | Failed(error: string)

  /** The function's result dictionary. */
  datatype UploadSummary = UploadSummary(status: string, message: string, details: seq<string>)

  /** Index of the first `c` in `s`. */
  function FirstIndex(s: string, c: char): (i: nat)
    requires c in s
    ensures i < |s| && s[i] == c && c !in s[..i]
  {
    if s[0] == c then 0
    else
      var j := FirstIndex(s[1..], c);
      assert s[1..][..j] == s[1..j + 1];
      j + 1
  }

  /** Drop a data-URI header: everything up to and including the first comma. */
  function StripDataUri(s: string): string {
    if ',' in s then s[FirstIndex(s, ',') + 1..] else s
  }

  /** A header without a comma, then a comma, then the payload, strips to the payload, commas in it or not. */
  lemma StripDataUriRemovesHeader(header: string, payload: string)
    requires ',' !in header
    ensures StripDataUri(header + "," + payload) == payload
  {
    var s := header + "," + payload;
    assert s[|header|] == ',';
    assert s[..|header|] == header;
    assert s[|header| + 1..] == payload;
  }

  /** A string without a comma is taken to be bare base64 and left as it is. */
  lemma StripDataUriKeepsBarePayload(s: string)
    requires ',' !in s
    ensures StripDataUri(s) == s
  {
  }

  /** What happens to one image; `describe` renders the exception a non-string `image` value causes. */
  function Outcome(item: UploadItem, decode: string -> DecodeOutcome,
                   post: (string, seq<byte>) -> PostOutcome, describe: Json -> string): ItemOutcome
  {
    var name := item.name;
    if !item.image.JStr? then Failed("Unexpected error uploading " + name + ": " + describe(item.image))
    else match decode(StripDataUri(item.image.s))
      case DecodeError(detail) => Failed("Error decoding base64 for " + name + ": " + detail)
      case DecodeRaised(detail) => Failed("Unexpected error uploading " + name + ": " + detail)
      case Decoded(bytes) =>
        match post(name, bytes)
        case Posted => Uploaded("Successfully uploaded " + name)
        case PostTimeout => Failed("Timeout uploading " + name)
        case PostFailed(detail) => Failed("Error uploading " + name + ": " + detail)
        case PostCrashed(detail) => Failed("Unexpected error uploading " + name + ": " + detail)
  }

  /** The outcome of every image, in order. */
  function Outcomes(items: seq<UploadItem>, decode: string -> DecodeOutcome,
                    post: (string, seq<byte>) -> PostOutcome, describe: Json -> string): (os: seq<ItemOutcome>)
    ensures |os| == |items|
    ensures forall i :: 0 <= i < |items| ==> os[i] == Outcome(items[i], decode, post, describe)
  {
    seq(|items|, i requires 0 <= i < |items| => Outcome(items[i], decode, post, describe))
  }

  /** The `responses` list: the success lines, in order. */
  function Responses(os: seq<ItemOutcome>): seq<string> {
    if os == [] then []
    else Responses(os[..|os| - 1]) + (if os[|os| - 1].Uploaded? then [os[|os| - 1].line] else [])
  }

  /** The `upload_errors` list: the error lines, in order. */
  function UploadErrors(os: seq<ItemOutcome>): seq<string> {
    if os == [] then []
    else UploadErrors(os[..|os| - 1]) + (if os[|os| - 1].Failed? then [os[|os| - 1].error] else [])
  }

  function Summary(items: seq<UploadItem>, decode: string -> DecodeOutcome,
                   post: (string, seq<byte>) -> PostOutcome, describe: Json -> string): UploadSummary
  {
    if items == [] then UploadSummary("success", "No images to upload", [])
    else
      var os := Outcomes(items, decode, post, describe);
      if UploadErrors(os) != [] then UploadSummary("error", "Some images failed to upload", UploadErrors(os))
      else UploadSummary("success", "All images uploaded successfully", Responses(os))
  }

  lemma OutcomesSnoc(items: seq<UploadItem>, i: nat, decode: string -> DecodeOutcome,
                     post: (string, seq<byte>) -> PostOutcome, describe: Json -> string)
    requires i < |items|
    ensures Outcomes(items[..i + 1], decode, post, describe) ==
      Outcomes(items[..i], decode, post, describe) + [Outcome(items[i], decode, post, describe)]
  {
    var os := Outcomes(items[..i + 1], decode, post, describe);
    assert os[..i] == Outcomes(items[..i], decode, post, describe);
  }

  /** The loop over the images, accumulating `responses` and `upload_errors`. */
  method UploadImages(items: seq<UploadItem>, decode: string -> DecodeOutcome,
                      post: (string, seq<byte>) -> PostOutcome, describe: Json -> string)
    returns (summary: UploadSummary)
    ensures summary == Summary(items, decode, post, describe)
  {
    if items == [] {
      return UploadSummary("success", "No images to upload", []);
    }
    var responses: seq<string> := [];
    var errors: seq<string> := [];
    var i := 0;
    while i < |items|
      invariant 0 <= i <= |items|
      invariant responses == Responses(Outcomes(items[..i], decode, post, describe))
      invariant errors == UploadErrors(Outcomes(items[..i], decode, post, describe))
    {
      var item := items[i];
      var name := item.name;
      OutcomesSnoc(items, i, decode, post, describe);
      ghost var os := Outcomes(items[..i + 1], decode, post, describe);
      assert os[..|os| - 1] == Outcomes(items[..i], decode, post, describe);
      if !item.image.JStr? {
        errors := errors + ["Unexpected error uploading " + name + ": " + describe(item.image)];
      } else {
        var data := StripDataUri(item.image.s);
        match decode(data) {
          case DecodeError(detail) =>
            errors := errors + ["Error decoding base64 for " + name + ": " + detail];
          case DecodeRaised(detail) =>
            errors := errors + ["Unexpected error uploading " + name + ": " + detail];
          case Decoded(bytes) =>
            match post(name, bytes) {
              case Posted => responses := responses + ["Successfully uploaded " + name];
              case PostTimeout => errors := errors + ["Timeout uploading " + name];
              case PostFailed(detail) => errors := errors + ["Error uploading " + name + ": " + detail];
              case PostCrashed(detail) => errors := errors + ["Unexpected error uploading " + name + ": " + detail];
            }
        }
      }
      i := i + 1;
    }
    assert items[..i] == items;
    if errors != [] {
      summary := UploadSummary("error", "Some images failed to upload", errors);
    } else {
      summary := UploadSummary("success", "All images uploaded successfully", responses);
    }
  }

  /** Every image yields exactly one line: a success line or an error line. */
  lemma {:induction false} EveryImageAccountedFor(os: seq<ItemOutcome>)
    ensures |Responses(os)| + |UploadErrors(os)| == |os|
  {
    if os != [] {
      EveryImageAccountedFor(os[..|os| - 1]);
    }
  }

  /** No error is recorded exactly when every image uploaded. */
  lemma {:induction false} NoErrorsIffAllUploaded(os: seq<ItemOutcome>)
    ensures UploadErrors(os) == [] <==> forall i :: 0 <= i < |os| ==> os[i].Uploaded?
  {
    if os != [] {
      var init := os[..|os| - 1];
      NoErrorsIffAllUploaded(init);
      if !os[|os| - 1].Uploaded? {
        assert UploadErrors(os) != [];
      } else if UploadErrors(os) == [] {
        assert forall i :: 0 <= i < |init| ==> os[i] == init[i];
      } else {
        var i :| 0 <= i < |init| && !init[i].Uploaded?;
        assert os[i] == init[i];
      }
    }
  }

  /**
   * The summary is a success exactly when every image uploaded (or there were none); a
   * failed summary lists at least one error and at most one per image, and a successful
   * one lists one line per image.
   */
  lemma {:induction false} SummaryCharacterised(items: seq<UploadItem>, decode: string -> DecodeOutcome,
                                                post: (string, seq<byte>) -> PostOutcome, describe: Json -> string)
    ensures var s := Summary(items, decode, post, describe);
      (s.status == "success" <==> forall i :: 0 <= i < |items| ==> Outcome(items[i], decode, post, describe).Uploaded?) &&
      (s.status == "success" ==> |s.details| == |items|) &&
      (s.status == "error" ==> 0 < |s.details| <= |items|)
  {
    var os := Outcomes(items, decode, post, describe);
    NoErrorsIffAllUploaded(os);
    EveryImageAccountedFor(os);
  }
}
