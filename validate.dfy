/**
 * `validate_input`: the shape checks on a job's input.  JSON decoding of a string input
 * is an oracle.  An input the checks cannot even inspect (a decoded value that is not an
 * object, an `images` element `in` cannot be applied to) makes the function raise.
 */
module Validation {
  import opened Wrappers
  import opened Strings
  import opened JsonValues

  /** What the handler goes on with: the workflow, the `images` value and the per-request key. */
  datatype ValidatedInput = ValidatedInput(workflow: Json, images: Json, apiKey: Json)

  datatype Validation =
    | Valid(input: ValidatedInput)
    | Rejected(message: string)
    | Raised          // an exception escapes `validate_input`

  const NoInputMessage: string := "Please provide input"
  const InvalidJsonMessage: string := "Invalid JSON format in input"
  const MissingWorkflowMessage: string := "Missing 'workflow' parameter"
  const ImagesMessage: string := "'images' must be a list of objects with 'name' and 'image' keys"

  /**
   * `all("name" in image and "image" in image for image in images)` as written:
   * short-circuiting, with Python's `in` on whatever each element is.
   */
  function ImageKeysAsWritten(items: seq<Json>): (r: Option<bool>)
    ensures r == Some(true) ==> forall i :: 0 <= i < |items| ==> MemberTest("name", items[i]) == Some(true)
  {
    if items == [] then Some(true)
    else match MemberTest("name", items[0])
      case None => None
      case Some(hasName) =>
        if !hasName then Some(false)
        else match MemberTest("image", items[0])
          case None => None
          case Some(hasImage) => if !hasImage then Some(false) else ImageKeysAsWritten(items[1..])
  }

  /** The intended check: every element is an object with `name` and `image` keys. */
  predicate ImageObjects(items: seq<Json>) {
    forall i :: 0 <= i < |items| ==> items[i].JObj? && "name" in items[i].fields && "image" in items[i].fields
  }

  /** The checks after decoding, given the verdict of the `images` element test. */
  function ValidateObject(fields: map<string, Json>, imagesVerdict: Option<bool>): Validation {
    var workflow := Get(fields, "workflow");
    var images := Get(fields, "images");
    if workflow.JNull? then Rejected(MissingWorkflowMessage)
    else if !images.JNull? && !images.JArr? then Rejected(ImagesMessage)
    else if images.JArr? && imagesVerdict.None? then Raised
    else if images.JArr? && imagesVerdict == Some(false) then Rejected(ImagesMessage)
    else Valid(ValidatedInput(workflow, images, Get(fields, "comfy_org_api_key")))
  }

  /** `validate_input` as written. */
  function ValidateInputAsWritten(jobInput: Json, decode: string -> Option<Json>): Validation {
    match Decoded(jobInput, decode)
    case Left(early) => early
    case Right(v) =>
      if !v.JObj? then Raised
      else
        var images := Get(v.fields, "images");
        ValidateObject(v.fields, if images.JArr? then ImageKeysAsWritten(images.items) else Some(true))
  }

  datatype Either<L, R> = Left(left: L) | Right(right: R)

  /** The null check and the decoding of a string input. */
  function Decoded(jobInput: Json, decode: string -> Option<Json>): Either<Validation, Json> {
    if jobInput.JNull? then Left(Rejected(NoInputMessage))
    else if jobInput.JStr? then
      match decode(jobInput.s)
      case None => Left(Rejected(InvalidJsonMessage))
      case Some(v) => Right(v)
    else Right(jobInput)
  }

  /**
   * `validate_input` with the `images` test it evidently intends: only objects with both
   * keys pass.  A decoded value that is not an object still raises.
   */
  function ValidateInput(jobInput: Json, decode: string -> Option<Json>): (r: Validation)
    ensures jobInput.JNull? <==> r == Rejected(NoInputMessage)
    ensures r.Valid? ==> !r.input.workflow.JNull?
    ensures r.Valid? ==> r.input.images.JNull? || (r.input.images.JArr? && ImageObjects(r.input.images.items))
  {
    match Decoded(jobInput, decode)
    case Left(early) => early
    case Right(v) =>
      if !v.JObj? then Raised
      else
        var images := Get(v.fields, "images");
        ValidateObject(v.fields, if images.JArr? then Some(ImageObjects(images.items)) else Some(true))
  }

  /** Every `images` element of the decoded input is an object (vacuous when there is no list). */
  predicate ImageElementsAreObjects(jobInput: Json, decode: string -> Option<Json>) {
    match Decoded(jobInput, decode)
    case Left(_) => true
    case Right(v) =>
      v.JObj? && Get(v.fields, "images").JArr? ==>
        forall i :: 0 <= i < |Get(v.fields, "images").items| ==> Get(v.fields, "images").items[i].JObj?
  }

  /**
   * The corrected check departs from the written one only on `images` elements that are
   * not objects: on every other input the two give the same verdict and the same values.
   */
  lemma {:induction false} CorrectedAgreesOnObjectElements(jobInput: Json, decode: string -> Option<Json>)
    requires ImageElementsAreObjects(jobInput, decode)
    ensures ValidateInputAsWritten(jobInput, decode) == ValidateInput(jobInput, decode)
  {
    var d := Decoded(jobInput, decode);
    if d.Right? && d.right.JObj? && Get(d.right.fields, "images").JArr? {
      ImageKeysOnObjects(Get(d.right.fields, "images").items);
    }
  }

  /** The object a job input stands for, once decoded. */
  predicate DecodesTo(jobInput: Json, decode: string -> Option<Json>, obj: map<string, Json>) {
    (jobInput.JObj? && jobInput.fields == obj) ||
    (jobInput.JStr? && decode(jobInput.s) == Some(JObj(obj)))
  }

  /**
   * An input is accepted exactly when it is, or decodes to, an object whose `workflow` is
   * present and not null and whose `images`, when present and not null, is a list of
   * objects each with `name` and `image`; the accepted input carries those three values.
   */
  lemma ValidInputCharacterised(jobInput: Json, decode: string -> Option<Json>)
    ensures ValidateInput(jobInput, decode).Valid? <==>
      exists obj :: DecodesTo(jobInput, decode, obj) && !Get(obj, "workflow").JNull? &&
        (Get(obj, "images").JNull? || (Get(obj, "images").JArr? && ImageObjects(Get(obj, "images").items)))
    ensures forall obj :: DecodesTo(jobInput, decode, obj) && ValidateInput(jobInput, decode).Valid? ==>
      ValidateInput(jobInput, decode).input ==
        ValidatedInput(Get(obj, "workflow"), Get(obj, "images"), Get(obj, "comfy_org_api_key"))
  {
    if ValidateInput(jobInput, decode).Valid? {
      var v := Decoded(jobInput, decode).right;
      assert DecodesTo(jobInput, decode, v.fields);
    }
  }

  /** The input raises exactly when it is, or decodes to, something other than an object. */
  lemma RaisesOnlyOnNonObjects(jobInput: Json, decode: string -> Option<Json>)
    ensures ValidateInput(jobInput, decode) == Raised <==>
      (jobInput.JStr? && decode(jobInput.s).Some? && !decode(jobInput.s).value.JObj?) ||
      (!jobInput.JNull? && !jobInput.JStr? && !jobInput.JObj?)
  {
  }

  /** The two versions agree whenever every `images` element is an object. */
  lemma {:induction false} ImageKeysOnObjects(items: seq<Json>)
    requires forall i :: 0 <= i < |items| ==> items[i].JObj?
    ensures ImageKeysAsWritten(items) == Some(ImageObjects(items))
  {
    if items != [] {
      ImageKeysOnObjects(items[1..]);
      assert ImageObjects(items) <==>
        "name" in items[0].fields && "image" in items[0].fields && ImageObjects(items[1..]) by {
        if ImageObjects(items[1..]) && "name" in items[0].fields && "image" in items[0].fields {
          forall i | 0 <= i < |items|
            ensures items[i].JObj? && "name" in items[i].fields && "image" in items[i].fields
          {
            if i > 0 {
              assert items[i] == items[1..][i - 1];
            }
          }
        }
        if ImageObjects(items) {
          forall i | 0 <= i < |items[1..]|
            ensures items[1..][i].JObj? && "name" in items[1..][i].fields && "image" in items[1..][i].fields
          {
            assert items[1..][i] == items[i + 1];
          }
        }
      }
    }
  }

  /**
   * As written, a string element passes when it contains both words: `in` on a string is
   * a substring test.  The handler then calls `.get` on that string and crashes.  The
   * intended check rejects it.  A number element makes the written check raise.
   */
  lemma StringImageElementAccepted(decode: string -> Option<Json>)
    ensures var job := JObj(map["workflow" := JObj(map[]), "images" := JArr([JStr("name image")])]);
      ValidateInputAsWritten(job, decode).Valid? && ValidateInput(job, decode) == Rejected(ImagesMessage)
    ensures var job := JObj(map["workflow" := JObj(map[]), "images" := JArr([JNum(5)])]);
      ValidateInputAsWritten(job, decode) == Raised && ValidateInput(job, decode) == Rejected(ImagesMessage)
  {
    var item := "name image";
    assert item[0..4] == "name";
    assert OccursAt(item, "name", 0);
    assert item[5..10] == "image";
    assert OccursAt(item, "image", 5);
    assert ImageKeysAsWritten([JStr(item)][1..]) == Some(true);
  }
}
