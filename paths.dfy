/**
 * `normalize_workflow_paths`: rewrites Windows-style separators to `/` in the string
 * inputs of a workflow's nodes that look like paths, in place.
 */
module PathNormalization {
  import opened Strings
  import opened JsonValues

  /** Input names that mark a path, matched as substrings of the lower-cased key. */
  const PathFields: seq<string> := [
    "ckpt_name", "image", "filename", "path", "file_path", "image_path",
    "clip_name", "lora_name", "model_name", "vae_name", "controlnet_name",
    "upscale_model", "embeddings", "hypernetwork_name"]

  /** Suffixes that make a value look like a file path. */
  const FileExtensions: seq<string> := [
    ".safetensors", ".ckpt", ".pt", ".pth", ".onnx", ".bin",
    ".png", ".jpg", ".jpeg", ".webp", ".gif", ".mp4", ".webm"]

  const Backslash: char := '\\'

  predicate HasBackslash(s: string) {
    Backslash in s
  }

  /** The key is one of the path fields, or its lower-cased form contains one. */
  predicate IsPathField(key: string) {
    key in PathFields || exists k | 0 <= k < |PathFields| :: Contains(Lower(key), PathFields[k])
  }

  /** `is_likely_path`: a backslash, and a lower-cased value ending with a file extension. */
  predicate IsLikelyPath(value: string) {
    HasBackslash(value) && exists k | 0 <= k < |FileExtensions| :: EndsWith(Lower(value), FileExtensions[k])
  }

  predicate ShouldNormalize(key: string, value: string) {
    HasBackslash(value) && (IsPathField(key) || IsLikelyPath(value))
  }

  function Slashed(value: string): (r: string)
    ensures !HasBackslash(r)
  {
    ReplaceChar(value, Backslash, '/')
  }

  /** One input value after normalization. */
  function NormalizeValue(key: string, v: Json): Json {
    if v.JStr? && ShouldNormalize(key, v.s) then JStr(Slashed(v.s)) else v
  }

  function NormalizeInputs(inputs: map<string, Json>): (r: map<string, Json>)
    ensures r.Keys == inputs.Keys
  {
    map key | key in inputs :: NormalizeValue(key, inputs[key])
  }

  /** A node: only an object whose `inputs` is an object changes, and only in `inputs`. */
  function NormalizeNode(node: Json): Json {
    if node.JObj? && "inputs" in node.fields && node.fields["inputs"].JObj? then
      JObj(node.fields["inputs" := JObj(NormalizeInputs(node.fields["inputs"].fields))])
    else node
  }

  /** The whole workflow; a workflow that is not an object is returned as it is. */
  function NormalizedWorkflow(w: Json): Json {
    if w.JObj? then JObj(map id | id in w.fields :: NormalizeNode(w.fields[id])) else w
  }

  /** The workflow dictionary the handler holds and normalizes in place. */
  class WorkflowDoc {
    var root: Json

    constructor (w: Json)
      ensures root == w
    {
      root := w;
    }

    /** Normalize every node, one node and one input at a time. */
    method NormalizePaths()
      modifies this
      ensures root == NormalizedWorkflow(old(root))
    {
      if !root.JObj? {
        return;
      }
      var original := root.fields;
      var pending := original.Keys;
      while pending != {}
        invariant pending <= original.Keys
        invariant root.JObj? && root.fields.Keys == original.Keys
        invariant forall id :: id in original && id !in pending ==> root.fields[id] == NormalizeNode(original[id])
        invariant forall id :: id in pending ==> root.fields[id] == original[id]
        decreases pending
      {
        var id :| id in pending;
        var node := original[id];
        if node.JObj? && "inputs" in node.fields && node.fields["inputs"].JObj? {
          var inputs := NormalizeInputsInPlace(node.fields["inputs"].fields);
          root := JObj(root.fields[id := JObj(node.fields["inputs" := JObj(inputs)])]);
        }
        pending := pending - {id};
      }
      assert root.fields == map id | id in original :: NormalizeNode(original[id]);
    }

    /** The loop over one node's inputs, rewriting the values that look like paths. */
    static method NormalizeInputsInPlace(inputs: map<string, Json>) returns (result: map<string, Json>)
      ensures result == NormalizeInputs(inputs)
    {
      result := inputs;
      var pending := inputs.Keys;
      while pending != {}
        invariant pending <= inputs.Keys && result.Keys == inputs.Keys
        invariant forall key :: key in inputs && key !in pending ==> result[key] == NormalizeValue(key, inputs[key])
        invariant forall key :: key in pending ==> result[key] == inputs[key]
        decreases pending
      {
        var key :| key in pending;
        var value := inputs[key];
        if value.JStr? && HasBackslash(value.s) {
          if IsPathField(key) || IsLikelyPath(value.s) {
            result := result[key := JStr(Slashed(value.s))];
          }
        }
        pending := pending - {key};
      }
    }
  }

  /** A value changes exactly when it is a string with a backslash under a path-like key or with a path-like ending. */
  lemma ValueChangesIff(key: string, v: Json)
    ensures NormalizeValue(key, v) != v <==> v.JStr? && ShouldNormalize(key, v.s)
  {
    if v.JStr? && ShouldNormalize(key, v.s) {
      var i :| 0 <= i < |v.s| && v.s[i] == Backslash;
      assert Slashed(v.s)[i] == '/';
    }
  }

  /** A changed value is the original with every backslash replaced by `/`, and has no backslash left. */
  lemma ChangedValueIsSlashed(key: string, v: Json)
    requires NormalizeValue(key, v) != v
    ensures var r := NormalizeValue(key, v);
      r.JStr? && v.JStr? && |r.s| == |v.s| && !HasBackslash(r.s) &&
      forall i :: 0 <= i < |v.s| ==> r.s[i] == (if v.s[i] == Backslash then '/' else v.s[i])
  {
  }

  lemma {:induction false} NormalizeValueIdempotent(key: string, v: Json)
    ensures NormalizeValue(key, NormalizeValue(key, v)) == NormalizeValue(key, v)
  {
    var once := NormalizeValue(key, v);
    if once != v {
      ChangedValueIsSlashed(key, v);
      assert !ShouldNormalize(key, once.s);
    }
  }

  lemma {:induction false} NormalizeNodeIdempotent(node: Json)
    ensures NormalizeNode(NormalizeNode(node)) == NormalizeNode(node)
  {
    if node.JObj? && "inputs" in node.fields && node.fields["inputs"].JObj? {
      var inputs := node.fields["inputs"].fields;
      var once := NormalizeInputs(inputs);
      forall key | key in once
        ensures NormalizeValue(key, once[key]) == once[key]
      {
        NormalizeValueIdempotent(key, inputs[key]);
      }
      assert NormalizeInputs(once) == once;
    }
  }

  /** Normalizing twice is normalizing once. */
  lemma {:induction false} NormalizationIdempotent(w: Json)
    ensures NormalizedWorkflow(NormalizedWorkflow(w)) == NormalizedWorkflow(w)
  {
    if w.JObj? {
      var once := NormalizedWorkflow(w).fields;
      forall id | id in once
        ensures NormalizeNode(once[id]) == once[id]
      {
        NormalizeNodeIdempotent(w.fields[id]);
      }
      assert (map id | id in once :: NormalizeNode(once[id])) == once;
    }
  }

  /**
   * Node ids are kept; nodes that are not objects, or have no object `inputs`, are
   * unchanged; other fields of a node are unchanged; input keys are kept; and an input
   * value changes only as `NormalizeValue` says.
   */
  lemma NormalizationTouchesOnlyInputValues(w: Json)
    requires w.JObj?
    ensures var r := NormalizedWorkflow(w);
      r.JObj? && r.fields.Keys == w.fields.Keys &&
      forall id :: id in w.fields ==>
        var node, out := w.fields[id], r.fields[id];
        (if node.JObj? && "inputs" in node.fields && node.fields["inputs"].JObj? then
           out.JObj? && out.fields.Keys == node.fields.Keys &&
           (forall f :: f in node.fields && f != "inputs" ==> out.fields[f] == node.fields[f]) &&
           out.fields["inputs"].JObj? &&
           out.fields["inputs"].fields.Keys == node.fields["inputs"].fields.Keys &&
           (forall key :: key in node.fields["inputs"].fields ==>
              out.fields["inputs"].fields[key] == NormalizeValue(key, node.fields["inputs"].fields[key]))
         else out == node)
  {
  }

  /** A Windows checkpoint path under `ckpt_name` is rewritten. */
  lemma CheckpointPathRewritten()
    ensures NormalizeValue("ckpt_name", JStr("models\\sd.safetensors")) == JStr("models/sd.safetensors")
  {
    var key := "ckpt_name";
    assert Lower(key) == key;
    assert OccursAt(Lower(key), PathFields[0], 0);
    assert "models\\sd.safetensors"[6] == Backslash;
    assert Slashed("models\\sd.safetensors") == "models/sd.safetensors";
  }

  /** A backslash in a prompt text that does not end like a file is left alone. */
  lemma PromptTextKept()
    ensures NormalizeValue("text", JStr("a\\b")) == JStr("a\\b")
  {
    TextIsNoPathField();
    var low := Lower("a\\b");
    assert low == "a\\b";
    forall k | 0 <= k < |FileExtensions|
      ensures !EndsWith(low, FileExtensions[k])
    {
      assert |FileExtensions[k]| > 3 || FileExtensions[k] == ".pt";
    }
  }

  lemma TextIsNoPathField()
    ensures !IsPathField("text")
  {
    var text := Lower("text");
    assert text == "text";
    forall k | 0 <= k < |PathFields|
      ensures !Contains(text, PathFields[k])
    {
      if PathFields[k] == "path" {
        assert text[0..4][0] == 't';
        assert !OccursAt(text, "path", 0);
      } else {
        assert |PathFields[k]| > 4;
      }
    }
  }
}
