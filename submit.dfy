/**
 * `queue_workflow`: the payload sent to `/prompt` (with the credential for the backend's
 * API nodes), and the message raised when the backend answers 400.  The list of available
 * checkpoints, fetched from `/object_info` only when a message needs it, is an input.
 */
module Submission {
  import opened Wrappers
  import opened Strings
  import opened JsonValues

  /** The `/prompt` request body; `extraData` is `{"api_key_comfy_org": key}` when present. */
  datatype Payload = Payload(prompt: Json, clientId: string, extraData: Option<Json>)

  /** The per-request key when truthy, otherwise the environment's key, if set. */
  function EffectiveKey(requestKey: Json, envKey: Option<string>): Json {
    if Truthy(requestKey) then requestKey else if envKey.Some? then JStr(envKey.value) else JNull
  }

  function BuildPayload(workflow: Json, clientId: string, requestKey: Json, envKey: Option<string>): (p: Payload)
    ensures p.prompt == workflow && p.clientId == clientId
    ensures p.extraData.Some? ==> Truthy(p.extraData.value)
  {
    var key := EffectiveKey(requestKey, envKey);
    Payload(workflow, clientId, if Truthy(key) then Some(key) else None)
  }

  /**
   * Credential precedence: a truthy per-request key is sent; otherwise a non-empty
   * environment key is sent; otherwise the payload has no `extra_data`.
   */
  lemma CredentialPrecedence(workflow: Json, clientId: string, requestKey: Json, envKey: Option<string>)
    ensures var p := BuildPayload(workflow, clientId, requestKey, envKey);
      (Truthy(requestKey) ==> p.extraData == Some(requestKey)) &&
      (!Truthy(requestKey) && envKey.Some? && envKey.value != "" ==> p.extraData == Some(JStr(envKey.value))) &&
      (p.extraData.None? <==> !Truthy(requestKey) && (envKey.None? || envKey.value == ""))
  {
  }

  /**
   * The `error` member of a 400 body: absent, an object (its `message` as printed, and its
   * `type` when that is a string), or any other value as printed.
   */
  datatype ErrorField =
    | NoErrorField
    | ErrorDict(message: Option<string>, errorType: Option<string>)
    | ErrorValue(text: string)

  /** One node's entry in `node_errors`: an object's (key, value) pairs in order, or another value as printed. */
  datatype NodeError = NodeErrorDict(entries: seq<(string, string)>) | NodeErrorValue(text: string)

  /** A parsed 400 body: `error`, `node_errors` in order, and the top-level `type` and `message`. */
  datatype RejectionBody = RejectionBody(error: ErrorField, nodeErrors: seq<(string, NodeError)>,
                                         bodyType: Option<string>, bodyMessage: Option<string>)

  const ValidationFailed: string := "Workflow validation failed"
  const OutputsFailedValidation: string := "prompt_outputs_failed_validation"
  const ModelHint: string := "\n\nThis usually means a required model or parameter is not available."
  const NoCheckpoints: string := "No checkpoint models appear to be available. Please check your model installation."
  const UnparsedPrefix: string := "ComfyUI validation failed (could not parse error response): "

  /** The headline taken from the `error` member. */
  function BaseMessage(e: ErrorField): string {
    match e
    case NoErrorField => ValidationFailed
    case ErrorDict(message, errorType) =>
      if errorType == Some(OutputsFailedValidation) then ValidationFailed else message.GetOr(ValidationFailed)
    case ErrorValue(text) => text
  }

  /** The detail lines of one node, each scoped by the node id. */
  function LinesOf(nodeId: string, e: NodeError): (lines: seq<string>)
    ensures forall i :: 0 <= i < |lines| ==> StartsWith(lines[i], "Node " + nodeId)
    ensures |lines| == (if e.NodeErrorDict? then |e.entries| else 1)
  {
    match e
    case NodeErrorDict(entries) =>
      seq(|entries|, i requires 0 <= i < |entries| =>
        ScopedLine(nodeId, " (" + entries[i].0 + "): " + entries[i].1))
    case NodeErrorValue(text) => [ScopedLine(nodeId, ": " + text)]
  }

  function ScopedLine(nodeId: string, rest: string): (line: string)
    ensures StartsWith(line, "Node " + nodeId)
  {
    assert ("Node " + nodeId + rest)[..|"Node " + nodeId|] == "Node " + nodeId;
    "Node " + nodeId + rest
  }

  /** The detail lines of all nodes, node by node. */
  function NodeLines(nodeErrors: seq<(string, NodeError)>): seq<string> {
    if nodeErrors == [] then [] else LinesOf(nodeErrors[0].0, nodeErrors[0].1) + NodeLines(nodeErrors[1..])
  }

  function Bullets(details: seq<string>): (r: seq<string>)
    ensures |r| == |details| && forall i :: 0 <= i < |details| ==> r[i] == "\U{2022} " + details[i]
  {
    seq(|details|, i requires 0 <= i < |details| => "\U{2022} " + details[i])
  }

  /** Some detail line names `ckpt_name` and says a value is `not in list`. */
  predicate MentionsMissingCheckpoint(details: seq<string>) {
    exists i | 0 <= i < |details| :: Contains(details[i], "not in list") && Contains(details[i], "ckpt_name")
  }

  /** The available checkpoints, or a note that there are none. */
  function CheckpointNote(checkpoints: seq<string>, lead: string): string {
    if checkpoints != [] then lead + "Available checkpoint models: " + Join(", ", checkpoints)
    else lead + NoCheckpoints
  }

  /** The message of the `ValueError` raised for a 400 answer with raw text `rawText`. */
  function RejectionMessage(body: Option<RejectionBody>, rawText: string, checkpoints: seq<string>): string {
    if body.None? then UnparsedPrefix + rawText
    else
      var b := body.value;
      var details := NodeLines(b.nodeErrors);
      if b.bodyType == Some(OutputsFailedValidation) then
        b.bodyMessage.GetOr(ValidationFailed) + ModelHint + CheckpointNote(checkpoints, "\n")
      else if details != [] then
        BaseMessage(b.error) + ":\n" + Join("\n", Bullets(details)) +
        (if MentionsMissingCheckpoint(details) then CheckpointNote(checkpoints, "\n\n") else "")
      else BaseMessage(b.error) + ". Raw response: " + rawText
  }

  /** Every detail line starts with `Node <id>` for one of the nodes. */
  lemma {:induction false} NodeLinesAreScoped(nodeErrors: seq<(string, NodeError)>)
    ensures forall i :: 0 <= i < |NodeLines(nodeErrors)| ==>
      exists k :: 0 <= k < |nodeErrors| && StartsWith(NodeLines(nodeErrors)[i], "Node " + nodeErrors[k].0)
  {
    if nodeErrors != [] {
      NodeLinesAreScoped(nodeErrors[1..]);
      var head := LinesOf(nodeErrors[0].0, nodeErrors[0].1);
      var rest := NodeLines(nodeErrors[1..]);
      forall i | 0 <= i < |NodeLines(nodeErrors)|
        ensures exists k :: 0 <= k < |nodeErrors| && StartsWith(NodeLines(nodeErrors)[i], "Node " + nodeErrors[k].0)
      {
        if i < |head| {
          assert NodeLines(nodeErrors)[i] == head[i];
          assert StartsWith(NodeLines(nodeErrors)[i], "Node " + nodeErrors[0].0);
        } else {
          assert NodeLines(nodeErrors)[i] == rest[i - |head|];
          var k :| 0 <= k < |nodeErrors[1..]| && StartsWith(rest[i - |head|], "Node " + nodeErrors[1..][k].0);
          assert nodeErrors[k + 1] == nodeErrors[1..][k];
        }
      }
    } else {
      assert NodeLines(nodeErrors) == [];
    }
  }

  lemma {:induction false} NodeLinesAppend(a: seq<(string, NodeError)>, b: seq<(string, NodeError)>)
    ensures NodeLines(a + b) == NodeLines(a) + NodeLines(b)
  {
    if a == [] {
      assert a + b == b;
    } else {
      assert (a + b)[0] == a[0] && (a + b)[1..] == a[1..] + b;
      NodeLinesAppend(a[1..], b);
    }
  }

  /**
   * The detail lines come node by node, in `node_errors` order: the lines of node `k` are
   * exactly the block that follows the lines of the nodes before it, so every line belongs
   * to one node and the blocks never interleave.
   */
  lemma {:induction false} NodeLinesInNodeOrder(nodeErrors: seq<(string, NodeError)>)
    ensures forall k :: 0 <= k < |nodeErrors| ==>
      NodeLines(nodeErrors) ==
        NodeLines(nodeErrors[..k]) + LinesOf(nodeErrors[k].0, nodeErrors[k].1) + NodeLines(nodeErrors[k + 1..])
    ensures forall k :: 0 <= k < |nodeErrors| ==> |NodeLines(nodeErrors[..k])| == LineCount(nodeErrors[..k])
  {
    forall k | 0 <= k < |nodeErrors|
      ensures NodeLines(nodeErrors) ==
        NodeLines(nodeErrors[..k]) + LinesOf(nodeErrors[k].0, nodeErrors[k].1) + NodeLines(nodeErrors[k + 1..])
      ensures |NodeLines(nodeErrors[..k])| == LineCount(nodeErrors[..k])
    {
      var rest := [nodeErrors[k]] + nodeErrors[k + 1..];
      assert nodeErrors == nodeErrors[..k] + rest;
      NodeLinesAppend(nodeErrors[..k], rest);
      assert rest[0] == nodeErrors[k] && rest[1..] == nodeErrors[k + 1..];
      NodeLineCount(nodeErrors[..k]);
    }
  }

  /** A node contributes one line per entry of an object, or one line for any other value. */
  lemma {:induction false} NodeLineCount(nodeErrors: seq<(string, NodeError)>)
    ensures |NodeLines(nodeErrors)| == LineCount(nodeErrors)
  {
    if nodeErrors != [] {
      NodeLineCount(nodeErrors[1..]);
    }
  }

  function LineCount(nodeErrors: seq<(string, NodeError)>): nat {
    if nodeErrors == [] then 0
    else (if nodeErrors[0].1.NodeErrorDict? then |nodeErrors[0].1.entries| else 1) + LineCount(nodeErrors[1..])
  }

  /** In the detailed message every node line appears as a bullet. */
  lemma {:induction false} EveryNodeErrorReported(body: RejectionBody, rawText: string, checkpoints: seq<string>)
    requires body.bodyType != Some(OutputsFailedValidation) && NodeLines(body.nodeErrors) != []
    ensures var details := NodeLines(body.nodeErrors);
      forall k :: 0 <= k < |details| ==>
        Contains(RejectionMessage(Some(body), rawText, checkpoints), "\U{2022} " + details[k])
  {
    var details := NodeLines(body.nodeErrors);
    var bullets := Bullets(details);
    var head := BaseMessage(body.error) + ":\n";
    var tail := if MentionsMissingCheckpoint(details) then CheckpointNote(checkpoints, "\n\n") else "";
    assert RejectionMessage(Some(body), rawText, checkpoints) == head + Join("\n", bullets) + tail;
    forall k | 0 <= k < |details|
      ensures Contains(RejectionMessage(Some(body), rawText, checkpoints), "\U{2022} " + details[k])
    {
      JoinContainsPart("\n", bullets, k);
      ContainsExtend(head, Join("\n", bullets), tail, bullets[k]);
    }
  }

  /**
   * The available checkpoints are listed exactly in the two situations that call for
   * them: the backend reported `prompt_outputs_failed_validation`, or a detail line says a
   * `ckpt_name` is not in the list.  In every other case the message does not depend on
   * the checkpoint list at all, so the lookup is not needed.
   */
  lemma {:induction false} CheckpointsListedWhenRelevant(body: RejectionBody, rawText: string, checkpoints: seq<string>)
    requires checkpoints != []
    requires body.bodyType == Some(OutputsFailedValidation) ||
      (NodeLines(body.nodeErrors) != [] && MentionsMissingCheckpoint(NodeLines(body.nodeErrors)))
    ensures forall k :: 0 <= k < |checkpoints| ==> Contains(RejectionMessage(Some(body), rawText, checkpoints), checkpoints[k])
  {
    var msg := RejectionMessage(Some(body), rawText, checkpoints);
    var list := Join(", ", checkpoints);
    var lead := if body.bodyType == Some(OutputsFailedValidation) then "\n" else "\n\n";
    var front: string;
    if body.bodyType == Some(OutputsFailedValidation) {
      front := body.bodyMessage.GetOr(ValidationFailed) + ModelHint + lead + "Available checkpoint models: ";
    } else {
      var details := NodeLines(body.nodeErrors);
      front := BaseMessage(body.error) + ":\n" + Join("\n", Bullets(details)) + lead + "Available checkpoint models: ";
    }
    assert msg == front + list + "";
    forall k | 0 <= k < |checkpoints|
      ensures Contains(msg, checkpoints[k])
    {
      JoinContainsPart(", ", checkpoints, k);
      ContainsExtend(front, list, "", checkpoints[k]);
    }
  }

  lemma CheckpointsIrrelevantOtherwise(body: RejectionBody, rawText: string, c1: seq<string>, c2: seq<string>)
    requires body.bodyType != Some(OutputsFailedValidation)
    requires NodeLines(body.nodeErrors) == [] || !MentionsMissingCheckpoint(NodeLines(body.nodeErrors))
    ensures RejectionMessage(Some(body), rawText, c1) == RejectionMessage(Some(body), rawText, c2)
  {
  }

  /**
   * A `prompt_outputs_failed_validation` body is reported by its own `message` (or the
   * generic headline) and the model hint, whatever its `error` and `node_errors` say.
   */
  lemma {:induction false} OutputsFailedValidationMessage(body: RejectionBody, rawText: string, checkpoints: seq<string>)
    requires body.bodyType == Some(OutputsFailedValidation)
    ensures StartsWith(RejectionMessage(Some(body), rawText, checkpoints),
                       body.bodyMessage.GetOr(ValidationFailed) + ModelHint)
    ensures forall e: ErrorField, n: seq<(string, NodeError)> ::
      RejectionMessage(Some(body.(error := e, nodeErrors := n)), rawText, checkpoints) ==
      RejectionMessage(Some(body), rawText, checkpoints)
  {
    var head := body.bodyMessage.GetOr(ValidationFailed) + ModelHint;
    var msg := head + CheckpointNote(checkpoints, "\n");
    assert msg[..|head|] == head;
  }
}
