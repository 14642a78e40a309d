/**
 * The monitoring loop of the handler: it receives frames from the websocket one at a time
 * until the backend reports, for this job's prompt id, either completion or an execution
 * error.  Frames are an oracle: the sequence of what successive receive calls returned,
 * across reconnects.  A closed-socket frame carries the answers the backend gives to the
 * reconnect policy that the closure triggers.
 */
module Monitor {
  import opened Wrappers
  import opened Strings
  import opened Reconnect

  /** A text frame after JSON decoding. */
  datatype Message =
    | Unreadable    // a `.get` call raises: the message or its `data` is not an object, or a status message's `status` or `exec_info` is not one
    | Status        // queue progress, logged only
    | Executing(node: Option<string>, promptId: Option<string>)
    | ExecutionError(promptId: Option<string>, nodeType: string, nodeId: string, exceptionMessage: string)
    | OtherKind     // any other `type`

  /** What one receive call produced. */
  datatype Frame =
    | Timeout                      // the receive timed out
    | Binary                       // a frame that is not text
    | InvalidJson                  // a text frame that is not JSON
    | Text(message: Message)
    | Closed(reason: string, probe: nat -> bool, connect: nat -> ConnectOutcome)
    | Broken(error: string)        // another websocket error while receiving

  datatype MonitorOutcome =
    | Exited(executionDone: bool, errors: seq<string>)  // the loop broke out
    | ChannelLost(reason: string)   // the reconnect policy raised, or another websocket error
    | Crashed                       // an exception the loop does not handle
    | Waiting                       // no terminal frame among those received so far

  /** The error recorded for an execution error reported for this prompt. */
  function ExecutionErrorEntry(nodeType: string, nodeId: string, message: string): string {
    "Workflow execution error: Node Type: " + nodeType + ", Node ID: " + nodeId + ", Message: " + message
  }

  /** The terminal success signal for `promptId`. */
  predicate IsCompletion(f: Frame, promptId: string) {
    f.Text? && f.message.Executing? && f.message.node.None? && f.message.promptId == Some(promptId)
  }

  /** The terminal failure signal for `promptId`. */
  predicate IsExecutionFailure(f: Frame, promptId: string) {
    f.Text? && f.message.ExecutionError? && f.message.promptId == Some(promptId)
  }

  /** Frames the loop receives and drops without any change of state. */
  predicate Ignorable(f: Frame, promptId: string) {
    || f.Timeout? || f.Binary? || f.InvalidJson?
    || (f.Text? && (f.message.Status? || f.message.OtherKind?))
    || (f.Text? && f.message.Executing? && !IsCompletion(f, promptId))
    || (f.Text? && f.message.ExecutionError? && !IsExecutionFailure(f, promptId))
  }

  /** Frames after which the loop goes on: ignorable ones and closures that reconnect. */
  predicate Passes(f: Frame, promptId: string, maxAttempts: int) {
    Ignorable(f, promptId) ||
    (f.Closed? && ReconnectRun(maxAttempts, f.reason, f.probe, f.connect).0.Reconnected?)
  }

  /** What the loop does with the frames it receives. */
  function MonitorRun(frames: seq<Frame>, promptId: string, maxAttempts: int): MonitorOutcome
    decreases |frames|
  {
    if frames == [] then Waiting
    else
      var rest := frames[1..];
      match frames[0]
      case Timeout => MonitorRun(rest, promptId, maxAttempts)
      case Binary => MonitorRun(rest, promptId, maxAttempts)
      case InvalidJson => MonitorRun(rest, promptId, maxAttempts)
      case Closed(reason, probe, connect) =>
        var r := ReconnectRun(maxAttempts, reason, probe, connect).0;
        if r.Reconnected? then MonitorRun(rest, promptId, maxAttempts) else ChannelLost(FailureMessage(r))
      case Broken(error) => ChannelLost(error)
      case Text(m) =>
        match m
        case Unreadable => Crashed
        case Status => MonitorRun(rest, promptId, maxAttempts)
        case OtherKind => MonitorRun(rest, promptId, maxAttempts)
        case Executing(node, p) =>
          if node.None? && p == Some(promptId) then Exited(true, [])
          else MonitorRun(rest, promptId, maxAttempts)
        case ExecutionError(p, nodeType, nodeId, message) =>
          if p == Some(promptId) then Exited(false, [ExecutionErrorEntry(nodeType, nodeId, message)])
          else MonitorRun(rest, promptId, maxAttempts)
  }

  /**
   * The `while True` receive loop.  `executionDone` and `errors` are the handler's
   * variables; the loop leaves through `break` exactly when one of them changes.
   */
  method MonitorExecution(frames: seq<Frame>, promptId: string, maxAttempts: int)
    returns (outcome: MonitorOutcome)
    ensures outcome == MonitorRun(frames, promptId, maxAttempts)
  {
    var executionDone := false;
    var errors: seq<string> := [];
    var i := 0;
    while !executionDone && errors == []
      invariant 0 <= i <= |frames|
      invariant !executionDone && errors == [] ==>
        MonitorRun(frames, promptId, maxAttempts) == MonitorRun(frames[i..], promptId, maxAttempts)
      invariant executionDone || errors != [] ==>
        MonitorRun(frames, promptId, maxAttempts) == Exited(executionDone, errors)
      decreases |frames| - i, !executionDone, |errors| == 0
    {
      if i == |frames| {
        outcome := Waiting;
        return;
      }
      assert frames[i..][1..] == frames[i + 1..];
      match frames[i] {
        case Timeout =>
        case Binary =>
        case InvalidJson =>
        case Closed(reason, probe, connect) =>
          var r, _ := AttemptReconnect(maxAttempts, reason, probe, connect);
          if !r.Reconnected? {
            outcome := ChannelLost(FailureMessage(r));
            return;
          }
        case Broken(error) =>
          outcome := ChannelLost(error);
          return;
        case Text(m) =>
          match m {
            case Unreadable =>
              outcome := Crashed;
              return;
            case Status =>
            case OtherKind =>
            case Executing(node, p) =>
              if node.None? && p == Some(promptId) {
                executionDone := true;
              }
            case ExecutionError(p, nodeType, nodeId, message) =>
              if p == Some(promptId) {
                errors := errors + [ExecutionErrorEntry(nodeType, nodeId, message)];
              }
          }
      }
      if !executionDone && errors == [] {
        i := i + 1;
      }
    }
    outcome := Exited(executionDone, errors);
  }

  /** Status updates, foreign prompt ids, non-text frames, bad JSON and timeouts change nothing. */
  lemma IgnoredFrameChangesNothing(f: Frame, frames: seq<Frame>, promptId: string, maxAttempts: int)
    requires Ignorable(f, promptId)
    ensures MonitorRun([f] + frames, promptId, maxAttempts) == MonitorRun(frames, promptId, maxAttempts)
  {
    assert ([f] + frames)[1..] == frames;
  }

  /**
   * The loop leaves normally with exactly one of: completion and no error, or no
   * completion and the single execution-error entry.  So the handler's check for a loop
   * that exited with neither can never fire.
   */
  lemma {:induction false} ExitIsConfirmed(frames: seq<Frame>, promptId: string, maxAttempts: int)
    requires MonitorRun(frames, promptId, maxAttempts).Exited?
    ensures var o := MonitorRun(frames, promptId, maxAttempts);
      (o.executionDone && o.errors == []) ||
      (!o.executionDone && |o.errors| == 1 && StartsWith(o.errors[0], "Workflow execution error: "))
    decreases |frames|
  {
    if IsExecutionFailure(frames[0], promptId) {
      var m := frames[0].message;
      EntryHasPrefix(m.nodeType, m.nodeId, m.exceptionMessage);
    } else if !IsCompletion(frames[0], promptId) {
      assert MonitorRun(frames, promptId, maxAttempts) == MonitorRun(frames[1..], promptId, maxAttempts);
      ExitIsConfirmed(frames[1..], promptId, maxAttempts);
    }
  }

  lemma EntryHasPrefix(nodeType: string, nodeId: string, message: string)
    ensures StartsWith(ExecutionErrorEntry(nodeType, nodeId, message), "Workflow execution error: ")
  {
    var rest := "Node Type: " + nodeType + ", Node ID: " + nodeId + ", Message: " + message;
    assert ExecutionErrorEntry(nodeType, nodeId, message) == "Workflow execution error: " + rest;
  }

  /**
   * Completion, characterised: the loop ends successfully exactly when some frame is the
   * completion signal for this prompt and every earlier frame lets the loop go on.
   */
  lemma {:induction false} CompletionCharacterised(frames: seq<Frame>, promptId: string, maxAttempts: int)
    ensures MonitorRun(frames, promptId, maxAttempts) == Exited(true, []) <==>
      exists k :: 0 <= k < |frames| && IsCompletion(frames[k], promptId) &&
        forall j :: 0 <= j < k ==> Passes(frames[j], promptId, maxAttempts)
    decreases |frames|
  {
    if frames != [] {
      CompletionCharacterised(frames[1..], promptId, maxAttempts);
      if MonitorRun(frames, promptId, maxAttempts) == Exited(true, []) {
        if !IsCompletion(frames[0], promptId) {
          var k :| 0 <= k < |frames[1..]| && IsCompletion(frames[1..][k], promptId) &&
            forall j :: 0 <= j < k ==> Passes(frames[1..][j], promptId, maxAttempts);
          assert Passes(frames[0], promptId, maxAttempts);
          assert IsCompletion(frames[k + 1], promptId);
          forall j | 0 <= j < k + 1 ensures Passes(frames[j], promptId, maxAttempts) {
            if j > 0 { assert frames[j] == frames[1..][j - 1]; }
          }
        } else {
          assert IsCompletion(frames[0], promptId);
        }
      } else {
        forall k | 0 <= k < |frames| && IsCompletion(frames[k], promptId)
          ensures exists j :: 0 <= j < k && !Passes(frames[j], promptId, maxAttempts)
        {
          assert k != 0;
          assert Passes(frames[0], promptId, maxAttempts) ==>
            exists j :: 0 <= j < k - 1 && !Passes(frames[1..][j], promptId, maxAttempts);
          if Passes(frames[0], promptId, maxAttempts) {
            var j :| 0 <= j < k - 1 && !Passes(frames[1..][j], promptId, maxAttempts);
            assert !Passes(frames[j + 1], promptId, maxAttempts);
          } else {
            assert !Passes(frames[0], promptId, maxAttempts);
          }
        }
      }
    }
  }

  /**
   * An execution error for this prompt, reached through frames that let the loop go on,
   * records exactly one formatted entry and stops the loop.
   */
  lemma {:induction false} ExecutionErrorRecordedOnce(frames: seq<Frame>, k: nat, promptId: string, maxAttempts: int)
    requires k < |frames| && IsExecutionFailure(frames[k], promptId)
    requires forall j :: 0 <= j < k ==> Passes(frames[j], promptId, maxAttempts)
    ensures var m := frames[k].message;
      MonitorRun(frames, promptId, maxAttempts) ==
        Exited(false, [ExecutionErrorEntry(m.nodeType, m.nodeId, m.exceptionMessage)])
    decreases k
  {
    if k > 0 {
      assert Passes(frames[0], promptId, maxAttempts);
      ExecutionErrorRecordedOnce(frames[1..], k - 1, promptId, maxAttempts);
    }
  }

  /** Frames that only let the loop go on never end it: the handler keeps waiting. */
  lemma {:induction false} PassingFramesKeepWaiting(frames: seq<Frame>, promptId: string, maxAttempts: int)
    requires forall j :: 0 <= j < |frames| ==> Passes(frames[j], promptId, maxAttempts)
    ensures MonitorRun(frames, promptId, maxAttempts) == Waiting
    decreases |frames|
  {
    if frames != [] {
      assert Passes(frames[0], promptId, maxAttempts);
      PassingFramesKeepWaiting(frames[1..], promptId, maxAttempts);
    }
  }

  /**
   * A socket that closes once mid-monitoring and reconnects on the second of five
   * attempts: monitoring resumes and the job completes with no error.
   */
  lemma ReconnectThenComplete(promptId: string, probe: nat -> bool, connect: nat -> ConnectOutcome)
    requires probe(0) && probe(1) && connect(0).ConnectFailed? && connect(1).Connected?
    ensures MonitorRun([Text(Status), Closed("closed", probe, connect), Timeout,
                        Text(Executing(None, Some(promptId)))], promptId, 5) == Exited(true, [])
  {
    SecondAttemptSucceeds(probe, connect);
    var last := [Text(Executing(None, Some(promptId)))];
    var frames := [Text(Status), Closed("closed", probe, connect), Timeout, Text(Executing(None, Some(promptId)))];
    assert frames[1..] == [Closed("closed", probe, connect), Timeout] + last;
    assert frames[1..][1..] == [Timeout] + last;
    assert frames[1..][1..][1..] == last;
    assert MonitorRun(last, promptId, 5) == Exited(true, []);
    assert MonitorRun(frames[1..][1..], promptId, 5) == Exited(true, []);
    assert MonitorRun(frames[1..], promptId, 5) == Exited(true, []);
  }
}
