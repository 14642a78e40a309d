/**
 * The websocket reconnect policy of `_attempt_websocket_reconnect`: a bounded retry
 * loop in which each connect attempt is preceded by a liveness probe of the backend's
 * HTTP port.  The backend is an oracle: `probe(a)` is the probe's answer before attempt
 * `a` (reachable with status 200 or not), `connect(a)` the outcome of attempt `a`.
 */
module Reconnect {

  datatype ConnectOutcome = Connected(socket: nat) | ConnectFailed(error: string)

  /** One observable action of the policy, in order. */
  datatype Step = Probe(reachable: bool) | Connect(succeeded: bool) | Sleep

  datatype ReconnectResult =
    | Reconnected(socket: nat)      // the new socket is returned
    | Unreachable                   // raised: the HTTP probe failed
    | Exhausted(lastError: string)  // raised: every attempt failed

  /** Number of attempts `range(max_attempts)` yields. */
  function Attempts(maxAttempts: int): nat {
    if maxAttempts < 0 then 0 else maxAttempts
  }

  /** Text of the exception raised when the policy gives up. */
  function FailureMessage(r: ReconnectResult): string {
    match r
    case Reconnected(_) => ""
    case Unreachable => "ComfyUI HTTP unreachable during websocket reconnect"
    case Exhausted(e) => "Connection closed and failed to reconnect. Last error: " + e
  }

  /**
   * The policy from attempt `a` on, `last` being the most recent failure: its result and
   * the steps it takes.  A sleep follows a failed attempt only when another one follows.
   */
  function ReconnectFrom(a: nat, maxAttempts: int, last: string,
                         probe: nat -> bool, connect: nat -> ConnectOutcome): (ReconnectResult, seq<Step>)
    decreases Attempts(maxAttempts) - a
  {
    if a >= Attempts(maxAttempts) then (Exhausted(last), [])
    else if !probe(a) then (Unreachable, [Probe(false)])
    else match connect(a)
      case Connected(s) => (Reconnected(s), [Probe(true), Connect(true)])
      case ConnectFailed(e) =>
        var rest := ReconnectFrom(a + 1, maxAttempts, e, probe, connect);
        (rest.0, [Probe(true), Connect(false)] + (if a + 1 < Attempts(maxAttempts) then [Sleep] else []) + rest.1)
  }

  /** The whole policy, started from the error that closed the socket. */
  function ReconnectRun(maxAttempts: int, initialError: string,
                        probe: nat -> bool, connect: nat -> ConnectOutcome): (ReconnectResult, seq<Step>)
  {
    ReconnectFrom(0, maxAttempts, initialError, probe, connect)
  }

  function CountConnects(steps: seq<Step>): nat {
    if steps == [] then 0 else (if steps[0].Connect? then 1 else 0) + CountConnects(steps[1..])
  }

  function CountSleeps(steps: seq<Step>): nat {
    if steps == [] then 0 else (if steps[0] == Sleep then 1 else 0) + CountSleeps(steps[1..])
  }

  /** Every connect is immediately preceded by a probe that found the backend reachable. */
  ghost predicate ProbeGated(steps: seq<Step>) {
    forall k :: 0 <= k < |steps| && steps[k].Connect? ==> 0 < k && steps[k - 1] == Probe(true)
  }

  /** Every sleep is followed by a further attempt, which starts with a probe. */
  ghost predicate SleepsBetweenAttempts(steps: seq<Step>) {
    forall k :: 0 <= k < |steps| && steps[k] == Sleep ==> k + 1 < |steps| && steps[k + 1].Probe?
  }

  /** A failed probe is the last step. */
  ghost predicate UnreachableIsFinal(steps: seq<Step>) {
    forall k :: 0 <= k < |steps| && steps[k] == Probe(false) ==> k == |steps| - 1
  }

  lemma {:induction false} CountsAppend(s: seq<Step>, t: seq<Step>)
    ensures CountConnects(s + t) == CountConnects(s) + CountConnects(t)
    ensures CountSleeps(s + t) == CountSleeps(s) + CountSleeps(t)
  {
    if s == [] {
      assert s + t == t;
    } else {
      assert (s + t)[1..] == s[1..] + t;
      CountsAppend(s[1..], t);
    }
  }

  /** The steps of a failed attempt: probe, connect, and a sleep when another attempt follows. */
  function FailedAttemptSteps(a: nat, maxAttempts: int): seq<Step> {
    [Probe(true), Connect(false)] + (if a + 1 < Attempts(maxAttempts) then [Sleep] else [])
  }

  /** One failed attempt, then the policy from the next attempt on. */
  lemma FailedAttemptUnfolds(a: nat, maxAttempts: int, last: string,
                             probe: nat -> bool, connect: nat -> ConnectOutcome)
    requires a < Attempts(maxAttempts) && probe(a) && connect(a).ConnectFailed?
    ensures var rest := ReconnectFrom(a + 1, maxAttempts, connect(a).error, probe, connect);
      ReconnectFrom(a, maxAttempts, last, probe, connect) == (rest.0, FailedAttemptSteps(a, maxAttempts) + rest.1)
  {
  }

  /**
   * The retry loop.  Returns the policy's result and the steps it took, and is proved to
   * behave exactly as `ReconnectRun`.
   */
  method AttemptReconnect(maxAttempts: int, initialError: string,
                          probe: nat -> bool, connect: nat -> ConnectOutcome)
    returns (result: ReconnectResult, steps: seq<Step>)
    ensures (result, steps) == ReconnectRun(maxAttempts, initialError, probe, connect)
  {
    var last := initialError;
    var attempt: nat := 0;
    steps := [];
    while attempt < Attempts(maxAttempts)
      invariant attempt <= Attempts(maxAttempts)
      invariant ReconnectRun(maxAttempts, initialError, probe, connect).0 ==
        ReconnectFrom(attempt, maxAttempts, last, probe, connect).0
      invariant ReconnectRun(maxAttempts, initialError, probe, connect).1 ==
        steps + ReconnectFrom(attempt, maxAttempts, last, probe, connect).1
    {
      ghost var before := steps;
      if !probe(attempt) {
        steps := steps + [Probe(false)];
        result := Unreachable;
        return;
      }
      steps := steps + [Probe(true)];
      match connect(attempt) {
        case Connected(s) =>
          assert before + [Probe(true), Connect(true)] == steps + [Connect(true)];
          steps := steps + [Connect(true)];
          result := Reconnected(s);
          return;
        case ConnectFailed(e) =>
          ghost var rest := ReconnectFrom(attempt + 1, maxAttempts, e, probe, connect).1;
          FailedAttemptUnfolds(attempt, maxAttempts, last, probe, connect);
          last := e;
          steps := steps + [Connect(false)];
          if attempt < Attempts(maxAttempts) - 1 {
            steps := steps + [Sleep];
          }
          assert steps == before + FailedAttemptSteps(attempt, maxAttempts);
          AppendAssoc(before, FailedAttemptSteps(attempt, maxAttempts), rest);
      }
      attempt := attempt + 1;
    }
    assert steps + [] == steps;
    result := Exhausted(last);
  }

  lemma AppendAssoc(a: seq<Step>, b: seq<Step>, c: seq<Step>)
    ensures a + (b + c) == (a + b) + c
  {
  }

  lemma HeadCounts(head: seq<Step>, sleeps: bool)
    requires head == [Probe(true), Connect(false)] + (if sleeps then [Sleep] else [])
    ensures CountConnects(head) == 1
    ensures CountSleeps(head) == if sleeps then 1 else 0
  {
    var rest := if sleeps then [Sleep] else [];
    assert head[1..][1..] == rest;
    assert CountConnects(rest) == 0 && CountSleeps(rest) == |rest| by {
      if sleeps { assert rest[1..] == []; }
    }
  }

  /** At most `max_attempts` connects (none for a non-positive count), each gated by a probe. */
  lemma {:induction false} ReconnectBoundedAndGated(a: nat, maxAttempts: int, last: string,
                                                   probe: nat -> bool, connect: nat -> ConnectOutcome)
    requires a <= Attempts(maxAttempts)
    ensures var steps := ReconnectFrom(a, maxAttempts, last, probe, connect).1;
      && CountConnects(steps) <= Attempts(maxAttempts) - a
      && ProbeGated(steps)
      && SleepsBetweenAttempts(steps)
      && UnreachableIsFinal(steps)
      && (steps != [] ==> steps[0].Probe?)
  {
    ConnectsBounded(a, maxAttempts, last, probe, connect);
    RunGated(a, maxAttempts, last, probe, connect);
    RunSleepsBetweenAttempts(a, maxAttempts, last, probe, connect);
    RunUnreachableIsFinal(a, maxAttempts, last, probe, connect);
  }

  lemma {:induction false} ConnectsBounded(a: nat, maxAttempts: int, last: string,
                                          probe: nat -> bool, connect: nat -> ConnectOutcome)
    requires a <= Attempts(maxAttempts)
    ensures var steps := ReconnectFrom(a, maxAttempts, last, probe, connect).1;
      CountConnects(steps) <= Attempts(maxAttempts) - a && (steps != [] ==> steps[0].Probe?)
    decreases Attempts(maxAttempts) - a
  {
    if a < Attempts(maxAttempts) && probe(a) && connect(a).ConnectFailed? {
      var e := connect(a).error;
      var head := FailedAttemptSteps(a, maxAttempts);
      FailedAttemptUnfolds(a, maxAttempts, last, probe, connect);
      ConnectsBounded(a + 1, maxAttempts, e, probe, connect);
      CountsAppend(head, ReconnectFrom(a + 1, maxAttempts, e, probe, connect).1);
      HeadCounts(head, a + 1 < Attempts(maxAttempts));
    } else {
      ShortRunsWellFormed(ReconnectFrom(a, maxAttempts, last, probe, connect).1);
    }
  }

  lemma {:induction false} RunGated(a: nat, maxAttempts: int, last: string,
                                   probe: nat -> bool, connect: nat -> ConnectOutcome)
    requires a <= Attempts(maxAttempts)
    ensures ProbeGated(ReconnectFrom(a, maxAttempts, last, probe, connect).1)
    decreases Attempts(maxAttempts) - a
  {
    if a < Attempts(maxAttempts) && probe(a) && connect(a).ConnectFailed? {
      var e := connect(a).error;
      FailedAttemptUnfolds(a, maxAttempts, last, probe, connect);
      RunGated(a + 1, maxAttempts, e, probe, connect);
      ConnectsBounded(a + 1, maxAttempts, e, probe, connect);
      HeadThenTailGated(a + 1 < Attempts(maxAttempts), FailedAttemptSteps(a, maxAttempts),
                        ReconnectFrom(a + 1, maxAttempts, e, probe, connect).1);
    } else {
      ShortRunsWellFormed(ReconnectFrom(a, maxAttempts, last, probe, connect).1);
    }
  }

  lemma {:induction false} RunSleepsBetweenAttempts(a: nat, maxAttempts: int, last: string,
                                                   probe: nat -> bool, connect: nat -> ConnectOutcome)
    requires a <= Attempts(maxAttempts)
    ensures SleepsBetweenAttempts(ReconnectFrom(a, maxAttempts, last, probe, connect).1)
    decreases Attempts(maxAttempts) - a
  {
    if a < Attempts(maxAttempts) && probe(a) && connect(a).ConnectFailed? {
      var e := connect(a).error;
      var tail := ReconnectFrom(a + 1, maxAttempts, e, probe, connect).1;
      FailedAttemptUnfolds(a, maxAttempts, last, probe, connect);
      RunSleepsBetweenAttempts(a + 1, maxAttempts, e, probe, connect);
      ConnectsBounded(a + 1, maxAttempts, e, probe, connect);
      if a + 1 < Attempts(maxAttempts) {
        assert tail != [];
      }
      HeadThenTailSleeps(a + 1 < Attempts(maxAttempts), FailedAttemptSteps(a, maxAttempts), tail);
    } else {
      ShortRunsWellFormed(ReconnectFrom(a, maxAttempts, last, probe, connect).1);
    }
  }

  lemma {:induction false} RunUnreachableIsFinal(a: nat, maxAttempts: int, last: string,
                                                probe: nat -> bool, connect: nat -> ConnectOutcome)
    requires a <= Attempts(maxAttempts)
    ensures UnreachableIsFinal(ReconnectFrom(a, maxAttempts, last, probe, connect).1)
    decreases Attempts(maxAttempts) - a
  {
    if a < Attempts(maxAttempts) && probe(a) && connect(a).ConnectFailed? {
      var e := connect(a).error;
      FailedAttemptUnfolds(a, maxAttempts, last, probe, connect);
      RunUnreachableIsFinal(a + 1, maxAttempts, e, probe, connect);
      HeadThenTailFinal(a + 1 < Attempts(maxAttempts), FailedAttemptSteps(a, maxAttempts),
                        ReconnectFrom(a + 1, maxAttempts, e, probe, connect).1);
    } else {
      ShortRunsWellFormed(ReconnectFrom(a, maxAttempts, last, probe, connect).1);
    }
  }

  /** The step lists of a run that ends at its first attempt. */
  lemma ShortRunsWellFormed(steps: seq<Step>)
    requires steps == [] || steps == [Probe(false)] || steps == [Probe(true), Connect(true)]
    ensures CountConnects(steps) <= 1 && (steps != [] ==> steps[0].Probe?)
    ensures ProbeGated(steps) && SleepsBetweenAttempts(steps) && UnreachableIsFinal(steps)
  {
    if steps != [] {
      assert steps[1..] == [] || steps[1..] == [Connect(true)];
      assert steps[1..] != [] ==> steps[1..][1..] == [];
    }
  }

  lemma HeadThenTailGated(sleeps: bool, head: seq<Step>, tail: seq<Step>)
    requires head == [Probe(true), Connect(false)] + (if sleeps then [Sleep] else [])
    requires ProbeGated(tail) && (tail != [] ==> tail[0].Probe?)
    ensures ProbeGated(head + tail)
  {
    var steps := head + tail;
    forall k | 0 <= k < |steps| && steps[k].Connect?
      ensures 0 < k && steps[k - 1] == Probe(true)
    {
      if k >= |head| {
        assert tail[k - |head|].Connect?;
      }
    }
  }

  lemma HeadThenTailSleeps(sleeps: bool, head: seq<Step>, tail: seq<Step>)
    requires head == [Probe(true), Connect(false)] + (if sleeps then [Sleep] else [])
    requires SleepsBetweenAttempts(tail) && (tail != [] ==> tail[0].Probe?)
    requires sleeps ==> tail != []
    ensures SleepsBetweenAttempts(head + tail)
  {
    var steps := head + tail;
    forall k | 0 <= k < |steps| && steps[k] == Sleep
      ensures k + 1 < |steps| && steps[k + 1].Probe?
    {
      if k < |head| {
        assert k == 2 && sleeps;
        assert steps[k + 1] == tail[0];
      } else {
        assert tail[k - |head|] == Sleep;
      }
    }
  }

  lemma HeadThenTailFinal(sleeps: bool, head: seq<Step>, tail: seq<Step>)
    requires head == [Probe(true), Connect(false)] + (if sleeps then [Sleep] else [])
    requires UnreachableIsFinal(tail)
    ensures UnreachableIsFinal(head + tail)
  {
    var steps := head + tail;
    forall k | 0 <= k < |steps| && steps[k] == Probe(false)
      ensures k == |steps| - 1
    {
      assert k >= |head|;
      assert tail[k - |head|] == Probe(false);
    }
  }

  /** An unreachable backend stops the policy at once: one probe, no connect. */
  lemma UnreachableAbortsImmediately(a: nat, maxAttempts: int, last: string,
                                     probe: nat -> bool, connect: nat -> ConnectOutcome)
    requires a < Attempts(maxAttempts) && !probe(a)
    ensures ReconnectFrom(a, maxAttempts, last, probe, connect) == (Unreachable, [Probe(false)])
  {
  }

  /**
   * When attempts `a .. k-1` are probed reachable and fail, and attempt `k` is probed
   * reachable and connects, the policy returns the socket of attempt `k`.
   */
  lemma {:induction false} FirstSuccessReturned(a: nat, k: nat, maxAttempts: int, last: string,
                                                probe: nat -> bool, connect: nat -> ConnectOutcome)
    requires a <= k < Attempts(maxAttempts)
    requires forall j :: a <= j < k ==> probe(j) && connect(j).ConnectFailed?
    requires probe(k) && connect(k).Connected?
    ensures ReconnectFrom(a, maxAttempts, last, probe, connect).0 == Reconnected(connect(k).socket)
    decreases k - a
  {
    if a < k {
      FirstSuccessReturned(a + 1, k, maxAttempts, connect(a).error, probe, connect);
    }
  }

  /**
   * When every remaining attempt is probed reachable and fails, the policy raises with the
   * last attempt's error (the error it started from when no attempt remains), after one
   * connect per attempt and one sleep fewer than attempts.
   */
  lemma {:induction false} ExhaustionCarriesLastError(a: nat, maxAttempts: int, last: string,
                                                      probe: nat -> bool, connect: nat -> ConnectOutcome)
    requires a <= Attempts(maxAttempts)
    requires forall j :: a <= j < Attempts(maxAttempts) ==> probe(j) && connect(j).ConnectFailed?
    ensures var (r, steps) := ReconnectFrom(a, maxAttempts, last, probe, connect);
      && r == Exhausted(if a == Attempts(maxAttempts) then last else connect(Attempts(maxAttempts) - 1).error)
      && CountConnects(steps) == Attempts(maxAttempts) - a
      && CountSleeps(steps) == (if a == Attempts(maxAttempts) then 0 else Attempts(maxAttempts) - a - 1)
    decreases Attempts(maxAttempts) - a
  {
    if a < Attempts(maxAttempts) {
      var e := connect(a).error;
      ExhaustionCarriesLastError(a + 1, maxAttempts, e, probe, connect);
      var head := FailedAttemptSteps(a, maxAttempts);
      FailedAttemptUnfolds(a, maxAttempts, last, probe, connect);
      CountsAppend(head, ReconnectFrom(a + 1, maxAttempts, e, probe, connect).1);
      HeadCounts(head, a + 1 < Attempts(maxAttempts));
    }
  }

  /** With `max_attempts = 0` the policy raises with the error that closed the socket. */
  lemma ZeroAttemptsKeepInitialError(initialError: string, probe: nat -> bool, connect: nat -> ConnectOutcome)
    ensures ReconnectRun(0, initialError, probe, connect) == (Exhausted(initialError), [])
  {
  }

  /**
   * The configured default (5 attempts): a reachable backend that refuses the first
   * connect and accepts the second yields the second socket after one sleep.
   */
  lemma SecondAttemptSucceeds(probe: nat -> bool, connect: nat -> ConnectOutcome)
    requires probe(0) && probe(1)
    requires connect(0).ConnectFailed? && connect(1).Connected?
    ensures ReconnectRun(5, "closed", probe, connect) ==
      (Reconnected(connect(1).socket), [Probe(true), Connect(false), Sleep, Probe(true), Connect(true)])
  {
    var second := ReconnectFrom(1, 5, connect(0).error, probe, connect);
    assert second == (Reconnected(connect(1).socket), [Probe(true), Connect(true)]);
    assert [Probe(true), Connect(false)] + [Sleep] + second.1 ==
      [Probe(true), Connect(false), Sleep, Probe(true), Connect(true)];
  }
}
