/**
 * `check_server`: poll the backend's HTTP root until it answers 200, at most `retries`
 * times, sleeping after every probe that fails.  Whether probe `i` answered 200 is an
 * oracle; a timeout, another exception or another status all count as "not 200".
 */
module ServerProbe {
  import Reconnect

  /** Milliseconds between probes, and the number of probes, the handler uses. */
  const ApiAvailableIntervalMs: nat := 50
  const ApiAvailableMaxRetries: nat := 500

  /**
   * Returns whether the server came up, how many probes were made and how many sleeps
   * were taken.  The server is reported reachable exactly when some probe within the
   * budget answers 200; polling stops at the first such probe; every failed probe is
   * followed by a sleep, the last one included.
   */
  method CheckServer(retries: int, answersOk: nat -> bool) returns (up: bool, probes: nat, sleeps: nat)
    ensures up <==> exists i :: 0 <= i < Reconnect.Attempts(retries) && answersOk(i)
    ensures probes <= Reconnect.Attempts(retries)
    ensures forall j :: 0 <= j < probes && (j < probes - 1 || !up) ==> !answersOk(j)
    ensures up ==> 0 < probes && answersOk(probes - 1) && sleeps == probes - 1
    ensures !up ==> probes == Reconnect.Attempts(retries) && sleeps == probes
  {
    probes, sleeps := 0, 0;
    var i := 0;
    while i < Reconnect.Attempts(retries)
      invariant 0 <= i <= Reconnect.Attempts(retries)
      invariant probes == i && sleeps == i
      invariant forall j :: 0 <= j < i ==> !answersOk(j)
    {
      probes := probes + 1;
      if answersOk(i) {
        up := true;
        return;
      }
      sleeps := sleeps + 1;
      i := i + 1;
    }
    up := false;
  }

  /** With the handler's settings, an unreachable server costs 500 probes and 25 seconds of sleep. */
  method HandlerBudget(answersOk: nat -> bool) returns (up: bool, sleptMs: nat)
    ensures !up ==> sleptMs == 25000
    ensures sleptMs <= 25000
  {
    var probes, sleeps;
    up, probes, sleeps := CheckServer(ApiAvailableMaxRetries, answersOk);
    sleptMs := sleeps * ApiAvailableIntervalMs;
  }
}
