/** The supervisor's restart delays for one camera. */
module Supervisor {
  import opened Prelude

  /** Restarts since the delay was last at its short value, when run i has just ended:
      a run that lasted long enough puts it back. */
  function RestartsSinceReset(lasted: seq<nat>, healthyAfter: nat, i: nat): nat
    requires i < |lasted|
  {
    if lasted[i] >= healthyAfter || i == 0 then 0 else 1 + RestartsSinceReset(lasted, healthyAfter, i - 1)
  }

  /** The last j runs were all too short, and before them comes the start or a run that lasted long enough. */
  lemma {:induction false} RestartsAreShortRuns(lasted: seq<nat>, healthyAfter: nat, i: nat)
    requires i < |lasted|
    ensures var j := RestartsSinceReset(lasted, healthyAfter, i);
            && j <= i
            && (i - j == 0 || lasted[i - j] >= healthyAfter)
            && forall k :: i - j < k <= i ==> lasted[k] < healthyAfter
  {
    if i > 0 && lasted[i] < healthyAfter {
      RestartsAreShortRuns(lasted, healthyAfter, i - 1);
    }
  }

  /** The delay before a restart, j restarts after the last reset: doubled each time and only then capped. */
  function RestartDelay(restart: nat, cap: nat, j: nat): nat {
    if j == 0 then restart else Min(cap, 2 * RestartDelay(restart, cap, j - 1))
  }

  lemma NextDelay(restart: nat, cap: nat, j: nat)
    ensures RestartDelay(restart, cap, 0) == restart
    ensures RestartDelay(restart, cap, j + 1) == Min(cap, 2 * RestartDelay(restart, cap, j))
  {
  }

  lemma Doubled(a: int, b: int)
    ensures a * (2 * b) == 2 * (a * b)
  {
  }

  /** Within the cap, the delays are the capped powers of two. */
  lemma {:induction false} DelayIsCappedPower(restart: nat, cap: nat, j: nat)
    requires restart <= cap
    ensures RestartDelay(restart, cap, j) == Min(cap, restart * Pow2(j))
  {
    if j > 0 {
      DelayIsCappedPower(restart, cap, j - 1);
      Doubled(restart, Pow2(j - 1));
    }
  }

  /** Past the cap, the first delay after a reset is too long and every later one is the cap. */
  lemma {:induction false} DelayPastCap(restart: nat, cap: nat, j: nat)
    requires restart > cap
    ensures RestartDelay(restart, cap, j) == if j == 0 then restart else cap
  {
    if j > 0 {
      DelayPastCap(restart, cap, j - 1);
    }
  }

  /** The delay slept after each run is min(cap, restart * 2^j) for j restarts since the last reset. */
  ghost predicate CappedPowers(restart: nat, cap: nat, healthyAfter: nat, lasted: seq<nat>, delays: seq<nat>)
    requires |delays| == |lasted|
  {
    forall i :: 0 <= i < |lasted| ==>
      delays[i] == Min(cap, restart * Pow2(RestartsSinceReset(lasted, healthyAfter, i)))
  }

  /** The delays of a whole run are capped powers if and only if the short delay is within the cap,
      for any run with a restart in it. */
  lemma DelaysAreCappedPowers(restart: nat, cap: nat, healthyAfter: nat, lasted: seq<nat>, delays: seq<nat>)
    requires |delays| == |lasted|
    requires forall i :: 0 <= i < |lasted| ==>
               delays[i] == RestartDelay(restart, cap, RestartsSinceReset(lasted, healthyAfter, i))
    ensures CappedPowers(restart, cap, healthyAfter, lasted, delays) <==> restart <= cap || lasted == []
  {
    if restart <= cap {
      forall i | 0 <= i < |lasted|
        ensures delays[i] == Min(cap, restart * Pow2(RestartsSinceReset(lasted, healthyAfter, i)))
      {
        DelayIsCappedPower(restart, cap, RestartsSinceReset(lasted, healthyAfter, i));
      }
    } else if lasted != [] {
      assert RestartsSinceReset(lasted, healthyAfter, 0) == 0;
      DelayPastCap(restart, cap, 0);
    }
  }

  class Supervisor {
    const restartDelay: nat
    const maxRestartDelay: nat
    const healthyAfter: nat

    constructor (restartDelay: nat, maxRestartDelay: nat, healthyAfter: nat)
      ensures this.restartDelay == restartDelay && this.maxRestartDelay == maxRestartDelay
      ensures this.healthyAfter == healthyAfter
    {
      this.restartDelay := restartDelay;
      this.maxRestartDelay := maxRestartDelay;
      this.healthyAfter := healthyAfter;
    }

    /** superviseOne until cancellation, given how long each run lasted; the delay slept after each. */
    method SuperviseOne(lasted: seq<nat>) returns (delays: seq<nat>)
      ensures |delays| == |lasted|
      ensures forall i :: 0 <= i < |lasted| ==>
                delays[i] == RestartDelay(restartDelay, maxRestartDelay, RestartsSinceReset(lasted, healthyAfter, i))
      ensures forall i :: 0 <= i < |lasted| ==> delays[i] <= Max(restartDelay, maxRestartDelay)
      ensures forall i :: 0 <= i < |lasted| && lasted[i] >= healthyAfter ==> delays[i] == restartDelay
      ensures CappedPowers(restartDelay, maxRestartDelay, healthyAfter, lasted, delays)
              <==> restartDelay <= maxRestartDelay || lasted == []
    {
      hide RestartDelay, CappedPowers;
      NextDelay(restartDelay, maxRestartDelay, 0);
      var delay := restartDelay;
      delays := [];
      for i := 0 to |lasted|
        invariant |delays| == i && delay <= Max(restartDelay, maxRestartDelay)
        invariant i == 0 ==> delay == restartDelay
        invariant i > 0 ==> delay == RestartDelay(restartDelay, maxRestartDelay,
                                                  RestartsSinceReset(lasted, healthyAfter, i - 1) + 1)
        invariant forall k :: 0 <= k < i ==> delays[k] <= Max(restartDelay, maxRestartDelay)
        invariant forall k :: 0 <= k < i ==>
                    delays[k] == RestartDelay(restartDelay, maxRestartDelay, RestartsSinceReset(lasted, healthyAfter, k))
      {
        if lasted[i] >= healthyAfter {
          delay := restartDelay;
        }
        delays := delays + [delay];
        NextDelay(restartDelay, maxRestartDelay, RestartsSinceReset(lasted, healthyAfter, i));
        delay := delay * 2;
        if delay > maxRestartDelay {
          delay := maxRestartDelay;
        }
      }
      DelaysAreCappedPowers(restartDelay, maxRestartDelay, healthyAfter, lasted, delays);
    }
  }
}
