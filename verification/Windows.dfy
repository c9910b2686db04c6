/** Call logs, sliding windows over them, and what pruning keeps. */
module Windows {

  /** The calls later than a cutoff, in order: what prune must leave. */
  function After(times: seq<int>, cutoff: int): (kept: seq<int>)
    ensures |kept| <= |times|
  {
    if times == [] then []
    else
      var last := times[|times| - 1];
      After(times[..|times| - 1], cutoff) + (if last > cutoff then [last] else [])
  }

  /** The calls t of a half-open window: lo < t <= hi. */
  function InWindow(times: seq<int>, lo: int, hi: int): (kept: seq<int>)
  {
    if times == [] then []
    else
      var last := times[|times| - 1];
      InWindow(times[..|times| - 1], lo, hi) + (if lo < last <= hi then [last] else [])
  }

  lemma InWindowAppend(times: seq<int>, t: int, lo: int, hi: int)
    ensures InWindow(times + [t], lo, hi) == InWindow(times, lo, hi) + (if lo < t <= hi then [t] else [])
  {
    assert (times + [t])[..|times|] == times;
  }

  /** The positions of the calls in a window. */
  ghost function PositionsIn(times: seq<int>, lo: int, hi: int): set<nat> {
    set i: nat | i < |times| && lo < times[i] <= hi
  }

  lemma {:induction false} InWindowCounts(times: seq<int>, lo: int, hi: int)
    ensures |InWindow(times, lo, hi)| == |PositionsIn(times, lo, hi)|
  {
    if times != [] {
      var n := |times| - 1;
      InWindowCounts(times[..n], lo, hi);
      assert PositionsIn(times, lo, hi)
          == PositionsIn(times[..n], lo, hi) + (if lo < times[n] <= hi then {n} else {});
    }
  }

  ghost predicate Sorted(times: seq<int>) {
    forall i, j :: 0 <= i <= j < |times| ==> times[i] <= times[j]
  }

  ghost predicate AllAtMost(times: seq<int>, bound: int) {
    forall i :: 0 <= i < |times| ==> times[i] <= bound
  }

  lemma {:induction false} AfterAppend(times: seq<int>, t: int, cutoff: int)
    ensures After(times + [t], cutoff) == After(times, cutoff) + (if t > cutoff then [t] else [])
  {
    assert (times + [t])[..|times|] == times;
  }

  lemma {:induction false} AfterMembers(times: seq<int>, cutoff: int)
    ensures forall t :: t in After(times, cutoff) <==> t in times && t > cutoff
  {
    if times != [] {
      var front := times[..|times| - 1];
      var last := times[|times| - 1];
      AfterMembers(front, cutoff);
      assert times == front + [last];
      assert After(times, cutoff) == After(front, cutoff) + (if last > cutoff then [last] else []);
    }
  }

  lemma {:induction false} AfterSorted(times: seq<int>, cutoff: int)
    requires Sorted(times)
    ensures Sorted(After(times, cutoff))
  {
    if times != [] {
      var front, last := times[..|times| - 1], times[|times| - 1];
      AfterSorted(front, cutoff);
      AfterMembers(front, cutoff);
      var kept := After(front, cutoff);
      assert forall i :: 0 <= i < |kept| ==> kept[i] in kept;
    }
  }

  /** Pruning twice is pruning once at the later cutoff. */
  lemma {:induction false} AfterAfter(times: seq<int>, c1: int, c2: int)
    ensures After(After(times, c1), c2) == After(times, if c1 <= c2 then c2 else c1)
  {
    if times != [] {
      var front, last := times[..|times| - 1], times[|times| - 1];
      AfterAfter(front, c1, c2);
      if last > c1 {
        AfterAppend(After(front, c1), last, c2);
      } else {
        assert After(front, c1) + [] == After(front, c1);
      }
    }
  }

  /** Keeping everything keeps the log as it is. */
  lemma {:induction false} AfterAll(times: seq<int>, cutoff: int)
    requires forall i :: 0 <= i < |times| ==> times[i] > cutoff
    ensures After(times, cutoff) == times
  {
    if times != [] {
      AfterAll(times[..|times| - 1], cutoff);
    }
  }

  lemma {:induction false} AfterMonotone(times: seq<int>, c1: int, c2: int)
    requires c1 <= c2
    ensures |After(times, c2)| <= |After(times, c1)|
  {
    if times != [] {
      AfterMonotone(times[..|times| - 1], c1, c2);
    }
  }

  /** When the log's first entry expires, at least one entry goes. */
  lemma FirstExpires(times: seq<int>, cutoff: int)
    requires times != [] && times[0] <= cutoff
    ensures |After(times, cutoff)| < |times|
  {
    FirstExpiresIn(times, cutoff, |times|);
    assert times[..|times|] == times;
  }

  lemma {:induction false} FirstExpiresIn(times: seq<int>, cutoff: int, n: nat)
    requires 0 < n <= |times| && times[0] <= cutoff
    ensures |After(times[..n], cutoff)| < n
  {
    assert times[..n][..n - 1] == times[..n - 1];
    if n > 1 {
      FirstExpiresIn(times, cutoff, n - 1);
    }
  }

  /** In a sorted log, a window is the tail, after lo, of the calls up to hi. */
  lemma {:induction false} WindowIsPrefixTail(times: seq<int>, lo: int, hi: int) returns (n: nat)
    requires Sorted(times)
    ensures n <= |times| && InWindow(times, lo, hi) == After(times[..n], lo)
    ensures n > 0 ==> times[n - 1] <= hi
  {
    if times == [] {
      n := 0;
    } else {
      var front, last := times[..|times| - 1], times[|times| - 1];
      if last <= hi {
        n := |times|;
        assert times[..n] == times;
        AllBelowIsAfter(times, lo, hi);
      } else {
        n := WindowIsPrefixTail(front, lo, hi);
        assert front[..n] == times[..n];
        assert InWindow(times, lo, hi) == InWindow(front, lo, hi);
      }
    }
  }

  lemma {:induction false} AllBelowIsAfter(times: seq<int>, lo: int, hi: int)
    requires AllAtMost(times, hi)
    ensures InWindow(times, lo, hi) == After(times, lo)
  {
    if times != [] {
      AllBelowIsAfter(times[..|times| - 1], lo, hi);
    }
  }

  /** If the window ending at every admission is within the limit, so is every half-open window
      of the same length, wherever it is placed. */
  lemma EndingWindowsBoundAllWindows(times: seq<int>, length: int, limit: nat, lo: int)
    requires Sorted(times)
    requires forall n {:trigger times[..n]} :: 0 < n <= |times| ==> |After(times[..n], times[n - 1] - length)| <= limit
    ensures |InWindow(times, lo, lo + length)| <= limit
  {
    var n := WindowIsPrefixTail(times, lo, lo + length);
    if n > 0 {
      AfterMonotone(times[..n], times[n - 1] - length, lo);
    }
  }
}
