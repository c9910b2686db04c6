/** The scheduler's quota state as a value: the recovering rate and the two sliding windows. */
module Quota {
  import opened Prelude

  const MINUTE: int := 60_000_000_000   // in nanoseconds, as time.Duration
  const HOUR: int := 60 * MINUTE

  datatype Options = Options(globalQPM: int, deviceQPH: int, recovery: int) {
    predicate Valid() {
      globalQPM >= 1 && deviceQPH >= 1 && recovery >= 1
    }
  }

  /** NewScheduler's defaults for options that are not positive. */
  function Defaulted(raw: Options): (o: Options)
    ensures o.Valid()
    ensures raw.Valid() ==> o == raw
  {
    Options(
      if raw.globalQPM <= 0 then 8 else raw.globalQPM,
      if raw.deviceQPH <= 0 then 90 else raw.deviceQPH,
      if raw.recovery <= 0 then 5 * MINUTE else raw.recovery)
  }

  // ---- The rate ----

  /** limited is None for Go's zero time: no 429 has been seen. */
  datatype Rate = Rate(qpm: int, limited: Option<int>)

  predicate ValidRate(o: Options, r: Rate) {
    1 <= r.qpm <= o.globalQPM
  }

  /** Complete quiet intervals since the last 429 or the last doubling. */
  function QuietIntervals(o: Options, r: Rate, now: int): nat
    requires o.Valid()
  {
    if r.limited.None? || now < r.limited.value then 0
    else (now - r.limited.value) / o.recovery
  }

  /** The least j with q * 2^j >= ceiling. */
  function DoublingsToFull(q: int, ceiling: int): nat
    requires q >= 1
    decreases ceiling - q
  {
    if q >= ceiling then 0 else 1 + DoublingsToFull(2 * q, ceiling)
  }

  /** recoverRate in one step: k doublings at once, where the code doubles k times. */
  function Recovered(o: Options, r: Rate, now: int): Rate
    requires o.Valid() && r.qpm >= 1
  {
    if r.limited.None? then r
    else
      var k: nat := if QuietIntervals(o, r, now) <= DoublingsToFull(r.qpm, o.globalQPM)
                    then QuietIntervals(o, r, now) else DoublingsToFull(r.qpm, o.globalQPM);
      if k == 0 then r
      else Rate(Min(o.globalQPM, r.qpm * Pow2(k)), Some(r.limited.value + k * o.recovery))
  }

  /** NoteRateLimited: recover first, then halve to a floor of one. */
  function Halved(o: Options, r: Rate, now: int): Rate
    requires o.Valid() && r.qpm >= 1
  {
    var q := Recovered(o, r, now).qpm;
    Rate(if q > 1 then q / 2 else q, Some(now))
  }

  lemma {:induction false} EnoughDoublings(q: int, ceiling: int, k: nat)
    requires q >= 1
    ensures q * Pow2(k) >= ceiling <==> k >= DoublingsToFull(q, ceiling)
    decreases k
  {
    if k == 0 {
    } else if q >= ceiling {
      assert q * Pow2(k) >= q;
    } else {
      EnoughDoublings(2 * q, ceiling, k - 1);
      assert 2 * q * Pow2(k - 1) == q * Pow2(k);
    }
  }

  lemma {:induction false} DoublingsShift(q: int, ceiling: int, k: nat)
    requires q >= 1 && k <= DoublingsToFull(q, ceiling)
    ensures q * Pow2(k) >= 1
    ensures DoublingsToFull(q * Pow2(k), ceiling) == DoublingsToFull(q, ceiling) - k
    decreases k
  {
    if k > 0 {
      DoublingsShift(2 * q, ceiling, k - 1);
      assert 2 * q * Pow2(k - 1) == q * Pow2(k);
    }
  }

  /** The rate after recovery is the last rate doubled once per quiet interval, capped. */
  lemma RecoveryClosedForm(o: Options, r: Rate, now: int)
    requires o.Valid() && ValidRate(o, r)
    ensures Recovered(o, r, now).qpm == Min(o.globalQPM, r.qpm * Pow2(QuietIntervals(o, r, now)))
    ensures ValidRate(o, Recovered(o, r, now))
  {
    var k := QuietIntervals(o, r, now);
    var full := DoublingsToFull(r.qpm, o.globalQPM);
    EnoughDoublings(r.qpm, o.globalQPM, k);
    EnoughDoublings(r.qpm, o.globalQPM, full);
    DoublingsShift(r.qpm, o.globalQPM, if k <= full then k else full);
  }

  /** No 429 yet, or less than one recovery interval since. */
  predicate NoFullInterval(o: Options, r: Rate, now: int) {
    r.limited.None? || now - r.limited.value < o.recovery
  }

  /** Exactly k full recovery intervals since the last 429 or doubling. */
  predicate FullIntervals(o: Options, r: Rate, now: int, k: nat) {
    r.limited.Some? && k * o.recovery <= now - r.limited.value < (k + 1) * o.recovery
  }

  /** Without a full quiet interval the rate stays; with k of them it has doubled k times, up to the ceiling. */
  lemma RecoveredExactly(o: Options, r: Rate, now: int)
    requires o.Valid() && ValidRate(o, r)
    ensures NoFullInterval(o, r, now) ==> Recovered(o, r, now) == r
    ensures forall k: nat :: FullIntervals(o, r, now, k) ==>
              Recovered(o, r, now).qpm == Min(o.globalQPM, r.qpm * Pow2(k))
  {
    hide Recovered, DoublingsToFull;
    RecoveryClosedForm(o, r, now);
    if NoFullInterval(o, r, now) {
      StaysWithoutInterval(o, r, now);
    }
    forall k: nat | FullIntervals(o, r, now, k)
      ensures Recovered(o, r, now).qpm == Min(o.globalQPM, r.qpm * Pow2(k))
    {
      Distributes(k, 1, o.recovery);
      MulMonotone(0, k, o.recovery);
      QuotientUnique(now - r.limited.value, o.recovery, k);
    }
  }

  lemma StaysWithoutInterval(o: Options, r: Rate, now: int)
    requires o.Valid() && ValidRate(o, r) && NoFullInterval(o, r, now)
    ensures Recovered(o, r, now) == r
  {
    if r.limited.Some? && now >= r.limited.value {
      QuotientUnique(now - r.limited.value, o.recovery, 0);
    }
  }

  /** A 429 leaves half the recovered rate, but at least one, and starts the quiet time anew. */
  lemma HalvedExactly(o: Options, r: Rate, now: int)
    requires o.Valid() && ValidRate(o, r)
    ensures Halved(o, r, now).limited == Some(now)
    ensures NoFullInterval(o, r, now) ==> Halved(o, r, now).qpm == Max(1, r.qpm / 2)
    ensures forall k: nat :: FullIntervals(o, r, now, k) ==>
              Halved(o, r, now).qpm == Max(1, Min(o.globalQPM, r.qpm * Pow2(k)) / 2)
  {
    hide Recovered, Pow2, FullIntervals;
    RecoveryClosedForm(o, r, now);
    RecoveredExactly(o, r, now);
  }

  /** Recovering at t1 and again at t2 leaves the same rate and timestamp as recovering once at t2. */
  lemma RecoveryPathIndependent(o: Options, r: Rate, t1: int, t2: int)
    requires o.Valid() && ValidRate(o, r) && t1 <= t2
    ensures Recovered(o, Recovered(o, r, t1), t2) == Recovered(o, r, t2)
  {
    if r.limited.Some? && t1 >= r.limited.value {
      var mid := Recovered(o, r, t1);
      var start := r.limited.value;
      var k1 := QuietIntervals(o, r, t1);
      var k2 := QuietIntervals(o, r, t2);
      var full := DoublingsToFull(r.qpm, o.globalQPM);
      QuotientMonotone(t1 - start, t2 - start, o.recovery);
      var done := if k1 <= full then k1 else full;
      DoublingsShift(r.qpm, o.globalQPM, done);
      EnoughDoublings(r.qpm, o.globalQPM, done);
      if done == full {
        assert DoublingsToFull(mid.qpm, o.globalQPM) == 0;
      } else {
        assert mid.qpm == r.qpm * Pow2(k1) && mid.limited == Some(start + k1 * o.recovery);
        QuotientShift(t2 - start, o.recovery, k1);
        QuotientBound(t1 - start, o.recovery);
        assert QuietIntervals(o, mid, t2) == k2 - k1;
        assert DoublingsToFull(mid.qpm, o.globalQPM) == full - k1;
        var more := (if k2 <= full then k2 else full) - k1;
        Pow2Sum(k1, more);
        MulAssociates(r.qpm, Pow2(k1), Pow2(more));
        assert (start + k1 * o.recovery) + more * o.recovery == start + (k1 + more) * o.recovery by {
          Distributes(k1, more, o.recovery);
        }
      }
    }
  }

  /** From any rate, k quiet intervals with 2^k >= GlobalQPM after a 429 restore it fully. */
  lemma QuietRestoresFully(o: Options, r: Rate, limitedAt: int, now: int, k: nat)
    requires o.Valid() && ValidRate(o, r)
    requires Pow2(k) >= o.globalQPM && now - limitedAt >= k * o.recovery
    ensures Recovered(o, Halved(o, r, limitedAt), now).qpm == o.globalQPM
  {
    RecoveryClosedForm(o, r, limitedAt);
    var h := Halved(o, r, limitedAt);
    RecoveryClosedForm(o, h, now);
    var intervals := QuietIntervals(o, h, now);
    assert k * o.recovery >= 0;
    QuotientMonotone(k * o.recovery, now - limitedAt, o.recovery);
    QuotientExact(k, o.recovery);
    Pow2Monotone(k, intervals);
    MulMonotone(1, h.qpm, Pow2(intervals));
  }
}
