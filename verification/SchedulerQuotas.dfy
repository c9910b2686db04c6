/** What the pruned logs remember of the full admission history, and the quota bounds that follow. */
module SchedulerQuotas {
  import opened Prelude
  import opened Quota
  import opened Windows
  import opened Ledger
  import opened SchedulerProtocol

  function Times(history: seq<Admission>): (times: seq<int>)
    ensures |times| == |history| && forall i :: 0 <= i < |history| ==> times[i] == history[i].at
  {
    seq(|history|, i requires 0 <= i < |history| => history[i].at)
  }

  function DeviceTimes(history: seq<Admission>, device: string): seq<int> {
    if history == [] then []
    else
      var last := history[|history| - 1];
      DeviceTimes(history[..|history| - 1], device) + (if last.device == device then [last.at] else [])
  }

  /** The window of a given length ending at each call holds at most limit calls. */
  ghost predicate WithinLimit(times: seq<int>, length: int, limit: int) {
    forall n {:trigger times[..n]} :: 0 < n <= |times| ==> |After(times[..n], times[n - 1] - length)| <= limit
  }

  /** The minute ending at the nth admission holds at most the rate then in force. */
  ghost predicate RateKept(o: Options, history: seq<Admission>, n: nat)
    requires 0 < n <= |history|
  {
    |After(Times(history[..n]), history[n - 1].at - MINUTE)| <= history[n - 1].rate <= o.globalQPM
  }

  ghost predicate RatesKept(o: Options, history: seq<Admission>) {
    forall n :: 0 < n <= |history| ==> RateKept(o, history, n)
  }

  /** A pruned log agrees with the full one inside every window still open. */
  ghost predicate Remembers(log: seq<int>, full: seq<int>, since: int) {
    forall x :: x >= since ==> After(log, x) == After(full, x)
  }

  /** One log against its full history, at a given time. */
  ghost predicate LogInv(log: seq<int>, times: seq<int>, clock: int, length: int, limit: int) {
    && Sorted(log) && AllAtMost(log, clock)
    && Sorted(times) && AllAtMost(times, clock)
    && Remembers(log, times, clock - length)
    && |log| <= limit
    && WithinLimit(times, length, limit)
  }

  ghost predicate GlobalInv(o: Options, s: State) {
    && LogInv(s.ledger.globalCalls, Times(s.history), s.clock, MINUTE, o.globalQPM)
    && RatesKept(o, s.history)
  }

  ghost predicate DeviceInv(o: Options, s: State, d: string) {
    LogInv(CallsOf(s.ledger.deviceCalls, d), DeviceTimes(s.history, d), s.clock, HOUR, o.deviceQPH)
  }

  /** Idle devices: no key with an empty log, and none left over from before the last sweep's hour. */
  ghost predicate KeysInv(s: State) {
    && (forall d :: d in s.ledger.deviceCalls ==> s.ledger.deviceCalls[d] != [])
    && (s.ledger.swept.None? ==> s.ledger.deviceCalls == map[])
    && (s.ledger.swept.Some? ==> s.ledger.swept.value <= s.clock)
    && (s.ledger.swept.Some? ==> forall d :: d in s.ledger.deviceCalls ==>
          exists t :: t in s.ledger.deviceCalls[d] && t > s.ledger.swept.value - HOUR)
  }

  ghost predicate QuotaInv(o: Options, s: State) {
    && o.Valid() && ValidRate(o, s.ledger.rate)
    && GlobalInv(o, s)
    && (forall d :: DeviceInv(o, s, d))
    && KeysInv(s)
  }

  // ---- Logs growing and being pruned ----

  lemma RemembersPruned(log: seq<int>, full: seq<int>, since: int, cutoff: int)
    requires Remembers(log, full, since) && since <= cutoff
    ensures Remembers(After(log, cutoff), full, cutoff)
    ensures After(log, cutoff) == After(full, cutoff)
  {
    forall x | x >= cutoff
      ensures After(After(log, cutoff), x) == After(full, x)
    {
      AfterAfter(log, cutoff, x);
    }
  }

  lemma RemembersAppended(log: seq<int>, full: seq<int>, since: int, t: int)
    requires Remembers(log, full, since)
    ensures Remembers(log + [t], full + [t], since)
  {
    forall x | x >= since
      ensures After(log + [t], x) == After(full + [t], x)
    {
      AfterAppend(log, t, x);
      AfterAppend(full, t, x);
    }
  }

  lemma RemembersLater(log: seq<int>, full: seq<int>, since: int, later: int)
    requires Remembers(log, full, since) && since <= later
    ensures Remembers(log, full, later)
  {
  }

  /** A log with room before a call is within its limit after it. */
  lemma LimitAppended(times: seq<int>, length: int, limit: int, t: int)
    requires WithinLimit(times, length, limit) && |After(times, t - length)| < limit && length > 0
    ensures WithinLimit(times + [t], length, limit)
  {
    hide After;
    var longer := times + [t];
    AfterAppend(times, t, t - length);
    forall n | 0 < n <= |longer|
      ensures |After(longer[..n], longer[n - 1] - length)| <= limit
    {
      if n <= |times| {
        assert longer[..n] == times[..n];
      } else {
        assert longer[..n] == longer;
      }
    }
  }

  lemma LogLater(log: seq<int>, times: seq<int>, clock: int, later: int, length: int, limit: int)
    requires LogInv(log, times, clock, length, limit) && clock <= later
    ensures LogInv(log, times, later, length, limit)
  {
    hide After;
    RemembersLater(log, times, clock - length, later - length);
  }

  /** Pruning at now keeps the log's invariant, and leaves exactly the calls of the window ending now. */
  lemma LogPruned(log: seq<int>, times: seq<int>, clock: int, now: int, length: int, limit: int)
    requires LogInv(log, times, clock, length, limit) && clock <= now
    ensures LogInv(After(log, now - length), times, now, length, limit)
    ensures After(log, now - length) == After(times, now - length)
  {
    hide After;
    RemembersPruned(log, times, clock - length, now - length);
    PrunedLog(log, now - length, clock);
  }

  lemma LogRecorded(log: seq<int>, times: seq<int>, now: int, at: int, length: int, limit: int)
    requires LogInv(log, times, now, length, limit) && now <= at && length > 0
    requires |log| < limit && log == After(times, now - length)
    ensures LogInv(log + [at], times + [at], at, length, limit)
    ensures |After(times, at - length)| <= |log|
  {
    hide After;
    LogLater(log, times, now, at, length, limit);
    RemembersAppended(log, times, at - length, at);
    AfterMonotone(times, now - length, at - length);
    LimitAppended(times, length, limit, at);
  }

  lemma TimesAppended(history: seq<Admission>, a: Admission)
    ensures Times(history + [a]) == Times(history) + [a.at]
    ensures DeviceTimes(history + [a], a.device) == DeviceTimes(history, a.device) + [a.at]
    ensures forall d :: d != a.device ==> DeviceTimes(history + [a], d) == DeviceTimes(history, d)
  {
    assert (history + [a])[..|history|] == history;
  }

  lemma PrunedLog(log: seq<int>, cutoff: int, bound: int)
    requires Sorted(log) && AllAtMost(log, bound)
    ensures Sorted(After(log, cutoff)) && AllAtMost(After(log, cutoff), bound)
  {
    AfterSorted(log, cutoff);
    AfterIsLate(log, cutoff);
  }

  // ---- Preservation ----

  lemma GlobalCheck(o: Options, s: State, id: Id, now: int, at: int)
    requires QuotaInv(o, s) && Enabled(o, s, Check(id, now, at))
    ensures GlobalInv(o, CheckStep(o, s, id, now, at))
    ensures ValidRate(o, CheckStep(o, s, id, now, at).ledger.rate)
  {
    hide After, LogInv, RatesKept, DeviceInv, KeysInv, Recovered, PruneOne, PruneAll, WaitOn;
    RecoveryClosedForm(o, s.ledger.rate, now);
    var device := s.callers[id].device;
    var checked := Refreshed(o, s.ledger, device, now);
    var times, log := Times(s.history), s.ledger.globalCalls;
    LogPruned(log, times, s.clock, now, MINUTE, o.globalQPM);
    LogLater(checked.globalCalls, times, now, at, MINUTE, o.globalQPM);
    if WaitOn(o, checked, device, now) <= 0 {
      var a := Admission(device, at, checked.rate.qpm);
      TimesAppended(s.history, a);
      WindowHasRoom(o, s.ledger, device, now);
      LogRecorded(checked.globalCalls, times, now, at, MINUTE, o.globalQPM);
      RatesAppended(o, s.history, a);
    }
  }

  /** With no wait, the refreshed logs are below their limits. */
  lemma WindowHasRoom(o: Options, l: Ledger, device: string, now: int)
    requires o.Valid() && ValidRate(o, l.rate)
    requires Refreshed(o, l, device, now).rate.qpm >= 1 && WaitOn(o, Refreshed(o, l, device, now), device, now) <= 0
    ensures |After(l.globalCalls, now - MINUTE)| < Refreshed(o, l, device, now).rate.qpm
    ensures |After(CallsOf(l.deviceCalls, device), now - HOUR)| < o.deviceQPH
  {
    DeviceCallsPruned(o, l, device, now);
    var g, d := After(l.globalCalls, now - MINUTE), After(CallsOf(l.deviceCalls, device), now - HOUR);
    AfterIsLate(l.globalCalls, now - MINUTE);
    AfterIsLate(CallsOf(l.deviceCalls, device), now - HOUR);
    assert (|g| > 0 ==> g[0] > now - MINUTE) && (|d| > 0 ==> d[0] > now - HOUR);
  }

  lemma RatesAppended(o: Options, history: seq<Admission>, a: Admission)
    requires RatesKept(o, history)
    requires |After(Times(history), a.at - MINUTE)| < a.rate <= o.globalQPM
    ensures RatesKept(o, history + [a])
  {
    hide After;
    var longer := history + [a];
    TimesAppended(history, a);
    AfterAppend(Times(history), a.at, a.at - MINUTE);
    forall n | 0 < n <= |longer|
      ensures RateKept(o, longer, n)
    {
      if n <= |history| {
        assert longer[..n] == history[..n] && RateKept(o, history, n);
      } else {
        assert longer[..n] == longer && longer[n - 1] == a;
      }
    }
  }

  lemma DeviceCheck(o: Options, s: State, id: Id, now: int, at: int, d: string)
    requires QuotaInv(o, s) && Enabled(o, s, Check(id, now, at))
    ensures DeviceInv(o, CheckStep(o, s, id, now, at), d)
  {
    hide After, LogInv, GlobalInv, KeysInv, Recovered, WaitOn;
    RecoveryClosedForm(o, s.ledger.rate, now);
    var device := s.callers[id].device;
    var checked := Refreshed(o, s.ledger, device, now);
    var times, log := DeviceTimes(s.history, d), CallsOf(s.ledger.deviceCalls, d);
    var kept := CallsOf(checked.deviceCalls, d);
    assert DeviceInv(o, s, d);
    assert kept == log || kept == After(log, now - HOUR);
    LogPruned(log, times, s.clock, now, HOUR, o.deviceQPH);
    LogLater(log, times, s.clock, now, HOUR, o.deviceQPH);
    LogLater(kept, times, now, at, HOUR, o.deviceQPH);
    if WaitOn(o, checked, device, now) <= 0 {
      TimesAppended(s.history, Admission(device, at, checked.rate.qpm));
      if d == device {
        DeviceCallsPruned(o, s.ledger, device, now);
        WindowHasRoom(o, s.ledger, device, now);
        LogRecorded(kept, times, now, at, HOUR, o.deviceQPH);
      }
    }
  }

  lemma KeysCheck(o: Options, s: State, id: Id, now: int, at: int)
    requires QuotaInv(o, s) && Enabled(o, s, Check(id, now, at))
    ensures KeysInv(CheckStep(o, s, id, now, at))
  {
    RecoveryClosedForm(o, s.ledger.rate, now);
    var device := s.callers[id].device;
    var checked := Refreshed(o, s.ledger, device, now);
    var s' := CheckStep(o, s, id, now, at);
    forall d | d in s'.ledger.deviceCalls
      ensures exists t :: t in s'.ledger.deviceCalls[d] && t > s'.ledger.swept.value - HOUR
    {
      if d in checked.deviceCalls {
        KeptKeyIsRecent(o, s, device, now, d);
        var t :| t in checked.deviceCalls[d] && t > checked.swept.value - HOUR;
        assert t in s'.ledger.deviceCalls[d];
      } else {
        assert at in s'.ledger.deviceCalls[d];
      }
    }
  }

  lemma KeptKeyIsRecent(o: Options, s: State, device: string, now: int, d: string)
    requires QuotaInv(o, s) && s.clock <= now
    requires d in Refreshed(o, s.ledger, device, now).deviceCalls
    ensures var checked := Refreshed(o, s.ledger, device, now);
            checked.swept.Some? && exists t :: t in checked.deviceCalls[d] && t > checked.swept.value - HOUR
  {
    var checked := Refreshed(o, s.ledger, device, now);
    var log := CallsOf(s.ledger.deviceCalls, d);
    if SweepDue(s.ledger.swept, now) {
      AfterIsLate(log, now - HOUR);
      assert checked.deviceCalls[d][0] in checked.deviceCalls[d];
    } else if d == device {
      AfterIsLate(log, now - HOUR);
      assert checked.deviceCalls[d][0] in checked.deviceCalls[d];
    }
  }

  lemma ClockMoves(o: Options, s: State, now: int, rate: Rate)
    requires QuotaInv(o, s) && s.clock <= now && ValidRate(o, rate)
    ensures QuotaInv(o, s.(clock := now, ledger := s.ledger.(rate := rate)))
  {
    hide LogInv;
    var s' := s.(clock := now, ledger := s.ledger.(rate := rate));
    LogLater(s.ledger.globalCalls, Times(s.history), s.clock, now, MINUTE, o.globalQPM);
    forall d
      ensures DeviceInv(o, s', d)
    {
      assert DeviceInv(o, s, d);
      LogLater(CallsOf(s.ledger.deviceCalls, d), DeviceTimes(s.history, d), s.clock, now, HOUR, o.deviceQPH);
    }
  }

  lemma QuotaStep(o: Options, s: State, e: Event)
    requires QuotaInv(o, s) && Enabled(o, s, e)
    ensures QuotaInv(o, Apply(o, s, e))
  {
    hide GlobalInv, DeviceInv, KeysInv, CheckStep, Recovered;
    match e
    case Check(id, now, at) =>
      GlobalCheck(o, s, id, now, at);
      KeysCheck(o, s, id, now, at);
      forall d
        ensures DeviceInv(o, Apply(o, s, e), d)
      {
        DeviceCheck(o, s, id, now, at, d);
      }
    case RateLimited(now) =>
      RecoveryClosedForm(o, s.ledger.rate, now);
      ClockMoves(o, s, now, Halved(o, s.ledger.rate, now));
    case ReadRate(now) =>
      RecoveryClosedForm(o, s.ledger.rate, now);
      ClockMoves(o, s, now, Recovered(o, s.ledger.rate, now));
    case Tick(now) =>
      ClockMoves(o, s, now, s.ledger.rate);
    case _ =>
      OnlyCallersMove(o, s, e);
      SameQuotas(o, s, Apply(o, s, e));
  }

  lemma OnlyCallersMove(o: Options, s: State, e: Event)
    requires o.Valid() && ValidRate(o, s.ledger.rate) && Enabled(o, s, e)
    requires !e.Check? && !e.RateLimited? && !e.ReadRate? && !e.Tick?
    ensures var s' := Apply(o, s, e); s'.clock == s.clock && s'.ledger == s.ledger && s'.history == s.history
  {
  }

  lemma SameQuotas(o: Options, s: State, s': State)
    requires QuotaInv(o, s) && s'.clock == s.clock && s'.ledger == s.ledger && s'.history == s.history
    ensures QuotaInv(o, s')
  {
    forall d
      ensures DeviceInv(o, s', d)
    {
      assert DeviceInv(o, s, d);
    }
  }
}
