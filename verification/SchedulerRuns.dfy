/** The scheduler's promises over whole runs, of any length and with any number of callers. */
module SchedulerRuns {
  import opened Prelude
  import opened Quota
  import opened Windows
  import opened Ledger
  import opened WaiterHeap
  import opened SchedulerProtocol
  import opened SchedulerQuotas

  /** A run from a new scheduler: each state follows from the one before by an enabled step. */
  ghost predicate Run(o: Options, ss: seq<State>, es: seq<Event>) {
    && o.Valid()
    && |ss| == |es| + 1
    && ss[0] == Init(o, ss[0].clock)
    && forall i :: 0 <= i < |es| ==> ValidRate(o, ss[i].ledger.rate) && Enabled(o, ss[i], es[i]) && ss[i + 1] == Apply(o, ss[i], es[i])
  }

  ghost predicate SlotHeld(s: State) {
    exists owner :: SlotInv(s, owner)
  }

  lemma {:induction false} Reachable(o: Options, ss: seq<State>, es: seq<Event>, i: nat)
    requires Run(o, ss, es) && i < |ss|
    ensures SlotHeld(ss[i]) && QuotaInv(o, ss[i])
  {
    if i == 0 {
      assert SlotInv(ss[0], None);
      assert Times([]) == [];
    } else {
      Reachable(o, ss, es, i - 1);
      var owner :| SlotInv(ss[i - 1], owner);
      SlotStep(o, ss[i - 1], es[i - 1], owner);
      QuotaStep(o, ss[i - 1], es[i - 1]);
    }
  }

  /** The slot is never duplicated and never lost: in every reachable state exactly one caller owns it
      or has been granted it when holder is true, none when it is false, and a non-empty queue has an owner. */
  lemma ExactlyOneOwner(o: Options, ss: seq<State>, es: seq<Event>, i: nat)
    requires Run(o, ss, es) && i < |ss|
    ensures ss[i].holder ==> |Owners(ss[i])| == 1
    ensures !ss[i].holder ==> Owners(ss[i]) == {}
    ensures ss[i].queue != {} ==> ss[i].holder
  {
    Reachable(o, ss, es, i);
    var owner :| SlotInv(ss[i], owner);
    if owner.Some? {
      assert Owners(ss[i]) == {owner.value};
    }
  }

  /** An owner about to release can always do so: the queue is empty or has a first waiter to hand over to. */
  lemma ReleaseIsEnabled(o: Options, ss: seq<State>, es: seq<Event>, i: nat, id: Id) returns (next: Option<Id>)
    requires Run(o, ss, es) && i < |ss|
    requires PhaseOf(ss[i], id).Yielding? || PhaseOf(ss[i], id).Leaving?
    ensures Enabled(o, ss[i], Release(id, next))
  {
    Reachable(o, ss, es, i);
    var owner :| SlotInv(ss[i], owner);
    if ss[i].queue == {} {
      next := None;
    } else {
      QueueKeysDiffer(ss[i], owner);
      var k := LeastKey(ss[i].queue);
      var w :| w in ss[i].callers && ss[i].callers[w].phase.Queued? && ss[i].callers[w].Order() == k;
      next := Some(w);
    }
  }

  ghost predicate DistinctArrivals(keys: set<Key>) {
    forall a, b :: a in keys && b in keys && a != b ==> a.arrival != b.arrival
  }

  lemma QueueKeysDiffer(s: State, owner: Option<Id>)
    requires SlotInv(s, owner)
    ensures DistinctArrivals(s.queue)
  {
    forall a, b | a in s.queue && b in s.queue && a != b
      ensures a.arrival != b.arrival
    {
      var ida :| ida in s.callers && s.callers[ida].phase.Queued? && s.callers[ida].Order() == a;
      var idb :| idb in s.callers && s.callers[idb].phase.Queued? && s.callers[idb].Order() == b;
      assert ida != idb;
    }
  }

  lemma {:induction false} LeastKey(keys: set<Key>) returns (k: Key)
    requires keys != {} && DistinctArrivals(keys)
    ensures IsLeast(k, keys)
    decreases |keys|
  {
    k :| k in keys;
    var rest := keys - {k};
    if rest != {} {
      var picked := k;
      var first := LeastKey(rest);
      assert picked.arrival != first.arrival;
      k := if Before(picked, first) then picked else first;
      forall other | other in keys && other != k
        ensures Before(k, other)
      {
        assert other == picked || other == first || (other in rest && Before(first, other));
      }
    } else {
      assert forall other :: other in keys && other != k ==> other in rest;
    }
  }

  // ---- Quotas over whole runs ----

  /** The admissions of a window, by their place in the history. */
  ghost function AdmittedIn(history: seq<Admission>, lo: int, hi: int): set<nat> {
    set n: nat | n < |history| && lo < history[n].at <= hi
  }

  ghost function AdmittedOf(history: seq<Admission>, device: string, lo: int, hi: int): set<nat> {
    set n: nat | n < |history| && history[n].device == device && lo < history[n].at <= hi
  }

  lemma TimesInWindow(history: seq<Admission>, lo: int, hi: int)
    ensures |InWindow(Times(history), lo, hi)| == |AdmittedIn(history, lo, hi)|
  {
    InWindowCounts(Times(history), lo, hi);
    assert PositionsIn(Times(history), lo, hi) == AdmittedIn(history, lo, hi);
  }

  predicate InIt(a: Admission, device: string, lo: int, hi: int) {
    a.device == device && lo < a.at <= hi
  }

  lemma LastAdmitted(history: seq<Admission>, device: string, lo: int, hi: int)
    requires history != []
    ensures |AdmittedOf(history, device, lo, hi)| == |AdmittedOf(history[..|history| - 1], device, lo, hi)|
                                                     + if InIt(history[|history| - 1], device, lo, hi) then 1 else 0
  {
    var n := |history| - 1;
    assert AdmittedOf(history, device, lo, hi)
        == AdmittedOf(history[..n], device, lo, hi) + (if InIt(history[n], device, lo, hi) then {n} else {});
  }

  lemma LastDeviceTime(history: seq<Admission>, device: string, lo: int, hi: int)
    requires history != []
    ensures |InWindow(DeviceTimes(history, device), lo, hi)|
         == |InWindow(DeviceTimes(history[..|history| - 1], device), lo, hi)|
            + if InIt(history[|history| - 1], device, lo, hi) then 1 else 0
  {
    hide InWindow;
    var last := history[|history| - 1];
    var front := DeviceTimes(history[..|history| - 1], device);
    if last.device == device {
      InWindowAppend(front, last.at, lo, hi);
    } else {
      assert DeviceTimes(history, device) == front;
    }
  }

  lemma {:induction false} DeviceTimesInWindow(history: seq<Admission>, device: string, lo: int, hi: int)
    ensures |InWindow(DeviceTimes(history, device), lo, hi)| == |AdmittedOf(history, device, lo, hi)|
  {
    if history != [] {
      hide InWindow, DeviceTimes, AdmittedOf;
      LastAdmitted(history, device, lo, hi);
      LastDeviceTime(history, device, lo, hi);
      DeviceTimesInWindow(history[..|history| - 1], device, lo, hi);
    }
  }

  /** The calls since lo are those of the window ending at any time no call is later than. */
  lemma AfterInWindow(history: seq<Admission>, device: string, lo: int, hi: int)
    requires AllAtMost(Times(history), hi)
    ensures |After(Times(history), lo)| == |AdmittedIn(history, lo, hi)|
    ensures AllAtMost(DeviceTimes(history, device), hi) ==>
              |After(DeviceTimes(history, device), lo)| == |AdmittedOf(history, device, lo, hi)|
  {
    TimesInWindow(history, lo, hi);
    AllBelowIsAfter(Times(history), lo, hi);
    DeviceTimesInWindow(history, device, lo, hi);
    if AllAtMost(DeviceTimes(history, device), hi) {
      AllBelowIsAfter(DeviceTimes(history, device), lo, hi);
    }
  }

  /** No half-open minute, wherever it is placed, holds more than GlobalQPM admissions. */
  lemma MinuteBound(o: Options, ss: seq<State>, es: seq<Event>, i: nat, lo: int)
    requires Run(o, ss, es) && i < |ss|
    ensures |AdmittedIn(ss[i].history, lo, lo + MINUTE)| <= o.globalQPM
  {
    TimesInWindow(ss[i].history, lo, lo + MINUTE);
    Reachable(o, ss, es, i);
    EndingWindowsBoundAllWindows(Times(ss[i].history), MINUTE, o.globalQPM, lo);
  }

  /** No half-open hour holds more than DeviceQPH admissions of one device. */
  lemma HourBound(o: Options, ss: seq<State>, es: seq<Event>, i: nat, device: string, lo: int)
    requires Run(o, ss, es) && i < |ss|
    ensures |AdmittedOf(ss[i].history, device, lo, lo + HOUR)| <= o.deviceQPH
  {
    DeviceTimesInWindow(ss[i].history, device, lo, lo + HOUR);
    Reachable(o, ss, es, i);
    assert DeviceInv(o, ss[i], device);
    EndingWindowsBoundAllWindows(DeviceTimes(ss[i].history, device), HOUR, o.deviceQPH, lo);
  }

  /** The minute ending at an admission holds at most the effective rate at that moment. */
  lemma EffectiveRateBound(o: Options, ss: seq<State>, es: seq<Event>, i: nat, n: nat)
    requires Run(o, ss, es) && i < |ss| && 0 < n <= |ss[i].history|
    ensures var a := ss[i].history[n - 1];
            |AdmittedIn(ss[i].history[..n], a.at - MINUTE, a.at)| <= a.rate <= o.globalQPM
  {
    Reachable(o, ss, es, i);
    var history, a := ss[i].history, ss[i].history[n - 1];
    assert RateKept(o, history, n);
    assert Times(history[..n]) == Times(history)[..n];
    AfterInWindow(history[..n], a.device, a.at - MINUTE, a.at);
  }

  /** A check at now admits its caller if and only if the minute up to now holds fewer admissions than the rate then
      in force and the hour fewer of its device than DeviceQPH; the admission is recorded with that rate. */
  lemma AdmitsExactlyWithRoom(o: Options, ss: seq<State>, es: seq<Event>, i: nat)
    requires Run(o, ss, es) && i < |es| && es[i].Check?
    ensures es[i].id in ss[i].callers
    ensures var (s, s') := (ss[i], ss[i + 1]);
            var device := s.callers[es[i].id].device;
            var rate := s'.ledger.rate.qpm;
            && (s'.history == s.history || s'.history == s.history + [Admission(device, es[i].at, rate)])
            && (s'.history != s.history <==>
                  && |AdmittedIn(s.history, es[i].now - MINUTE, es[i].now)| < rate
                  && |AdmittedOf(s.history, device, es[i].now - HOUR, es[i].now)| < o.deviceQPH)
            && (if s'.history != s.history then PhaseOf(s', es[i].id).Running? else PhaseOf(s', es[i].id).Yielding?)
  {
    hide CheckStep, QuotaInv;
    Reachable(o, ss, es, i);
    CheckAdmits(o, ss[i], es[i].id, es[i].now, es[i].at);
    assert ss[i + 1] == CheckStep(o, ss[i], es[i].id, es[i].now, es[i].at);
  }

  lemma CheckAdmits(o: Options, s: State, id: Id, now: int, at: int)
    requires QuotaInv(o, s) && Enabled(o, s, Check(id, now, at))
    ensures var s' := CheckStep(o, s, id, now, at);
            var device := s.callers[id].device;
            var rate := s'.ledger.rate.qpm;
            && (s'.history == s.history || s'.history == s.history + [Admission(device, at, rate)])
            && (s'.history != s.history <==>
                  && |AdmittedIn(s.history, now - MINUTE, now)| < rate
                  && |AdmittedOf(s.history, device, now - HOUR, now)| < o.deviceQPH)
            && (if s'.history != s.history then PhaseOf(s', id).Running? else PhaseOf(s', id).Yielding?)
  {
    hide After, Recovered, WaitOn, Refreshed, HasRoom, GlobalInv, DeviceInv, KeysInv;
    var device := s.callers[id].device;
    RoomInHistory(o, s, device, now);
  }

  /** The logs show as much room as the whole history does. */
  lemma RoomInHistory(o: Options, s: State, device: string, now: int)
    requires QuotaInv(o, s) && s.clock <= now
    ensures var next := Refreshed(o, s.ledger, device, now);
            && next.rate.qpm >= 1
            && (WaitOn(o, next, device, now) == 0 <==>
                  && |AdmittedIn(s.history, now - MINUTE, now)| < next.rate.qpm
                  && |AdmittedOf(s.history, device, now - HOUR, now)| < o.deviceQPH)
  {
    hide After, Recovered, WaitOn, Refreshed, PruneAll, PruneOne, WithinLimit, KeysInv, RatesKept;
    LogsAreSorted(o, s);
    WaitIsExact(o, s.ledger, device, now, now);
    assert DeviceInv(o, s, device);
    AfterInWindow(s.history, device, now - MINUTE, now);
    AfterInWindow(s.history, device, now - HOUR, now);
  }

  lemma LogsAreSorted(o: Options, s: State)
    requires QuotaInv(o, s)
    ensures LogsSorted(s.ledger) && LogsBefore(s.ledger, s.clock)
  {
    hide After, Remembers, WithinLimit;
    forall d | d in s.ledger.deviceCalls
      ensures Sorted(s.ledger.deviceCalls[d]) && AllAtMost(s.ledger.deviceCalls[d], s.clock)
    {
      assert DeviceInv(o, s, d);
    }
  }

  /** A caller that is not admitted waits until the first call of a full log leaves its window and every full log has
      lost its first call, and not longer. */
  lemma BlockedUntilRoom(o: Options, ss: seq<State>, es: seq<Event>, i: nat)
    requires Run(o, ss, es) && i < |es| && es[i].Check? && PhaseOf(ss[i + 1], es[i].id).Yielding?
    ensures es[i].id in ss[i].callers && ss[i + 1].ledger.rate.qpm >= 1
    ensures var l := ss[i + 1].ledger;
            var device := CallsOf(l.deviceCalls, ss[i].callers[es[i].id].device);
            var end := es[i].now + PhaseOf(ss[i + 1], es[i].id).wait;
            && (EndsAt(l.globalCalls, l.rate.qpm, MINUTE, end) || EndsAt(device, o.deviceQPH, HOUR, end))
            && (|l.globalCalls| >= l.rate.qpm ==> l.globalCalls[0] + MINUTE <= end)
            && (|device| >= o.deviceQPH ==> device[0] + HOUR <= end)
  {
    hide After, Recovered, WaitOn, PruneAll, PruneOne, Recorded, GlobalInv, DeviceInv, KeysInv;
    Reachable(o, ss, es, i);
    RecoveryClosedForm(o, ss[i].ledger.rate, es[i].now);
    var device := ss[i].callers[es[i].id].device;
    assert ss[i + 1].ledger == Refreshed(o, ss[i].ledger, device, es[i].now);
    WaitEndsOnTime(o, ss[i + 1].ledger, device, es[i].now);
  }

  /** And it sleeps that long outside the queue before it may come back. */
  lemma SleepsItsWait(o: Options, ss: seq<State>, es: seq<Event>, i: nat)
    requires Run(o, ss, es) && i < |es| && es[i].Release? && PhaseOf(ss[i], es[i].id).Yielding?
    ensures PhaseOf(ss[i + 1], es[i].id) == Sleeping(ss[i].clock + PhaseOf(ss[i], es[i].id).wait)
    ensures i + 1 < |es| && es[i + 1] == Slept(es[i].id) ==>
              ss[i + 1].clock >= ss[i].clock + PhaseOf(ss[i], es[i].id).wait
  {
    assert ss[i + 1] == Apply(o, ss[i], es[i]);
  }

  /** A 429 leaves half of what the rate had recovered to, but at least one; so too over a whole run. */
  lemma RateLimitedHalves(o: Options, ss: seq<State>, es: seq<Event>, i: nat)
    requires Run(o, ss, es) && i < |es| && es[i].RateLimited?
    ensures var (r, r') := (ss[i].ledger.rate, ss[i + 1].ledger.rate);
            && r'.limited == Some(es[i].now)
            && (NoFullInterval(o, r, es[i].now) ==> r'.qpm == Max(1, r.qpm / 2))
            && forall k: nat :: FullIntervals(o, r, es[i].now, k) ==>
                 r'.qpm == Max(1, Min(o.globalQPM, r.qpm * Pow2(k)) / 2)
  {
    hide Halved, FullIntervals;
    HalvedExactly(o, ss[i].ledger.rate, es[i].now);
  }

  /** The pruned logs are the full history as seen through the open windows, and stay small. */
  lemma LogsRefineHistory(o: Options, ss: seq<State>, es: seq<Event>, i: nat, device: string)
    requires Run(o, ss, es) && i < |ss|
    ensures After(ss[i].ledger.globalCalls, ss[i].clock - MINUTE) == After(Times(ss[i].history), ss[i].clock - MINUTE)
    ensures |ss[i].ledger.globalCalls| <= o.globalQPM
    ensures var log := CallsOf(ss[i].ledger.deviceCalls, device);
            && After(log, ss[i].clock - HOUR) == After(DeviceTimes(ss[i].history, device), ss[i].clock - HOUR)
            && |log| <= o.deviceQPH
            && (device in ss[i].ledger.deviceCalls ==> 1 <= |log|)
  {
    Reachable(o, ss, es, i);
    assert DeviceInv(o, ss[i], device);
  }

  ghost predicate HasCallAfter(calls: seq<int>, since: int) {
    exists t :: t in calls && t > since
  }

  /** After any waitFor, every device still on record has a call within the last two hours. */
  lemma IdleDevicesForgotten(o: Options, ss: seq<State>, es: seq<Event>, i: nat, device: string)
    requires Run(o, ss, es) && i < |es| && es[i].Check?
    requires device in ss[i + 1].ledger.deviceCalls
    ensures HasCallAfter(ss[i + 1].ledger.deviceCalls[device], es[i].now - 2 * HOUR)
  {
    Reachable(o, ss, es, i);
    Reachable(o, ss, es, i + 1);
    SweptRecently(o, ss[i], es[i].id, es[i].now, es[i].at);
    var s := ss[i + 1];
    var t :| t in s.ledger.deviceCalls[device] && t > s.ledger.swept.value - HOUR;
  }

  lemma SweptRecently(o: Options, s: State, id: Id, now: int, at: int)
    requires QuotaInv(o, s) && Enabled(o, s, Check(id, now, at))
    ensures var s' := CheckStep(o, s, id, now, at);
            s'.ledger.swept.Some? && s'.ledger.swept.value > now - HOUR
  {
  }

  // ---- Priority over whole runs ----

  /** A caller takes the slot at step k. */
  ghost predicate TakesSlot(s: State, s': State, c: Id) {
    !Owns(PhaseOf(s, c)) && Owns(PhaseOf(s', c))
  }

  lemma OvertakeStep(o: Options, s: State, e: Event, id: Id, c: Id)
    requires SlotHeld(s) && QuotaInv(o, s) && Enabled(o, s, e)
    requires PhaseOf(s, id).Queued? && PhaseOf(Apply(o, s, e), id).Queued?
    requires TakesSlot(s, Apply(o, s, e), c)
    ensures c in s.callers && s.callers[c].phase.Queued?
    ensures Apply(o, s, e).callers[c].Order() == s.callers[c].Order()
    ensures Before(s.callers[c].Order(), s.callers[id].Order())
  {
    hide QuotaInv, Recovered, Refreshed, Recorded, WaitOn, Halved;
    var owner :| SlotInv(s, owner);
    assert s.callers[id].Order() in s.queue;
    assert e.Release? && e.next == Some(c);
  }

  lemma KeepsPlace(o: Options, s: State, e: Event, id: Id)
    requires QuotaInv(o, s) && Enabled(o, s, e) && id in s.callers && s.callers[id].arrival != 0
    ensures id in Apply(o, s, e).callers && Apply(o, s, e).callers[id].Order() == s.callers[id].Order()
  {
    hide QuotaInv, Recovered, Refreshed, Recorded, WaitOn, Halved, IsLeast;
  }

  /** Numbers handed out later are larger; a caller numbered by the time k keeps its number. */
  lemma {:induction false} NumbersGrow(o: Options, ss: seq<State>, es: seq<Event>, i: nat, k: nat, c: Id)
    requires Run(o, ss, es) && i <= k < |ss| && c in ss[k].callers
    ensures ss[i].arrivals <= ss[k].arrivals
    ensures 0 < ss[k].callers[c].arrival <= ss[i].arrivals ==>
              c in ss[i].callers && ss[i].callers[c].Order() == ss[k].callers[c].Order()
    decreases k
  {
    if i < k {
      Reachable(o, ss, es, k - 1);
      NumberBefore(o, ss[k - 1], es[k - 1], c);
      if c in ss[k - 1].callers {
        NumbersGrow(o, ss, es, i, k - 1, c);
      } else {
        ArrivalsGrow(o, ss, es, i, k - 1);
      }
    }
  }

  lemma {:induction false} ArrivalsGrow(o: Options, ss: seq<State>, es: seq<Event>, i: nat, k: nat)
    requires Run(o, ss, es) && i <= k < |ss|
    ensures ss[i].arrivals <= ss[k].arrivals
    decreases k
  {
    if i < k {
      ArrivalsGrow(o, ss, es, i, k - 1);
      ArrivalsStep(o, ss[k - 1], es[k - 1]);
    }
  }

  lemma ArrivalsStep(o: Options, s: State, e: Event)
    requires o.Valid() && ValidRate(o, s.ledger.rate) && Enabled(o, s, e)
    ensures s.arrivals <= Apply(o, s, e).arrivals
  {
    hide Recovered, Refreshed, Recorded, WaitOn, Halved, IsLeast;
  }

  lemma NumberBefore(o: Options, s: State, e: Event, c: Id)
    requires QuotaInv(o, s) && Enabled(o, s, e) && c in Apply(o, s, e).callers
    ensures s.arrivals <= Apply(o, s, e).arrivals
    ensures var now := Apply(o, s, e).callers[c];
            now.arrival == 0 || now.arrival > s.arrivals || (c in s.callers && s.callers[c].Order() == now.Order())
  {
    hide QuotaInv, Recovered, Refreshed, Recorded, WaitOn, Halved, IsLeast;
  }

  ghost predicate QueuedThroughout(ss: seq<State>, id: Id, i: nat, j: nat)
    requires i <= j < |ss|
  {
    forall k {:trigger ss[k]} :: i <= k <= j ==> PhaseOf(ss[k], id).Queued?
  }

  lemma {:induction false} SamePlace(o: Options, ss: seq<State>, es: seq<Event>, id: Id, i: nat, k: nat)
    requires Run(o, ss, es) && i <= k < |ss| && QueuedThroughout(ss, id, i, k)
    ensures ss[k].callers[id].Order() == ss[i].callers[id].Order()
    decreases k
  {
    if i < k {
      SamePlace(o, ss, es, id, i, k - 1);
      Reachable(o, ss, es, k - 1);
      var owner :| SlotInv(ss[k - 1], owner);
      KeepsPlace(o, ss[k - 1], es[k - 1], id);
    }
  }

  /** While a waiter stays queued, every caller that takes the slot has a lower priority value, or the same one and a
      number handed out before the waiter's, even one that had gone to sleep for quota and queued again. So nobody
      of a higher value passes it, nor anybody of the same value who first acquired after it. */
  lemma NeverPassed(o: Options, ss: seq<State>, es: seq<Event>, id: Id, i: nat, j: nat, k: nat, c: Id)
    requires Run(o, ss, es) && i <= k < j < |ss| && QueuedThroughout(ss, id, i, j)
    requires TakesSlot(ss[k], ss[k + 1], c)
    ensures ss[k + 1].callers[c].priority <= ss[i].callers[id].priority
    ensures ss[k + 1].callers[c].priority == ss[i].callers[id].priority ==>
              c in ss[i].callers && 0 < ss[i].callers[c].arrival < ss[i].callers[id].arrival
  {
    assert PhaseOf(ss[k], id).Queued? && PhaseOf(ss[k + 1], id).Queued?;
    Reachable(o, ss, es, k);
    OvertakeStep(o, ss[k], es[k], id, c);
    SamePlace(o, ss, es, id, i, k);
    Reachable(o, ss, es, i);
    var owner :| SlotInv(ss[i], owner);
    var ownerK :| SlotInv(ss[k], ownerK);
    NumbersGrow(o, ss, es, i, k, c);
  }

  /** A queued renewal is passed by no connect, and only by renewals that first acquired before it. */
  lemma RenewalNotPassed(o: Options, ss: seq<State>, es: seq<Event>, id: Id, i: nat, j: nat, k: nat, c: Id)
    requires Run(o, ss, es) && i <= k < j < |ss| && QueuedThroughout(ss, id, i, j)
    requires ss[i].callers[id].priority == PRIORITY_RENEWAL
    requires TakesSlot(ss[k], ss[k + 1], c)
    ensures ss[k + 1].callers[c].priority != PRIORITY_CONNECT
    ensures ss[k + 1].callers[c].priority == PRIORITY_RENEWAL ==>
              c in ss[i].callers && 0 < ss[i].callers[c].arrival < ss[i].callers[id].arrival
  {
    NeverPassed(o, ss, es, id, i, j, k, c);
  }
}
