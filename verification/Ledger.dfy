/** waitFor and admission over the scheduler's quota state as a value. */
module Ledger {
  import opened Prelude
  import opened Quota
  import opened Windows

  datatype Ledger = Ledger(
    rate: Rate,
    globalCalls: seq<int>,
    deviceCalls: map<string, seq<int>>,
    swept: Option<int>)

  function CallsOf(calls: map<string, seq<int>>, id: string): seq<int> {
    if id in calls then calls[id] else []
  }

  predicate SweepDue(swept: Option<int>, now: int) {
    swept.None? || now - swept.value >= HOUR
  }

  /** Every device list pruned, and the devices with nothing left dropped. */
  function PruneAll(calls: map<string, seq<int>>, cutoff: int): map<string, seq<int>> {
    map id | id in calls && After(calls[id], cutoff) != [] :: After(calls[id], cutoff)
  }

  function PruneOne(calls: map<string, seq<int>>, id: string, cutoff: int): map<string, seq<int>> {
    if After(CallsOf(calls, id), cutoff) == [] then calls - {id}
    else calls[id := After(CallsOf(calls, id), cutoff)]
  }

  /** The state waitFor leaves behind. */
  function Refreshed(o: Options, l: Ledger, id: string, now: int): Ledger
    requires o.Valid() && l.rate.qpm >= 1
  {
    Ledger(
      Recovered(o, l.rate, now),
      After(l.globalCalls, now - MINUTE),
      if SweepDue(l.swept, now) then PruneAll(l.deviceCalls, now - HOUR)
      else PruneOne(l.deviceCalls, id, now - HOUR),
      if SweepDue(l.swept, now) then Some(now) else l.swept)
  }

  /** How long until one log is below its limit: until its first call leaves the window. */
  function WindowWait(calls: seq<int>, limit: int, length: int, now: int): int
    requires limit >= 1
  {
    if |calls| >= limit then length - (now - calls[0]) else 0
  }

  /** The wait waitFor computes on the refreshed state. */
  function WaitOn(o: Options, l: Ledger, id: string, now: int): (wait: int)
    requires o.Valid() && l.rate.qpm >= 1
    ensures wait >= 0
  {
    Max(Max(0, WindowWait(l.globalCalls, l.rate.qpm, MINUTE, now)),
        WindowWait(CallsOf(l.deviceCalls, id), o.deviceQPH, HOUR, now))
  }

  function Recorded(l: Ledger, id: string, at: int): Ledger {
    l.(globalCalls := l.globalCalls + [at],
       deviceCalls := l.deviceCalls[id := CallsOf(l.deviceCalls, id) + [at]])
  }

  /** Room in both windows at an instant, at a given rate. */
  predicate HasRoom(o: Options, l: Ledger, id: string, qpm: int, at: int) {
    && |After(l.globalCalls, at - MINUTE)| < qpm
    && |After(CallsOf(l.deviceCalls, id), at - HOUR)| < o.deviceQPH
  }

  ghost predicate LogsSorted(l: Ledger) {
    && Sorted(l.globalCalls)
    && forall id :: id in l.deviceCalls ==> Sorted(l.deviceCalls[id])
  }

  ghost predicate LogsBefore(l: Ledger, now: int) {
    && AllAtMost(l.globalCalls, now)
    && forall id :: id in l.deviceCalls ==> AllAtMost(l.deviceCalls[id], now)
  }

  /** Neither pruning branch changes what a device has inside its hour. */
  lemma DeviceCallsPruned(o: Options, l: Ledger, id: string, now: int)
    requires o.Valid() && l.rate.qpm >= 1
    ensures CallsOf(Refreshed(o, l, id, now).deviceCalls, id) == After(CallsOf(l.deviceCalls, id), now - HOUR)
  {
  }

  /** A window wait is positive exactly when the log is full, and no shorter wait empties a place. */
  lemma WindowWaitExact(calls: seq<int>, limit: int, length: int, now: int, later: int)
    requires limit >= 1 && Sorted(calls) && AllAtMost(calls, now)
    requires forall i :: 0 <= i < |calls| ==> calls[i] > now - length
    ensures WindowWait(calls, limit, length, now) > 0 <==> |calls| >= limit
    ensures WindowWait(calls, limit, length, now) >= 0
    ensures now <= later < now + WindowWait(calls, limit, length, now) ==> |After(calls, later - length)| >= limit
  {
    if now <= later < now + WindowWait(calls, limit, length, now) {
      AfterAll(calls, later - length);
    }
  }

  lemma AfterIsLate(times: seq<int>, cutoff: int)
    ensures forall i :: 0 <= i < |After(times, cutoff)| ==> After(times, cutoff)[i] > cutoff
    ensures forall bound {:trigger AllAtMost(times, bound)} :: AllAtMost(times, bound) ==> AllAtMost(After(times, cutoff), bound)
  {
    AfterMembers(times, cutoff);
    var kept := After(times, cutoff);
    assert forall i :: 0 <= i < |kept| ==> kept[i] in kept;
  }

  /** waitFor is exact at the rate it sees: it returns zero if and only if both windows have room
      now, and while that rate holds there is no room at any instant before the wait is over. */
  lemma WaitIsExact(o: Options, l: Ledger, id: string, now: int, later: int)
    requires o.Valid() && ValidRate(o, l.rate) && LogsSorted(l) && LogsBefore(l, now)
    ensures var next := Refreshed(o, l, id, now);
            && next.rate.qpm >= 1
            && (WaitOn(o, next, id, now) == 0 <==> HasRoom(o, l, id, next.rate.qpm, now))
            && (now <= later < now + WaitOn(o, next, id, now) ==> !HasRoom(o, next, id, next.rate.qpm, later))
  {
    RecoveryClosedForm(o, l.rate, now);
    DeviceCallsPruned(o, l, id, now);
    var next := Refreshed(o, l, id, now);
    var device := CallsOf(l.deviceCalls, id);
    AfterSorted(l.globalCalls, now - MINUTE);
    AfterSorted(device, now - HOUR);
    AfterIsLate(l.globalCalls, now - MINUTE);
    AfterIsLate(device, now - HOUR);
    WindowWaitExact(next.globalCalls, next.rate.qpm, MINUTE, now, later);
    WindowWaitExact(CallsOf(next.deviceCalls, id), o.deviceQPH, HOUR, now, later);
  }

  /** When one log's wait ends, if it made any. */
  predicate EndsAt(calls: seq<int>, limit: int, length: int, end: int)
    requires limit >= 1
  {
    |calls| >= limit && calls[0] + length == end
  }

  /** A wait ends at the instant the first call of a full log leaves its window, when every full log has lost its
      first call: it is the longer of the two waits and no more. */
  lemma WaitEndsOnTime(o: Options, l: Ledger, id: string, now: int)
    requires o.Valid() && l.rate.qpm >= 1 && WaitOn(o, l, id, now) > 0
    ensures var end := now + WaitOn(o, l, id, now);
            && (|| EndsAt(l.globalCalls, l.rate.qpm, MINUTE, end)
                || EndsAt(CallsOf(l.deviceCalls, id), o.deviceQPH, HOUR, end))
            && (|l.globalCalls| >= l.rate.qpm ==> l.globalCalls[0] + MINUTE <= end)
            && (|CallsOf(l.deviceCalls, id)| >= o.deviceQPH ==> CallsOf(l.deviceCalls, id)[0] + HOUR <= end)
  {
  }

  /** A completed wait strictly shrinks the two logs it was computed from. */
  lemma WaitShrinksLogs(o: Options, l: Ledger, id: string, now: int, later: int)
    requires o.Valid() && ValidRate(o, l.rate) && WaitOn(o, l, id, now) > 0
    requires later >= now + WaitOn(o, l, id, now)
    ensures var next := Refreshed(o, l, id, later);
      |next.globalCalls| + |CallsOf(next.deviceCalls, id)| < |l.globalCalls| + |CallsOf(l.deviceCalls, id)|
  {
    DeviceCallsPruned(o, l, id, later);
    var device := CallsOf(l.deviceCalls, id);
    if WaitOn(o, l, id, now) == WindowWait(l.globalCalls, l.rate.qpm, MINUTE, now) {
      FirstExpires(l.globalCalls, later - MINUTE);
    } else {
      FirstExpires(device, later - HOUR);
    }
  }
}
