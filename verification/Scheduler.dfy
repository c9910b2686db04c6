/** The command scheduler's fields and the bodies of its locked sections. */
module Scheduler {
  import opened Prelude
  import opened Quota
  import opened Windows
  import opened Ledger
  import opened WaiterHeap
  import opened Slot

  /** A Go slice of times: a buffer and how much of it is in use. */
  datatype Slice = Slice(buf: array<int>, len: nat) {
    ghost predicate Valid() {
      len <= buf.Length
    }

    ghost function View(): seq<int>
      requires Valid()
      reads buf
    {
      buf[..len]
    }
  }

  /** Compacts the slice in place, over its own backing array. */
  method Prune(times: Slice, cutoff: int) returns (kept: Slice)
    requires times.Valid()
    modifies times.buf
    ensures kept.Valid() && kept.buf == times.buf && kept.View() == After(old(times.View()), cutoff)
  {
    var buf := times.buf;
    ghost var was := buf[..times.len];
    var k := 0;
    for i := 0 to times.len
      invariant k <= i && buf[..k] == After(was[..i], cutoff)
      invariant buf[i..times.len] == was[i..]
    {
      assert was[..i + 1][..i] == was[..i];
      assert buf[i] == buf[i..times.len][0] == was[i];
      assert was[i..][1..] == was[i + 1..];
      assert buf[i..times.len][1..] == buf[i + 1..times.len];
      if buf[i] > cutoff {
        buf[k] := buf[i];
        k := k + 1;
      }
    }
    assert was[..times.len] == was;
    kept := Slice(buf, k);
  }

  /** append: in place while there is capacity, else into a larger copy. */
  method Append(times: Slice, t: int) returns (longer: Slice)
    requires times.Valid()
    modifies times.buf
    ensures longer.Valid() && longer.View() == old(times.View()) + [t]
    ensures longer.buf == times.buf || fresh(longer.buf)
  {
    if times.len < times.buf.Length {
      times.buf[times.len] := t;
      longer := Slice(times.buf, times.len + 1);
    } else {
      var bigger := new int[2 * times.len + 1];
      forall i | 0 <= i < times.len {
        bigger[i] := times.buf[i];
      }
      bigger[times.len] := t;
      longer := Slice(bigger, times.len + 1);
      assert bigger[..times.len] == times.buf[..times.len];
    }
  }

  // ---- The per-device logs ----

  /** No two devices share a backing array, so pruning one in place leaves the others alone. */
  ghost predicate Separate(logs: map<string, Slice>) {
    && (forall id :: id in logs ==> logs[id].Valid())
    && (forall a, b :: a in logs && b in logs && a != b ==> logs[a].buf != logs[b].buf)
  }

  ghost function Buffers(logs: map<string, Slice>): set<array<int>> {
    set id | id in logs :: logs[id].buf
  }

  ghost function Views(logs: map<string, Slice>): (views: map<string, seq<int>>)
    requires Separate(logs)
    reads Buffers(logs)
    ensures views.Keys == logs.Keys
    ensures forall id :: id in logs ==> views[id] == logs[id].View()
  {
    map id | id in logs :: logs[id].View()
  }

  lemma ViewsAre(logs: map<string, Slice>, expected: map<string, seq<int>>)
    requires Separate(logs) && expected.Keys == logs.Keys
    requires forall id :: id in logs ==> expected[id] == logs[id].View()
    ensures Views(logs) == expected
  {
  }

  method PruneEntry(logs: map<string, Slice>, id: string, cutoff: int) returns (pruned: map<string, Slice>)
    requires Separate(logs) && id in logs
    modifies logs[id].buf
    ensures Separate(pruned) && Buffers(pruned) <= Buffers(logs)
    ensures Views(pruned) == PruneOne(old(Views(logs)), id, cutoff)
  {
    hide After, Views;
    ghost var was := Views(logs);
    var calls := Prune(logs[id], cutoff);
    assert forall other :: other in logs && other != id ==> logs[other].View() == was[other];
    if calls.len == 0 {
      pruned := logs - {id};
    } else {
      pruned := logs[id := calls];
    }
    ViewsAre(pruned, PruneOne(was, id, cutoff));
  }

  method AppendEntry(logs: map<string, Slice>, id: string, t: int) returns (longer: map<string, Slice>)
    requires Separate(logs)
    modifies if id in logs then {logs[id].buf} else {}
    ensures Separate(longer) && fresh(Buffers(longer) - Buffers(logs))
    ensures Views(longer) == old(Views(logs))[id := CallsOf(old(Views(logs)), id) + [t]]
  {
    hide Views;
    ghost var was := Views(logs);
    var calls;
    if id in logs {
      calls := Append(logs[id], t);
    } else {
      var none := new int[0];
      calls := Append(Slice(none, 0), t);
    }
    assert forall other :: other in logs && other != id ==> logs[other].View() == was[other];
    longer := logs[id := calls];
    ViewsAre(longer, was[id := CallsOf(was, id) + [t]]);
  }

  /** The sweep part way: the devices in done are pruned, the others not yet. */
  ghost function PrunedSoFar(was: map<string, seq<int>>, done: set<string>, cutoff: int): map<string, seq<int>> {
    map id | id in was && (id in done ==> After(was[id], cutoff) != [])
      :: if id in done then After(was[id], cutoff) else was[id]
  }

  lemma SweepStarts(was: map<string, seq<int>>, cutoff: int)
    ensures PrunedSoFar(was, {}, cutoff) == was
    ensures PrunedSoFar(was, was.Keys, cutoff) == PruneAll(was, cutoff)
  {
  }

  lemma SweepStep(was: map<string, seq<int>>, done: set<string>, id: string, cutoff: int)
    requires id in was && id !in done
    ensures id in PrunedSoFar(was, done, cutoff)
    ensures PruneOne(PrunedSoFar(was, done, cutoff), id, cutoff) == PrunedSoFar(was, done + {id}, cutoff)
  {
    hide After;
  }

  method SweepEntries(logs: map<string, Slice>, cutoff: int) returns (swept: map<string, Slice>)
    requires Separate(logs)
    modifies Buffers(logs)
    ensures Separate(swept) && Buffers(swept) <= Buffers(logs)
    ensures Views(swept) == PruneAll(old(Views(logs)), cutoff)
  {
    hide PruneOne, PruneAll, PrunedSoFar;
    ghost var was := Views(logs);
    ghost var done: set<string> := {};
    SweepStarts(was, cutoff);
    var todo := logs.Keys;
    swept := logs;
    while todo != {}
      invariant Separate(swept) && Buffers(swept) <= Buffers(logs)
      invariant done + todo == was.Keys && done !! todo
      invariant Views(swept) == PrunedSoFar(was, done, cutoff)
      decreases todo
    {
      var id :| id in todo;
      todo := todo - {id};
      SweepStep(was, done, id, cutoff);
      swept := PruneEntry(swept, id, cutoff);
      done := done + {id};
    }
  }

  /** A clock that never goes back, and whose completed sleeps last at least as long as asked. */
  class Clock {
    var now: int

    constructor (start: int)
      ensures now == start
    {
      now := start;
    }

    method Now() returns (t: int)
      modifies this
      ensures t == now >= old(now)
    {
      var elapsed: int :| elapsed >= 0;
      now := now + elapsed;
      t := now;
    }

    method Sleep(d: int)
      modifies this
      ensures now >= old(now) && now >= old(now) + d
    {
      var oversleep: int :| oversleep >= 0;
      now := now + Max(0, d) + oversleep;
    }
  }

  // ---- The scheduler ----

  class Scheduler {
    const opts: Options
    var qpm: int
    var lastRateLimited: Option<int>
    var globalCalls: Slice
    var deviceCalls: map<string, Slice>
    var lastDeviceSweep: Option<int>
    const queue: WaiterQueue
    var arrivals: nat    // the source's seq
    var holder: bool

    ghost function LogBuffers(): set<array<int>>
      reads this
    {
      {globalCalls.buf} + Buffers(deviceCalls)
    }

    ghost predicate LogsValid()
      reads this
    {
      globalCalls.Valid() && Separate(deviceCalls) && globalCalls.buf !in Buffers(deviceCalls)
    }

    ghost predicate Valid()
      reads this
    {
      LogsValid() && opts.Valid() && ValidRate(opts, RateNow())
    }

    ghost function RateNow(): Rate
      reads this
    {
      Rate(qpm, lastRateLimited)
    }

    ghost function State(): Ledger
      requires LogsValid()
      reads this, LogBuffers()
    {
      Ledger(RateNow(), globalCalls.View(), Views(deviceCalls), lastDeviceSweep)
    }

    constructor (raw: Options)
      ensures Valid() && opts == Defaulted(raw) && fresh(LogBuffers()) && fresh(queue)
      ensures State() == Ledger(Rate(opts.globalQPM, None), [], map[], None)
      ensures queue.Valid() && queue.members == {} && arrivals == 0 && !holder
    {
      opts := Defaulted(raw);
      qpm := Defaulted(raw).globalQPM;
      lastRateLimited, lastDeviceSweep := None, None;
      var empty := new int[0];
      globalCalls := Slice(empty, 0);
      deviceCalls := map[];
      queue := new WaiterQueue();
      arrivals, holder := 0, false;
    }

    // ---- Rate ----

    method RecoverRate(now: int)
      requires Valid()
      modifies this`qpm, this`lastRateLimited
      ensures Valid() && RateNow() == Recovered(opts, old(RateNow()), now)
    {
      hide Pow2, DoublingsToFull;
      ghost var r := RateNow();
      StartsFull(r.qpm, opts.globalQPM);
      if lastRateLimited.None? || qpm >= opts.globalQPM {
        return;
      }
      var elapsed := now - lastRateLimited.value;
      if elapsed < opts.recovery {
        ShortQuotient(elapsed, opts.recovery);
        return;
      }
      var steps := elapsed / opts.recovery;
      QuotientMonotone(0, elapsed, opts.recovery);
      ghost var k := steps;
      ghost var j: nat := 0;
      while steps > 0 && qpm < opts.globalQPM
        invariant 0 <= steps == k - j
        invariant j <= DoublingsToFull(r.qpm, opts.globalQPM)
        invariant qpm == Min(opts.globalQPM, r.qpm * Pow2(j)) && 1 <= qpm
        invariant lastRateLimited == Some(r.limited.value + j * opts.recovery)
        decreases steps
      {
        OneMoreDoubling(r.qpm, opts.globalQPM, j, opts.recovery);
        qpm := qpm * 2;
        if qpm > opts.globalQPM {
          qpm := opts.globalQPM;
        }
        lastRateLimited := Some(lastRateLimited.value + opts.recovery);
        steps := steps - 1;
        j := j + 1;
      }
      EnoughDoublings(r.qpm, opts.globalQPM, j);
    }

    method CurrentQPM(now: int) returns (rate: int)
      requires Valid()
      modifies this`qpm, this`lastRateLimited
      ensures Valid() && RateNow() == Recovered(opts, old(RateNow()), now)
      ensures rate == Min(opts.globalQPM, old(qpm) * Pow2(QuietIntervals(opts, old(RateNow()), now)))
      ensures NoFullInterval(opts, old(RateNow()), now) ==> rate == old(qpm)
      ensures forall k: nat :: FullIntervals(opts, old(RateNow()), now, k) ==>
                rate == Min(opts.globalQPM, old(qpm) * Pow2(k))
    {
      RecoveredExactly(opts, RateNow(), now);
      RecoveryClosedForm(opts, RateNow(), now);
      RecoverRate(now);
      rate := qpm;
    }

    method NoteRateLimited(now: int)
      requires Valid()
      modifies this`qpm, this`lastRateLimited
      ensures Valid() && RateNow() == Halved(opts, old(RateNow()), now)
      ensures lastRateLimited == Some(now)
      ensures NoFullInterval(opts, old(RateNow()), now) ==> qpm == Max(1, old(qpm) / 2)
      ensures forall k: nat :: FullIntervals(opts, old(RateNow()), now, k) ==>
                qpm == Max(1, Min(opts.globalQPM, old(qpm) * Pow2(k)) / 2)
    {
      HalvedExactly(opts, RateNow(), now);
      RecoverRate(now);
      if qpm > 1 {
        qpm := qpm / 2;
      }
      qpm := Max(1, qpm);
      lastRateLimited := Some(now);
    }

    // ---- Quota ----

    method PruneDevices(id: string, now: int)
      requires Separate(deviceCalls)
      modifies this`deviceCalls, this`lastDeviceSweep, Buffers(deviceCalls)
      ensures Separate(deviceCalls) && Buffers(deviceCalls) <= old(Buffers(deviceCalls))
      ensures if SweepDue(old(lastDeviceSweep), now)
              then Views(deviceCalls) == PruneAll(old(Views(deviceCalls)), now - HOUR) && lastDeviceSweep == Some(now)
              else Views(deviceCalls) == PruneOne(old(Views(deviceCalls)), id, now - HOUR)
                   && lastDeviceSweep == old(lastDeviceSweep)
    {
      hide After, PruneAll, Views;
      if lastDeviceSweep.None? || now - lastDeviceSweep.value >= HOUR {
        deviceCalls := SweepEntries(deviceCalls, now - HOUR);
        lastDeviceSweep := Some(now);
      } else if id in deviceCalls {
        deviceCalls := PruneEntry(deviceCalls, id, now - HOUR);
      } else {
        AbsentIsPruned(Views(deviceCalls), id, now - HOUR);
      }
    }

    method WaitFor(id: string, now: int) returns (wait: int)
      requires Valid()
      modifies this`qpm, this`lastRateLimited, this`globalCalls, this`deviceCalls, this`lastDeviceSweep, LogBuffers()
      ensures Valid() && LogBuffers() <= old(LogBuffers())
      ensures State() == Refreshed(opts, old(State()), id, now)
      ensures wait == WaitOn(opts, State(), id, now)
    {
      hide After, PruneOne, PruneAll, Recovered, Views, WaitOn, SweepDue;
      RecoverRate(now);
      PruneGlobal(now);
      ghost var global := globalCalls.View();
      PruneDevices(id, now);
      assert globalCalls.View() == global;
      wait := WaitNow(id, now);
    }

    method PruneGlobal(now: int)
      requires Valid()
      modifies this`globalCalls, globalCalls.buf
      ensures Valid() && globalCalls.buf == old(globalCalls.buf)
      ensures State() == old(State()).(globalCalls := After(old(State()).globalCalls, now - MINUTE))
    {
      hide After, Views;
      ghost var devices := Views(deviceCalls);
      globalCalls := Prune(globalCalls, now - MINUTE);
      assert Views(deviceCalls) == devices;
    }

    /** The wait the pruned logs impose. */
    method WaitNow(id: string, now: int) returns (wait: int)
      requires Valid()
      ensures wait == WaitOn(opts, State(), id, now)
    {
      wait := 0;
      if globalCalls.len >= qpm {
        var d := MINUTE - (now - globalCalls.buf[0]);
        if d > wait {
          wait := d;
        }
      }
      if id in deviceCalls && deviceCalls[id].len >= opts.deviceQPH {
        var d := HOUR - (now - deviceCalls[id].buf[0]);
        if d > wait {
          wait := d;
        }
      }
    }

    /** Do's locked section: compute the wait and, when there is none, record the admission.
        The clock is read once for each. */
    method Admit(id: string, now: int, at: int) returns (wait: int)
      requires Valid()
      modifies this`qpm, this`lastRateLimited, this`globalCalls, this`deviceCalls, this`lastDeviceSweep, LogBuffers()
      ensures Valid() && fresh(LogBuffers() - old(LogBuffers()))
      ensures var next := Refreshed(opts, old(State()), id, now);
              && next.rate.qpm >= 1
              && wait == WaitOn(opts, next, id, now)
              && State() == if wait == 0 then Recorded(next, id, at) else next
    {
      hide After, PruneOne, PruneAll, Recovered, Views, WaitOn, Refreshed;
      wait := WaitFor(id, now);
      if wait <= 0 {
        Record(id, at);
      }
    }

    method Record(id: string, at: int)
      requires Valid()
      modifies this`globalCalls, this`deviceCalls, LogBuffers()
      ensures Valid() && fresh(LogBuffers() - old(LogBuffers()))
      ensures State() == Recorded(old(State()), id, at)
    {
      hide Views, Separate, ValidRate, CallsOf;
      RecordGlobal(at);
      RecordDevice(id, at);
    }

    method RecordGlobal(at: int)
      requires Valid()
      modifies this`globalCalls, globalCalls.buf
      ensures Valid() && fresh(LogBuffers() - old(LogBuffers())) && Buffers(deviceCalls) == old(Buffers(deviceCalls))
      ensures State() == old(State()).(globalCalls := old(State()).globalCalls + [at])
    {
      hide Views, Separate, ValidRate;
      ghost var devices := Views(deviceCalls);
      globalCalls := Append(globalCalls, at);
      assert Views(deviceCalls) == devices;
    }

    method RecordDevice(id: string, at: int)
      requires Valid()
      modifies this`deviceCalls, Buffers(deviceCalls)
      ensures Valid() && fresh(LogBuffers() - old(LogBuffers()))
      ensures State() == old(State()).(deviceCalls := old(State()).deviceCalls[id :=
                CallsOf(old(State()).deviceCalls, id) + [at]])
    {
      hide Views, Separate, ValidRate, CallsOf;
      ghost var global := globalCalls.View();
      deviceCalls := AppendEntry(deviceCalls, id, at);
      assert globalCalls.buf !in Buffers(deviceCalls);
      assert globalCalls.View() == global;
    }

    // ---- The slot ----

    /** Queued waiters are still waiting, carry distinct numbers already handed out,
        and there are none while nobody holds the slot. */
    ghost predicate SlotValid()
      reads this, queue, queue.members, queue.q`arrival
    {
      && queue.Valid()
      && (queue.members != {} ==> holder)
      && (forall w :: w in queue.members ==> !w.granted && !w.ready && 0 < w.arrival <= arrivals)
      && (forall v, w :: v in queue.members && w in queue.members && v != w ==> v.arrival != w.arrival)
    }

    ghost function QueuedKeys(): set<Key>
      reads this, queue, queue.members
    {
      set w | w in queue.members :: w.Order()
    }

    ghost function SlotNow(): Slot
      reads this, queue, queue.members
    {
      Slot(arrivals, QueuedKeys(), holder)
    }

    /** acquire's first locked section. A waiter keeps the number of its first acquire. */
    method Acquire(w: Waiter) returns (owned: bool)
      requires SlotValid() && w !in queue.members
      requires w.arrival <= arrivals
      requires forall v :: v in queue.members && w.arrival != 0 ==> v.arrival != w.arrival
      modifies this`arrivals, this`holder, queue, w, queue.members`index
      ensures SlotValid() && holder && owned == !old(holder)
      ensures SlotNow() == Acquired(old(SlotNow()), old(w.Order())) && w.Order() == KeyIn(old(SlotNow()), old(w.Order()))
      ensures arrivals == old(arrivals) + (if old(w.arrival) == 0 then 1 else 0)
      ensures w.arrival == if old(w.arrival) == 0 then arrivals else old(w.arrival)
      ensures !w.granted && !w.ready
      ensures queue.members == if owned then old(queue.members) else old(queue.members) + {w}
      ensures forall v :: v in old(queue.members) ==> v.arrival == old(v.arrival)
    {
      hide WaiterQueue.Ordered;
      assert w !in queue.q;
      if w.arrival == 0 {
        arrivals := arrivals + 1;
        w.arrival := arrivals;
      }
      w.ready := false;
      w.index := -1;
      w.granted := false;
      assert queue.Valid();
      if !holder {
        holder := true;
        return true;
      }
      queue.HeapPush(w);
      owned := false;
    }

    /** acquire's second locked section, after cancellation: a waiter that has not been granted
        the slot takes itself out of the queue; one that has been granted it must pass it on. */
    method CancelWait(w: Waiter) returns (removed: bool)
      requires SlotValid() && (!w.granted ==> w in queue.members)
      modifies queue, queue.members`index
      ensures SlotValid() && removed == !w.granted
      ensures SlotNow() == if removed then Withdrawn(old(SlotNow()), w.Order()) else old(SlotNow())
      ensures queue.members == if removed then old(queue.members) - {w} else old(queue.members)
    {
      hide WaiterQueue.Ordered;
      if !w.granted {
        KeysWithout(queue.members, w);
        var taken := queue.HeapRemove(w.index);
        return true;
      }
      removed := false;
    }

    /** release: hand the slot to the first waiter in admission order, or free it. */
    method Release() returns (next: Waiter?)
      requires SlotValid() && holder
      modifies this`holder, queue, queue.members`index, queue.members`granted, queue.members`ready
      ensures SlotValid() && holder == (next != null) == (old(queue.members) != {})
      ensures SlotNow() == Released(old(SlotNow()), if next == null then None else Some(next.Order()))
      ensures next == null ==> queue.members == {}
      ensures next != null ==> next in old(queue.members) && queue.members == old(queue.members) - {next}
      ensures next != null ==> next.granted && next.ready && IsLeast(next.Order(), old(QueuedKeys()))
      ensures next != null ==> forall v :: v in old(queue.members) && v != next ==>
                next.priority < v.priority || (next.priority == v.priority && next.arrival < v.arrival)
    {
      hide WaiterQueue.Ordered, IsLeast, Before, AtMost;
      if |queue.q| == 0 {
        assert queue.members == {};
        holder := false;
        return null;
      }
      ghost var was, keys := queue.members, QueuedKeys();
      assert queue.q[0] in was;
      var w := queue.HeapPop();
      FirstIsLeast(was, w);
      KeysWithout(was, w);
      assert keys == set v | v in was :: v.Order();
      w.granted := true;
      w.ready := true;
      next := w;
    }

    // ---- Do ----

    /** What is left in the two logs a device's calls are checked against. */
    ghost function Load(id: string): nat
      requires LogsValid()
      reads this, LogBuffers()
    {
      |State().globalCalls| + |CallsOf(State().deviceCalls, id)|
    }

    /** Do's turn away from the slot, when nobody else wants it: release, sleep, acquire again. */
    method SleepOut(clock: Clock, w: Waiter, wait: int)
      requires SlotValid() && holder && queue.members == {} && 0 < w.arrival <= arrivals
      modifies this`arrivals, this`holder, queue, clock, w
      ensures SlotValid() && holder && queue.members == {} && 0 < w.arrival <= arrivals
      ensures old(clock.now) + wait <= clock.now && old(clock.now) <= clock.now
    {
      hide WaiterQueue.Ordered, WaiterQueue.Indexed;
      var none := Release();
      clock.Sleep(wait);
      var owned := Acquire(w);
    }

    /** Do's quota check, reading the clock: what it leaves, and that a completed wait shrank the logs. */
    method Check(clock: Clock, id: string, ghost waited: Option<int>) returns (wait: int, at: int, ghost since: int)
      requires Valid()
      requires waited.Some? ==> WaitedOut(opts, State(), id, waited.value, clock.now)
      modifies this`qpm, this`lastRateLimited, this`globalCalls, this`deviceCalls, this`lastDeviceSweep
      modifies LogBuffers(), clock
      ensures Valid() && fresh(LogBuffers() - old(LogBuffers()))
      ensures old(clock.now) <= since <= at == clock.now
      ensures wait == 0 ==> Admitted(opts, old(State()), id, since, at, State())
      ensures wait != 0 ==> wait == WaitOn(opts, State(), id, since) > 0
      ensures wait != 0 ==> Load(id) <= old(Load(id)) && (waited.Some? ==> Load(id) < old(Load(id)))
    {
      hide After, PruneOne, PruneAll, Recovered, Views, WaitOn, Refreshed, WaitedOut, Separate, Recorded;
      var now := clock.Now();
      since := now;
      at := clock.Now();
      StillWaitedOut(opts, State(), id, waited, old(clock.now), now);
      LoadShrinks(opts, State(), id, waited, now);
      wait := Admit(id, now, at);
    }

    /** One turn of Do's loop: admitted and released, or released, slept and owning again. */
    method Turn(clock: Clock, id: string, w: Waiter, ghost waited: Option<int>)
      returns (wait: int, at: int, ghost since: int)
      requires Valid() && SlotValid() && holder && queue.members == {} && 0 < w.arrival <= arrivals
      requires waited.Some? ==> WaitedOut(opts, State(), id, waited.value, clock.now)
      modifies this, queue, clock, w, LogBuffers()
      ensures Valid() && SlotValid() && queue.members == {} && 0 < w.arrival <= arrivals
      ensures fresh(LogBuffers() - old(LogBuffers())) && old(clock.now) <= since <= at <= clock.now
      ensures holder == (wait != 0)
      ensures wait == 0 ==> Admitted(opts, old(State()), id, since, at, State())
      ensures wait != 0 ==> WaitedOut(opts, State(), id, since, clock.now)
      ensures wait != 0 ==> Load(id) <= old(Load(id)) && (waited.Some? ==> Load(id) < old(Load(id)))
    {
      hide Admitted, WaitOn, Refreshed, Recorded, Views, Separate, WaitedOut, WaiterQueue.Ordered, WaiterQueue.Indexed;
      wait, at, since := Check(clock, id, waited);
      ghost var after := State();
      if wait == 0 {
        var none := Release();
      } else {
        SleepOut(clock, w, wait);
        WaitIsOver(opts, after, id, since, clock.now);
      }
      assert State() == after;
    }

    /** Do for a caller nobody competes with: the loop ends, because every completed wait
        strictly shrinks the logs, and it ends with this call recorded and the slot free. */
    method DoAlone(clock: Clock, id: string, priority: int) returns (at: int)
      requires Valid() && SlotValid() && !holder
      modifies this, queue, clock, LogBuffers()
      ensures Valid() && SlotValid() && !holder && queue.members == {}
      ensures old(clock.now) <= at <= clock.now
      ensures exists l, since :: old(clock.now) <= since <= at && Admitted(opts, l, id, since, at, State())
    {
      hide After, PruneOne, PruneAll, Recovered, Views, WaitOn, Refreshed, WaiterQueue.Ordered, WaiterQueue.Indexed;
      hide WaitedOut, Separate, Recorded, CallsOf, Admitted;
      var w := new Waiter(priority);
      var owned := Acquire(w);
      ghost var waited: Option<int> := None;
      while true
        invariant Valid() && SlotValid() && holder && queue.members == {}
        invariant fresh(w) && 0 < w.arrival <= arrivals
        invariant fresh(LogBuffers() - old(LogBuffers()))
        invariant old(clock.now) <= clock.now
        invariant waited.Some? ==> WaitedOut(opts, State(), id, waited.value, clock.now)
        decreases Load(id) + (if waited.None? then 1 else 0)
      {
        var wait;
        ghost var since;
        wait, at, since := Turn(clock, id, w, waited);
        if wait == 0 {
          return;
        }
        waited := Some(since);
      }
    }
  }

  /** An admission: no wait at the instant of the check, then the call on record. */
  ghost predicate Admitted(o: Options, l: Ledger, id: string, since: int, at: int, next: Ledger) {
    && o.Valid() && l.rate.qpm >= 1
    && var checked := Refreshed(o, l, id, since);
    checked.rate.qpm >= 1 && WaitOn(o, checked, id, since) == 0 && next == Recorded(checked, id, at)
  }

  /** A caller that found it had to wait, and by now has. */
  ghost predicate WaitedOut(o: Options, l: Ledger, id: string, since: int, now: int)
    requires o.Valid() && l.rate.qpm >= 1
  {
    WaitOn(o, l, id, since) > 0 && now >= since + WaitOn(o, l, id, since)
  }

  lemma StillWaitedOut(o: Options, l: Ledger, id: string, waited: Option<int>, t1: int, t2: int)
    requires o.Valid() && l.rate.qpm >= 1 && t1 <= t2
    requires waited.Some? ==> WaitedOut(o, l, id, waited.value, t1)
    ensures waited.Some? ==> WaitedOut(o, l, id, waited.value, t2)
  {
  }

  lemma WaitIsOver(o: Options, l: Ledger, id: string, since: int, now: int)
    requires o.Valid() && l.rate.qpm >= 1
    requires WaitOn(o, l, id, since) > 0 && now >= since + WaitOn(o, l, id, since)
    ensures WaitedOut(o, l, id, since, now)
  {
  }

  lemma LoadShrinks(o: Options, l: Ledger, id: string, waited: Option<int>, now: int)
    requires o.Valid() && ValidRate(o, l.rate)
    requires waited.Some? ==> WaitedOut(o, l, id, waited.value, now)
    ensures var next := Refreshed(o, l, id, now);
            var load := |next.globalCalls| + |CallsOf(next.deviceCalls, id)|;
            var was := |l.globalCalls| + |CallsOf(l.deviceCalls, id)|;
            load <= was && (waited.Some? ==> load < was)
  {
    DeviceCallsPruned(o, l, id, now);
    if waited.Some? {
      WaitShrinksLogs(o, l, id, waited.value, now);
    }
  }

  /** With distinct arrival numbers, a waiter that no other comes before comes strictly first. */
  lemma FirstIsLeast(ws: set<Waiter>, w: Waiter)
    requires w in ws && forall v :: v in ws ==> AtMost(w.Order(), v.Order())
    requires forall u, v :: u in ws && v in ws && u != v ==> u.arrival != v.arrival
    ensures IsLeast(w.Order(), set v | v in ws :: v.Order())
    ensures forall v :: v in ws && v != w ==>
              w.priority < v.priority || (w.priority == v.priority && w.arrival < v.arrival)
  {
  }

  /** With distinct arrival numbers, taking a waiter out takes its key out. */
  lemma KeysWithout(ws: set<Waiter>, w: Waiter)
    requires w in ws
    requires forall u, v :: u in ws && v in ws && u != v ==> u.arrival != v.arrival
    ensures (set v | v in ws - {w} :: v.Order()) == (set v | v in ws :: v.Order()) - {w.Order()}
  {
  }

  lemma AbsentIsPruned(calls: map<string, seq<int>>, id: string, cutoff: int)
    requires id !in calls
    ensures PruneOne(calls, id, cutoff) == calls
  {
  }

  lemma StartsFull(q: int, ceiling: int)
    requires q >= 1
    ensures q >= ceiling <==> DoublingsToFull(q, ceiling) == 0
    ensures Pow2(0) == 1
  {
  }

  lemma OneMoreDoubling(q: int, ceiling: int, j: nat, interval: int)
    requires q >= 1 && j <= DoublingsToFull(q, ceiling) && Min(ceiling, q * Pow2(j)) < ceiling
    ensures j + 1 <= DoublingsToFull(q, ceiling)
    ensures Min(ceiling, 2 * Min(ceiling, q * Pow2(j))) == Min(ceiling, q * Pow2(j + 1))
    ensures (j + 1) * interval == j * interval + interval
  {
    EnoughDoublings(q, ceiling, j);
    assert q * Pow2(j + 1) == 2 * (q * Pow2(j));
    Distributes(j, 1, interval);
  }

  lemma ShortQuotient(a: int, d: int)
    requires d >= 1 && a < d
    ensures a >= 0 ==> a / d == 0
  {
  }
}
