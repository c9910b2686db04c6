/** The scheduler shared by any number of callers: each locked section is one step, and callers,
    cancellations, 429s and the clock interleave freely between them. */
module SchedulerProtocol {
  import opened Prelude
  import opened Quota
  import opened Windows
  import opened Ledger
  import opened WaiterHeap
  import opened Slot

  type Id = nat

  datatype Phase =
    | Arriving               // about to enter acquire, for the first time or again
    | Queued                 // in the heap, blocked on its ready channel
    | Granted                // popped and its channel closed, but not yet awake
    | Owning                 // at the top of Do's loop
    | Yielding(wait: int)    // out of quota, about to release
    | Running                // admitted, its command in flight
    | Leaving                // about to release and return
    | Sleeping(until: int)   // outside the queue
    | Done

  /** The phases in which a caller holds the slot or has been granted it. */
  predicate Owns(p: Phase) {
    p.Granted? || p.Owning? || p.Yielding? || p.Running? || p.Leaving?
  }

  datatype Caller = Caller(device: string, priority: int, arrival: nat, phase: Phase) {
    function Order(): Key {
      Key(priority, arrival)
    }
  }

  datatype Admission = Admission(device: string, at: int, rate: int)

  /** The scheduler's fields, the callers, and every admission ever made. */
  datatype State = State(
    clock: int,
    ledger: Ledger,
    arrivals: nat,
    queue: set<Key>,
    holder: bool,
    callers: map<Id, Caller>,
    history: seq<Admission>)

  datatype Event =
    | Arrive(id: Id, device: string, priority: int)
    | Acquire(id: Id)
    | Wake(id: Id)
    | CancelWait(id: Id)
    | CancelOwner(id: Id)
    | Check(id: Id, now: int, at: int)
    | Finish(id: Id)
    | Release(id: Id, next: Option<Id>)
    | Slept(id: Id)
    | CancelSleep(id: Id)
    | RateLimited(now: int)
    | ReadRate(now: int)
    | Tick(now: int)

  function Init(o: Options, clock: int): State {
    State(clock, Ledger(Rate(o.globalQPM, None), [], map[], None), 0, {}, false, map[], [])
  }

  function PhaseOf(s: State, id: Id): Phase {
    if id in s.callers then s.callers[id].phase else Done
  }

  function Moved(s: State, id: Id, p: Phase): map<Id, Caller>
    requires id in s.callers
  {
    s.callers[id := s.callers[id].(phase := p)]
  }

  ghost predicate Enabled(o: Options, s: State, e: Event) {
    match e
    case Arrive(id, _, _) => id !in s.callers
    case Acquire(id) => PhaseOf(s, id).Arriving?
    case Wake(id) => PhaseOf(s, id).Granted?
    case CancelWait(id) => PhaseOf(s, id).Queued? || PhaseOf(s, id).Granted?
    case CancelOwner(id) => PhaseOf(s, id).Owning?
    case Check(id, now, at) => PhaseOf(s, id).Owning? && s.clock <= now <= at
    case Finish(id) => PhaseOf(s, id).Running?
    case Release(id, next) =>
      && (PhaseOf(s, id).Yielding? || PhaseOf(s, id).Leaving?)
      && if next.None? then s.queue == {}
         else PhaseOf(s, next.value).Queued? && IsLeast(s.callers[next.value].Order(), s.queue)
    case Slept(id) => PhaseOf(s, id).Sleeping? && s.clock >= PhaseOf(s, id).until
    case CancelSleep(id) => PhaseOf(s, id).Sleeping?
    case RateLimited(now) => s.clock <= now
    case ReadRate(now) => s.clock <= now
    case Tick(now) => s.clock <= now
  }

  function SlotOf(s: State): Slot {
    Slot(s.arrivals, s.queue, s.holder)
  }

  function WithSlot(s: State, slot: Slot, callers: map<Id, Caller>): State {
    s.(arrivals := slot.arrivals, queue := slot.queue, holder := slot.holder, callers := callers)
  }

  /** acquire's first locked section. */
  function AcquireStep(s: State, id: Id): State
    requires id in s.callers
  {
    var c := s.callers[id];
    var phase := if s.holder then Queued else Owning;
    var numbered := c.(arrival := KeyIn(SlotOf(s), c.Order()).arrival, phase := phase);
    WithSlot(s, Acquired(SlotOf(s), c.Order()), s.callers[id := numbered])
  }

  /** acquire's second locked section: a queued waiter removes itself, a granted one passes the slot on. */
  function CancelWaitStep(s: State, id: Id): State
    requires id in s.callers
  {
    if s.callers[id].phase.Granted? then s.(callers := Moved(s, id, Leaving))
    else WithSlot(s, Withdrawn(SlotOf(s), s.callers[id].Order()), Moved(s, id, Done))
  }

  /** Do's locked section, the clock read at now for the check and at at for the record. */
  function CheckStep(o: Options, s: State, id: Id, now: int, at: int): State
    requires o.Valid() && ValidRate(o, s.ledger.rate) && id in s.callers
  {
    RecoveryClosedForm(o, s.ledger.rate, now);
    var device := s.callers[id].device;
    var checked := Refreshed(o, s.ledger, device, now);
    var wait := WaitOn(o, checked, device, now);
    if wait <= 0 then
      s.(clock := at, ledger := Recorded(checked, device, at), callers := Moved(s, id, Running),
         history := s.history + [Admission(device, at, checked.rate.qpm)])
    else
      s.(clock := at, ledger := checked, callers := Moved(s, id, Yielding(wait)))
  }

  /** release: hand the slot to the first waiter in admission order, or free it. */
  function ReleaseStep(s: State, id: Id, next: Option<Id>): State
    requires id in s.callers
    requires next.Some? ==> next.value in s.callers
  {
    var after := if s.callers[id].phase.Yielding? then Sleeping(s.clock + s.callers[id].phase.wait) else Done;
    var callers := Moved(s, id, after);
    match next
    case None => WithSlot(s, Released(SlotOf(s), None), callers)
    case Some(w) =>
      WithSlot(s, Released(SlotOf(s), Some(s.callers[w].Order())), callers[w := s.callers[w].(phase := Granted)])
  }

  function Apply(o: Options, s: State, e: Event): State
    requires o.Valid() && ValidRate(o, s.ledger.rate) && Enabled(o, s, e)
  {
    match e
    case Arrive(id, device, priority) => s.(callers := s.callers[id := Caller(device, priority, 0, Arriving)])
    case Acquire(id) => AcquireStep(s, id)
    case Wake(id) => s.(callers := Moved(s, id, Owning))
    case CancelWait(id) => CancelWaitStep(s, id)
    case CancelOwner(id) => s.(callers := Moved(s, id, Leaving))
    case Check(id, now, at) => CheckStep(o, s, id, now, at)
    case Finish(id) => s.(callers := Moved(s, id, Leaving))
    case Release(id, next) => ReleaseStep(s, id, next)
    case Slept(id) => s.(callers := Moved(s, id, Arriving))
    case CancelSleep(id) => s.(callers := Moved(s, id, Done))
    case RateLimited(now) => s.(clock := now, ledger := s.ledger.(rate := Halved(o, s.ledger.rate, now)))
    case ReadRate(now) => s.(clock := now, ledger := s.ledger.(rate := Recovered(o, s.ledger.rate, now)))
    case Tick(now) => s.(clock := now)
  }

  // ---- The slot ----

  ghost function Owners(s: State): set<Id> {
    set id | id in s.callers && Owns(s.callers[id].phase)
  }

  ghost predicate OneOwner(s: State, owner: Option<Id>) {
    && s.holder == owner.Some?
    && forall id :: id in s.callers ==> (Owns(s.callers[id].phase) <==> owner == Some(id))
  }

  ghost predicate Numbered(s: State) {
    && (forall id :: id in s.callers ==> s.callers[id].arrival <= s.arrivals)
    && (forall id :: id in s.callers && s.callers[id].arrival == 0 ==> s.callers[id].phase.Arriving?)
    && (forall a, b :: a in s.callers && b in s.callers && a != b && s.callers[a].arrival != 0
          ==> s.callers[a].arrival != s.callers[b].arrival)
  }

  ghost predicate QueueMatches(s: State) {
    && (forall id :: id in s.callers && s.callers[id].phase.Queued? ==> s.callers[id].Order() in s.queue)
    && (forall k :: k in s.queue ==> exists id :: id in s.callers && s.callers[id].phase.Queued? && s.callers[id].Order() == k)
  }

  ghost predicate SlotInv(s: State, owner: Option<Id>) {
    && OneOwner(s, owner)
    && (owner.Some? ==> owner.value in s.callers)
    && Numbered(s)
    && QueueMatches(s)
    && (s.queue != {} ==> s.holder)
  }

  /** Who has the slot after a step. */
  function NextOwner(s: State, e: Event, owner: Option<Id>): Option<Id> {
    match e
    case Acquire(id) => if s.holder then owner else Some(id)
    case Release(_, next) => next
    case _ => owner
  }

  /** Every step keeps exactly one owner while holder is true and none while it is false. */
  lemma SlotStep(o: Options, s: State, e: Event, owner: Option<Id>)
    requires o.Valid() && ValidRate(o, s.ledger.rate) && Enabled(o, s, e)
    requires SlotInv(s, owner)
    ensures SlotInv(Apply(o, s, e), NextOwner(s, e, owner))
  {
    OwnerStep(o, s, e, owner);
    NumberStep(o, s, e, owner);
    QueueStep(o, s, e, owner);
    HeldWhileQueued(o, s, e, owner);
  }

  lemma OwnerStep(o: Options, s: State, e: Event, owner: Option<Id>)
    requires o.Valid() && ValidRate(o, s.ledger.rate) && Enabled(o, s, e)
    requires SlotInv(s, owner)
    ensures OneOwner(Apply(o, s, e), NextOwner(s, e, owner))
    ensures var owner' := NextOwner(s, e, owner); owner'.Some? ==> owner'.value in Apply(o, s, e).callers
  {
    hide Recovered, Refreshed, Recorded, WaitOn, Halved, After;
    hide Numbered, QueueMatches, IsLeast;
  }

  lemma HeldWhileQueued(o: Options, s: State, e: Event, owner: Option<Id>)
    requires o.Valid() && ValidRate(o, s.ledger.rate) && Enabled(o, s, e)
    requires SlotInv(s, owner)
    ensures Apply(o, s, e).queue != {} ==> Apply(o, s, e).holder
  {
    hide Recovered, Refreshed, Recorded, WaitOn, Halved, After;
    hide Numbered, QueueMatches, OneOwner;
  }

  /** Only acquire hands out numbers; every other step keeps each caller's place in line. */
  lemma PlaceKept(o: Options, s: State, e: Event)
    requires o.Valid() && ValidRate(o, s.ledger.rate) && Enabled(o, s, e)
    requires !e.Arrive? && !e.Acquire?
    ensures Apply(o, s, e).callers.Keys == s.callers.Keys && Apply(o, s, e).arrivals == s.arrivals
    ensures forall id :: id in s.callers ==> Apply(o, s, e).callers[id].Order() == s.callers[id].Order()
    ensures forall id :: id in s.callers && s.callers[id].phase.Arriving? ==> Apply(o, s, e).callers[id].phase.Arriving?
  {
    hide Recovered, Refreshed, Recorded, WaitOn, Halved, After, IsLeast;
  }

  lemma NumberStep(o: Options, s: State, e: Event, owner: Option<Id>)
    requires o.Valid() && ValidRate(o, s.ledger.rate) && Enabled(o, s, e)
    requires SlotInv(s, owner)
    ensures Numbered(Apply(o, s, e))
  {
    hide Recovered, Refreshed, Recorded, WaitOn, Halved, After, OneOwner, QueueMatches, IsLeast;
    if !e.Arrive? && !e.Acquire? {
      hide Apply, Enabled;
      PlaceKept(o, s, e);
      var s' := Apply(o, s, e);
      forall id | id in s.callers
        ensures s'.callers[id].arrival == s.callers[id].arrival
      {
        assert s'.callers[id].Order() == s.callers[id].Order();
      }
    } else {
      hide CancelWaitStep, CheckStep, ReleaseStep;
    }
  }

  /** Steps other than acquire, a cancelled wait and release leave the queue and the queued alone. */
  lemma QueueKept(o: Options, s: State, e: Event)
    requires o.Valid() && ValidRate(o, s.ledger.rate) && Enabled(o, s, e)
    requires !e.Acquire? && !e.CancelWait? && !e.Release?
    ensures Apply(o, s, e).queue == s.queue
    ensures forall id :: PhaseOf(Apply(o, s, e), id).Queued? <==> PhaseOf(s, id).Queued?
    ensures forall id :: PhaseOf(s, id).Queued? ==> Apply(o, s, e).callers[id].Order() == s.callers[id].Order()
  {
    hide Recovered, Refreshed, Recorded, WaitOn, Halved, After;
  }

  lemma QueueStep(o: Options, s: State, e: Event, owner: Option<Id>)
    requires o.Valid() && ValidRate(o, s.ledger.rate) && Enabled(o, s, e)
    requires SlotInv(s, owner)
    ensures QueueMatches(Apply(o, s, e))
  {
    var s' := Apply(o, s, e);
    if !e.Acquire? && !e.CancelWait? && !e.Release? {
      hide Apply, Enabled, OneOwner, Numbered;
      QueueKept(o, s, e);
      forall k | k in s'.queue
        ensures exists id :: id in s'.callers && s'.callers[id].phase.Queued? && s'.callers[id].Order() == k
      {
        var id :| id in s.callers && s.callers[id].phase.Queued? && s.callers[id].Order() == k;
        assert PhaseOf(s, id).Queued? && PhaseOf(s', id).Queued?;
      }
      forall id | id in s'.callers && s'.callers[id].phase.Queued?
        ensures s'.callers[id].Order() in s'.queue
      {
        assert PhaseOf(s', id).Queued? && PhaseOf(s, id).Queued?;
      }
    } else if e.Acquire? {
      AcquireQueue(s, e.id, owner);
    } else if e.CancelWait? {
      CancelQueue(s, e.id, owner);
    } else {
      ReleaseQueue(s, e.id, e.next, owner);
    }
  }

  lemma AcquireQueue(s: State, id: Id, owner: Option<Id>)
    requires SlotInv(s, owner) && PhaseOf(s, id).Arriving?
    ensures QueueMatches(AcquireStep(s, id))
  {
    hide OneOwner;
    var s' := AcquireStep(s, id);
    forall k | k in s'.queue
      ensures exists q :: q in s'.callers && s'.callers[q].phase.Queued? && s'.callers[q].Order() == k
    {
      if k in s.queue {
        var q :| q in s.callers && s.callers[q].phase.Queued? && s.callers[q].Order() == k;
        assert s'.callers[q] == s.callers[q];
      } else {
        assert s'.callers[id].Order() == k;
      }
    }
  }

  lemma CancelQueue(s: State, id: Id, owner: Option<Id>)
    requires SlotInv(s, owner) && (PhaseOf(s, id).Queued? || PhaseOf(s, id).Granted?)
    ensures QueueMatches(CancelWaitStep(s, id))
  {
    hide OneOwner;
    var s' := CancelWaitStep(s, id);
    forall k | k in s'.queue
      ensures exists q :: q in s'.callers && s'.callers[q].phase.Queued? && s'.callers[q].Order() == k
    {
      var q :| q in s.callers && s.callers[q].phase.Queued? && s.callers[q].Order() == k;
      assert s'.callers[q] == s.callers[q];
    }
  }

  lemma ReleaseQueue(s: State, id: Id, next: Option<Id>, owner: Option<Id>)
    requires SlotInv(s, owner) && (PhaseOf(s, id).Yielding? || PhaseOf(s, id).Leaving?)
    requires next.Some? ==> PhaseOf(s, next.value).Queued?
    requires next.None? ==> s.queue == {}
    ensures QueueMatches(ReleaseStep(s, id, next))
  {
    hide OneOwner;
    var s' := ReleaseStep(s, id, next);
    forall k | k in s'.queue
      ensures exists q :: q in s'.callers && s'.callers[q].phase.Queued? && s'.callers[q].Order() == k
    {
      var q :| q in s.callers && s.callers[q].phase.Queued? && s.callers[q].Order() == k;
      assert s'.callers[q] == s.callers[q];
    }
  }
}
