/** Emitters, workers and drainers interleaving over the observer's locked sections. */
module ObserverProtocol {
  import opened Prelude
  import opened RenewalObserver

  datatype Worker = AtTop | Calling(event: Event) | Exited

  datatype Drainer =
    | Waiting(channel: nat)   // sealed, selecting between this channel and its context
    | Returned(undelivered: int)

  /** The fields, every goroutine, and what has happened: the events accepted and the events handed to
      the observer, in order, how many callbacks have finished, and how many events a drain dropped. */
  datatype State = State(
    core: Core,
    workers: map<nat, Worker>,
    drainers: map<nat, Drainer>,
    accepted: seq<Event>,
    called: seq<Event>,
    finished: nat,
    dropped: nat)

  datatype Step =
    | Install(present: bool)
    | Emit(event: Event, worker: nat)
    | Take(worker: nat)
    | Finish(worker: nat)
    | Seal(drainer: nat)
    | SeesClosed(drainer: nat)
    | TimesOut(drainer: nat)

  const INIT := State(FRESH, map[], map[], [], [], 0, 0)

  function WorkerAt(s: State, w: nat): Worker {
    if w in s.workers then s.workers[w] else Exited
  }

  predicate Enabled(s: State, a: Step) {
    match a
    case Install(_) => true
    case Emit(_, w) => w !in s.workers
    case Take(w) => WorkerAt(s, w).AtTop?
    case Finish(w) => WorkerAt(s, w).Calling?
    case Seal(d) => d !in s.drainers
    case SeesClosed(d) => d in s.drainers && s.drainers[d].Waiting? && s.drainers[d].channel in s.core.closes
    case TimesOut(d) => d in s.drainers && s.drainers[d].Waiting?
  }

  function Apply(s: State, a: Step): State
    requires Enabled(s, a)
  {
    match a
    case Install(present) => s.(core := s.core.(installed := present))
    case Emit(e, w) =>
      var (core, taken, spawn) := EmitStep(s.core, e);
      s.(core := core,
         accepted := if taken then s.accepted + [e] else s.accepted,
         workers := if spawn then s.workers[w := AtTop] else s.workers)
    case Take(w) =>
      var (core, next) := TakeStep(s.core);
      if next.None? then s.(core := core, workers := s.workers[w := Exited])
      else s.(core := core, workers := s.workers[w := Calling(next.value)], called := s.called + [next.value])
    case Finish(w) =>
      s.(core := FinishStep(s.core), workers := s.workers[w := AtTop], finished := s.finished + 1)
    case Seal(d) =>
      s.(core := SealStep(s.core),
         drainers := s.drainers[d := if s.core.pending == 0 then Returned(0) else Waiting(s.core.drained)])
    case SeesClosed(d) =>
      s.(drainers := s.drainers[d := Returned(0)])
    case TimesOut(d) =>
      var (core, undelivered) := AbandonStep(s.core);
      s.(core := core, drainers := s.drainers[d := Returned(undelivered)], dropped := s.dropped + |s.core.queue|
         - |core.queue|)
  }

  // ---- The invariant ----

  function Count(n: nat): seq<nat> {
    seq(n, i => i + 1)
  }

  function InFlight(c: Core): nat {
    if c.inFlight then 1 else 0
  }

  /** At most one worker is alive, exactly while running is set, and it is in a callback exactly while inFlight is. */
  ghost predicate OneWorker(s: State) {
    && (forall a, b :: a in s.workers && b in s.workers && !s.workers[a].Exited? && !s.workers[b].Exited? ==> a == b)
    && (forall w :: w in s.workers && !s.workers[w].Exited? ==> s.core.running && s.core.inFlight == s.workers[w].Calling?)
    && (s.core.running ==> exists w :: w in s.workers && !s.workers[w].Exited?)
    && (!s.core.running ==> !s.core.inFlight)
  }

  /** Accounting: every accepted event is finished, in flight, queued or dropped, in that order. */
  ghost predicate Accounted(s: State) {
    && s.core.pending == |s.core.queue| + InFlight(s.core)
    && |s.called| == s.finished + InFlight(s.core)
    && |s.accepted| == |s.called| + |s.core.queue| + s.dropped
    && s.called == s.accepted[..|s.called|]
    && (!s.core.abandoned ==> s.dropped == 0 && s.core.queue == s.accepted[|s.called|..])
    && (s.core.abandoned ==> s.core.queue == [] && s.core.closed)
  }

  /** No event waits without a worker that will take it. */
  ghost predicate NoLostWakeup(s: State) {
    s.core.queue != [] ==> s.core.running
  }

  /** Busy periods are numbered, and each one's channel has been closed exactly once when it ends. */
  ghost predicate ClosedOncePerPeriod(s: State) {
    && (s.core.pending > 0 ==> s.core.drained > 0)
    && s.core.closes == Count(if s.core.pending > 0 then s.core.drained - 1 else s.core.drained)
  }

  ghost predicate DrainersWait(s: State) {
    forall d :: d in s.drainers && s.drainers[d].Waiting? ==> s.core.closed && s.drainers[d].channel == s.core.drained > 0
  }

  ghost predicate Inv(s: State) {
    OneWorker(s) && Accounted(s) && NoLostWakeup(s) && ClosedOncePerPeriod(s) && DrainersWait(s)
  }

  lemma WorkerStep(s: State, a: Step)
    requires Inv(s) && Enabled(s, a)
    ensures OneWorker(Apply(s, a))
  {
    var s' := Apply(s, a);
    match a
    case Emit(e, w) =>
      if s.core.running {
        var v :| v in s.workers && !s.workers[v].Exited?;
        assert v in s'.workers && !s'.workers[v].Exited?;
      } else if s'.core.running {
        assert w in s'.workers;
      }
    case Take(w) =>
      assert w in s'.workers;
    case Finish(w) =>
      assert w in s'.workers;
    case _ =>
      assert s'.workers == s.workers;
  }

  lemma AccountStep(s: State, a: Step)
    requires Inv(s) && Enabled(s, a)
    ensures Accounted(Apply(s, a)) && NoLostWakeup(Apply(s, a))
  {
    var s' := Apply(s, a);
    match a
    case Emit(e, w) =>
    case Take(w) =>
      if !s.core.abandoned && s.core.queue != [] {
        assert s.accepted[|s.called|..][0] == s.accepted[|s.called|];
        assert s.accepted[|s.called|..][1..] == s.accepted[|s.called| + 1..];
        assert s.accepted[..|s.called| + 1] == s.accepted[..|s.called|] + [s.accepted[|s.called|]];
      }
    case _ =>
  }

  lemma ChannelStep(s: State, a: Step)
    requires Inv(s) && Enabled(s, a)
    ensures ClosedOncePerPeriod(Apply(s, a)) && DrainersWait(Apply(s, a))
    ensures a.Finish? ==> s.core.pending > 0
  {
    assert forall n: nat :: Count(n) + [n + 1] == Count(n + 1);
  }

  lemma InvStep(s: State, a: Step)
    requires Inv(s) && Enabled(s, a)
    ensures Inv(Apply(s, a))
  {
    WorkerStep(s, a);
    AccountStep(s, a);
    ChannelStep(s, a);
  }

  ghost predicate Run(ss: seq<State>, actions: seq<Step>) {
    && |ss| == |actions| + 1
    && ss[0] == INIT
    && forall i :: 0 <= i < |actions| ==> Enabled(ss[i], actions[i]) && ss[i + 1] == Apply(ss[i], actions[i])
  }

  lemma {:induction false} Reachable(ss: seq<State>, actions: seq<Step>, i: nat)
    requires Run(ss, actions) && i < |ss|
    ensures Inv(ss[i])
  {
    if i > 0 {
      Reachable(ss, actions, i - 1);
      InvStep(ss[i - 1], actions[i - 1]);
    }
  }

  // ---- The promises ----

  /** Callbacks run one at a time, in the order the events were accepted, pending counts exactly what is
      queued or in flight, and a queued event always has a worker. */
  lemma OneAtATimeInOrder(ss: seq<State>, actions: seq<Step>, i: nat, a: nat, b: nat)
    requires Run(ss, actions) && i < |ss|
    ensures WorkerAt(ss[i], a).Calling? && WorkerAt(ss[i], b).Calling? ==> a == b
    ensures ss[i].called <= ss[i].accepted
    ensures ss[i].core.pending == |ss[i].core.queue| + InFlight(ss[i].core)
    ensures ss[i].core.queue != [] ==> exists w :: !WorkerAt(ss[i], w).Exited?
  {
    Reachable(ss, actions, i);
    if ss[i].core.queue != [] {
      var w :| w in ss[i].workers && !ss[i].workers[w].Exited?;
      assert !WorkerAt(ss[i], w).Exited?;
    }
  }

  /** Each busy period's channel is closed exactly once, when the period ends: the closes so far are
      1, 2, ... up to the last finished period. */
  lemma DrainedClosedOnce(ss: seq<State>, actions: seq<Step>, i: nat)
    requires Run(ss, actions) && i < |ss|
    ensures forall x, y :: 0 <= x < y < |ss[i].core.closes| ==> ss[i].core.closes[x] != ss[i].core.closes[y]
    ensures ss[i].core.pending == 0 ==> forall c :: 0 < c <= ss[i].core.drained ==> c in ss[i].core.closes
    ensures ss[i].core.pending > 0 ==> ss[i].core.drained !in ss[i].core.closes
  {
    Reachable(ss, actions, i);
    var n := if ss[i].core.pending > 0 then ss[i].core.drained - 1 else ss[i].core.drained;
    forall c | 0 < c <= n
      ensures c in Count(n)
    {
      assert Count(n)[c - 1] == c;
    }
  }

  /** Whether an observer was installed last, by the steps so far. */
  predicate InstalledBy(actions: seq<Step>) {
    if actions == [] then false
    else if actions[|actions| - 1].Install? then actions[|actions| - 1].present
    else InstalledBy(actions[..|actions| - 1])
  }

  lemma SwitchStep(s: State, a: Step)
    requires Enabled(s, a)
    ensures Apply(s, a).core.installed == if a.Install? then a.present else s.core.installed
    ensures Apply(s, a).core.closed == (s.core.closed || a.Seal?)
  {
  }

  lemma {:induction false} Switches(ss: seq<State>, actions: seq<Step>, i: nat)
    requires Run(ss, actions) && i < |ss|
    ensures ss[i].core.installed == InstalledBy(actions[..i])
    ensures ss[i].core.closed <==> exists k :: 0 <= k < i && actions[k].Seal?
  {
    hide Apply, Enabled;
    if i > 0 {
      Switches(ss, actions, i - 1);
      assert actions[..i][..i - 1] == actions[..i - 1];
      SwitchStep(ss[i - 1], actions[i - 1]);
      assert ss[i - 1 + 1] == Apply(ss[i - 1], actions[i - 1]);
    }
  }

  lemma EmitEffects(s: State, a: Step)
    requires Enabled(s, a)
    ensures Apply(s, a).accepted ==
            if a.Emit? && s.core.installed && !s.core.closed then s.accepted + [a.event] else s.accepted
  {
  }

  /** An event is accepted if and only if an observer is installed and no drain has begun, whether or not a worker is
      running; nothing else adds to what was accepted. */
  lemma AcceptsUnlessSealed(ss: seq<State>, actions: seq<Step>, i: nat)
    requires Run(ss, actions) && i < |actions|
    ensures var accepts := actions[i].Emit? && InstalledBy(actions[..i]) && !exists k :: 0 <= k < i && actions[k].Seal?;
            ss[i + 1].accepted == if accepts then ss[i].accepted + [actions[i].event] else ss[i].accepted
  {
    hide Apply, Enabled;
    Switches(ss, actions, i);
    assert Enabled(ss[i], actions[i]);
    EmitEffects(ss[i], actions[i]);
  }

  /** A worker not told to stop takes the oldest queued event, and only it; it leaves when there is none or a drain
      has given up. */
  lemma TakesOldest(s: State, a: Step)
    requires Inv(s) && Enabled(s, a) && a.Take?
    ensures var s' := Apply(s, a);
            if s.core.queue == [] || s.core.abandoned then s'.workers[a.worker].Exited? && s'.called == s.called
            else s'.workers[a.worker] == Calling(s.core.queue[0]) && s'.called == s.called + [s.core.queue[0]]
                 && s'.core.queue == s.core.queue[1..]
  {
  }

  /** The drainer d returns at step i. */
  ghost predicate Returns(s: State, a: Step, d: nat) {
    || (a == Seal(d) && s.core.pending == 0)
    || a == SeesClosed(d)
    || a == TimesOut(d)
  }

  /** A drain gives up at this step with events still queued. */
  predicate DropsQueued(s: State, a: Step) {
    a.TimesOut? && s.core.queue != []
  }

  /** Events are dropped only so: none has been if and only if no drain gave up with events queued. */
  lemma {:induction false} DroppedByDrain(ss: seq<State>, actions: seq<Step>, i: nat)
    requires Run(ss, actions) && i < |ss|
    ensures ss[i].dropped == 0 <==> forall k :: 0 <= k < i ==> !DropsQueued(ss[k], actions[k])
  {
    if i > 0 {
      DroppedByDrain(ss, actions, i - 1);
      Reachable(ss, actions, i - 1);
      DropStep(ss[i - 1], actions[i - 1]);
      assert ss[i - 1 + 1] == Apply(ss[i - 1], actions[i - 1]);
    }
  }

  lemma DropStep(s: State, a: Step)
    requires Inv(s) && Enabled(s, a)
    ensures if DropsQueued(s, a) then Apply(s, a).dropped > s.dropped else Apply(s, a).dropped == s.dropped
  {
  }

  /** What a drain returns is accepted minus finished, less what an earlier drain had already dropped. So it is
      exact if and only if no drain gave up before with events queued, and for a first drain 0 means all finished. */
  lemma DrainReturnsUndelivered(ss: seq<State>, actions: seq<Step>, i: nat, d: nat)
    requires Run(ss, actions) && i < |actions| && Enabled(ss[i], actions[i]) && Returns(ss[i], actions[i], d)
    ensures d in ss[i + 1].drainers && ss[i + 1].drainers[d].Returned?
    ensures ss[i + 1].drainers[d].undelivered == |ss[i].accepted| - ss[i].finished - ss[i].dropped
    ensures ss[i + 1].drainers[d].undelivered == |ss[i].accepted| - ss[i].finished <==>
              forall k :: 0 <= k < i ==> !DropsQueued(ss[k], actions[k])
    ensures !ss[i].core.abandoned ==> ss[i].dropped == 0
  {
    Reachable(ss, actions, i);
    DrainedClosedOnce(ss, actions, i);
    DroppedByDrain(ss, actions, i);
  }

  /** Two drains at once can disagree: the second returns 0 although the first dropped an event. */
  lemma SecondDrainMayReturnZero() returns (ss: seq<State>, actions: seq<Step>)
    ensures Run(ss, actions)
    ensures ss[|ss| - 1].drainers == map[0 := Returned(1), 1 := Returned(0)]
    ensures ss[|ss| - 1].finished == 0 && |ss[|ss| - 1].accepted| == 1
  {
    var s1 := Apply(INIT, Install(true));
    var s2 := Apply(s1, Emit(7, 0));
    assert s2 == State(Core(true, [7], 1, 1, [], true, false, false, false), map[0 := AtTop], map[], [7], [], 0, 0);
    var s3 := Apply(s2, Seal(0));
    var s4 := Apply(s3, Seal(1));
    assert s4 == s2.(core := s2.core.(closed := true), drainers := map[0 := Waiting(1), 1 := Waiting(1)]);
    var s5 := Apply(s4, TimesOut(0));
    assert s5.core == Core(true, [], 0, 1, [1], true, false, true, true);
    var s6 := Apply(s5, SeesClosed(1));
    actions := [Install(true), Emit(7, 0), Seal(0), Seal(1), TimesOut(0), SeesClosed(1)];
    ss := [INIT, s1, s2, s3, s4, s5, s6];
  }
}
