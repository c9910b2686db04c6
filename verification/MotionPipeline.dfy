/** Detections to subscribers: tracker, emission, capacity-one queue, delivery and the ONVIF service, for one
    camera, with every lock section and channel operation one step. */
module MotionPipeline {
  import opened Prelude
  import opened MotionTracker
  import opened PullPoint

  /** The events service as a value. */
  datatype Service = Service(motion: bool, subs: map<nat, Sub>, counter: nat)

  datatype Sender = Idle | Trying(edge: bool) | Making(edge: bool) | Retrying(edge: bool)

  datatype Config = Config(linger: int, maxDuration: int, topics: seq<string>, timeout: int)

  /** Edges are numbered from 0 as the tracker decides them under its lock. count: how many it has decided.
      decided: those not yet emitted. sent: those passed to Send, in that order. */
  datatype State = State(
    cam: Cam,
    count: nat,
    decided: seq<nat>,
    sender: Sender,
    queue: seq<bool>,
    delivering: Option<bool>,
    service: Service,
    sent: seq<nat>)

  datatype Step =
    | Detect(at: int)
    | Sweep(at: int)
    | Emit(which: nat)           // 0 is the edge decided first
    | FirstTry
    | MakeRoom
    | SecondTry
    | Take
    | Deliver(ok: bool)
    | Subscribe(now: int)
    | Pull(id: nat, now: int)
    | RenewSub(id: nat, now: int)
    | Drop(id: nat)
    | Reap(now: int)

  function Init(cfg: Config): State {
    State(NewCam(cfg.linger), 0, [], Idle, [], None, Service(false, map[], 0), [])
  }

  /** Rises are decided and emitted by the subscriber's loop, falls by the sweep's: each goroutine sends an edge of
      its own before it decides anything else. */
  predicate LoopFree(s: State, rise: bool) {
    && (s.sender.Idle? || s.sender.edge != rise)
    && forall i :: 0 <= i < |s.decided| ==> Rises(s.decided[i]) != rise
  }

  predicate Enabled(s: State, a: Step) {
    match a
    case Detect(_) => LoopFree(s, true)
    case Sweep(_) => LoopFree(s, false)
    case Emit(i) => s.sender.Idle? && i < |s.decided|
    case FirstTry => s.sender.Trying?
    case MakeRoom => s.sender.Making?
    case SecondTry => s.sender.Retrying?
    case Take => s.delivering.None? && s.queue != []
    case Deliver(_) => s.delivering.Some?
    case _ => true
  }

  /** Edges alternate from a rise, so an edge's number says which it is. */
  predicate Rises(edge: nat) {
    edge % 2 == 0
  }

  function Decide(s: State, cam: Cam): State {
    if cam.on == s.cam.on then s.(cam := cam)
    else s.(cam := cam, count := s.count + 1, decided := s.decided + [s.count])
  }

  /** setMotion: only a change is queued. */
  function Trigger(cfg: Config, v: Service, state: bool): Service {
    if state == v.motion then v else v.(motion := state, subs := NotifiedAll(cfg.topics, v.subs, state))
  }

  function Apply(cfg: Config, s: State, a: Step): State
    requires Enabled(s, a)
  {
    var v := s.service;
    match a
    case Detect(at) => Decide(s, Detected(s.cam, at))
    case Sweep(at) => Decide(s, Swept(s.cam, at, cfg.maxDuration))
    case Emit(i) =>
      s.(decided := s.decided[..i] + s.decided[i + 1..], sender := Trying(Rises(s.decided[i])),
         sent := s.sent + [s.decided[i]])
    case FirstTry =>
      if s.queue == [] then s.(queue := [s.sender.edge], sender := Idle) else s.(sender := Making(s.sender.edge))
    case MakeRoom => s.(queue := if s.queue == [] then [] else s.queue[1..], sender := Retrying(s.sender.edge))
    case SecondTry =>
      if s.queue == [] then s.(queue := [s.sender.edge], sender := Idle) else s.(sender := Idle)
    case Take => s.(queue := s.queue[1..], delivering := Some(s.queue[0]))
    case Deliver(ok) =>
      s.(delivering := None, service := if ok then Trigger(cfg, v, s.delivering.value) else v)
    case Subscribe(now) =>
      s.(service := v.(counter := v.counter + 1,
                       subs := v.subs[v.counter + 1 := Created(cfg.topics, cfg.timeout, v.motion, now)]))
    case Pull(id, now) => s.(service := v.(subs := PulledFrom(cfg.timeout, v.subs, id, now)))
    case RenewSub(id, now) => s.(service := v.(subs := RenewedIn(cfg.timeout, v.subs, id, now)))
    case Drop(id) => s.(service := v.(subs := v.subs - {id}))
    case Reap(now) => s.(service := v.(subs := Surviving(cfg.timeout, v.subs, now)))
  }

  ghost predicate Run(cfg: Config, ss: seq<State>, actions: seq<Step>) {
    && |ss| == |actions| + 1
    && ss[0] == Init(cfg)
    && forall i :: 0 <= i < |actions| ==> Enabled(ss[i], actions[i]) && ss[i + 1] == Apply(cfg, ss[i], actions[i])
  }

  ghost predicate AllDelivered(actions: seq<Step>) {
    forall i :: 0 <= i < |actions| && actions[i].Deliver? ==> actions[i].ok
  }

  ghost predicate InDecidedOrder(actions: seq<Step>) {
    forall i :: 0 <= i < |actions| && actions[i].Emit? ==> actions[i].which == 0
  }

  /** Nothing on its way from the tracker to the service. */
  predicate Quiet(s: State) {
    s.decided == [] && s.sender.Idle? && s.queue == [] && s.delivering.None?
  }

  // ---- Invariants ----

  /** The queue holds at most one edge, and the second try always finds it empty. */
  ghost predicate QueueInv(s: State) {
    |s.queue| <= 1 && (s.sender.Retrying? ==> s.queue == [])
  }

  ghost predicate ServiceInv(cfg: Config, s: State) {
    AllConsistent(cfg.topics, cfg.timeout, s.service.motion, s.service.subs, s.service.counter)
  }

  predicate LastOr(edges: seq<bool>, otherwise: bool) {
    if edges == [] then otherwise else edges[|edges| - 1]
  }

  /** The level the service will show once what has been sent has arrived. */
  predicate Arriving(s: State) {
    if !s.sender.Idle? then s.sender.edge
    else LastOr(s.queue, if s.delivering.Some? then s.delivering.value else s.service.motion)
  }

  /** The level of the edge sent last. */
  predicate LastSent(s: State) {
    s.sent != [] && Rises(s.sent[|s.sent| - 1])
  }

  /** The edge decided last is the level, and no edge is forgotten before it is sent. */
  ghost predicate NumberInv(s: State) {
    && s.cam.on == (s.count % 2 == 1)
    && (s.decided == [] && s.sent == [] <==> s.count == 0)
  }

  /** With each loop sending its own edges one by one, only the last two edges can still be unsent, and once they
      are sent the edge sent last is one of them. */
  ghost predicate LagInv(s: State) {
    && (forall i :: 0 <= i < |s.decided| ==> s.count - 2 <= s.decided[i] < s.count)
    && (s.count > 0 ==> s.count - 1 in s.decided || (s.sent != [] && s.count - 2 <= s.sent[|s.sent| - 1] < s.count))
  }

  /** Sent in decided order, the edges sent and still to be sent are 0, 1, 2, ... */
  ghost predicate OrderInv(s: State) {
    s.sent + s.decided == seq(s.count, i => i)
  }

  lemma QueueStep(cfg: Config, s: State, a: Step)
    requires QueueInv(s) && Enabled(s, a)
    ensures QueueInv(Apply(cfg, s, a))
  {
  }

  lemma ServiceStep(cfg: Config, s: State, a: Step)
    requires ServiceInv(cfg, s) && Enabled(s, a)
    ensures ServiceInv(cfg, Apply(cfg, s, a))
  {
    hide Consistent, AllConsistent, Created, PulledFrom, RenewedIn, NotifiedAll, Detected, Swept;
    var v := s.service;
    match a
    case Deliver(ok) =>
      if ok && s.delivering.value != v.motion {
        NotifyKeeps(cfg.topics, cfg.timeout, s.delivering.value, v.subs, v.counter);
      }
    case Subscribe(now) => CreateKeeps(cfg.topics, cfg.timeout, v.motion, v.subs, v.counter, now);
    case Pull(id, now) => PullKeeps(cfg.topics, cfg.timeout, v.motion, v.subs, v.counter, id, now);
    case RenewSub(id, now) => PullKeeps(cfg.topics, cfg.timeout, v.motion, v.subs, v.counter, id, now);
    case Drop(id) => FewerKeep(cfg, v, v.subs - {id});
    case Reap(now) => FewerKeep(cfg, v, Surviving(cfg.timeout, v.subs, now));
    case _ =>
  }

  lemma FewerKeep(cfg: Config, v: Service, fewer: map<nat, Sub>)
    requires AllConsistent(cfg.topics, cfg.timeout, v.motion, v.subs, v.counter)
    requires forall id :: id in fewer ==> id in v.subs && fewer[id] == v.subs[id]
    ensures AllConsistent(cfg.topics, cfg.timeout, v.motion, fewer, v.counter)
  {
  }

  /** While deliveries succeed, what is arriving is the edge sent last, whatever was superseded. */
  lemma ArrivingStep(cfg: Config, s: State, a: Step)
    requires QueueInv(s) && Enabled(s, a) && (a.Deliver? ==> a.ok)
    requires Arriving(s) == LastSent(s)
    ensures Arriving(Apply(cfg, s, a)) == LastSent(Apply(cfg, s, a))
  {
    hide NotifiedAll, PulledFrom, RenewedIn, Surviving, Created, Detected, Swept;
  }

  lemma NumberStep(cfg: Config, s: State, a: Step)
    requires NumberInv(s) && Enabled(s, a)
    ensures NumberInv(Apply(cfg, s, a))
  {
    hide NotifiedAll, PulledFrom, RenewedIn, Surviving, Created, Detected, Swept;
  }

  lemma LagStep(cfg: Config, s: State, a: Step)
    requires NumberInv(s) && LagInv(s) && Enabled(s, a)
    ensures LagInv(Apply(cfg, s, a))
  {
    hide NotifiedAll, PulledFrom, RenewedIn, Surviving, Created;
    var s' := Apply(cfg, s, a);
    if s'.count == s.count + 1 {
      assert Rises(s.count) == a.Detect?;
      assert s'.decided[|s.decided|] == s.count;
      forall i | 0 <= i < |s.decided|
        ensures s.decided[i] == s.count - 1
      {
        assert Rises(s.decided[i]) != Rises(s.count);
      }
    } else if a.Emit? && s.count - 1 in s.decided && s.decided[a.which] != s.count - 1 {
      var k :| 0 <= k < |s.decided| && s.decided[k] == s.count - 1;
      assert s'.decided[if k < a.which then k else k - 1] == s.count - 1;
    }
  }

  lemma OrderStep(cfg: Config, s: State, a: Step)
    requires OrderInv(s) && Enabled(s, a) && (a.Emit? ==> a.which == 0)
    ensures OrderInv(Apply(cfg, s, a))
  {
    hide NotifiedAll, PulledFrom, RenewedIn, Surviving, Created, Detected, Swept;
    var s' := Apply(cfg, s, a);
    if s'.count == s.count + 1 {
      assert s'.sent + s'.decided == s.sent + s.decided + [s.count];
    } else {
      assert s'.sent + s'.decided == s.sent + s.decided;
    }
  }

  lemma {:induction false} Reachable(cfg: Config, ss: seq<State>, actions: seq<Step>, i: nat)
    requires Run(cfg, ss, actions) && i < |ss|
    ensures QueueInv(ss[i]) && ServiceInv(cfg, ss[i])
    ensures NumberInv(ss[i]) && LagInv(ss[i])
    ensures AllDelivered(actions) ==> Arriving(ss[i]) == LastSent(ss[i])
    ensures InDecidedOrder(actions) ==> OrderInv(ss[i])
  {
    hide QueueInv, ServiceInv, Arriving, LastSent, NumberInv, LagInv, OrderInv;
    if i == 0 {
      InitInv(cfg);
    } else {
      Reachable(cfg, ss, actions, i - 1);
      QueueStep(cfg, ss[i - 1], actions[i - 1]);
      ServiceStep(cfg, ss[i - 1], actions[i - 1]);
      NumberStep(cfg, ss[i - 1], actions[i - 1]);
      LagStep(cfg, ss[i - 1], actions[i - 1]);
      if AllDelivered(actions) {
        ArrivingStep(cfg, ss[i - 1], actions[i - 1]);
      }
      if InDecidedOrder(actions) {
        OrderStep(cfg, ss[i - 1], actions[i - 1]);
      }
    }
  }

  lemma InitInv(cfg: Config)
    ensures var s := Init(cfg);
            QueueInv(s) && ServiceInv(cfg, s) && NumberInv(s) && LagInv(s) && OrderInv(s) && Arriving(s) == LastSent(s)
  {
  }

  // ---- End to end ----

  /** When everything decided has been sent and has arrived, every delivery having succeeded, the service shows the
      edge sent last, and that is the tracker's level if and only if the edge sent last is the edge decided last. */
  lemma ServiceShowsLastSent(cfg: Config, ss: seq<State>, actions: seq<Step>, i: nat)
    requires Run(cfg, ss, actions) && AllDelivered(actions) && i < |ss| && Quiet(ss[i])
    ensures ss[i].service.motion == LastSent(ss[i])
    ensures ss[i].sent == [] <==> ss[i].count == 0
    ensures ss[i].service.motion == ss[i].cam.on <==>
              ss[i].sent == [] || ss[i].sent[|ss[i].sent| - 1] == ss[i].count - 1
  {
    Reachable(cfg, ss, actions, i);
  }

  /** With edges emitted in the order decided, the service ends at the tracker's level, and so does the last
      thing every live subscriber has been sent on every topic, although superseded edges were dropped. */
  lemma ServiceReachesLevel(cfg: Config, ss: seq<State>, actions: seq<Step>, i: nat, id: nat, t: nat)
    requires Run(cfg, ss, actions) && AllDelivered(actions) && InDecidedOrder(actions) && i < |ss| && Quiet(ss[i])
    ensures ss[i].service.motion == ss[i].cam.on
    ensures DistinctTopics(cfg.topics) && t < |cfg.topics| && id in ss[i].service.subs ==>
              var sub := ss[i].service.subs[id];
              LastOr(TopicStates(sub.pulled + sub.queue, cfg.topics[t]), !ss[i].cam.on) == ss[i].cam.on
  {
    Reachable(cfg, ss, actions, i);
    assert ss[i].sent == seq(ss[i].count, k => k);
    if DistinctTopics(cfg.topics) && t < |cfg.topics| && id in ss[i].service.subs {
      HistoryPerTopic(cfg.topics, cfg.timeout, ss[i].service.motion, ss[i].service.subs[id], t);
    }
  }

  /** The changes of the service's level over the steps from k to i. */
  function MotionChanges(ss: seq<State>, k: nat, i: nat): seq<bool>
    requires k <= i < |ss|
  {
    if k == i then []
    else
      var change := if ss[i].service.motion != ss[i - 1].service.motion then [ss[i].service.motion] else [];
      MotionChanges(ss, k, i - 1) + change
  }

  /** Everything a subscription's pulls have taken over the steps from k to i, batch after batch. */
  function Batches(ss: seq<State>, actions: seq<Step>, id: nat, k: nat, i: nat): seq<Message>
    requires k <= i <= |actions| && i < |ss|
  {
    if k == i then []
    else
      var a, subs := actions[i - 1], ss[i - 1].service.subs;
      var batch := if a.Pull? && a.id == id && id in subs then Batch(subs[id].queue) else [];
      Batches(ss, actions, id, k, i - 1) + batch
  }

  /** What a step does to a subscription that was there before it and still is. */
  lemma SubStep(cfg: Config, s: State, a: Step, id: nat)
    requires QueueInv(s) && ServiceInv(cfg, s) && Enabled(s, a)
    requires id in s.service.subs && id in Apply(cfg, s, a).service.subs
    ensures var s' := Apply(cfg, s, a);
            var was, now := s.service.subs[id], s'.service.subs[id];
            && now.levels == was.levels + (if s'.service.motion != s.service.motion then [s'.service.motion] else [])
            && now.pulled == was.pulled + (if a.Pull? && a.id == id then Batch(was.queue) else [])
  {
    hide Consistent, Detected, Swept;
    assert id <= s.service.counter;
  }

  /** A subscription that a step makes appear is one just created, seeded with the level of that moment. */
  lemma SubAppears(cfg: Config, s: State, a: Step, id: nat)
    requires Enabled(s, a) && id !in s.service.subs && id in Apply(cfg, s, a).service.subs
    ensures a.Subscribe? && id == s.service.counter + 1
    ensures var now := Apply(cfg, s, a).service.subs[id];
            now.levels == [s.service.motion] && now.pulled == [] && Apply(cfg, s, a).service.motion == s.service.motion
  {
    hide Detected, Swept;
  }

  /** The subscription id was created by step k. */
  predicate SubscribedAt(ss: seq<State>, actions: seq<Step>, id: nat, k: nat)
    requires k < |actions| && k < |ss|
  {
    actions[k].Subscribe? && id == ss[k].service.counter + 1
  }

  /** A live subscription's levels and pulls, since the step that created it. */
  lemma {:induction false} SinceCreation(cfg: Config, ss: seq<State>, actions: seq<Step>, i: nat, id: nat) returns (k: nat)
    requires Run(cfg, ss, actions) && i < |ss| && id in ss[i].service.subs
    ensures k < i && SubscribedAt(ss, actions, id, k)
    ensures ss[i].service.subs[id].levels == [ss[k].service.motion] + MotionChanges(ss, k, i)
    ensures ss[i].service.subs[id].pulled == Batches(ss, actions, id, k, i)
  {
    hide Apply, Enabled, QueueInv, ServiceInv;
    assert i > 0 by {
      assert ss[0] == Init(cfg);
    }
    Reachable(cfg, ss, actions, i - 1);
    if id in ss[i - 1].service.subs {
      k := SinceCreation(cfg, ss, actions, i - 1, id);
      SubStep(cfg, ss[i - 1], actions[i - 1], id);
    } else {
      k := i - 1;
      SubAppears(cfg, ss[i - 1], actions[i - 1], id);
    }
  }

  /** In every reachable state, delivered or not, what a live subscriber has pulled, batch after batch, and what is
      still queued for it carry on every topic the level at the step that created it and every change of the
      service's level since: nothing lost, repeated or reordered. */
  lemma SubscriberHistory(cfg: Config, ss: seq<State>, actions: seq<Step>, i: nat, id: nat, t: nat) returns (k: nat)
    requires Run(cfg, ss, actions) && i < |ss| && id in ss[i].service.subs
    requires DistinctTopics(cfg.topics) && t < |cfg.topics|
    ensures k < i && SubscribedAt(ss, actions, id, k)
    ensures var history := Batches(ss, actions, id, k, i) + ss[i].service.subs[id].queue;
            var states := TopicStates(history, cfg.topics[t]);
            && history == Fanout(cfg.topics, [ss[k].service.motion] + MotionChanges(ss, k, i))
            && states == [ss[k].service.motion] + MotionChanges(ss, k, i)
            && Alternates(states) && states[|states| - 1] == ss[i].service.motion
  {
    Reachable(cfg, ss, actions, i);
    k := SinceCreation(cfg, ss, actions, i, id);
    HistoryPerTopic(cfg.topics, cfg.timeout, ss[i].service.motion, ss[i].service.subs[id], t);
  }

  // ---- Pulling and reaping over runs ----

  /** The pulls of one subscription over the steps from i to j. */
  function Pulls(actions: seq<Step>, id: nat, i: nat, j: nat): nat
    requires i <= j <= |actions|
  {
    if i == j then 0
    else Pulls(actions, id, i, j - 1) + if actions[j - 1].Pull? && actions[j - 1].id == id then 1 else 0
  }

  /** The subscription lives and the level does not change over the steps from i to j. */
  ghost predicate Undisturbed(ss: seq<State>, id: nat, i: nat, j: nat)
    requires i <= j < |ss|
  {
    forall k {:trigger ss[k]} :: i <= k <= j ==> id in ss[k].service.subs && ss[k].service.motion == ss[i].service.motion
  }

  /** A step that does not change the level leaves a queue alone, but for a pull: ten off the front, or all. */
  lemma QueueOfStep(cfg: Config, s: State, a: Step, id: nat)
    requires ServiceInv(cfg, s) && Enabled(s, a) && Apply(cfg, s, a).service.motion == s.service.motion
    requires id in s.service.subs && id in Apply(cfg, s, a).service.subs
    ensures var queue := s.service.subs[id].queue;
            Apply(cfg, s, a).service.subs[id].queue
              == if a.Pull? && a.id == id then queue[Min(10, |queue|)..] else queue
  {
    hide Consistent, Detected, Swept;
    assert id <= s.service.counter;
  }

  /** While the level does not change, n pulls take the first ten times n messages, or all there are. */
  lemma {:induction false} PullsTakeTens(cfg: Config, ss: seq<State>, actions: seq<Step>, id: nat, i: nat, j: nat)
    requires Run(cfg, ss, actions) && i <= j < |ss| && Undisturbed(ss, id, i, j)
    ensures var queue := ss[i].service.subs[id].queue;
            ss[j].service.subs[id].queue == queue[Min(10 * Pulls(actions, id, i, j), |queue|)..]
    decreases j
  {
    hide Apply, Enabled, ServiceInv, QueueInv;
    if i < j {
      PullsTakeTens(cfg, ss, actions, id, i, j - 1);
      Reachable(cfg, ss, actions, j - 1);
      assert ss[j - 1 + 1] == Apply(cfg, ss[j - 1], actions[j - 1]);
      QueueOfStep(cfg, ss[j - 1], actions[j - 1], id);
    }
  }

  /** So (length + 9) / 10 of them empty the queue. */
  lemma PullsEmptyQueue(cfg: Config, ss: seq<State>, actions: seq<Step>, id: nat, i: nat, j: nat)
    requires Run(cfg, ss, actions) && i <= j < |ss| && Undisturbed(ss, id, i, j)
    ensures ss[j].service.subs[id].queue == [] <==>
              Pulls(actions, id, i, j) >= (|ss[i].service.subs[id].queue| + 9) / 10
  {
    PullsTakeTens(cfg, ss, actions, id, i, j);
  }

  /** When a subscription was last created, pulled from or renewed. */
  function LastRefresh(ss: seq<State>, actions: seq<Step>, id: nat, i: nat): Option<int>
    requires i <= |actions| && i < |ss|
  {
    if i == 0 then None
    else
      var a := actions[i - 1];
      if a.Subscribe? && id == ss[i - 1].service.counter + 1 then Some(a.now)
      else if (a.Pull? || a.RenewSub?) && a.id == id then Some(a.now)
      else LastRefresh(ss, actions, id, i - 1)
  }

  lemma TerminationStep(cfg: Config, s: State, a: Step, id: nat)
    requires ServiceInv(cfg, s) && Enabled(s, a) && id in Apply(cfg, s, a).service.subs
    ensures var now := Apply(cfg, s, a).service.subs[id].termination;
            if a.Subscribe? && id == s.service.counter + 1 then now == a.now + cfg.timeout
            else id in s.service.subs
                 && now == if (a.Pull? || a.RenewSub?) && a.id == id then a.now + cfg.timeout
                           else s.service.subs[id].termination
  {
    hide Consistent, Detected, Swept;
  }

  /** A live subscription ends one lifetime after it was last created, pulled from or renewed. */
  lemma {:induction false} TerminatesAfterRefresh(cfg: Config, ss: seq<State>, actions: seq<Step>, i: nat, id: nat)
    requires Run(cfg, ss, actions) && i < |ss| && id in ss[i].service.subs
    ensures LastRefresh(ss, actions, id, i).Some?
    ensures ss[i].service.subs[id].termination == LastRefresh(ss, actions, id, i).value + cfg.timeout
  {
    hide Apply, Enabled, ServiceInv, QueueInv;
    assert i > 0 by {
      assert ss[0] == Init(cfg);
    }
    Reachable(cfg, ss, actions, i - 1);
    assert ss[i - 1 + 1] == Apply(cfg, ss[i - 1], actions[i - 1]);
    TerminationStep(cfg, ss[i - 1], actions[i - 1], id);
    if id in ss[i - 1].service.subs {
      TerminatesAfterRefresh(cfg, ss, actions, i - 1, id);
    }
  }

  /** Reaping takes away exactly the subscriptions not created, pulled from or renewed for six lifetimes. */
  lemma ReapsAbandoned(cfg: Config, ss: seq<State>, actions: seq<Step>, i: nat, id: nat)
    requires Run(cfg, ss, actions) && i < |actions| && actions[i].Reap? && id in ss[i].service.subs
    ensures LastRefresh(ss, actions, id, i).Some?
    ensures id !in ss[i + 1].service.subs <==> actions[i].now - LastRefresh(ss, actions, id, i).value > 6 * cfg.timeout
  {
    TerminatesAfterRefresh(cfg, ss, actions, i, id);
  }

  /** One edge on its way through an otherwise quiet pipeline. */
  lemma Passes(cfg: Config, s: State, i: nat) returns (s1: State, s2: State, s3: State, s4: State)
    requires s.sender.Idle? && s.queue == [] && s.delivering.None? && i < |s.decided|
    ensures Enabled(s, Emit(i)) && s1 == Apply(cfg, s, Emit(i))
    ensures Enabled(s1, FirstTry) && s2 == Apply(cfg, s1, FirstTry)
    ensures Enabled(s2, Take) && s3 == Apply(cfg, s2, Take)
    ensures Enabled(s3, Deliver(true)) && s4 == Apply(cfg, s3, Deliver(true))
    ensures s4 == s.(decided := s.decided[..i] + s.decided[i + 1..], sent := s.sent + [s.decided[i]],
                     service := Trigger(cfg, s.service, Rises(s.decided[i])))
  {
    s1 := Apply(cfg, s, Emit(i));
    s2 := Apply(cfg, s1, FirstTry);
    s3 := Apply(cfg, s2, Take);
    s4 := Apply(cfg, s3, Deliver(true));
  }

  /** A rise and the fall that follows, decided and not yet sent. */
  lemma RiseAndFall(cfg: Config) returns (up: Step, down: Step, s1: State, s2: State)
    ensures up.Detect? && down.Sweep? && Enabled(Init(cfg), up) && Enabled(s1, down)
    ensures s1 == Apply(cfg, Init(cfg), up) && s2 == Apply(cfg, s1, down)
    ensures s2.decided == [0, 1] && !s2.cam.on && s2.service == Service(false, map[], 0)
    ensures s2.sender.Idle? && s2.queue == [] && s2.delivering.None?
  {
    var linger := NewCam(cfg.linger).linger;
    up, down := Detect(0), Sweep(if cfg.maxDuration > linger then cfg.maxDuration else linger);
    s1 := Apply(cfg, Init(cfg), up);
    s2 := Apply(cfg, s1, down);
  }

  /** The tracker decides under its lock but emits after it: two goroutines can emit in the other order,
      and then the service is left showing a level the camera does not have. */
  lemma OutOfOrderEmissionSticks(cfg: Config) returns (ss: seq<State>, actions: seq<Step>)
    ensures Run(cfg, ss, actions) && AllDelivered(actions) && Quiet(ss[|ss| - 1])
    ensures ss[|ss| - 1].cam.on != ss[|ss| - 1].service.motion
  {
    hide Apply, Init;
    var up, down, s1, s2 := RiseAndFall(cfg);
    var s3, s4, s5, s6 := Passes(cfg, s2, 1);
    var s7, s8, s9, s10 := Passes(cfg, s6, 0);
    actions := [up, down, Emit(1), FirstTry, Take, Deliver(true), Emit(0), FirstTry, Take, Deliver(true)];
    ss := [Init(cfg), s1, s2, s3, s4, s5, s6, s7, s8, s9, s10];
  }
}
