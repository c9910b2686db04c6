/** The ONVIF events service: pull-point subscriptions fed by one motion level. */
module PullPoint {
  import opened Prelude

  datatype Message = Message(topic: string, state: bool)

  const BATCH := 10
  const GRACE := 5   // lifetimes past termination before a subscription is reaped

  /** One message per advertised topic. */
  function MotionMessages(topics: seq<string>, state: bool): (msgs: seq<Message>)
    ensures |msgs| == |topics|
  {
    seq(|topics|, i requires 0 <= i < |topics| => Message(topics[i], state))
  }

  // ---- What a subscriber is sent ----

  /** The messages of a run of levels, each fanned out to every topic. */
  function Fanout(topics: seq<string>, levels: seq<bool>): seq<Message> {
    if levels == [] then []
    else Fanout(topics, levels[..|levels| - 1]) + MotionMessages(topics, levels[|levels| - 1])
  }

  /** The states a history carries for one topic. */
  function TopicStates(msgs: seq<Message>, topic: string): seq<bool> {
    if msgs == [] then []
    else
      var last := msgs[|msgs| - 1];
      TopicStates(msgs[..|msgs| - 1], topic) + (if last.topic == topic then [last.state] else [])
  }

  ghost predicate Alternates(levels: seq<bool>) {
    forall i :: 0 <= i && i + 1 < |levels| ==> levels[i + 1] != levels[i]
  }

  ghost predicate DistinctTopics(topics: seq<string>) {
    forall i, j :: 0 <= i < j < |topics| ==> topics[i] != topics[j]
  }

  lemma {:induction false} TopicStatesConcat(a: seq<Message>, b: seq<Message>, topic: string)
    ensures TopicStates(a + b, topic) == TopicStates(a, topic) + TopicStates(b, topic)
    decreases |b|
  {
    if b == [] {
      assert a + b == a;
    } else {
      var front := b[..|b| - 1];
      TopicStatesConcat(a, front, topic);
      assert (a + b)[..|a + b| - 1] == a + front;
    }
  }

  lemma {:induction false} OnePerTopic(topics: seq<string>, state: bool, t: nat)
    requires DistinctTopics(topics) && t < |topics|
    ensures TopicStates(MotionMessages(topics, state), topics[t]) == [state]
    decreases |topics|
  {
    var front := topics[..|topics| - 1];
    assert MotionMessages(topics, state)[..|topics| - 1] == MotionMessages(front, state);
    if t == |topics| - 1 {
      NotThisTopic(front, state, topics[t]);
    } else {
      OnePerTopic(front, state, t);
    }
  }

  lemma {:induction false} NotThisTopic(topics: seq<string>, state: bool, topic: string)
    requires topic !in topics
    ensures TopicStates(MotionMessages(topics, state), topic) == []
    decreases |topics|
  {
    if topics != [] {
      var front := topics[..|topics| - 1];
      assert MotionMessages(topics, state)[..|topics| - 1] == MotionMessages(front, state);
      NotThisTopic(front, state, topic);
    }
  }

  /** On every advertised topic, a fanned-out history carries exactly the levels, in order. */
  lemma {:induction false} EveryTopicSeesEveryLevel(topics: seq<string>, levels: seq<bool>, t: nat)
    requires DistinctTopics(topics) && t < |topics|
    ensures TopicStates(Fanout(topics, levels), topics[t]) == levels
    decreases |levels|
  {
    if levels != [] {
      var front := levels[..|levels| - 1];
      EveryTopicSeesEveryLevel(topics, front, t);
      OnePerTopic(topics, levels[|levels| - 1], t);
      TopicStatesConcat(Fanout(topics, front), MotionMessages(topics, levels[|levels| - 1]), topics[t]);
    }
  }

  // ---- Subscriptions as values ----

  /** One live subscription, with the service's level when it was created and what it has ever been sent:
      everything pulled so far and the levels. */
  datatype Sub = Sub(
    termination: int,
    queue: seq<Message>,
    pulled: seq<Message>,
    seed: bool,
    levels: seq<bool>,
    refreshed: int)

  /** A subscriber's whole history is what it has pulled and what is still queued: the state at creation,
      then every change since, on every topic. */
  ghost predicate Consistent(topics: seq<string>, timeout: int, motion: bool, s: Sub) {
    && s.pulled + s.queue == Fanout(topics, s.levels)
    && s.levels != [] && s.levels[0] == s.seed && Alternates(s.levels) && s.levels[|s.levels| - 1] == motion
    && s.termination == s.refreshed + timeout
  }

  function Created(topics: seq<string>, timeout: int, motion: bool, now: int): Sub {
    Sub(now + timeout, MotionMessages(topics, motion), [], motion, [motion], now)
  }

  function Batch(queue: seq<Message>): seq<Message> {
    if |queue| <= BATCH then queue else queue[..BATCH]
  }

  function Pulled(timeout: int, s: Sub, now: int): Sub {
    Sub(now + timeout, s.queue[|Batch(s.queue)|..], s.pulled + Batch(s.queue), s.seed, s.levels, now)
  }

  /** A pull takes ten messages off the front of the queue, or all of them if there are no more, and leaves the rest. */
  predicate Takes(msgs: seq<Message>, before: seq<Message>, after: seq<Message>) {
    msgs + after == before && |msgs| == Min(10, |before|)
  }

  lemma PullTakes(timeout: int, s: Sub, now: int)
    ensures Takes(Batch(s.queue), s.queue, Pulled(timeout, s, now).queue)
    ensures Pulled(timeout, s, now).pulled == s.pulled + Batch(s.queue)
    ensures Pulled(timeout, s, now).termination == now + timeout
  {
  }

  function Renewed(timeout: int, s: Sub, now: int): Sub {
    s.(termination := now + timeout, refreshed := now)
  }

  function Notified(topics: seq<string>, s: Sub, motion: bool): Sub {
    s.(queue := s.queue + MotionMessages(topics, motion), levels := s.levels + [motion])
  }

  predicate Reaped(timeout: int, s: Sub, now: int) {
    s.termination < now - GRACE * timeout
  }

  lemma CreatedConsistent(topics: seq<string>, timeout: int, motion: bool, now: int)
    ensures Consistent(topics, timeout, motion, Created(topics, timeout, motion, now))
  {
    assert Fanout(topics, [motion]) == MotionMessages(topics, motion);
  }

  lemma PulledConsistent(topics: seq<string>, timeout: int, motion: bool, s: Sub, now: int)
    requires Consistent(topics, timeout, motion, s)
    ensures Consistent(topics, timeout, motion, Pulled(timeout, s, now))
  {
    assert Batch(s.queue) + s.queue[|Batch(s.queue)|..] == s.queue;
    assert s.pulled + Batch(s.queue) + s.queue[|Batch(s.queue)|..] == s.pulled + s.queue;
  }

  lemma NotifiedConsistent(topics: seq<string>, timeout: int, motion: bool, s: Sub)
    requires Consistent(topics, timeout, !motion, s)
    ensures Consistent(topics, timeout, motion, Notified(topics, s, motion))
  {
    assert (s.levels + [motion])[..|s.levels|] == s.levels;
    assert s.pulled + (s.queue + MotionMessages(topics, motion)) == s.pulled + s.queue + MotionMessages(topics, motion);
  }

  /** A live subscriber's history on each topic starts with the state at creation, strictly alternates,
      and ends with the current level; nothing is lost, repeated or reordered. */
  lemma HistoryPerTopic(topics: seq<string>, timeout: int, motion: bool, s: Sub, t: nat)
    requires DistinctTopics(topics) && t < |topics| && Consistent(topics, timeout, motion, s)
    ensures var states := TopicStates(s.pulled + s.queue, topics[t]);
            && states == s.levels && Alternates(states) && states != []
            && states[0] == s.seed && states[|states| - 1] == motion
    ensures TopicStates(s.pulled, topics[t]) + TopicStates(s.queue, topics[t]) == s.levels
  {
    EveryTopicSeesEveryLevel(topics, s.levels, t);
    TopicStatesConcat(s.pulled, s.queue, topics[t]);
  }

  /** A subscription is reaped exactly when its last creation, pull or renewal is more than
      GRACE + 1 lifetimes old. */
  lemma ReapedWhenAbandoned(topics: seq<string>, timeout: int, motion: bool, s: Sub, now: int)
    requires Consistent(topics, timeout, motion, s)
    ensures Reaped(timeout, s, now) <==> now - s.refreshed > (GRACE + 1) * timeout
  {
  }

  // ---- All subscriptions as values ----

  ghost predicate AllConsistent(topics: seq<string>, timeout: int, motion: bool, subs: map<nat, Sub>, counter: nat) {
    forall id :: id in subs ==> 0 < id <= counter && Consistent(topics, timeout, motion, subs[id])
  }

  function Surviving(timeout: int, subs: map<nat, Sub>, now: int): map<nat, Sub> {
    map id | id in subs && !Reaped(timeout, subs[id], now) :: subs[id]
  }

  function PulledFrom(timeout: int, subs: map<nat, Sub>, id: nat, now: int): map<nat, Sub> {
    if id in subs then subs[id := Pulled(timeout, subs[id], now)] else subs
  }

  function RenewedIn(timeout: int, subs: map<nat, Sub>, id: nat, now: int): map<nat, Sub> {
    if id in subs then subs[id := Renewed(timeout, subs[id], now)] else subs
  }

  function NotifiedAll(topics: seq<string>, subs: map<nat, Sub>, motion: bool): map<nat, Sub> {
    map id | id in subs :: Notified(topics, subs[id], motion)
  }

  lemma CreateKeeps(topics: seq<string>, timeout: int, motion: bool, subs: map<nat, Sub>, counter: nat, now: int)
    requires AllConsistent(topics, timeout, motion, subs, counter)
    ensures counter + 1 !in subs
    ensures AllConsistent(topics, timeout, motion, subs[counter + 1 := Created(topics, timeout, motion, now)], counter + 1)
  {
    hide Consistent;
    CreatedConsistent(topics, timeout, motion, now);
  }

  lemma PullKeeps(topics: seq<string>, timeout: int, motion: bool, subs: map<nat, Sub>, counter: nat, id: nat, now: int)
    requires AllConsistent(topics, timeout, motion, subs, counter)
    ensures AllConsistent(topics, timeout, motion, PulledFrom(timeout, subs, id, now), counter)
    ensures AllConsistent(topics, timeout, motion, RenewedIn(timeout, subs, id, now), counter)
  {
    if id in subs {
      PulledConsistent(topics, timeout, motion, subs[id], now);
    }
  }

  lemma NotifyKeeps(topics: seq<string>, timeout: int, motion: bool, subs: map<nat, Sub>, counter: nat)
    requires AllConsistent(topics, timeout, !motion, subs, counter)
    ensures AllConsistent(topics, timeout, motion, NotifiedAll(topics, subs, motion), counter)
  {
    hide Consistent;
    forall id | id in subs
      ensures Consistent(topics, timeout, motion, Notified(topics, subs[id], motion))
    {
      NotifiedConsistent(topics, timeout, motion, subs[id]);
    }
  }

  // ---- The service in place ----

  class Subscription {
    const created: int
    var termination: int
    var queue: seq<Message>
    ghost var pulled: seq<Message>
    ghost const seed: bool
    ghost var levels: seq<bool>
    ghost var refreshed: int

    constructor (created: int, termination: int, queue: seq<Message>, ghost level: bool)
      ensures this.created == created && View() == Sub(termination, queue, [], level, [level], created)
    {
      this.created := created;
      this.termination := termination;
      this.queue := queue;
      seed := level;
      pulled, levels, refreshed := [], [level], created;
    }

    ghost function View(): Sub
      reads this
    {
      Sub(termination, queue, pulled, seed, levels, refreshed)
    }

    /** PullMessages on a live subscription: up to BATCH messages off the front, and the lifetime extended. */
    method Pull(now: int, timeout: int) returns (msgs: seq<Message>)
      modifies this
      ensures msgs == Batch(old(queue)) && View() == Pulled(timeout, old(View()), now)
    {
      if |queue| <= BATCH {
        msgs := queue;
        queue := [];
      } else {
        msgs := queue[..BATCH];
        queue := queue[BATCH..];
      }
      termination := now + timeout;
      pulled := pulled + msgs;
      refreshed := now;
    }

    method Renew(now: int, timeout: int)
      modifies this
      ensures View() == Renewed(timeout, old(View()), now)
    {
      termination := now + timeout;
      refreshed := now;
    }

    method Push(msgs: seq<Message>, ghost topics: seq<string>, ghost state: bool)
      requires msgs == MotionMessages(topics, state)
      modifies this
      ensures View() == Notified(topics, old(View()), state)
    {
      queue := queue + msgs;
      levels := levels + [state];
    }
  }

  /** No two ids share a subscription object. */
  ghost predicate Separate(subscriptions: map<nat, Subscription>) {
    forall a, b :: a in subscriptions && b in subscriptions && a != b ==> subscriptions[a] != subscriptions[b]
  }

  ghost function Views(subscriptions: map<nat, Subscription>): (subs: map<nat, Sub>)
    reads subscriptions.Values
    ensures subs.Keys == subscriptions.Keys
    ensures forall id :: id in subscriptions ==> subs[id] == subscriptions[id].View()
  {
    map id | id in subscriptions :: subscriptions[id].View()
  }

  lemma ViewsAre(subscriptions: map<nat, Subscription>, expected: map<nat, Sub>)
    requires expected.Keys == subscriptions.Keys
    requires forall id :: id in subscriptions ==> expected[id] == subscriptions[id].View()
    ensures Views(subscriptions) == expected
  {
  }

  /** setMotion's loop: the same messages onto every subscription's queue. */
  method Notify(subscriptions: map<nat, Subscription>, topics: seq<string>, state: bool)
    requires Separate(subscriptions)
    modifies subscriptions.Values
    ensures Views(subscriptions) == NotifiedAll(topics, old(Views(subscriptions)), state)
  {
    hide Views, Notified, MotionMessages;
    ghost var was := Views(subscriptions);
    var msgs := MotionMessages(topics, state);
    var todo := subscriptions.Keys;
    while todo != {}
      invariant todo <= subscriptions.Keys
      invariant forall id :: id in todo ==> subscriptions[id].View() == was[id]
      invariant forall id :: id in subscriptions && id !in todo ==> subscriptions[id].View() == Notified(topics, was[id], state)
      decreases todo
    {
      var id :| id in todo;
      todo := todo - {id};
      subscriptions[id].Push(msgs, topics, state);
    }
    ViewsAre(subscriptions, NotifiedAll(topics, was, state));
  }

  datatype Action = GetEventProperties | CreatePullPoint | PullMessages | Renew | Unsubscribe | OtherAction

  class EventsService {
    const topics: seq<string>
    const timeout: int
    var subscriptions: map<nat, Subscription>
    var motionState: bool
    var subCounter: nat

    ghost function Subs(): map<nat, Sub>
      reads this, subscriptions.Values
    {
      Views(subscriptions)
    }

    ghost predicate Valid()
      reads this, subscriptions.Values
    {
      Separate(subscriptions) && AllConsistent(topics, timeout, motionState, Subs(), subCounter)
    }

    constructor (topics: seq<string>, timeout: int)
      ensures Valid() && Subs() == map[] && !motionState && subCounter == 0
      ensures this.topics == topics && this.timeout == timeout
    {
      this.topics := topics;
      this.timeout := timeout;
      subscriptions, motionState, subCounter := map[], false, 0;
    }

    method ReapSubscriptions(now: int)
      requires Valid()
      modifies this`subscriptions
      ensures Valid() && subscriptions.Values <= old(subscriptions.Values)
      ensures Subs() == Surviving(timeout, old(Subs()), now)
    {
      hide Consistent, Views;
      var cutoff := now - GRACE * timeout;
      ghost var was, before := subscriptions, Subs();
      var todo := subscriptions.Keys;
      while todo != {}
        invariant Separate(subscriptions) && todo <= subscriptions.Keys <= was.Keys
        invariant forall id :: id in subscriptions ==> subscriptions[id] == was[id]
        invariant forall id :: id in was && id !in todo ==> (id in subscriptions <==> was[id].termination >= cutoff)
        decreases todo
      {
        var id :| id in todo;
        todo := todo - {id};
        if subscriptions[id].termination < cutoff {
          subscriptions := subscriptions - {id};
        }
      }
      ViewsAre(subscriptions, Surviving(timeout, before, now));
    }

    method Create(now: int) returns (id: nat)
      requires Valid()
      modifies this`subscriptions, this`subCounter
      ensures Valid() && id == subCounter == old(subCounter) + 1 && id !in old(Subs())
      ensures Subs() == old(Subs())[id := Created(topics, timeout, motionState, now)]
      ensures fresh(subscriptions.Values - old(subscriptions.Values))
    {
      hide Consistent, Views, AllConsistent;
      ghost var was := Subs();
      CreateKeeps(topics, timeout, motionState, was, subCounter, now);
      subCounter := subCounter + 1;
      id := subCounter;
      var sub := new Subscription(now, now + timeout, MotionMessages(topics, motionState), motionState);
      subscriptions := subscriptions[id := sub];
      ViewsAre(subscriptions, was[id := Created(topics, timeout, motionState, now)]);
    }

    method Pull(id: nat, now: int) returns (msgs: seq<Message>)
      requires Valid()
      modifies if id in subscriptions then {subscriptions[id]} else {}
      ensures Valid() && Subs() == PulledFrom(timeout, old(Subs()), id, now)
      ensures msgs == if id in old(Subs()) then Batch(old(Subs())[id].queue) else []
      ensures id in old(Subs()) ==>
                && id in Subs() && Takes(msgs, old(Subs())[id].queue, Subs()[id].queue)
                && Subs()[id].termination == now + timeout
    {
      hide Consistent, Views, AllConsistent, Batch, Takes;
      ghost var was := Subs();
      PullKeeps(topics, timeout, motionState, was, subCounter, id, now);
      if id in was {
        PullTakes(timeout, was[id], now);
      }
      msgs := [];
      if id in subscriptions {
        msgs := subscriptions[id].Pull(now, timeout);
      }
      ViewsAre(subscriptions, PulledFrom(timeout, was, id, now));
    }

    method Renew(id: nat, now: int)
      requires Valid()
      modifies if id in subscriptions then {subscriptions[id]} else {}
      ensures Valid() && Subs() == RenewedIn(timeout, old(Subs()), id, now)
      ensures id in old(Subs()) ==> id in Subs() && Subs()[id].termination == now + timeout
    {
      hide Consistent, Views, AllConsistent;
      ghost var was := Subs();
      PullKeeps(topics, timeout, motionState, was, subCounter, id, now);
      if id in subscriptions {
        subscriptions[id].Renew(now, timeout);
      }
      ViewsAre(subscriptions, RenewedIn(timeout, was, id, now));
    }

    method Unsubscribe(id: nat)
      requires Valid()
      modifies this`subscriptions
      ensures Valid() && Subs() == old(Subs()) - {id} && subscriptions.Values <= old(subscriptions.Values)
    {
      hide Consistent, Views;
      ghost var was := Subs();
      subscriptions := subscriptions - {id};
      ViewsAre(subscriptions, was - {id});
    }

    /** Only a change is queued; it goes to every live subscription on every topic. */
    method SetMotion(state: bool) returns (changed: bool, subscribers: nat)
      requires Valid()
      modifies this`motionState, subscriptions.Values
      ensures Valid() && motionState == state
      ensures changed == (state != old(motionState)) && subscribers == |subscriptions|
      ensures Subs() == if changed then NotifiedAll(topics, old(Subs()), state) else old(Subs())
    {
      hide Consistent, Views, AllConsistent, NotifiedAll, Separate;
      ghost var was := Subs();
      subscribers := |subscriptions|;
      if state == motionState {
        return false, subscribers;
      }
      NotifyKeeps(topics, timeout, state, was, subCounter);
      motionState := state;
      assert Views(subscriptions) == was;
      Notify(subscriptions, topics, state);
      changed := true;
    }

    /** A SOAP request: abandoned subscriptions are reaped first, whatever the action. */
    method Handle(action: Action, id: nat, reapAt: int, now: int) returns (msgs: seq<Message>)
      requires Valid()
      modifies this`subscriptions, this`subCounter, subscriptions.Values
      ensures Valid() && motionState == old(motionState)
      ensures var live := Surviving(timeout, old(Subs()), reapAt);
              match action
              case CreatePullPoint =>
                Subs() == live[subCounter := Created(topics, timeout, motionState, now)] && subCounter == old(subCounter) + 1
              case PullMessages =>
                && Subs() == PulledFrom(timeout, live, id, now) && (id !in live ==> msgs == [])
                && (id in live ==> id in Subs() && Takes(msgs, live[id].queue, Subs()[id].queue))
              case Renew => Subs() == RenewedIn(timeout, live, id, now)
              case Unsubscribe => Subs() == live - {id}
              case _ => Subs() == live
    {
      hide Consistent, Views, AllConsistent, Surviving, PulledFrom, RenewedIn, Created, Separate, Batch, Takes;
      msgs := [];
      ReapSubscriptions(reapAt);
      match action
      case CreatePullPoint => var created := Create(now);
      case PullMessages => msgs := Pull(id, now);
      case Renew => this.Renew(id, now);
      case Unsubscribe => this.Unsubscribe(id);
      case _ =>
    }
  }
}
