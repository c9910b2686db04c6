/** The motion tracker: detections become one level per camera. */
module MotionTracker {
  import opened Prelude

  /** One camera's state. clearAt is None for Go's zero time. */
  datatype Cam = Cam(linger: int, holds: nat, clearAt: Option<int>, on: bool, raisedAt: int)

  function NewCam(linger: int): Cam {
    Cam(if linger <= 0 then DEFAULT_LINGER else linger, 0, None, false, 0)
  }

  const DEFAULT_LINGER := 60_000_000_000

  function Later(clearAt: Option<int>, deadline: int): Option<int> {
    if clearAt.None? || deadline > clearAt.value then Some(deadline) else clearAt
  }

  /** Handle for a camera the tracker knows. */
  function Detected(c: Cam, now: int): Cam {
    c.(holds := c.holds + 1, clearAt := Later(c.clearAt, now + c.linger),
       on := true, raisedAt := if c.on then c.raisedAt else now)
  }

  predicate Expired(c: Cam, now: int) {
    c.clearAt.None? || now >= c.clearAt.value
  }

  predicate Falls(c: Cam, now: int, maxDuration: int) {
    c.on && (Expired(c, now) || now - c.raisedAt >= maxDuration)
  }

  /** Sweep for one camera. */
  function Swept(c: Cam, now: int, maxDuration: int): Cam {
    if Falls(c, now, maxDuration) then c.(on := false, holds := 0, clearAt := None) else c
  }

  // ---- Runs of one camera ----

  /** What happens to one camera's tracker. */
  datatype Happening = Detection(at: int) | Sweeping(at: int)

  function Play(linger: int, maxDuration: int, hs: seq<Happening>): Cam {
    if hs == [] then NewCam(linger)
    else
      After(Play(linger, maxDuration, hs[..|hs| - 1]), hs[|hs| - 1], maxDuration)
  }

  function After(c: Cam, h: Happening, maxDuration: int): Cam {
    match h
    case Detection(at) => Detected(c, at)
    case Sweeping(at) => Swept(c, at, maxDuration)
  }

  /** The edge decided under the lock: Handle's if the level was down, Sweep's if it is due to fall. */
  function Decided(c: Cam, h: Happening, maxDuration: int): seq<bool> {
    match h
    case Detection(_) => if c.on then [] else [true]
    case Sweeping(at) => if Falls(c, at, maxDuration) then [false] else []
  }

  /** Every edge decided over a run, in order. */
  function Edges(linger: int, maxDuration: int, hs: seq<Happening>): seq<bool> {
    if hs == [] then []
    else
      var front := hs[..|hs| - 1];
      Edges(linger, maxDuration, front) + Decided(Play(linger, maxDuration, front), hs[|hs| - 1], maxDuration)
  }

  /** The edges decided over any run alternate, starting with a rise, and the last one is the level. */
  lemma {:induction false} EdgesAlternate(linger: int, maxDuration: int, hs: seq<Happening>)
    ensures var es := Edges(linger, maxDuration, hs);
            && (forall i :: 0 <= i < |es| ==> es[i] == (i % 2 == 0))
            && Play(linger, maxDuration, hs).on == (|es| % 2 == 1)
  {
    if hs != [] {
      EdgesAlternate(linger, maxDuration, hs[..|hs| - 1]);
    }
  }

  lemma OneMore(linger: int, maxDuration: int, hs: seq<Happening>, h: Happening)
    ensures Play(linger, maxDuration, hs + [h]) == After(Play(linger, maxDuration, hs), h, maxDuration)
    ensures Edges(linger, maxDuration, hs + [h])
         == Edges(linger, maxDuration, hs) + Decided(Play(linger, maxDuration, hs), h, maxDuration)
  {
    assert (hs + [h])[..|hs|] == hs;
  }

  // ---- In place ----

  datatype Edge = Edge(camera: string, on: bool, at: int)

  class CamState {
    const linger: int
    var holds: nat
    var clearAt: Option<int>
    var on: bool
    var raisedAt: int

    constructor (linger: int)
      ensures View() == NewCam(linger)
    {
      this.linger := if linger <= 0 then DEFAULT_LINGER else linger;
      holds, clearAt, on, raisedAt := 0, None, false, 0;
    }

    ghost function View(): Cam
      reads this
    {
      Cam(linger, holds, clearAt, on, raisedAt)
    }

    /** Handle's body under the lock: one more hold, and a rise if the level was down. */
    method Raise(now: int) returns (rose: bool)
      modifies this
      ensures View() == Detected(old(View()), now) && rose == !old(View()).on
    {
      holds := holds + 1;
      var deadline := now + linger;
      if clearAt.None? || deadline > clearAt.value {
        clearAt := Some(deadline);
      }
      if !on {
        on := true;
        raisedAt := now;
        rose := true;
      } else {
        rose := false;
      }
    }

    /** The sweep's body for one camera: lower the level when its holds have expired or the window is too long. */
    method Lower(now: int, maxDuration: int) returns (fell: bool)
      modifies this
      ensures View() == Swept(old(View()), now, maxDuration) && fell == Falls(old(View()), now, maxDuration)
    {
      if !on {
        return false;
      }
      var expired := clearAt.None? || now >= clearAt.value;
      var wedged := now - raisedAt >= maxDuration;
      if !expired && !wedged {
        return false;
      }
      on := false;
      holds := 0;
      clearAt := None;
      fell := true;
    }
  }

  /** The edges are the falls of the cameras in done, one for each. */
  ghost predicate FallsOnce(edges: seq<Edge>, was: map<string, Cam>, done: set<string>, now: int, maxDuration: int) {
    && (forall i, j :: 0 <= i < j < |edges| ==> edges[i].camera != edges[j].camera)
    && forall e :: e in edges <==> e.camera in was && e.camera in done && Falls(was[e.camera], now, maxDuration)
                                   && e == Edge(e.camera, false, now)
  }

  lemma NoFallYet(was: map<string, Cam>, now: int, maxDuration: int)
    ensures FallsOnce([], was, {}, now, maxDuration)
  {
  }

  lemma OneMoreFall(edges: seq<Edge>, was: map<string, Cam>, done: set<string>, id: string, now: int, maxDuration: int)
    requires FallsOnce(edges, was, done, now, maxDuration) && id in was && id !in done
    ensures FallsOnce(if Falls(was[id], now, maxDuration) then edges + [Edge(id, false, now)] else edges,
                      was, done + {id}, now, maxDuration)
  {
    hide Falls;
  }

  /** The edges decided for one camera, among those of every camera. */
  function EdgesOf(edges: seq<Edge>, camera: string): seq<bool> {
    if edges == [] then []
    else
      var last := edges[|edges| - 1];
      EdgesOf(edges[..|edges| - 1], camera) + (if last.camera == camera then [last.on] else [])
  }

  lemma {:induction false} EdgesOfBoth(a: seq<Edge>, b: seq<Edge>, camera: string)
    ensures EdgesOf(a + b, camera) == EdgesOf(a, camera) + EdgesOf(b, camera)
    decreases |b|
  {
    if b == [] {
      assert a + b == a;
    } else {
      EdgesOfBoth(a, b[..|b| - 1], camera);
      assert (a + b)[..|a + b| - 1] == a + b[..|b| - 1];
    }
  }

  lemma {:induction false} NoEdgeOf(edges: seq<Edge>, camera: string)
    requires forall i :: 0 <= i < |edges| ==> edges[i].camera != camera
    ensures EdgesOf(edges, camera) == []
  {
    if edges != [] {
      NoEdgeOf(edges[..|edges| - 1], camera);
    }
  }

  lemma {:induction false} OneEdgeOf(edges: seq<Edge>, i: nat)
    requires i < |edges| && forall j, k :: 0 <= j < k < |edges| ==> edges[j].camera != edges[k].camera
    ensures EdgesOf(edges, edges[i].camera) == [edges[i].on]
  {
    var front := edges[..|edges| - 1];
    if i == |edges| - 1 {
      NoEdgeOf(front, edges[i].camera);
    } else {
      OneEdgeOf(front, i);
    }
  }

  /** A sweep's edges for one camera are what the sweep decides for it. */
  lemma FallsDecided(edges: seq<Edge>, was: map<string, Cam>, now: int, maxDuration: int, id: string)
    requires FallsOnce(edges, was, was.Keys, now, maxDuration) && id in was
    ensures EdgesOf(edges, id) == Decided(was[id], Sweeping(now), maxDuration)
  {
    hide Falls;
    if Falls(was[id], now, maxDuration) {
      var i :| 0 <= i < |edges| && edges[i] == Edge(id, false, now);
      OneEdgeOf(edges, i);
    } else {
      NoEdgeOf(edges, id);
    }
  }

  /** A camera's state and its decided edges are those of its run. */
  ghost predicate Tracks(c: Cam, maxDuration: int, hs: seq<Happening>, edges: seq<bool>) {
    c == Play(c.linger, maxDuration, hs) && edges == Edges(c.linger, maxDuration, hs)
  }

  lemma TracksFromStart(linger: int, maxDuration: int)
    ensures Tracks(NewCam(linger), maxDuration, [], [])
  {
  }

  lemma TracksOneMore(c: Cam, maxDuration: int, hs: seq<Happening>, edges: seq<bool>, h: Happening)
    requires Tracks(c, maxDuration, hs, edges)
    ensures Tracks(After(c, h, maxDuration), maxDuration, hs + [h], edges + Decided(c, h, maxDuration))
  {
    OneMore(c.linger, maxDuration, hs, h);
  }

  ghost predicate Separate(state: map<string, CamState>) {
    forall a, b :: a in state && b in state && a != b ==> state[a] != state[b]
  }

  method NewStates(lingers: map<string, int>) returns (state: map<string, CamState>)
    ensures Separate(state) && fresh(state.Values) && state.Keys == lingers.Keys
    ensures forall id :: id in state ==> state[id].View() == NewCam(lingers[id])
  {
    hide NewCam;
    state := map[];
    var todo := lingers.Keys;
    while todo != {}
      invariant Separate(state) && forall id :: id in state ==> fresh(state[id])
      invariant todo <= lingers.Keys && state.Keys == lingers.Keys - todo
      invariant forall id :: id in state ==> state[id].View() == NewCam(lingers[id])
      decreases todo
    {
      var id :| id in todo;
      todo := todo - {id};
      var cam := new CamState(lingers[id]);
      state := state[id := cam];
    }
  }

  class Tracker {
    const maxDuration: int
    var state: map<string, CamState>
    ghost var runs: map<string, seq<Happening>>    // what has happened to each camera
    ghost var decided: seq<Edge>                   // every edge Handle and Sweep have decided

    ghost predicate Valid()
      reads this, state.Values
    {
      && Separate(state) && runs.Keys == state.Keys
      && forall id :: id in state ==> Tracks(state[id].View(), maxDuration, runs[id], EdgesOf(decided, id))
    }

    /** Over everything a tracker has ever done, each camera's edges alternate from a rise and end at its level. */
    lemma DecidedAlternate(id: string)
      requires Valid() && id in state
      ensures var es := EdgesOf(decided, id);
              && (forall i :: 0 <= i < |es| ==> es[i] == (i % 2 == 0))
              && state[id].on == (|es| % 2 == 1)
    {
      EdgesAlternate(state[id].linger, maxDuration, runs[id]);
    }

    ghost function View(): map<string, Cam>
      reads this, state.Values
    {
      map id | id in state :: state[id].View()
    }

    /** The set of cameras is also the filter: detections for other devices are dropped. */
    constructor (lingers: map<string, int>, maxDuration: int)
      ensures Valid() && fresh(state.Values) && this.maxDuration == maxDuration
      ensures View() == map id | id in lingers :: NewCam(lingers[id])
      ensures decided == []
    {
      hide Tracks, NewCam, EdgesOf;
      this.maxDuration := maxDuration;
      var states := NewStates(lingers);
      state := states;
      runs := map id | id in lingers :: [];
      decided := [];
      new;
      forall id | id in state
        ensures Tracks(state[id].View(), maxDuration, runs[id], EdgesOf(decided, id))
      {
        TracksFromStart(lingers[id], maxDuration);
        NoEdgeOf(decided, id);
      }
    }

    method Handle(device: string, now: int) returns (edge: Option<Edge>)
      requires Valid()
      modifies this`runs, this`decided, state.Values
      ensures Valid()
      ensures decided == old(decided) + if edge.Some? then [edge.value] else []
      ensures runs == if device in old(runs) then old(runs)[device := old(runs)[device] + [Detection(now)]] else old(runs)
      ensures View() == if device in old(View()) then old(View())[device := Detected(old(View())[device], now)] else old(View())
      ensures edge == if device in old(View()) && !old(View())[device].on then Some(Edge(device, true, now)) else None
    {
      hide Detected, Tracks, EdgesOf;
      ghost var was := View();
      edge := None;
      if device !in state {
        return;
      }
      var rose := state[device].Raise(now);
      assert forall id :: id in state ==> state[id].View() == if id == device then Detected(was[id], now) else was[id];
      if rose {
        edge := Some(Edge(device, true, now));
      }
      Record(device, now, edge, was);
    }

    ghost method Record(device: string, now: int, edge: Option<Edge>, was: map<string, Cam>)
      requires runs.Keys == state.Keys == was.Keys && device in was
      requires forall id :: id in was ==> Tracks(was[id], maxDuration, runs[id], EdgesOf(decided, id))
      requires forall id :: id in state ==>
                 state[id].View() == if id == device then Detected(was[id], now) else was[id]
      requires edge == if was[device].on then None else Some(Edge(device, true, now))
      modifies this`runs, this`decided
      ensures decided == old(decided) + if edge.Some? then [edge.value] else []
      ensures runs == old(runs)[device := old(runs)[device] + [Detection(now)]]
      ensures forall id :: id in state ==> Tracks(state[id].View(), maxDuration, runs[id], EdgesOf(decided, id))
    {
      hide Tracks, Detected, EdgesOf;
      var more := if edge.Some? then [edge.value] else [];
      TracksOneMore(was[device], maxDuration, runs[device], EdgesOf(decided, device), Detection(now));
      forall id | id in state
        ensures EdgesOf(decided + more, id)
             == EdgesOf(decided, id) + if id == device && !was[device].on then [true] else []
      {
        EdgesOfBoth(decided, more, id);
        if id == device && edge.Some? {
          OneEdgeOf(more, 0);
        } else {
          NoEdgeOf(more, id);
        }
      }
      ghost var before, edges := runs, decided;
      decided := decided + more;
      runs := runs[device := runs[device] + [Detection(now)]];
      forall id | id in state
        ensures Tracks(state[id].View(), maxDuration, runs[id], EdgesOf(decided, id))
      {
        if id == device {
          assert EdgesOf(decided, id) == EdgesOf(edges, id) + Decided(was[id], Detection(now), maxDuration);
        } else {
          assert EdgesOf(decided, id) == EdgesOf(edges, id) && runs[id] == before[id];
        }
      }
    }

    ghost method RecordSweep(now: int, edges: seq<Edge>, was: map<string, Cam>)
      requires runs.Keys == state.Keys == was.Keys
      requires forall id :: id in was ==> Tracks(was[id], maxDuration, runs[id], EdgesOf(decided, id))
      requires forall id :: id in state ==> state[id].View() == Swept(was[id], now, maxDuration)
      requires FallsOnce(edges, was, was.Keys, now, maxDuration)
      modifies this`runs, this`decided
      ensures decided == old(decided) + edges
      ensures runs == map id | id in old(runs) :: old(runs)[id] + [Sweeping(now)]
      ensures forall id :: id in state ==> Tracks(state[id].View(), maxDuration, runs[id], EdgesOf(decided, id))
    {
      hide Tracks, Swept, EdgesOf, FallsOnce;
      forall id | id in state
        ensures Tracks(state[id].View(), maxDuration, runs[id] + [Sweeping(now)], EdgesOf(decided + edges, id))
      {
        EdgesOfBoth(decided, edges, id);
        FallsDecided(edges, was, now, maxDuration, id);
        TracksOneMore(was[id], maxDuration, runs[id], EdgesOf(decided, id), Sweeping(now));
      }
      decided := decided + edges;
      runs := map id | id in runs :: runs[id] + [Sweeping(now)];
    }

    /** Lowers every level that is due; one falling edge for each, in the order the map yields them. */
    method Sweep(now: int) returns (edges: seq<Edge>)
      requires Valid()
      modifies this`runs, this`decided, state.Values
      ensures Valid()
      ensures decided == old(decided) + edges
      ensures runs == map id | id in old(runs) :: old(runs)[id] + [Sweeping(now)]
      ensures View() == map id | id in old(View()) :: Swept(old(View())[id], now, maxDuration)
      ensures FallsOnce(edges, old(View()), old(View()).Keys, now, maxDuration)
    {
      hide Swept, Falls, FallsOnce, Tracks, EdgesOf;
      ghost var was := View();
      edges := LowerAll(now);
      RecordSweep(now, edges, was);
    }

    /** The locked section of a sweep. */
    method LowerAll(now: int) returns (edges: seq<Edge>)
      requires Separate(state)
      modifies state.Values
      ensures forall id :: id in state ==> state[id].View() == Swept(old(View())[id], now, maxDuration)
      ensures FallsOnce(edges, old(View()), old(View()).Keys, now, maxDuration)
    {
      hide Swept, Falls, FallsOnce;
      NoFallYet(View(), now, maxDuration);
      ghost var was := View();
      edges := [];
      var todo := state.Keys;
      assert was.Keys - todo == {};
      while todo != {}
        invariant todo <= state.Keys == was.Keys && state == old(state)
        invariant forall id :: id in todo ==> state[id].View() == was[id]
        invariant forall id :: id in was && id !in todo ==> state[id].View() == Swept(was[id], now, maxDuration)
        invariant FallsOnce(edges, was, was.Keys - todo, now, maxDuration)
        decreases todo
      {
        var id :| id in todo;
        OneMoreFall(edges, was, was.Keys - todo, id, now, maxDuration);
        assert was.Keys - (todo - {id}) == was.Keys - todo + {id};
        todo := todo - {id};
        var fell := state[id].Lower(now, maxDuration);
        if fell {
          edges := edges + [Edge(id, false, now)];
        }
      }
      assert was.Keys - todo == was.Keys;
    }
  }

  // ---- Keeping one deadline refines keeping every hold ----

  /** The reference: every hold's own deadline. */
  datatype Held = Held(linger: int, deadlines: seq<int>, on: bool, raisedAt: int)

  function HeldDetected(h: Held, now: int): Held {
    Held(h.linger, h.deadlines + [now + h.linger], true, if h.on then h.raisedAt else now)
  }

  /** The level stays up while any hold is still running, up to the ceiling. */
  function HeldSwept(h: Held, now: int, maxDuration: int): Held {
    if h.on && ((forall i :: 0 <= i < |h.deadlines| ==> now >= h.deadlines[i]) || now - h.raisedAt >= maxDuration)
    then h.(on := false, deadlines := [])
    else h
  }

  ghost predicate Represents(c: Cam, h: Held) {
    && c.linger == h.linger && c.on == h.on && c.raisedAt == h.raisedAt
    && c.holds == |h.deadlines|
    && (c.clearAt.None? <==> h.deadlines == [])
    && (c.clearAt.Some? ==> c.clearAt.value in h.deadlines)
    && forall i :: 0 <= i < |h.deadlines| ==> c.clearAt.Some? && h.deadlines[i] <= c.clearAt.value
  }

  function PlayHeld(linger: int, maxDuration: int, hs: seq<Happening>): Held {
    if hs == [] then Held(NewCam(linger).linger, [], false, 0)
    else
      var h := PlayHeld(linger, maxDuration, hs[..|hs| - 1]);
      match hs[|hs| - 1]
      case Detection(at) => HeldDetected(h, at)
      case Sweeping(at) => HeldSwept(h, at, maxDuration)
  }

  /** Over every run, keeping the maximum deadline raises and lowers the level exactly as keeping
      every hold separately would, whatever the clock does. */
  lemma {:induction false} MaximumRefinesEveryHold(linger: int, maxDuration: int, hs: seq<Happening>)
    ensures Represents(Play(linger, maxDuration, hs), PlayHeld(linger, maxDuration, hs))
  {
    if hs != [] {
      var front, last := hs[..|hs| - 1], hs[|hs| - 1];
      MaximumRefinesEveryHold(linger, maxDuration, front);
      var c, h := Play(linger, maxDuration, front), PlayHeld(linger, maxDuration, front);
      match last
      case Detection(at) =>
        var h' := HeldDetected(h, at);
        assert h'.deadlines[|h.deadlines|] == at + h.linger;
        if c.clearAt.Some? {
          var i :| 0 <= i < |h.deadlines| && h.deadlines[i] == c.clearAt.value;
          assert h'.deadlines[i] == c.clearAt.value;
        }
      case Sweeping(at) =>
        if c.clearAt.Some? {
          var i :| 0 <= i < |h.deadlines| && h.deadlines[i] == c.clearAt.value;
        }
    }
  }

  // ---- When the level falls ----

  /** The time of the detection that raised the level last. */
  function RiseTime(linger: int, maxDuration: int, hs: seq<Happening>): Option<int> {
    if hs == [] then None
    else if hs[|hs| - 1].Detection? && !Play(linger, maxDuration, hs[..|hs| - 1]).on then Some(hs[|hs| - 1].at)
    else RiseTime(linger, maxDuration, hs[..|hs| - 1])
  }

  function LastDetection(hs: seq<Happening>): Option<int> {
    if hs == [] then None
    else if hs[|hs| - 1].Detection? then Some(hs[|hs| - 1].at)
    else LastDetection(hs[..|hs| - 1])
  }

  function LastSweep(hs: seq<Happening>, start: int): int {
    if hs == [] then start
    else if hs[|hs| - 1].Sweeping? then hs[|hs| - 1].at
    else LastSweep(hs[..|hs| - 1], start)
  }

  ghost predicate InOrder(hs: seq<Happening>, start: int) {
    forall i :: 0 <= i < |hs| ==> start <= hs[i].at && (i > 0 ==> hs[i - 1].at <= hs[i].at)
  }

  lemma {:induction false} WindowSoFar(linger: int, maxDuration: int, hs: seq<Happening>, start: int)
    requires maxDuration > 0 && InOrder(hs, start)
    ensures var c := Play(linger, maxDuration, hs);
            && c.linger == NewCam(linger).linger > 0
            && start <= LastSweep(hs, start) && (hs != [] ==> LastSweep(hs, start) <= hs[|hs| - 1].at)
            && (LastDetection(hs).Some? ==> hs != [] && LastDetection(hs).value <= hs[|hs| - 1].at)
            && (c.on ==> LastDetection(hs).Some? && c.clearAt == Some(LastDetection(hs).value + c.linger))
            && (c.on ==> RiseTime(linger, maxDuration, hs) == Some(c.raisedAt))
            && (!c.on ==> c.clearAt == None)
            && (c.on ==> LastSweep(hs, start) < Min(c.clearAt.value, c.raisedAt + maxDuration))
  {
    if hs != [] {
      var front := hs[..|hs| - 1];
      assert InOrder(front, start);
      WindowSoFar(linger, maxDuration, front, start);
      if front != [] {
        assert front[|front| - 1] == hs[|hs| - 2];
      }
    }
  }

  /** With r the rise time and m the earlier of last detection + linger and r + MaxDuration, a sweep lowers
      the level if and only if it comes at m or later; with sweeps at most d apart, the fall is before m + d. */
  lemma FallsWithinOneSweepOfDue(linger: int, maxDuration: int, hs: seq<Happening>, start: int, f: int, d: int)
    requires maxDuration > 0 && InOrder(hs + [Sweeping(f)], start)
    requires Play(linger, maxDuration, hs).on
    ensures LastDetection(hs).Some? && RiseTime(linger, maxDuration, hs).Some?
    ensures var configured := if linger > 0 then linger else 60_000_000_000;
            var m := Min(LastDetection(hs).value + configured, RiseTime(linger, maxDuration, hs).value + maxDuration);
            && (!Play(linger, maxDuration, hs + [Sweeping(f)]).on <==> m <= f)
            && (f - LastSweep(hs, start) <= d ==> f < m + d)
  {
    var run := hs + [Sweeping(f)];
    assert run[..|hs|] == hs;
    assert InOrder(hs, start) by {
      forall i | 0 <= i < |hs|
        ensures start <= hs[i].at && (i > 0 ==> hs[i - 1].at <= hs[i].at)
      {
        assert hs[i] == run[i] && (i > 0 ==> hs[i - 1] == run[i - 1]);
      }
    }
    WindowSoFar(linger, maxDuration, hs, start);
  }
}
