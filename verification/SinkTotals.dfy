/** Sink delivery totals across connections, and the guard that makes a sink safe to close. */
module SinkTotals {
  import opened Prelude

  datatype Stats = Stats(published: nat, discarded: nat, queueDropped: nat, failed: nat) {
    function Add(other: Stats): Stats {
      Stats(published + other.published, discarded + other.discarded,
            queueDropped + other.queueDropped, failed + other.failed)
    }

    predicate AtMost(other: Stats) {
      && published <= other.published && discarded <= other.discarded
      && queueDropped <= other.queueDropped && failed <= other.failed
    }
  }

  const ZERO := Stats(0, 0, 0, 0)

  /** The four ways a write can end, each one packet. */
  datatype Outcome = Published | Discarded | QueueDropped | Failed

  function One(o: Outcome): Stats {
    match o
    case Published => Stats(1, 0, 0, 0)
    case Discarded => Stats(0, 1, 0, 0)
    case QueueDropped => Stats(0, 0, 1, 0)
    case Failed => Stats(0, 0, 0, 1)
  }

  // ---- The manager's totals, with track pumps that outlive their connection ----

  /** sinks are the counts of every sink made, by connection. late are the counts made after the sink was retired.
      Each counter is loaded once per locked section, so for each of the four the section is one step. */
  datatype State = State(total: Stats, current: Option<nat>, sinks: seq<Stats>, late: Stats)

  datatype Step =
    | Install
    | Write(sink: nat, outcome: Outcome)
    | Retire

  const INIT := State(ZERO, None, [], ZERO)

  predicate Enabled(s: State, a: Step) {
    match a
    case Install => s.current.None?
    case Write(i, _) => i < |s.sinks|
    case Retire => s.current.Some? && s.current.value < |s.sinks|
  }

  function Apply(s: State, a: Step): State
    requires Enabled(s, a)
  {
    match a
    case Install => s.(current := Some(|s.sinks|), sinks := s.sinks + [ZERO])
    case Write(i, o) =>
      s.(sinks := s.sinks[i := s.sinks[i].Add(One(o))],
         late := if s.current == Some(i) then s.late else s.late.Add(One(o)))
    case Retire => s.(total := s.total.Add(s.sinks[s.current.value]), current := None)
  }

  /** SinkStats. */
  function Reported(s: State): Stats {
    if s.current.Some? && s.current.value < |s.sinks| then s.total.Add(s.sinks[s.current.value]) else s.total
  }

  predicate Run(states: seq<State>, steps: seq<Step>) {
    && |states| == |steps| + 1 && states[0] == INIT
    && forall i :: 0 <= i < |steps| ==> Enabled(states[i], steps[i]) && states[i + 1] == Apply(states[i], steps[i])
  }

  function Sum(sinks: seq<Stats>): Stats {
    if sinks == [] then ZERO else Sum(sinks[..|sinks| - 1]).Add(sinks[|sinks| - 1])
  }

  lemma {:induction false} SumUpdated(sinks: seq<Stats>, i: nat, d: Stats)
    requires i < |sinks|
    ensures Sum(sinks[i := sinks[i].Add(d)]) == Sum(sinks).Add(d)
  {
    var n := |sinks| - 1;
    var updated := sinks[i := sinks[i].Add(d)];
    if i == n {
      assert updated[..n] == sinks[..n];
    } else {
      SumUpdated(sinks[..n], i, d);
      assert updated[..n] == sinks[..n][i := sinks[i].Add(d)];
    }
  }

  lemma SumAppended(sinks: seq<Stats>)
    ensures Sum(sinks + [ZERO]) == Sum(sinks)
  {
    var more := sinks + [ZERO];
    assert more[..|more| - 1] == sinks && more[|more| - 1] == ZERO;
  }

  predicate Balanced(s: State) {
    && (s.current.Some? ==> s.current.value < |s.sinks|)
    && Reported(s).Add(s.late) == Sum(s.sinks)
  }

  lemma BalancedStep(s: State, a: Step)
    requires Balanced(s) && Enabled(s, a)
    ensures Balanced(Apply(s, a))
    ensures Reported(s).AtMost(Reported(Apply(s, a)))
  {
    hide Sum;
    match a
    case Install => SumAppended(s.sinks);
    case Write(i, o) => SumUpdated(s.sinks, i, One(o));
    case Retire =>
  }

  /** Every packet counted by any sink is reported exactly once, save those counted after retirement. */
  lemma {:induction false} ReportedOnce(states: seq<State>, steps: seq<Step>, n: nat)
    requires Run(states, steps) && n <= |steps|
    ensures Balanced(states[n])
  {
    hide Balanced, Apply, Enabled;
    if n > 0 {
      ReportedOnce(states, steps, n - 1);
      assert Enabled(states[n - 1], steps[n - 1]) && states[n - 1 + 1] == Apply(states[n - 1], steps[n - 1]);
      BalancedStep(states[n - 1], steps[n - 1]);
    } else {
      BalancedAtFirst();
    }
  }

  lemma SumOfNone(sinks: seq<Stats>)
    requires |sinks| == 0
    ensures Sum(sinks) == ZERO
  {
  }

  lemma BalancedAtFirst()
    ensures Balanced(INIT)
  {
    hide Sum;
    SumOfNone(INIT.sinks);
  }

  /** One counter of four. */
  function Counter(s: Stats, o: Outcome): nat {
    match o
    case Published => s.published
    case Discarded => s.discarded
    case QueueDropped => s.queueDropped
    case Failed => s.failed
  }

  /** The writes among these steps that ended one way. */
  function Writes(steps: seq<Step>, o: Outcome): nat {
    if steps == [] then 0
    else
      var last := steps[|steps| - 1];
      Writes(steps[..|steps| - 1], o) + if last.Write? && last.outcome == o then 1 else 0
  }

  lemma CounterStep(s: State, a: Step, o: Outcome)
    requires Balanced(s) && Enabled(s, a)
    ensures Counter(Reported(Apply(s, a)), o) + Counter(Apply(s, a).late, o)
         == Counter(Reported(s), o) + Counter(s.late, o) + if a.Write? && a.outcome == o then 1 else 0
  {
    hide Sum;
  }

  /** Each counter reported, with the late writes it misses, is the number of writes that ended that way. */
  lemma {:induction false} ReportsCountWrites(states: seq<State>, steps: seq<Step>, n: nat, o: Outcome)
    requires Run(states, steps) && n <= |steps|
    ensures Counter(Reported(states[n]), o) + Counter(states[n].late, o) == Writes(steps[..n], o)
  {
    hide Balanced, Apply, Enabled, Reported, Counter;
    if n > 0 {
      ReportsCountWrites(states, steps, n - 1, o);
      ReportedOnce(states, steps, n - 1);
      assert Enabled(states[n - 1], steps[n - 1]) && states[n - 1 + 1] == Apply(states[n - 1], steps[n - 1]);
      CounterStep(states[n - 1], steps[n - 1], o);
      assert steps[..n][..n - 1] == steps[..n - 1];
    } else {
      NothingCounted(o);
    }
  }

  lemma NothingCounted(o: Outcome)
    ensures Counter(Reported(INIT), o) + Counter(INIT.late, o) == 0
  {
  }

  /** What SinkStats reports never decreases, across any number of connections. */
  lemma {:induction false} ReportsNeverDecrease(states: seq<State>, steps: seq<Step>, i: nat, j: nat)
    requires Run(states, steps) && i <= j <= |steps|
    ensures Reported(states[i]).AtMost(Reported(states[j]))
    decreases j
  {
    hide Balanced, Apply, Enabled, Reported;
    if i < j {
      ReportsNeverDecrease(states, steps, i, j - 1);
      ReportedOnce(states, steps, j - 1);
      assert Enabled(states[j - 1], steps[j - 1]) && states[j - 1 + 1] == Apply(states[j - 1], steps[j - 1]);
      BalancedStep(states[j - 1], steps[j - 1]);
    }
  }

  // ---- The guard ----

  class Sink {
    ghost var writes: nat
    ghost var closes: nat

    constructor ()
      ensures writes == 0 && closes == 0
    {
      writes, closes := 0, 0;
    }

    method WriteRTP() returns (ok: bool)
      modifies this
      ensures writes == old(writes) + 1 && closes == old(closes)
    {
      ok := *;
      writes := writes + 1;
    }

    method Close() returns (ok: bool)
      modifies this
      ensures writes == old(writes) && closes == old(closes) + 1
    {
      ok := *;
      closes := closes + 1;
    }
  }

  class GuardedSink {
    var closed: bool
    var closeDone: bool
    const inner: Sink
    const closable: bool

    /** The inner sink is released once, by the first Close, if it can be. */
    ghost predicate Valid()
      reads this, inner
    {
      && closed == closeDone
      && inner.closes == if closed && closable then 1 else 0
    }

    constructor (inner: Sink, closable: bool)
      requires inner.closes == 0
      ensures Valid() && this.inner == inner && this.closable == closable && !closed
    {
      this.inner, this.closable := inner, closable;
      closed, closeDone := false, false;
    }

    method WriteRTP() returns (ok: bool)
      requires Valid()
      modifies inner
      ensures Valid() && inner.writes == old(inner.writes) + if closed then 0 else 1
      ensures closed ==> ok
    {
      if closed {
        return true;
      }
      ok := inner.WriteRTP();
    }

    method Close() returns (ok: bool)
      requires Valid()
      modifies this, inner
      ensures Valid() && closed && inner.writes == old(inner.writes)
      ensures inner.closes == if closable then 1 else 0
    {
      closed := true;
      ok := true;
      if !closeDone {
        closeDone := true;
        if closable {
          ok := inner.Close();
        }
      }
    }
  }

  // ---- The guard under concurrent writes and closes ----

  /** sync.Once: its function has not begun, is running in one goroutine, or has returned. */
  datatype Once = Fresh | Running(close: nat) | Done

  /** inside: the writes that have passed the closed check and not yet entered the inner sink. closing: the
      closes that have set the flag and not yet returned. returned: the closes that have. closes: how often the
      inner sink's Close was called; released: how many of those calls have come back. */
  datatype Guard = Guard(
    closed: bool,
    inside: set<nat>,
    entered: nat,
    once: Once,
    closing: set<nat>,
    returned: nat,
    closes: nat,
    released: nat)

  const OPEN_GUARD := Guard(false, {}, 0, Fresh, {}, 0, 0, 0)

  datatype GuardStep =
    | CheckClosed(write: nat)
    | Enter(write: nat)
    | SetClosed(close: nat)
    | BeginOnce(close: nat)    // closeOnce.Do finds it fresh and runs the function
    | EndOnce(close: nat)      // the function returns, and so does this close
    | PassOnce(close: nat)     // closeOnce.Do finds it done; while it is running, this close is blocked

  predicate GuardEnabled(g: Guard, a: GuardStep) {
    match a
    case CheckClosed(w) => w !in g.inside
    case Enter(w) => w in g.inside
    case SetClosed(c) => c !in g.closing
    case BeginOnce(c) => c in g.closing && g.once.Fresh?
    case EndOnce(c) => g.once == Running(c)
    case PassOnce(c) => c in g.closing && g.once.Done?
  }

  function GuardApply(g: Guard, a: GuardStep): Guard {
    match a
    case CheckClosed(w) => if g.closed then g else g.(inside := g.inside + {w})
    case Enter(w) => g.(inside := g.inside - {w}, entered := g.entered + 1)
    case SetClosed(c) => g.(closed := true, closing := g.closing + {c})
    case BeginOnce(c) => g.(once := Running(c), closes := g.closes + 1)
    case EndOnce(c) =>
      g.(once := Done, released := g.released + 1, closing := g.closing - {c}, returned := g.returned + 1)
    case PassOnce(c) => g.(closing := g.closing - {c}, returned := g.returned + 1)
  }

  predicate GuardRun(gs: seq<Guard>, steps: seq<GuardStep>) {
    && |gs| == |steps| + 1 && gs[0] == OPEN_GUARD
    && forall i :: 0 <= i < |steps| ==> GuardEnabled(gs[i], steps[i]) && gs[i + 1] == GuardApply(gs[i], steps[i])
  }

  /** Once the flag is set, only writes that had passed the check can still enter the inner sink, each once. */
  lemma {:induction false} LateWritesHadPassed(gs: seq<Guard>, steps: seq<GuardStep>, i: nat, j: nat)
    requires GuardRun(gs, steps) && i <= j <= |steps| && gs[i].closed
    ensures gs[j].closed && gs[j].inside <= gs[i].inside
    ensures gs[j].entered - gs[i].entered == |gs[i].inside| - |gs[j].inside|
    decreases j
  {
    if i < j {
      LateWritesHadPassed(gs, steps, i, j - 1);
      assert GuardEnabled(gs[j - 1], steps[j - 1]) && gs[j - 1 + 1] == GuardApply(gs[j - 1], steps[j - 1]);
    }
  }

  /** However many closes race, the inner sink's Close is called at most once; it has been called once and come
      back before any of them returns. */
  lemma {:induction false} ReleasedOnce(gs: seq<Guard>, steps: seq<GuardStep>, i: nat)
    requires GuardRun(gs, steps) && i <= |steps|
    ensures gs[i].closes <= 1
    ensures gs[i].returned > 0 ==> gs[i].closed && gs[i].closes == gs[i].released == 1
    ensures gs[i].closes - gs[i].released == if gs[i].once.Running? then 1 else 0
    ensures gs[i].closes == if gs[i].once.Fresh? then 0 else 1
    ensures gs[i].once.Running? ==> gs[i].once.close in gs[i].closing
    ensures gs[i].closing != {} ==> gs[i].closed
  {
    if i > 0 {
      ReleasedOnce(gs, steps, i - 1);
      assert GuardEnabled(gs[i - 1], steps[i - 1]) && gs[i - 1 + 1] == GuardApply(gs[i - 1], steps[i - 1]);
    }
  }
}
