/** What a session manager does, as a trace: its state changes, resources, stream commands and waits; the rules
    every trace follows; and what those rules promise over whole runs. */
module SessionTrace {
  import opened Prelude

  const SECOND: int := 1_000_000_000   // in nanoseconds
  const MAX_RENEWAL_DELAY: int := 180 * SECOND
  const MIN_RETRY_DELAY: int := SECOND
  const MAX_BACKOFF: int := 60 * SECOND

  // ---- Commands and their outcomes ----

  datatype RateLimit = RateLimit(retryAfter: Option<int>)

  /** A stream command's error: whether it says the extension is unsupported, and the 429 it carries, if any. */
  datatype Error = Error(unsupported: bool, rateLimit: Option<RateLimit>)

  const ORDINARY := Error(false, None)

  /** expires is None for Go's zero time. */
  datatype Session = Session(id: string, expires: Option<int>)

  /** The outcome of scheduler.Do over a stream command: Skipped when it never ran the command. */
  datatype Reply = Skipped | Refused(error: Error) | Nothing | Granted(session: Session)

  /** What became of stopRemote's command: it is Unsent when the scheduler gave it no turn in time. */
  datatype StopOutcome = Unsent | Accepted | Rejected(error: Error)

  datatype Failure = NoFailure | OrdinaryFailure | UnsupportedFailure | RateLimitedFailure

  datatype RenewalEvent = RenewalEvent(succeeded: bool, failure: Failure)

  function Classify(e: Error): Failure {
    if e.unsupported then UnsupportedFailure
    else if e.rateLimit.Some? then RateLimitedFailure
    else OrdinaryFailure
  }

  /** The one event an Extend call is owed. */
  function EventOf(r: Reply): Option<RenewalEvent> {
    match r
    case Skipped => None
    case Refused(e) => Some(RenewalEvent(false, Classify(e)))
    case Nothing => Some(RenewalEvent(false, OrdinaryFailure))
    case Granted(_) => Some(RenewalEvent(true, NoFailure))
  }

  /** The server may answer an extension without a media session id; the old id then stays. */
  function Renewed(s: Session, next: Session): Session {
    Session(if next.id != "" then next.id else s.id, next.expires)
  }

  // ---- Counters ----

  datatype Connects = Connects(succeeded: nat, failed: nat)

  datatype Renewals = Renewals(succeeded: nat, failed: nat, unsupported: nat, rateLimited: nat)

  datatype Tally = Tally(connects: Connects, renewals: Renewals)

  /** recordConnection. */
  function Connected(n: Connects, succeeded: bool): Connects {
    if succeeded then n.(succeeded := n.succeeded + 1) else n.(failed := n.failed + 1)
  }

  /** recordRenewal. */
  function Recorded(n: Renewals, event: RenewalEvent): Renewals {
    if event.succeeded then n.(succeeded := n.succeeded + 1)
    else n.(failed := n.failed + 1,
            unsupported := if event.failure.UnsupportedFailure? then n.unsupported + 1 else n.unsupported,
            rateLimited := if event.failure.RateLimitedFailure? then n.rateLimited + 1 else n.rateLimited)
  }

  // ---- Delays ----

  /** Three fifths of the remaining lifetime, rounded down, and at most three minutes. */
  function RenewalDelay(expires: Option<int>, now: int): int {
    if expires.None? || expires.value - now <= 0 then 0
    else if (expires.value - now) * 3 / 5 > MAX_RENEWAL_DELAY then MAX_RENEWAL_DELAY
    else (expires.value - now) * 3 / 5
  }

  function BackoffFor(failures: int): int {
    var f: nat := if failures < 0 then 0 else failures;
    if f >= 6 then MAX_BACKOFF
    else if SECOND * Pow2(f) > MAX_BACKOFF then MAX_BACKOFF
    else SECOND * Pow2(f)
  }

  function RetryDelay(e: Error, failures: int): int {
    if e.rateLimit.Some? && e.rateLimit.value.retryAfter.Some? then
      if e.rateLimit.value.retryAfter.value < MIN_RETRY_DELAY then MIN_RETRY_DELAY
      else e.rateLimit.value.retryAfter.value
    else BackoffFor(failures)
  }

  /** There is no wait without an expiry to come; else it is three fifths of the lifetime to the nanosecond below,
      until that reaches three minutes. */
  lemma WaitIsThreeFifths(expires: Option<int>, now: int)
    ensures var d := RenewalDelay(expires, now);
            if expires.None? || expires.value <= now then d == 0
            else if 3 * (expires.value - now) < 5 * 180_000_000_000 then
              5 * d <= 3 * (expires.value - now) < 5 * d + 5
            else d == 180_000_000_000
  {
  }

  /** The wait for a renewal ends before the session does, with two fifths of the lifetime left, and the sooner the
      session ends the sooner the wait does. */
  lemma WaitEndsBeforeExpiry(expires: int, later: int, now: int)
    requires now < expires <= later
    ensures 0 <= RenewalDelay(Some(expires), now) < expires - now
    ensures RenewalDelay(Some(expires), now) <= RenewalDelay(Some(later), now) <= MAX_RENEWAL_DELAY
    ensures now + RenewalDelay(Some(expires), now) <= expires - 2 * (expires - now) / 5
  {
  }

  /** The shift cut off at six is the power of two capped at a minute, for every count of failures. */
  lemma BackoffIsCappedPower(n: nat)
    requires n >= 1
    ensures BackoffFor(n - 1) == Min(MAX_BACKOFF, SECOND * Pow2(n - 1))
  {
    if n - 1 >= 6 {
      Pow2Monotone(6, n - 1);
      assert Pow2(6) == 64 by {
        assert Pow2(4) == 16 && Pow2(5) == 32;
      }
    }
  }

  // ---- Acts ----

  datatype State = Idle | Connecting | Live | Renewing | Backoff | Failed

  /** What an attempt needs before it is live: the peer connection, a sink if there is a factory, an offer, and
      the answer applied. */
  datatype Part = Peer | Sink | Offer | Answer

  datatype Act =
    | Entered(state: State)
    | SetUp(part: Part, ok: bool)
    | PeerClosed
    | SinkRetired
    | Generated(reply: Reply)
    | Waited(delay: int, now: int, ended: bool)
    | Extended(id: string, reply: Reply)
    | StopTried(id: string, outcome: StopOutcome)   // stopRemote ran, with the session's id
    | Noted                             // NoteRateLimited
    | Told(event: RenewalEvent)         // handed to the renewal observer
    | Slept(delay: int)
    | Looked(live: bool)                // Run looked at its context

  /** How far the run is: Ready to look at its context, told to Go on, setting an attempt up, having made the
      offer, Joined once the answer is applied, its renewal wait Elapsed, Broken off, the failure Due to be counted,
      or Resting. */
  datatype Stage = Ready | Go | Setup | Offered | Joined | Elapsed | Broken | Due | Resting | Over

  /** What a trace leaves: the state and stage, the resources held, the remote session with its latest id and
      expiry, the failures since the last renewal, why the attempt failed, and what is still owed. */
  datatype Status = Status(
    state: State,
    stage: Stage,
    peer: bool,
    sink: bool,
    live: Option<Session>,
    failures: nat,
    cause: Error,
    unnoted: bool,
    untold: Option<RenewalEvent>)

  const START := Status(Idle, Ready, false, false, None, 0, ORDINARY, false, None)

  function Looking(s: Status, live: bool): Status {
    s.(stage := if !live then Over else if s.stage.Ready? then Go else Due)
  }

  function Entering(s: Status, state: State): Status {
    if state.Connecting? then s.(state := state, stage := Setup, cause := ORDINARY)
    else if state.Failed? then s.(state := state, stage := Resting, failures := s.failures + 1)
    else s.(state := state)
  }

  function SettingUp(s: Status, part: Part, ok: bool): Status {
    s.(stage := if !ok then Broken else if part.Offer? then Offered else if part.Answer? then Joined else s.stage,
       peer := s.peer || (ok && part.Peer?),
       sink := s.sink || (ok && part.Sink?))
  }

  function Breaking(s: Status, r: Reply): Status {
    if r.Refused? then s.(stage := Broken, cause := r.error, unnoted := r.error.rateLimit.Some?)
    else s.(stage := Broken)
  }

  function Generating(s: Status, r: Reply): Status {
    if r.Granted? then s.(live := Some(r.session)) else Breaking(s, r)
  }

  function Extending(s: Status, r: Reply): Status {
    if r.Granted? then
      s.(live := if s.live.Some? then Some(Renewed(s.live.value, r.session)) else None,
         stage := Joined,
         failures := 0,
         untold := EventOf(r))
    else Breaking(s, r).(untold := EventOf(r))
  }

  function Waiting(s: Status, ended: bool): Status {
    s.(stage := if ended then Broken else Elapsed)
  }

  function Stopping(s: Status, outcome: StopOutcome): Status {
    s.(live := None, unnoted := outcome.Rejected? && outcome.error.rateLimit.Some?)
  }

  function Next(s: Status, a: Act): Status {
    match a
    case Entered(state) => Entering(s, state)
    case SetUp(part, ok) => SettingUp(s, part, ok)
    case PeerClosed => s.(peer := false)
    case SinkRetired => s.(sink := false)
    case Generated(r) => Generating(s, r)
    case Waited(_, _, ended) => Waiting(s, ended)
    case Extended(_, r) => Extending(s, r)
    case StopTried(_, outcome) => Stopping(s, outcome)
    case Noted => s.(unnoted := false)
    case Told(_) => s.(untold := None)
    case Slept(_) => s.(stage := Ready)
    case Looked(live) => Looking(s, live)
  }

  predicate Settled(s: Status) {
    !s.unnoted && s.untold.None?
  }

  predicate Released(s: Status) {
    !s.peer && !s.sink && s.live.None?
  }

  predicate MayEnter(s: Status, state: State) {
    && Settled(s)
    && match state
       case Idle => false
       case Connecting => (s.state.Idle? || s.state.Backoff?) && s.stage.Go? && Released(s)
       case Live => (s.state.Connecting? || s.state.Renewing?) && s.stage.Joined? && s.live.Some?
       case Renewing => s.state.Live? && s.stage.Elapsed? && s.live.Some?
       case Failed => (s.state.Connecting? || s.state.Live? || s.state.Renewing?) && s.stage.Due? && Released(s)
       case Backoff => s.state.Failed? && s.stage.Resting? && Released(s)
  }

  predicate MaySetUp(s: Status, part: Part) {
    && s.state.Connecting? && Settled(s)
    && match part
       case Peer => s.stage.Setup? && Released(s)
       case Sink => s.stage.Setup? && s.peer && !s.sink && s.live.None?
       case Offer => s.stage.Setup? && s.peer && s.live.None?
       case Answer => s.stage.Offered? && s.live.Some?
  }

  predicate MayGenerate(s: Status) {
    s.state.Connecting? && s.stage.Offered? && s.live.None? && Settled(s)
  }

  predicate MayWait(s: Status, delay: int, now: int) {
    s.state.Live? && s.stage.Joined? && s.live.Some? && delay == RenewalDelay(s.live.value.expires, now)
  }

  predicate MayExtend(s: Status, id: string) {
    s.state.Renewing? && s.stage.Elapsed? && s.live.Some? && id == s.live.value.id && Settled(s)
  }

  predicate MayStop(s: Status, id: string) {
    s.stage.Broken? && s.live.Some? && id == s.live.value.id && Settled(s)
  }

  /** The wait before the next attempt, once the failure is counted. */
  predicate MaySleep(s: Status, delay: int) {
    s.state.Backoff? && s.stage.Resting? && Released(s) && delay == RetryDelay(s.cause, s.failures - 1)
  }

  /** Run looks before an attempt and after one that broke; a live look is followed by the attempt, or by the
      failure's count, before the next. */
  predicate MayLook(s: Status) {
    (s.stage.Ready? || s.stage.Broken?) && Released(s) && Settled(s)
  }

  predicate Allowed(s: Status, a: Act) {
    match a
    case Entered(state) => MayEnter(s, state)
    case SetUp(part, _) => MaySetUp(s, part)
    case PeerClosed => s.peer && s.stage.Broken? && s.live.None? && Settled(s)
    case SinkRetired => s.sink && !s.peer
    case Generated(_) => MayGenerate(s)
    case Waited(delay, now, _) => MayWait(s, delay, now)
    case Extended(id, _) => MayExtend(s, id)
    case StopTried(id, _) => MayStop(s, id)
    case Noted => s.unnoted
    case Told(event) => s.untold == Some(event)
    case Slept(delay) => MaySleep(s, delay)
    case Looked(_) => MayLook(s)
  }

  // ---- Traces ----

  function After(t: seq<Act>): Status {
    if t == [] then START else Next(After(t[..|t| - 1]), t[|t| - 1])
  }

  predicate Disciplined(t: seq<Act>) {
    forall i :: 0 <= i < |t| ==> Allowed(After(t[..i]), t[i])
  }

  function Count(t: seq<Act>, p: Act -> bool): nat {
    if t == [] then 0 else Count(t[..|t| - 1], p) + if p(t[|t| - 1]) then 1 else 0
  }

  lemma NothingAtStart(t: seq<Act>)
    ensures After(t[..0]) == START
  {
  }

  lemma AllowedAt(t: seq<Act>, i: nat)
    requires Disciplined(t) && i < |t|
    ensures Allowed(After(t[..i]), t[i])
  {
  }

  lemma AfterAt(t: seq<Act>, i: nat)
    requires i < |t|
    ensures After(t[..i + 1]) == Next(After(t[..i]), t[i])
  {
    assert t[..i + 1][..i] == t[..i];
  }

  lemma Appended(t: seq<Act>, a: Act)
    requires Disciplined(t) && Allowed(After(t), a)
    ensures Disciplined(t + [a]) && After(t + [a]) == Next(After(t), a)
    ensures Totals(t + [a]) == Tallied(Totals(t), a)
  {
    hide Allowed, Next, Totals, Tallied;
    TotalsAppended(t, a);
    assert (t + [a])[..|t|] == t;
    forall i | 0 <= i < |t| + 1 ensures Allowed(After((t + [a])[..i]), (t + [a])[i]) {
      if i < |t| {
        assert (t + [a])[..i] == t[..i];
      }
    }
  }

  // ---- The calls the counters count ----

  predicate IsGenerateCall(a: Act) { a.Generated? && !a.reply.Skipped? }
  predicate Obtains(a: Act) { a.Generated? && a.reply.Granted? }
  predicate FailsToConnect(a: Act) { IsGenerateCall(a) && !Obtains(a) }
  predicate IsExtendCall(a: Act) { a.Extended? && !a.reply.Skipped? }
  predicate Renews(a: Act) { a.Extended? && a.reply.Granted? }
  predicate FailsToRenew(a: Act) { IsExtendCall(a) && !Renews(a) }
  predicate IsUnsupported(a: Act) { a.Extended? && a.reply.Refused? && a.reply.error.unsupported }
  predicate IsRateLimited(a: Act) {
    a.Extended? && a.reply.Refused? && !a.reply.error.unsupported && a.reply.error.rateLimit.Some?
  }
  predicate IsStop(a: Act) { a.StopTried? }
  predicate IsFailure(a: Act) { a == Entered(Failed) }
  predicate IsNote(a: Act) { a.Noted? }
  predicate IsAttempt(a: Act) { a == Entered(Connecting) }
  predicate IsSleep(a: Act) { a.Slept? }
  predicate IsTold(a: Act) { a.Told? }

  /** A command's outcome that carries a 429. */
  predicate Is429(a: Act) {
    || ((a.Generated? || a.Extended?) && a.reply.Refused? && a.reply.error.rateLimit.Some?)
    || (a.StopTried? && a.outcome.Rejected? && a.outcome.error.rateLimit.Some?)
  }

  /** The outcomes the manager's counters count. */
  function Totals(t: seq<Act>): Tally {
    Tally(Connects(Count(t, Obtains), Count(t, FailsToConnect)),
          Renewals(Count(t, Renews), Count(t, FailsToRenew), Count(t, IsUnsupported), Count(t, IsRateLimited)))
  }

  function TallyGenerate(n: Tally, r: Reply): Tally {
    if r.Skipped? then n else n.(connects := Connected(n.connects, r.Granted?))
  }

  function TallyExtend(n: Tally, r: Reply): Tally {
    if r.Skipped? then n else n.(renewals := Recorded(n.renewals, EventOf(r).value))
  }

  function Tallied(n: Tally, a: Act): Tally {
    match a
    case Generated(r) => TallyGenerate(n, r)
    case Extended(_, r) => TallyExtend(n, r)
    case _ => n
  }

  lemma TotalsAppended(t: seq<Act>, a: Act)
    ensures Totals(t + [a]) == Tallied(Totals(t), a)
  {
    assert (t + [a])[..|t|] == t;
  }

  lemma {:induction false} CallsAreOutcomes(t: seq<Act>)
    ensures Count(t, IsGenerateCall) == Count(t, Obtains) + Count(t, FailsToConnect)
    ensures Count(t, IsExtendCall) == Count(t, Renews) + Count(t, FailsToRenew)
    ensures Count(t, IsUnsupported) + Count(t, IsRateLimited) <= Count(t, FailsToRenew)
  {
    if t != [] {
      CallsAreOutcomes(t[..|t| - 1]);
    }
  }

  /** What an act does to the session held. */
  lemma SessionEffects(s: Status, a: Act)
    requires Allowed(s, a)
    ensures Obtains(a) ==> s.live.None? && Next(s, a).live == Some(a.reply.session)
    ensures IsStop(a) ==> s.live.Some? && a.id == s.live.value.id && Next(s, a).live.None?
    ensures !Obtains(a) && !IsStop(a) && s.live.None? ==> Next(s, a).live.None?
    ensures !Obtains(a) && !IsStop(a) && s.live.Some? ==>
              && Next(s, a).live.Some?
              && Next(s, a).live.value.id == (if Renews(a) && a.reply.session.id != "" then a.reply.session.id
                                              else s.live.value.id)
              && Next(s, a).live.value.expires == if Renews(a) then a.reply.session.expires else s.live.value.expires
  {
  }

  lemma NoteEffects(s: Status, a: Act)
    requires Allowed(s, a)
    ensures Is429(a) ==> !s.unnoted && Next(s, a).unnoted
    ensures IsNote(a) ==> s.unnoted && !Next(s, a).unnoted
    ensures !Is429(a) && !IsNote(a) ==> Next(s, a).unnoted == s.unnoted
  {
  }

  lemma FailureEffects(s: Status, a: Act)
    ensures Next(s, a).failures == if Renews(a) then 0 else if IsFailure(a) then s.failures + 1 else s.failures
    ensures Next(s, a).state == if a.Entered? then a.state else s.state
  {
  }

  lemma DisciplinedPrefix(t: seq<Act>, n: nat)
    requires Disciplined(t) && n <= |t|
    ensures Disciplined(t[..n])
  {
    hide Allowed;
    forall i | 0 <= i < n ensures Allowed(After(t[..n][..i]), t[..n][i]) {
      assert t[..n][..i] == t[..i];
    }
  }

  /** Sessions obtained, less stops, is the sessions held: none or one. And every 429 is reported to the
      scheduler exactly once, before the next command. */
  lemma {:induction false} StopsBalanceSessions(t: seq<Act>)
    requires Disciplined(t)
    ensures Count(t, Obtains) == Count(t, IsStop) + if After(t).live.Some? then 1 else 0
    ensures Count(t, Is429) == Count(t, IsNote) + if After(t).unnoted then 1 else 0
  {
    hide Allowed, Next;
    if t != [] {
      var s, a := After(t[..|t| - 1]), t[|t| - 1];
      assert Allowed(s, a);
      SessionEffects(s, a);
      NoteEffects(s, a);
      DisciplinedPrefix(t, |t| - 1);
      StopsBalanceSessions(t[..|t| - 1]);
    }
  }

  // ---- Every session goes through stopRemote once, with its latest id ----

  /** The id a session granted as id has after the acts t: each extension that names one replaces it. */
  function LatestId(id: string, t: seq<Act>): string {
    if t == [] then id
    else
      var last := t[|t| - 1];
      if Renews(last) && last.reply.session.id != "" then last.reply.session.id
      else LatestId(id, t[..|t| - 1])
  }

  /** The expiry a session granted with one has after the acts t: every extension granted replaces it. */
  function LatestExpiry(expires: Option<int>, t: seq<Act>): Option<int> {
    if t == [] then expires
    else if Renews(t[|t| - 1]) then t[|t| - 1].reply.session.expires
    else LatestExpiry(expires, t[..|t| - 1])
  }

  lemma LatestExpiryAt(expires: Option<int>, t: seq<Act>, i: nat, j: nat)
    requires i <= j <= |t|
    ensures LatestExpiry(expires, t[i..i]) == expires
    ensures j < |t| && Renews(t[j]) ==> LatestExpiry(expires, t[i..j + 1]) == t[j].reply.session.expires
    ensures j < |t| && !Renews(t[j]) ==> LatestExpiry(expires, t[i..j + 1]) == LatestExpiry(expires, t[i..j])
  {
    if j < |t| {
      assert t[i..j + 1][..j - i] == t[i..j];
    }
  }

  lemma LatestIdAt(id: string, t: seq<Act>, i: nat, j: nat)
    requires i <= j < |t|
    ensures LatestId(id, t[i..j + 1]) ==
            if Renews(t[j]) && t[j].reply.session.id != "" then t[j].reply.session.id else LatestId(id, t[i..j])
  {
    assert t[i..j + 1][..j - i] == t[i..j];
  }

  lemma LatestIdAtOnce(id: string, t: seq<Act>, i: nat)
    requires i <= |t|
    ensures LatestId(id, t[i..i]) == id
  {
  }

  predicate StopTriedAt(t: seq<Act>, i: nat, j: nat)
    requires i < j < |t| && Obtains(t[i])
  {
    && IsStop(t[j]) && t[j].id == LatestId(t[i].reply.session.id, t[i + 1..j])
    && forall k :: i < k < j ==> !IsStop(t[k]) && !Obtains(t[k])
  }

  /** In a finished run every session obtained goes through stopRemote, once, before another is obtained, under its
      latest id. */
  lemma StopTriedOnceUnderLatestId(t: seq<Act>, i: nat) returns (j: nat)
    requires Disciplined(t) && After(t).live.None?
    requires i < |t| && Obtains(t[i])
    ensures i < j < |t| && StopTriedAt(t, i, j)
  {
    hide Allowed, Next, After, LatestId, Disciplined;
    j := i + 1;
    AfterAt(t, i);
    AllowedAt(t, i);
    SessionEffects(After(t[..i]), t[i]);
    LatestIdAtOnce(t[i].reply.session.id, t, i + 1);
    assert t[..|t|] == t;
    while j < |t| && !IsStop(t[j])
      invariant i < j <= |t|
      invariant After(t[..j]).live.Some?
      invariant After(t[..j]).live.value.id == LatestId(t[i].reply.session.id, t[i + 1..j])
      invariant forall k :: i < k < j ==> !IsStop(t[k]) && !Obtains(t[k])
    {
      AllowedAt(t, j);
      SessionEffects(After(t[..j]), t[j]);
      AfterAt(t, j);
      LatestIdAt(t[i].reply.session.id, t, i + 1, j);
      j := j + 1;
    }
    assert j < |t|;
    AllowedAt(t, j);
    SessionEffects(After(t[..j]), t[j]);
  }

  /** And only sessions do: each stop answers the session obtained last before it. */
  lemma {:induction false} StopAnswersSession(t: seq<Act>, j: nat) returns (i: nat)
    requires Disciplined(t) && j < |t| && IsStop(t[j])
    ensures i < j && Obtains(t[i]) && StopTriedAt(t, i, j)
  {
    hide Allowed, Next, After, LatestId, Disciplined;
    AllowedAt(t, j);
    SessionEffects(After(t[..j]), t[j]);
    i := ObtainedBefore(t, j);
  }

  lemma {:induction false} ObtainedBefore(t: seq<Act>, j: nat) returns (i: nat)
    requires Disciplined(t) && j <= |t| && After(t[..j]).live.Some?
    ensures i < j && Obtains(t[i]) && forall k :: i < k < j ==> !IsStop(t[k]) && !Obtains(t[k])
    ensures After(t[..j]).live.value.id == LatestId(t[i].reply.session.id, t[i + 1..j])
    ensures After(t[..j]).live.value.expires == LatestExpiry(t[i].reply.session.expires, t[i + 1..j])
  {
    hide Allowed, Next, After, LatestId, LatestExpiry, Disciplined;
    if j == 0 {
      NothingAtStart(t);
      assert false;
    }
    AfterAt(t, j - 1);
    AllowedAt(t, j - 1);
    SessionEffects(After(t[..j - 1]), t[j - 1]);
    if Obtains(t[j - 1]) {
      i := j - 1;
      LatestIdAtOnce(t[i].reply.session.id, t, j);
      LatestExpiryAt(t[i].reply.session.expires, t, j, j);
    } else {
      i := ObtainedBefore(t, j - 1);
      LatestIdAt(t[i].reply.session.id, t, i + 1, j - 1);
      LatestExpiryAt(t[i].reply.session.expires, t, i + 1, j - 1);
    }
  }

  // ---- Each renewal waits on the latest expiry and uses the latest id ----

  /** The session held at j was obtained at i. */
  predicate HeldSince(t: seq<Act>, i: nat, j: nat)
    requires j <= |t|
  {
    i < j && Obtains(t[i]) && forall k :: i < k < j ==> !IsStop(t[k]) && !Obtains(t[k])
  }

  lemma WaitNeedsSession(s: Status, delay: int, now: int, ended: bool)
    requires Allowed(s, Waited(delay, now, ended))
    ensures s.live.Some? && delay == RenewalDelay(s.live.value.expires, now)
  {
  }

  /** Each wait for a renewal is for the expiry in the last reply that granted the session or extended it. */
  lemma WaitsOnLatestExpiry(t: seq<Act>, j: nat) returns (i: nat)
    requires Disciplined(t) && j < |t| && t[j].Waited?
    ensures HeldSince(t, i, j)
    ensures t[j].delay == RenewalDelay(LatestExpiry(t[i].reply.session.expires, t[i + 1..j]), t[j].now)
  {
    hide Allowed, After, LatestExpiry, LatestId, Disciplined, RenewalDelay;
    AllowedAt(t, j);
    WaitNeedsSession(After(t[..j]), t[j].delay, t[j].now, t[j].ended);
    i := ObtainedBefore(t, j);
  }

  lemma ExtensionNeedsWait(s: Status, id: string, r: Reply)
    requires Allowed(s, Extended(id, r))
    ensures s.live.Some? && id == s.live.value.id && s.stage.Elapsed?
  {
  }

  /** Only a wait that ran its course makes an extension possible, and one only. */
  lemma ElapsedByWait(s: Status, a: Act)
    requires Next(s, a).stage.Elapsed?
    ensures (a.Waited? && !a.ended) || (s.stage.Elapsed? && !a.Extended? && !a.Waited?)
  {
  }

  lemma {:induction false} WaitBefore(t: seq<Act>, j: nat) returns (k: nat)
    requires Disciplined(t) && j <= |t| && After(t[..j]).stage.Elapsed?
    ensures k < j && t[k].Waited? && !t[k].ended && forall l :: k < l < j ==> !t[l].Extended? && !t[l].Waited?
  {
    hide Allowed, Next, After, Disciplined;
    NothingAtStart(t);
    AfterAt(t, j - 1);
    ElapsedByWait(After(t[..j - 1]), t[j - 1]);
    if t[j - 1].Waited? {
      k := j - 1;
    } else {
      k := WaitBefore(t, j - 1);
    }
  }

  /** Each extension is asked for under the session's latest id, once its own wait has run its course. */
  lemma ExtendsAfterWait(t: seq<Act>, j: nat) returns (i: nat, k: nat)
    requires Disciplined(t) && j < |t| && t[j].Extended?
    ensures HeldSince(t, i, j) && t[j].id == LatestId(t[i].reply.session.id, t[i + 1..j])
    ensures k < j && t[k].Waited? && !t[k].ended && forall l :: k < l < j ==> !t[l].Extended? && !t[l].Waited?
  {
    hide Allowed, After, LatestExpiry, LatestId, Disciplined;
    AllowedAt(t, j);
    ExtensionNeedsWait(After(t[..j]), t[j].id, t[j].reply);
    i := ObtainedBefore(t, j);
    k := WaitBefore(t, j);
  }

  // ---- Every extension is reported once ----

  /** What an event says of an outcome. */
  predicate Reports(event: RenewalEvent, r: Reply) {
    && !r.Skipped?
    && event.succeeded == r.Granted?
    && (event.failure.NoFailure? <==> r.Granted?)
    && (event.failure.UnsupportedFailure? <==> r.Refused? && r.error.unsupported)
    && (event.failure.RateLimitedFailure? <==> r.Refused? && !r.error.unsupported && r.error.rateLimit.Some?)
  }

  lemma TellEffects(s: Status, a: Act)
    requires Allowed(s, a)
    ensures a.Extended? ==> s.untold.None? && (Next(s, a).untold.Some? <==> IsExtendCall(a))
    ensures a.Extended? && IsExtendCall(a) ==> Reports(Next(s, a).untold.value, a.reply)
    ensures a.Told? ==> s.untold == Some(a.event) && Next(s, a).untold.None?
    ensures !a.Extended? && !a.Told? ==> Next(s, a).untold == s.untold
  {
  }

  lemma {:induction false} UntoldSince(t: seq<Act>, j: nat) returns (i: nat)
    requires Disciplined(t) && j <= |t| && After(t[..j]).untold.Some?
    ensures i < j && t[i].Extended? && Reports(After(t[..j]).untold.value, t[i].reply)
    ensures forall k :: i < k < j ==> !t[k].Extended? && !t[k].Told?
  {
    hide Allowed, Next, After, Disciplined, Reports;
    NothingAtStart(t);
    AfterAt(t, j - 1);
    AllowedAt(t, j - 1);
    TellEffects(After(t[..j - 1]), t[j - 1]);
    if t[j - 1].Extended? {
      i := j - 1;
    } else {
      i := UntoldSince(t, j - 1);
    }
  }

  /** Each event reports the extension just before it, with success and failure class as its reply has them. */
  lemma EventReportsExtension(t: seq<Act>, j: nat) returns (i: nat)
    requires Disciplined(t) && j < |t| && t[j].Told?
    ensures i < j && t[i].Extended? && Reports(t[j].event, t[i].reply)
    ensures forall k :: i < k < j ==> !t[k].Extended? && !t[k].Told?
  {
    hide Allowed, After, Disciplined, Reports;
    AllowedAt(t, j);
    TellEffects(After(t[..j]), t[j]);
    i := UntoldSince(t, j);
  }

  /** And every extension that ran is reported, but for one just made. */
  lemma {:induction false} EveryExtensionReported(t: seq<Act>)
    requires Disciplined(t)
    ensures Count(t, IsExtendCall) == Count(t, IsTold) + if After(t).untold.Some? then 1 else 0
  {
    hide Allowed, Next;
    if t != [] {
      var s, a := After(t[..|t| - 1]), t[|t| - 1];
      assert Allowed(s, a);
      TellEffects(s, a);
      DisciplinedPrefix(t, |t| - 1);
      EveryExtensionReported(t[..|t| - 1]);
    }
  }

  // ---- One backoff between attempts ----

  predicate Attempting(state: State) {
    state.Connecting? || state.Live? || state.Renewing?
  }

  lemma AttemptEffects(s: Status, a: Act)
    requires Allowed(s, a)
    ensures IsAttempt(a) ==> !Attempting(s.state) && Attempting(Next(s, a).state) && !s.stage.Resting?
    ensures IsFailure(a) ==> Attempting(s.state) && !Attempting(Next(s, a).state) && !s.stage.Resting?
    ensures !IsAttempt(a) && !IsFailure(a) ==> Attempting(Next(s, a).state) == Attempting(s.state)
    ensures IsSleep(a) ==> s.stage.Resting?
    ensures Next(s, a).stage.Resting? <==> IsFailure(a) || (s.stage.Resting? && !IsSleep(a))
  {
  }

  /** Every attempt but one under way has been counted as a failure, and every failure but the last has been slept off. */
  lemma {:induction false} AttemptsFailAndSleep(t: seq<Act>)
    requires Disciplined(t)
    ensures Count(t, IsAttempt) == Count(t, IsFailure) + if Attempting(After(t).state) then 1 else 0
    ensures Count(t, IsFailure) == Count(t, IsSleep) + if After(t).stage.Resting? then 1 else 0
  {
    hide Allowed, Next;
    if t != [] {
      var s, a := After(t[..|t| - 1]), t[|t| - 1];
      assert Allowed(s, a);
      AttemptEffects(s, a);
      DisciplinedPrefix(t, |t| - 1);
      AttemptsFailAndSleep(t[..|t| - 1]);
    }
  }

  lemma {:induction false} CountOver(t: seq<Act>, i: nat, j: nat, p: Act -> bool)
    requires i <= j <= |t|
    ensures Count(t[..i], p) <= Count(t[..j], p)
    ensures (forall k :: i <= k < j ==> !p(t[k])) ==> Count(t[..i], p) == Count(t[..j], p)
    ensures i < j && p(t[i]) ==> Count(t[..i], p) < Count(t[..j], p)
    decreases j
  {
    if i < j {
      assert t[..j][..j - 1] == t[..j - 1];
      CountOver(t, i, j - 1, p);
    }
  }

  /** Between any two attempts there is a backoff. */
  lemma BackoffBetweenAttempts(t: seq<Act>, i: nat, j: nat)
    requires Disciplined(t) && i < j < |t| && IsAttempt(t[i]) && IsAttempt(t[j])
    ensures exists k :: i < k < j && IsSleep(t[k])
  {
    hide Allowed, Next, After, Disciplined, Count;
    AllowedAt(t, i);
    AllowedAt(t, j);
    AttemptEffects(After(t[..i]), t[i]);
    AttemptEffects(After(t[..j]), t[j]);
    DisciplinedPrefix(t, i);
    DisciplinedPrefix(t, j);
    AttemptsFailAndSleep(t[..i]);
    AttemptsFailAndSleep(t[..j]);
    CountOver(t, i, j, IsAttempt);
    CountOver(t, i, j, IsSleep);
  }

  // ---- The delay after the nth failure in a row ----

  /** No renewal succeeds within t[start..i], and start is the beginning or just after one that does. */
  predicate SinceRenewal(t: seq<Act>, start: nat, i: nat) {
    && start <= i <= |t|
    && (start == 0 || Renews(t[start - 1]))
    && forall k :: start <= k < i ==> !Renews(t[k])
  }

  lemma {:induction false} FailuresCounted(t: seq<Act>, start: nat, i: nat)
    requires SinceRenewal(t, start, i)
    ensures After(t[..i]).failures == Count(t[start..i], IsFailure)
    decreases i
  {
    hide Next;
    if i > start {
      FailureEffects(After(t[..i - 1]), t[i - 1]);
      FailuresCounted(t, start, i - 1);
      AfterAt(t, i - 1);
      assert t[start..i][..i - start - 1] == t[start..i - 1];
    } else if start > 0 {
      AfterAt(t, start - 1);
      FailureEffects(After(t[..start - 1]), t[start - 1]);
    }
  }

  lemma CauseEffects(s: Status, a: Act)
    ensures Next(s, a).cause == if a == Entered(Connecting) then ORDINARY
                                else if Refuses(a) then a.reply.error else s.cause
  {
  }

  /** A renewal succeeds only from Renewing, so failures reset there and nowhere else. */
  lemma RenewsFromRenewing(s: Status, a: Act)
    requires Allowed(s, a)
    ensures Renews(a) ==> s.state.Renewing?
    ensures a == Entered(Backoff) ==> s.state.Failed?
  {
  }

  lemma {:induction false} BackoffFollowsFailure(t: seq<Act>)
    requires Disciplined(t)
    ensures After(t).state.Failed? || After(t).state.Backoff? ==> After(t).failures > 0
  {
    hide Allowed, Next;
    if t != [] {
      var s, a := After(t[..|t| - 1]), t[|t| - 1];
      assert Allowed(s, a);
      FailureEffects(s, a);
      RenewsFromRenewing(s, a);
      DisciplinedPrefix(t, |t| - 1);
      BackoffFollowsFailure(t[..|t| - 1]);
    }
  }

  // ---- Why an attempt failed ----

  predicate Refuses(a: Act) { (a.Generated? || a.Extended?) && a.reply.Refused? }

  /** The attempt under way at i began at from. */
  predicate InAttempt(t: seq<Act>, from: nat, i: nat) {
    && from < i <= |t| && t[from] == Entered(Connecting)
    && forall k :: from < k < i ==> t[k] != Entered(Connecting)
  }

  /** The error of the last command refused among these acts, or an ordinary one when none was. */
  function LastRefusal(t: seq<Act>): Error {
    if t == [] then ORDINARY
    else if Refuses(t[|t| - 1]) then t[|t| - 1].reply.error
    else LastRefusal(t[..|t| - 1])
  }

  lemma {:induction false} CauseIsOwn(t: seq<Act>, from: nat, i: nat)
    requires InAttempt(t, from, i)
    ensures After(t[..i]).cause == LastRefusal(t[from..i])
    decreases i
  {
    hide Next;
    AfterAt(t, i - 1);
    CauseEffects(After(t[..i - 1]), t[i - 1]);
    assert t[from..i][..i - from - 1] == t[from..i - 1];
    if from < i - 1 {
      CauseIsOwn(t, from, i - 1);
    } else {
      assert t[from..i - 1] == [];
    }
  }

  /** Idle is left only by an attempt. */
  lemma AttemptLeavesIdle(s: Status, a: Act)
    requires Allowed(s, a) && s.state.Idle? && a != Entered(Connecting)
    ensures Next(s, a).state.Idle?
  {
  }

  lemma {:induction false} CurrentAttempt(t: seq<Act>, i: nat) returns (from: nat)
    requires Disciplined(t) && i <= |t| && !After(t[..i]).state.Idle?
    ensures InAttempt(t, from, i)
  {
    hide Next, Allowed, After, Disciplined;
    NothingAtStart(t);
    AfterAt(t, i - 1);
    if t[i - 1] == Entered(Connecting) {
      from := i - 1;
    } else {
      AllowedAt(t, i - 1);
      if After(t[..i - 1]).state.Idle? {
        AttemptLeavesIdle(After(t[..i - 1]), t[i - 1]);
        assert false;
      }
      from := CurrentAttempt(t, i - 1);
    }
  }

  /** The wait after the nth failure since the last renewal: Retry-After, but at least a second, when the last command
      refused in the attempt that failed carried one; otherwise 2^(n-1) seconds, but at most a minute. */
  lemma NthFailureWaits(t: seq<Act>, start: nat, i: nat) returns (from: nat)
    requires Disciplined(t) && SinceRenewal(t, start, i) && i < |t| && t[i].Slept?
    ensures InAttempt(t, from, i)
    ensures var n := Count(t[start..i], IsFailure);
            var e := LastRefusal(t[from..i]);
            && n >= 1
            && t[i].delay == if e.rateLimit.Some? && e.rateLimit.value.retryAfter.Some?
                             then Max(SECOND, e.rateLimit.value.retryAfter.value)
                             else Min(MAX_BACKOFF, SECOND * Pow2(n - 1))
  {
    AllowedAt(t, i);
    hide Next, After, Disciplined, Count, LastRefusal;
    FailuresCounted(t, start, i);
    DisciplinedPrefix(t, i);
    BackoffFollowsFailure(t[..i]);
    BackoffIsCappedPower(After(t[..i]).failures);
    from := CurrentAttempt(t, i);
    CauseIsOwn(t, from, i);
  }
}
