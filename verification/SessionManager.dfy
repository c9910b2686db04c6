/** The session manager: connect, renew, back off. The world around it, its API, scheduler, clock and context,
    chooses every outcome and keeps the trace of what the manager did. */
module SessionManager {
  import opened Prelude
  import opened SessionTrace

  /** The API, the scheduler, the clock, the context, the peer connection and the sink factory of one manager.
      patience is how many more times the context will be found live, so the context may be cancelled
      between any two looks at it. */
  class World {
    ghost var trace: seq<Act>
    var patience: nat

    constructor (patience: nat)
      ensures trace == [] && this.patience == patience
    {
      trace := [];
      this.patience := patience;
    }

    /** The trace has one more act, and the rules allowed it. */
    twostate predicate Did(a: Act)
      reads this
    {
      trace == old(trace) + [a] && Allowed(old(After(trace)), a)
    }

    ghost predicate Shows(s: Status, n: Tally)
      reads this
    {
      Disciplined(trace) && After(trace) == s && Totals(trace) == n
    }

    ghost method Do(a: Act)
      requires Disciplined(trace) && Allowed(After(trace), a)
      modifies this`trace
      ensures Did(a) && Shows(Next(old(After(trace)), a), Tallied(old(Totals(trace)), a))
    {
      Appended(trace, a);
      trace := trace + [a];
    }

    method Look() returns (cancelled: bool)
      requires Disciplined(trace) && MayLook(After(trace))
      modifies this
      ensures Did(Looked(!cancelled)) && Shows(Looking(old(After(trace)), !cancelled), old(Totals(trace)))
      ensures patience <= old(patience)
      ensures cancelled ==> patience == 0
      ensures !cancelled ==> patience < old(patience)
    {
      cancelled := Cancelled();
      Do(Looked(!cancelled));
    }

    method Cancelled() returns (cancelled: bool)
      modifies this`patience
      ensures cancelled <==> old(patience) == 0
      ensures patience == if old(patience) == 0 then 0 else old(patience) - 1
    {
      cancelled := patience == 0;
      if patience > 0 {
        patience := patience - 1;
      }
    }

    ghost method Enter(s: State)
      requires Disciplined(trace) && MayEnter(After(trace), s)
      modifies this`trace
      ensures Did(Entered(s)) && Shows(Entering(old(After(trace)), s), old(Totals(trace)))
    {
      Do(Entered(s));
    }

    /** The peer connection, the sink, the offer and the answer are pion's and the factory's to grant. */
    method TrySetUp(part: Part) returns (ok: bool)
      requires Disciplined(trace) && MaySetUp(After(trace), part)
      modifies this`trace
      ensures Did(SetUp(part, ok)) && Shows(SettingUp(old(After(trace)), part, ok), old(Totals(trace)))
    {
      ok := *;
      Do(SetUp(part, ok));
    }

    ghost method ClosePeer()
      requires Disciplined(trace) && Allowed(After(trace), PeerClosed)
      modifies this`trace
      ensures Did(PeerClosed) && Shows(old(After(trace)).(peer := false), old(Totals(trace)))
    {
      Do(PeerClosed);
    }

    ghost method RetireSink()
      requires Disciplined(trace) && Allowed(After(trace), SinkRetired)
      modifies this`trace
      ensures Did(SinkRetired) && Shows(old(After(trace)).(sink := false), old(Totals(trace)))
    {
      Do(SinkRetired);
    }

    method Generate() returns (reply: Reply)
      requires Disciplined(trace) && MayGenerate(After(trace))
      modifies this`trace
      ensures Did(Generated(reply))
      ensures Shows(Generating(old(After(trace)), reply), TallyGenerate(old(Totals(trace)), reply))
    {
      reply := *;
      Do(Generated(reply));
    }

    method Extend(id: string) returns (reply: Reply)
      requires Disciplined(trace) && MayExtend(After(trace), id)
      modifies this`trace
      ensures Did(Extended(id, reply))
      ensures Shows(Extending(old(After(trace)), reply), TallyExtend(old(Totals(trace)), reply))
    {
      reply := *;
      Do(Extended(id, reply));
    }

    method Stop(id: string) returns (outcome: StopOutcome)
      requires Disciplined(trace) && MayStop(After(trace), id)
      modifies this`trace
      ensures Did(StopTried(id, outcome)) && Shows(Stopping(old(After(trace)), outcome), old(Totals(trace)))
    {
      outcome := *;
      Do(StopTried(id, outcome));
    }

    ghost method NoteRateLimited()
      requires Disciplined(trace) && After(trace).unnoted
      modifies this`trace
      ensures Did(Noted) && Shows(old(After(trace)).(unnoted := false), old(Totals(trace)))
    {
      Do(Noted);
    }

    ghost method EmitRenewal(event: RenewalEvent)
      requires Disciplined(trace) && After(trace).untold == Some(event)
      modifies this`trace
      ensures Did(Told(event)) && Shows(old(After(trace)).(untold := None), old(Totals(trace)))
    {
      Do(Told(event));
    }

    /** waitForRenewal: the delay passes, or the context or the connection ends first. */
    method AwaitRenewal(delay: int, now: int) returns (ended: bool)
      requires Disciplined(trace) && MayWait(After(trace), delay, now)
      modifies this
      ensures Did(Waited(delay, now, ended)) && Shows(SessionTrace.Waiting(old(After(trace)), ended), old(Totals(trace)))
      ensures patience <= old(patience) && (!ended ==> patience < old(patience))
    {
      ended := Cancelled();
      var lost: bool := *;
      ended := ended || lost;
      Do(Waited(delay, now, ended));
    }

    method Sleep(delay: int) returns (cancelled: bool)
      requires Disciplined(trace) && MaySleep(After(trace), delay)
      modifies this
      ensures Did(Slept(delay)) && Shows(old(After(trace)).(stage := Ready), old(Totals(trace)))
      ensures patience <= old(patience) && (cancelled ==> patience == 0)
    {
      Do(Slept(delay));
      cancelled := Cancelled();
    }
  }

  /** The session record, shared by the renewal loop and the deferred stop. */
  class StreamSession {
    var id: string
    var expires: Option<int>

    constructor (s: Session)
      ensures id == s.id && expires == s.expires
    {
      id, expires := s.id, s.expires;
    }
  }

  class Manager {
    const world: World
    const sinkFactory: bool
    var state: State
    var sessID: string
    var expires: Option<int>
    var failures: nat
    var connects: Connects
    var renewals: Renewals

    ghost predicate Counted()
      reads this, world
    {
      Totals(world.trace) == Tally(connects, renewals)
    }

    /** The fields are what the trace says. */
    ghost predicate Valid()
      reads this, world
    {
      && Disciplined(world.trace)
      && Counted()
      && state == After(world.trace).state
      && failures == After(world.trace).failures
      && Settled(After(world.trace))
    }

    /** Between attempts: nothing is held. */
    ghost predicate Idle()
      reads this, world
    {
      Valid() && Released(After(world.trace))
    }

    /** About to look at the context for another attempt. */
    ghost predicate Waiting()
      reads this, world
    {
      Idle() && (state.Idle? || state.Backoff?) && After(world.trace).stage.Ready?
    }

    /** Within an attempt that holds a remote session. */
    ghost predicate Holding(sess: StreamSession)
      reads this, world, sess
    {
      && Valid()
      && After(world.trace).peer && After(world.trace).live == Some(Session(sess.id, sess.expires))
    }

    /** Not yet refused anything, with the session's latest id and expiry in the fields. */
    ghost predicate Current(sess: StreamSession)
      reads this, world, sess
    {
      && After(world.trace).cause == ORDINARY
      && sessID == sess.id && expires == sess.expires
    }

    constructor (world: World, sinkFactory: bool)
      requires world.trace == []
      ensures this.world == world && Waiting() && state.Idle?
    {
      this.world, this.sinkFactory := world, sinkFactory;
      state, sessID, expires, failures := State.Idle, "", None, 0;
      connects, renewals := Connects(0, 0), Renewals(0, 0, 0, 0);
    }

    method SetState(s: State)
      requires Disciplined(world.trace) && MayEnter(After(world.trace), s)
      modifies this`state, world`trace
      ensures state == s && world.Did(Entered(s))
      ensures world.Shows(Entering(old(After(world.trace)), s), old(Totals(world.trace)))
    {
      state := s;
      world.Enter(s);
    }

    method NoteIfRateLimited(e: Error)
      requires Disciplined(world.trace) && After(world.trace).unnoted == e.rateLimit.Some?
      modifies world`trace
      ensures if e.rateLimit.Some? then world.Did(Noted) else world.trace == old(world.trace)
      ensures world.Shows(old(After(world.trace)).(unnoted := false), old(Totals(world.trace)))
    {
      if e.rateLimit.Some? {
        world.NoteRateLimited();
      }
    }

    method RecordConnection(succeeded: bool)
      modifies this`connects
      ensures connects == Connected(old(connects), succeeded)
    {
      if succeeded {
        connects := connects.(succeeded := connects.succeeded + 1);
        return;
      }
      connects := connects.(failed := connects.failed + 1);
    }

    method RecordRenewal(event: RenewalEvent)
      modifies this`renewals
      ensures renewals == Recorded(old(renewals), event)
      ensures renewals.succeeded + renewals.failed == old(renewals.succeeded + renewals.failed) + 1
      ensures renewals.succeeded == old(renewals.succeeded) <==> !event.succeeded
      ensures var classed := renewals.unsupported + renewals.rateLimited;
              && old(renewals.unsupported + renewals.rateLimited) <= classed
              && classed - old(renewals.unsupported + renewals.rateLimited) <= renewals.failed - old(renewals.failed)
    {
      if event.succeeded {
        renewals := renewals.(succeeded := renewals.succeeded + 1);
        return;
      }
      renewals := renewals.(failed := renewals.failed + 1);
      match event.failure
      case UnsupportedFailure => renewals := renewals.(unsupported := renewals.unsupported + 1);
      case RateLimitedFailure => renewals := renewals.(rateLimited := renewals.rateLimited + 1);
      case _ =>
    }

    /** Between attempts the counters add up: every Generate and Extend call is counted once, a session obtained for
        every stopRemote, and a note to the scheduler for every 429. */
    lemma CountersAreCalls()
      requires Idle()
      ensures connects.succeeded + connects.failed == Count(world.trace, IsGenerateCall)
      ensures connects.succeeded == Count(world.trace, Obtains) == Count(world.trace, IsStop)
      ensures renewals.succeeded + renewals.failed == Count(world.trace, IsExtendCall)
      ensures renewals.succeeded == Count(world.trace, Renews)
      ensures renewals.unsupported + renewals.rateLimited <= renewals.failed
      ensures Count(world.trace, IsNote) == Count(world.trace, Is429)
    {
      hide Count, After, Disciplined;
      CallsAreOutcomes(world.trace);
      StopsBalanceSessions(world.trace);
    }

    /** Run until the context is cancelled. */
    method Run()
      requires Waiting()
      modifies this, world
      ensures Idle() && world.patience == 0
      ensures connects.succeeded + connects.failed == Count(world.trace, IsGenerateCall)
      ensures connects.succeeded == Count(world.trace, Obtains) == Count(world.trace, IsStop)
      ensures renewals.succeeded + renewals.failed == Count(world.trace, IsExtendCall)
      ensures renewals.succeeded == Count(world.trace, Renews)
      ensures renewals.unsupported + renewals.rateLimited <= renewals.failed
      ensures Count(world.trace, IsNote) == Count(world.trace, Is429)
    {
      hide After, Totals, Disciplined, World.Did, Count;
      while true
        invariant Waiting()
        decreases world.patience
      {
        var cancelled := world.Look();
        if cancelled {
          CountersAreCalls();
          return;
        }
        var e := RunOnce();
        cancelled := world.Look();
        if cancelled {
          CountersAreCalls();
          return;
        }
        failures := failures + 1;
        var n := failures;
        SetState(Failed);
        SetState(Backoff);
        var sleepCancelled := world.Sleep(RetryDelay(e, n - 1));
        if sleepCancelled {
          CountersAreCalls();
          return;
        }
      }
    }

    /** One connection attempt, from the peer connection to its release; it always ends in an error. */
    method RunOnce() returns (e: Error)
      requires Idle() && (state.Idle? || state.Backoff?) && After(world.trace).stage.Go?
      modifies this, world
      ensures Idle() && (state.Connecting? || state.Live? || state.Renewing?)
      ensures After(world.trace).stage.Broken? && e == After(world.trace).cause
      ensures world.patience <= old(world.patience)
    {
      hide After, Totals, Disciplined, World.Did;
      SetState(Connecting);
      var made := world.TrySetUp(Peer);
      if !made {
        return ORDINARY;
      }
      var sink := false;
      if sinkFactory {
        sink := world.TrySetUp(Sink);
      }
      if sinkFactory && !sink {
        e := ORDINARY;
      } else {
        e := Connect();
      }
      world.ClosePeer();
      if sink {
        world.RetireSink();
      }
    }

    /** Generate a stream and hold it until it is lost; the deferred stop ends it. */
    method Connect() returns (e: Error)
      requires Valid() && state.Connecting? && After(world.trace).peer && After(world.trace).live.None?
      requires After(world.trace).stage.Setup? && After(world.trace).cause == ORDINARY
      requires After(world.trace).sink == sinkFactory
      modifies this, world
      ensures Valid() && (state.Connecting? || state.Live? || state.Renewing?)
      ensures After(world.trace).peer && After(world.trace).live.None?
      ensures After(world.trace).sink == old(After(world.trace).sink)
      ensures After(world.trace).stage.Broken? && e == After(world.trace).cause
      ensures world.patience <= old(world.patience)
    {
      hide After, Totals, Disciplined, World.Did, Connected;
      var offered := world.TrySetUp(Offer);
      if !offered {
        return ORDINARY;
      }
      var reply := world.Generate();
      match reply
      case Skipped =>
        e := ORDINARY;
      case Refused(error) =>
        RecordConnection(false);
        NoteIfRateLimited(error);
        e := error;
      case Nothing =>
        RecordConnection(false);
        e := ORDINARY;
      case Granted(session) =>
        RecordConnection(true);
        var sess := new StreamSession(session);
        var answered := world.TrySetUp(Answer);
        if answered {
          sessID := sess.id;
          expires := sess.expires;
          SetState(Live);
          e := RenewLoop(sess);
        } else {
          e := ORDINARY;
        }
        StopRemote(sess);
    }

    method StopRemote(sess: StreamSession)
      requires Holding(sess) && After(world.trace).stage.Broken?
      modifies world
      ensures Valid()
      ensures After(world.trace) == old(After(world.trace)).(live := None)
      ensures world.patience == old(world.patience)
    {
      hide After, Totals, Disciplined, World.Did;
      var outcome := world.Stop(sess.id);
      if outcome.Rejected? {
        NoteIfRateLimited(outcome.error);
      }
    }

    /** Renew until something fails. */
    method RenewLoop(sess: StreamSession) returns (e: Error)
      requires Holding(sess) && state.Live? && Current(sess) && After(world.trace).stage.Joined?
      modifies this, world, sess
      ensures Holding(sess) && (state.Live? || state.Renewing?)
      ensures sessID == sess.id && expires == sess.expires
      ensures After(world.trace).sink == old(After(world.trace).sink)
      ensures After(world.trace).stage.Broken? && e == After(world.trace).cause
      ensures world.patience <= old(world.patience)
    {
      hide After, Totals, Disciplined, World.Did;
      while true
        invariant Holding(sess) && state.Live? && Current(sess) && After(world.trace).stage.Joined?
        invariant After(world.trace).sink == old(After(world.trace).sink)
        invariant world.patience <= old(world.patience)
        decreases world.patience
      {
        var now: int := *;
        var ended := world.AwaitRenewal(RenewalDelay(sess.expires, now), now);
        if ended {
          return ORDINARY;
        }
        var failure := Renew(sess);
        if failure.Some? {
          return failure.value;
        }
      }
    }

    /** One pass of the loop once its wait is over. */
    method Renew(sess: StreamSession) returns (failure: Option<Error>)
      requires Holding(sess) && state.Live? && Current(sess) && After(world.trace).stage.Elapsed?
      modifies this, world`trace, sess
      ensures Holding(sess)
      ensures After(world.trace).sink == old(After(world.trace).sink)
      ensures sessID == sess.id && expires == sess.expires
      ensures failure.None? ==> state.Live? && Current(sess) && After(world.trace).stage.Joined?
      ensures failure.Some? ==> state.Renewing? && After(world.trace).stage.Broken? && failure.value == After(world.trace).cause
    {
      hide After, Totals, Disciplined, World.Did, Recorded;
      SetState(Renewing);
      var reply := world.Extend(sess.id);
      match reply
      case Skipped =>
        return Some(ORDINARY);
      case Refused(error) =>
        NoteIfRateLimited(error);
        Report(RenewalEvent(false, Classify(error)));
        return Some(error);
      case Nothing =>
        Report(RenewalEvent(false, OrdinaryFailure));
        return Some(ORDINARY);
      case Granted(next) =>
        sess.expires := next.expires;
        if next.id != "" {
          sess.id := next.id;
        }
        sessID := sess.id;
        expires := sess.expires;
        failures := 0;
        Report(RenewalEvent(true, NoFailure));
        SetState(Live);
        return None;
    }

    /** Count the outcome of an extension and hand it to the observer. */
    method Report(event: RenewalEvent)
      requires Disciplined(world.trace) && After(world.trace).untold == Some(event)
      modifies this`renewals, world`trace
      ensures world.Did(Told(event))
      ensures world.Shows(old(After(world.trace)).(untold := None), old(Totals(world.trace)))
      ensures renewals == Recorded(old(renewals), event)
    {
      RecordRenewal(event);
      world.EmitRenewal(event);
    }
  }
}
