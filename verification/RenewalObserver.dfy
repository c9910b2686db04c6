/** The session manager's renewal observer: events are queued by emitters, delivered by one worker,
    and drained, with every locked section one step. */
module RenewalObserver {
  import opened Prelude

  type Event = nat

  /** The observer fields of Manager. drained is the number of the current busy period's channel,
      0 before the first; closes lists the channels closed, in order. */
  datatype Core = Core(
    installed: bool,
    queue: seq<Event>,
    pending: int,
    drained: nat,
    closes: seq<nat>,
    running: bool,
    inFlight: bool,
    closed: bool,
    abandoned: bool)

  const FRESH := Core(false, [], 0, 0, [], false, false, false, false)

  /** emitRenewal's locked section: whether the event was accepted, and whether a worker must start. */
  function EmitStep(c: Core, e: Event): (Core, bool, bool) {
    if !c.installed || c.closed then (c, false, false)
    else
      var busy := if c.pending == 0 then c.(drained := c.drained + 1) else c;
      var queued := busy.(queue := c.queue + [e], pending := c.pending + 1);
      if c.running then (queued, true, false) else (queued.(running := true), true, true)
  }

  /** The worker's first locked section: take the next event, or stop. */
  function TakeStep(c: Core): (Core, Option<Event>) {
    if c.abandoned || c.queue == [] then (c.(running := false), None)
    else (c.(queue := c.queue[1..], inFlight := true), Some(c.queue[0]))
  }

  /** The worker's second locked section, after the callback. */
  function FinishStep(c: Core): Core {
    var done := c.(inFlight := false, pending := c.pending - 1);
    if done.pending == 0 then done.(closes := c.closes + [c.drained]) else done
  }

  /** DrainRenewalObserver's first locked section. */
  function SealStep(c: Core): Core {
    c.(closed := true)
  }

  /** DrainRenewalObserver's second locked section, when its context has expired. */
  function AbandonStep(c: Core): (Core, int) {
    if c.pending == 0 then (c, 0)
    else
      var dropped := c.(abandoned := true, queue := []);
      if c.inFlight then (dropped.(pending := 1), c.pending)
      else (dropped.(pending := 0, closes := c.closes + [c.drained]), c.pending)
  }

  // ---- The fields, and the locked sections in place ----

  class Channel {
    var closed: bool
    const number: nat

    constructor (number: nat)
      ensures this.number == number && !closed
    {
      this.number := number;
      closed := false;
    }
  }

  class Observer {
    var installed: bool
    var queue: seq<Event>
    var pending: int
    var drained: Channel?
    var running: bool
    var inFlight: bool
    var closed: bool
    var abandoned: bool
    ghost var closes: seq<nat>

    ghost function View(): Core
      reads this
    {
      Core(installed, queue, pending, if drained == null then 0 else drained.number, closes,
           running, inFlight, closed, abandoned)
    }

    /** The channel exists while work is pending, and is open exactly then. */
    ghost predicate Valid()
      reads this, drained
    {
      && pending >= 0
      && (pending > 0 ==> drained != null)
      && (drained != null ==> drained.closed == (pending == 0))
    }

    constructor ()
      ensures Valid() && View() == FRESH
    {
      installed, queue, pending, drained := false, [], 0, null;
      running, inFlight, closed, abandoned, closes := false, false, false, false, [];
    }

    method SetObserver(installed: bool)
      requires Valid()
      modifies this`installed
      ensures Valid() && View() == old(View()).(installed := installed)
    {
      this.installed := installed;
    }

    method Emit(e: Event) returns (spawn: bool)
      requires Valid()
      modifies this`queue, this`pending, this`drained, this`running
      ensures Valid() && (View(), spawn) == (EmitStep(old(View()), e).0, EmitStep(old(View()), e).2)
      ensures drained == old(drained) || fresh(drained)
    {
      if !installed || closed {
        return false;
      }
      if pending == 0 {
        drained := new Channel(if drained == null then 1 else drained.number + 1);
      }
      queue := queue + [e];
      pending := pending + 1;
      if running {
        return false;
      }
      running := true;
      spawn := true;
    }

    method Take() returns (next: Option<Event>)
      requires Valid()
      modifies this`queue, this`running, this`inFlight
      ensures Valid() && (View(), next) == TakeStep(old(View()))
    {
      if abandoned || |queue| == 0 {
        running := false;
        return None;
      }
      next := Some(queue[0]);
      queue := queue[1..];
      inFlight := true;
    }

    method Finish()
      requires Valid() && pending > 0
      modifies this`inFlight, this`pending, this`closes, drained
      ensures Valid() && View() == FinishStep(old(View()))
    {
      inFlight := false;
      pending := pending - 1;
      if pending == 0 {
        Close();
      }
    }

    /** close(m.observerDrained): Go panics on a second close, so the channel must be open. */
    method Close()
      requires drained != null && !drained.closed
      modifies drained, this`closes
      ensures drained.closed && closes == old(closes) + [drained.number]
    {
      drained.closed := true;
      closes := closes + [drained.number];
    }

    method Seal() returns (settled: bool)
      requires Valid()
      modifies this`closed
      ensures Valid() && View() == SealStep(old(View())) && settled == (pending == 0)
    {
      closed := true;
      settled := pending == 0;
    }

    method Abandon() returns (undelivered: int)
      requires Valid()
      modifies this`abandoned, this`queue, this`pending, this`closes, drained
      ensures Valid() && (View(), undelivered) == AbandonStep(old(View()))
    {
      undelivered := pending;
      if undelivered == 0 {
        return 0;
      }
      abandoned := true;
      queue := [];
      if inFlight {
        pending := 1;
      } else {
        pending := 0;
        Close();
      }
    }
  }
}
