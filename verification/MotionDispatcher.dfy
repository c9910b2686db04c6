/** The dispatcher's capacity-one queue for one camera: one sender, and a consumer that may run
    between any two channel operations. */
module MotionDispatcher {
  import opened Prelude

  /** Whether a is b with some elements left out, order kept. */
  ghost predicate Subsequence<T>(a: seq<T>, b: seq<T>) {
    if a == [] then true
    else if b == [] then false
    else if a[|a| - 1] == b[|b| - 1] && Subsequence(a[..|a| - 1], b[..|b| - 1]) then true
    else Subsequence(a, b[..|b| - 1])
  }

  lemma SubsequenceSend<T>(a: seq<T>, b: seq<T>, x: T)
    requires Subsequence(a, b)
    ensures Subsequence(a + [x], b + [x])
    ensures Subsequence(a, b + [x])
  {
    assert (a + [x])[..|a|] == a && (b + [x])[..|b|] == b;
  }

  lemma {:induction false} SubsequenceDrop<T>(a: seq<T>, b: seq<T>)
    requires a != [] && Subsequence(a, b)
    ensures Subsequence(a[..|a| - 1], b)
  {
    if a[|a| - 1] == b[|b| - 1] && Subsequence(a[..|a| - 1], b[..|b| - 1]) {
      var shorter := a[..|a| - 1];
      assert b == b[..|b| - 1] + [b[|b| - 1]];
      SubsequenceSend(shorter, b[..|b| - 1], b[|b| - 1]);
    } else {
      SubsequenceDrop(a, b[..|b| - 1]);
      SubsequenceSend(a[..|a| - 1], b[..|b| - 1], b[|b| - 1]);
      assert b == b[..|b| - 1] + [b[|b| - 1]];
    }
  }

  class CameraQueue<E(==)> {
    var buffered: seq<E>               // the channel's buffer
    var inFlight: Option<E>            // the edge the consumer is delivering
    var stopped: bool
    ghost var delivered: seq<E>        // deliveries the consumer has finished, successful or not
    ghost var sent: seq<E>             // edges passed to Send

    /** What the consumer has, has had, or can still get. */
    ghost function Kept(): seq<E>
      reads this`buffered, this`inFlight, this`delivered
    {
      delivered + (if inFlight.Some? then [inFlight.value] else []) + buffered
    }

    /** Nothing is delivered out of order or twice. */
    ghost predicate Valid()
      reads this
    {
      |buffered| <= 1 && Subsequence(Kept(), sent)
    }

    /** Besides, the newest edge sent has not been dropped. */
    ghost predicate Settled()
      reads this
    {
      Valid() && (sent != [] ==> Kept() != [] && Kept()[|Kept()| - 1] == sent[|sent| - 1])
    }

    constructor ()
      ensures Settled() && sent == [] && buffered == [] && inFlight == None && delivered == [] && !stopped
    {
      buffered, inFlight, stopped, delivered, sent := [], None, false, [], [];
    }

    /** select on sending with a default: true when the edge went into the buffer. */
    method TrySend(e: E) returns (ok: bool)
      requires |buffered| <= 1
      modifies this`buffered
      ensures ok == (old(buffered) == [])
      ensures buffered == if ok then [e] else old(buffered)
      ensures Kept() == if ok then old(Kept()) + [e] else old(Kept())
    {
      ok := |buffered| == 0;
      if ok {
        buffered := [e];
      }
    }

    /** select on receiving with a default. */
    method TryReceive() returns (e: Option<E>)
      requires |buffered| <= 1
      modifies this`buffered
      ensures buffered == [] && e == if old(buffered) == [] then None else Some(old(buffered)[0])
    {
      e := None;
      if |buffered| > 0 {
        e := Some(buffered[0]);
        buffered := [];
      }
    }

    /** One turn of the consumer goroutine: it stops, takes an edge, or ends a delivery. */
    method Consume()
      requires Valid()
      modifies this`buffered, this`inFlight, this`delivered, this`stopped
      ensures Valid() && Kept() == old(Kept())
      ensures buffered == old(buffered) || buffered == []
    {
      if inFlight.Some? {
        delivered := delivered + [inFlight.value];
        inFlight := None;
      } else if stopped {
      } else {
        var stop: bool := *;
        if stop {
          stopped := true;
        } else {
          var e := TryReceive();
          inFlight := e;
        }
      }
      assert Kept() == old(Kept());
    }

    /** Any number of consumer turns. */
    method Interfere()
      requires Valid()
      modifies this`buffered, this`inFlight, this`delivered, this`stopped
      ensures Valid() && Kept() == old(Kept())
      ensures buffered == old(buffered) || buffered == []
    {
      var turns: int :| turns >= 0;
      while turns > 0
        invariant Valid() && Kept() == old(Kept())
        invariant buffered == old(buffered) || buffered == []
        decreases turns
      {
        Consume();
        turns := turns - 1;
      }
    }

    lemma BufferedIsKept()
      ensures buffered != [] ==> Kept() != []
    {
    }

    /** The middle select of Send: take out the edge being superseded, if the consumer has not. */
    method DropOldest()
      requires Valid()
      modifies this`buffered
      ensures Valid() && buffered == []
      ensures Kept() == if old(buffered) == [] then old(Kept()) else old(Kept())[..|old(Kept())| - 1]
    {
      hide Subsequence;
      ghost var kept, before := Kept(), buffered;
      var dropped := TryReceive();
      if dropped.Some? {
        SubsequenceDrop(kept, sent);
        assert before == [before[0]];
        assert Kept() == kept[..|kept| - 1];
      }
    }

    /** Send: the newest edge always gets in. At most the edge it supersedes is dropped, and the final
        default branch, where the new edge would be, cannot be reached. */
    method Send(e: E)
      requires Settled()
      modifies this
      ensures Settled() && sent == old(sent) + [e]
      ensures Kept() == old(Kept()) + [e] || (old(buffered) != [] && Kept() == old(Kept())[..|old(Kept())| - 1] + [e])
    {
      hide Subsequence, Kept;
      ghost var was, kept, full := sent, Kept(), buffered != [];
      BufferedIsKept();
      Interfere();
      var ok := TrySend(e);
      ghost var rest := kept;
      if !ok {
        Interfere();
        DropOldest();
        Interfere();
        rest := Kept();
        assert rest == kept || (full && rest == kept[..|kept| - 1]);
        ok := TrySend(e);
        if !ok {
          assert false;
        }
      }
      assert Subsequence(rest, was);
      SubsequenceSend(rest, was, e);
      assert Kept() == rest + [e];
      sent := sent + [e];
      assert Kept() == rest + [e];
    }
  }
}
