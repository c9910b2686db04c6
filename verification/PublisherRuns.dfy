/** The publisher's promises over whole runs. */
module PublisherRuns {
  import opened Prelude
  import opened Publisher
  import opened PublisherProtocol

  ghost predicate Run(wantAudio: bool, ss: seq<State>, actions: seq<Step>) {
    && |ss| == |actions| + 1
    && ss[0] == Init(wantAudio)
    && forall i :: 0 <= i < |actions| ==> Enabled(ss[i], actions[i]) && ss[i + 1] == Apply(ss[i], actions[i])
  }

  lemma InitInv(wantAudio: bool)
    ensures Inv(Init(wantAudio))
  {
  }

  lemma {:induction false} Reachable(wantAudio: bool, ss: seq<State>, actions: seq<Step>, i: nat)
    requires Run(wantAudio, ss, actions) && i < |ss|
    ensures Inv(ss[i])
  {
    hide Inv;
    if i == 0 {
      InitInv(wantAudio);
    } else {
      Reachable(wantAudio, ss, actions, i - 1);
      InvStep(ss[i - 1], actions[i - 1]);
    }
  }

  /** At most one announce is in flight and at most one client is ever started; every started client is
      the installed one, open until Close and closed once by it, or still in the announcer's hands,
      or has been closed exactly once. */
  lemma AnnouncedAtMostOnce(wantAudio: bool, ss: seq<State>, actions: seq<Step>, i: nat, c: ClientId, d: ClientId)
    requires Run(wantAudio, ss, actions) && i < |ss| && c in ss[i].clients && d in ss[i].clients
    ensures |ss[i].tasks| <= 1
    ensures ss[i].clients[c].started && ss[i].clients[d].started ==> c == d
    ensures ss[i].clients[c].closes <= 1
    ensures ss[i].clients[c].closes == 0 <==>
              (InHand(ss[i], c) || (ss[i].fields.client == Some(c) && !ss[i].fields.closed))
  {
    Reachable(wantAudio, ss, actions, i);
    if t :| t in ss[i].tasks {
      OnlyTask(ss[i], t);
    }
    assert ClientOk(ss[i], c);
  }

  ghost function PacketsTo(s: State, c: ClientId): nat {
    if c in s.clients then s.clients[c].packets else 0
  }

  /** Packets reach only the installed client, and only while it is open. */
  lemma SendsOnlyToOpenClient(s: State, a: Step, c: ClientId)
    requires Inv(s) && Enabled(s, a) && PacketsTo(Apply(s, a), c) != PacketsTo(s, c)
    ensures !s.fields.closed && Apply(s, a).fields.client == Some(c)
    ensures c in s.clients && s.clients[c].started && s.clients[c].closes == 0
  {
    hide WriteStep, ResumeStep, GraceStep, AnnounceEnd, Described, OneStart, Counted, Known;
    match a
    case Write(t, pkt, send, d) =>
      WriteEffects(s.fields, pkt, send);
      assert ClientOk(s, c);
    case Relock(t, send) =>
      var started := if s.tasks[t].phase.Started? then Some(s.tasks[t].phase.client) else None;
      AnnounceEndEffects(s.fields, started);
      if s.tasks[t].origin.ForPacket? {
        ResumeEffects(s.fields, s.tasks[t].origin.medium, s.tasks[t].origin.payloadType, started, send);
        assert HeldBy(s.tasks[t].phase, started.value);
        assert InHand(s, c);
        assert ClientOk(s, c);
      }
    case _ =>
  }

  /** After Close no packet reaches any client, however late a writer arrives. */
  lemma {:induction false} NoPacketAfterClose(wantAudio: bool, ss: seq<State>, actions: seq<Step>, i: nat, j: nat, c: ClientId)
    requires Run(wantAudio, ss, actions) && i <= j < |ss| && ss[i].fields.closed
    ensures ss[j].fields.closed && PacketsTo(ss[j], c) == PacketsTo(ss[i], c)
    decreases j
  {
    if i < j {
      NoPacketAfterClose(wantAudio, ss, actions, i, j - 1, c);
      Reachable(wantAudio, ss, actions, j - 1);
      StaysClosed(ss[j - 1], actions[j - 1]);
      if PacketsTo(ss[j], c) != PacketsTo(ss[j - 1], c) {
        SendsOnlyToOpenClient(ss[j - 1], actions[j - 1], c);
      }
    }
  }

  lemma StaysClosed(s: State, a: Step)
    requires Inv(s) && Enabled(s, a)
    ensures s.fields.closed ==> Apply(s, a).fields.closed
    ensures s.fields.announced ==> Apply(s, a).fields.announced
    ensures Described(s.fields) && Described(Apply(s, a).fields)
    ensures s.fields.announcing || s.fields.announced ==> SameDescription(s.fields, Apply(s, a).fields)
  {
    InvStep(s, a);
    hide WriteStep, ResumeStep, GraceStep, AnnounceEnd, Described, OneStart, Counted, Known, ClientsOk;
    match a
    case Write(t, pkt, send, d) => WriteEffects(s.fields, pkt, send);
    case GraceFires(t, c) => GraceEffects(s.fields);
    case Relock(t, send) =>
      var started := if s.tasks[t].phase.Started? then Some(s.tasks[t].phase.client) else None;
      AnnounceEndEffects(s.fields, started);
      if s.tasks[t].origin.ForPacket? {
        ResumeEffects(s.fields, s.tasks[t].origin.medium, s.tasks[t].origin.payloadType, started, send);
      }
    case _ =>
  }

  /** In every reachable state the description lists exactly the known media, video first; once an announce
      runs or has succeeded it has video, and lacks wanted audio only when the grace period is over. */
  lemma DescriptionIsKnownMedia(wantAudio: bool, ss: seq<State>, actions: seq<Step>, i: nat)
    requires Run(wantAudio, ss, actions) && i < |ss|
    ensures var p := ss[i].fields;
            && p.medias == Known(p.video, p.audio)
            && (p.announcing || p.announced ==> 0 < |p.medias| && p.medias[0].kind.Video?)
            && ((p.announcing || p.announced) && p.wantAudio && |p.medias| < 2 ==> p.graceExpired)
  {
    Reachable(wantAudio, ss, actions, i);
  }

  ghost predicate AnnouncingThroughout(ss: seq<State>, i: nat, j: nat)
    requires i <= j < |ss|
  {
    forall k {:trigger ss[k]} :: i <= k < j ==> ss[k].fields.announcing || ss[k].fields.announced
  }

  /** The description is frozen while an announce runs, and forever once one has succeeded. */
  lemma {:induction false} DescriptionFrozen(wantAudio: bool, ss: seq<State>, actions: seq<Step>, i: nat, j: nat)
    requires Run(wantAudio, ss, actions) && i <= j < |ss|
    requires AnnouncingThroughout(ss, i, j) || ss[i].fields.announced
    ensures SameDescription(ss[i].fields, ss[j].fields)
    ensures ss[i].fields.announced ==> ss[j].fields.announced
    decreases j
  {
    if i < j {
      assert AnnouncingThroughout(ss, i, j) ==> AnnouncingThroughout(ss, i, j - 1);
      DescriptionFrozen(wantAudio, ss, actions, i, j - 1);
      Reachable(wantAudio, ss, actions, j - 1);
      StaysClosed(ss[j - 1], actions[j - 1]);
    }
  }

  /** How a WriteRTP call that ends at this step ends. */
  function OutcomeOf(s: State, a: Step): Option<Outcome>
    requires Enabled(s, a)
  {
    match a
    case Write(_, pkt, send, _) =>
      var next := WriteStep(s.fields, pkt, send).1;
      if next.Finished? then Some(next.outcome) else None
    case Relock(t, send) =>
      if s.tasks[t].origin.ForGrace? then None
      else
        var started := if s.tasks[t].phase.Started? then Some(s.tasks[t].phase.client) else None;
        var next := ResumeStep(s.fields, s.tasks[t].origin.medium, s.tasks[t].origin.payloadType, started, send).1;
        if next.Finished? then Some(next.outcome) else None
    case _ => None
  }

  /** No run ever rejects a packet because its medium is absent from the announced description. */
  lemma MediumNeverAbsent(wantAudio: bool, ss: seq<State>, actions: seq<Step>, i: nat)
    requires Run(wantAudio, ss, actions) && i < |actions|
    ensures OutcomeOf(ss[i], actions[i]) != Some(MediumAbsent)
  {
    Reachable(wantAudio, ss, actions, i);
    var s, a := ss[i], actions[i];
    hide WriteStep, ResumeStep, Described;
    match a
    case Write(t, pkt, send, d) => WriteEffects(s.fields, pkt, send);
    case Relock(t, send) =>
      if s.tasks[t].origin.ForPacket? {
        var started := if s.tasks[t].phase.Started? then Some(s.tasks[t].phase.client) else None;
        ResumeEffects(s.fields, s.tasks[t].origin.medium, s.tasks[t].origin.payloadType, started, send);
      }
    case _ =>
  }

  /** Each ended call bumped exactly one counter; a call not counted yet is the one announcing now. */
  lemma CallsAreCounted(wantAudio: bool, ss: seq<State>, actions: seq<Step>, i: nat)
    requires Run(wantAudio, ss, actions) && i < |ss|
    ensures ss[i].calls == ss[i].fields.counts.Total() + |Pending(ss[i])| && |Pending(ss[i])| <= 1
  {
    Reachable(wantAudio, ss, actions, i);
    if t :| t in ss[i].tasks {
      OnlyTask(ss[i], t);
    }
  }

  /** A step bumps the counter of the call it ends, and no other. */
  lemma StepBumpsItsOutcome(wantAudio: bool, ss: seq<State>, actions: seq<Step>, i: nat)
    requires Run(wantAudio, ss, actions) && i < |actions|
    ensures var ended := OutcomeOf(ss[i], actions[i]);
            ss[i + 1].fields.counts
              == if ended.Some? then ss[i].fields.counts.Bump(ended.value) else ss[i].fields.counts
  {
    Reachable(wantAudio, ss, actions, i);
    var s, a := ss[i], actions[i];
    hide WriteStep, ResumeStep, GraceStep, AnnounceEnd, Described, Counters.Bump, OneStart, Counted, ClientsOk;
    match a
    case Write(t, pkt, send, d) => WriteEffects(s.fields, pkt, send);
    case GraceFires(t, c) => GraceEffects(s.fields);
    case Relock(t, send) =>
      var started := if s.tasks[t].phase.Started? then Some(s.tasks[t].phase.client) else None;
      AnnounceEndEffects(s.fields, started);
      if s.tasks[t].origin.ForPacket? {
        ResumeEffects(s.fields, s.tasks[t].origin.medium, s.tasks[t].origin.payloadType, started, send);
      }
    case _ =>
  }

  // ---- What each call does, case by case ----

  /** The medium a packet's track is known by. */
  function MediumOf(s: State, pkt: Packet): Option<Medium> {
    if pkt.kind.Video? then s.fields.video else s.fields.audio
  }

  /** A codec the publisher carries, and a packet. */
  predicate Usable(pkt: Packet) {
    pkt.kind != Unknown && pkt.supported && pkt.present
  }

  /** The publisher is closed, or its camera is configured without audio. */
  predicate Unwanted(s: State, pkt: Packet) {
    s.fields.closed || (pkt.kind.Audio? && !s.fields.wantAudio)
  }

  /** With this packet's track every expected one is known, or the grace period is over. */
  predicate Complete(s: State, pkt: Packet) {
    || s.fields.graceExpired
    || ((s.fields.video.Some? || pkt.kind.Video?) && (!s.fields.wantAudio || s.fields.audio.Some? || pkt.kind.Audio?))
  }

  /** The packet meets an announced session that knows its track. */
  predicate Forwarded(s: State, pkt: Packet) {
    Usable(pkt) && !Unwanted(s, pkt) && s.fields.announced && MediumOf(s, pkt).Some?
  }

  /** The packet must wait: not announced, and either another goroutine announces or a track is missing. */
  predicate Waits(s: State, pkt: Packet) {
    && Usable(pkt) && !Unwanted(s, pkt) && !s.fields.announced
    && if s.fields.announcing then MediumOf(s, pkt).Some? else !Complete(s, pkt)
  }

  predicate BeginsAnnounce(s: State, pkt: Packet) {
    Usable(pkt) && !Unwanted(s, pkt) && !s.fields.announced && !s.fields.announcing && Complete(s, pkt)
  }

  function OneIf(b: bool): nat {
    if b then 1 else 0
  }

  ghost predicate Grew(was: Counters, now: Counters, published: nat, discarded: nat, queueDropped: nat, failed: nat) {
    && now.published == was.published + published && now.discarded == was.discarded + discarded
    && now.queueDropped == was.queueDropped + queueDropped && now.failed == was.failed + failed
  }

  /** A forwarded packet reaches the installed client if and only if its payload type is its medium's, and is counted
      by what the client answers; of any other payload type it is a failure. */
  lemma ForwardsByPayloadType(s: State, a: Step)
    requires Inv(s) && Enabled(s, a) && a.Write? && Forwarded(s, a.pkt)
    ensures s.fields.client.Some?
    ensures var s' := Apply(s, a);
            var c := s.fields.client.value;
            var matches := a.pkt.payloadType == MediumOf(s, a.pkt).value.payloadType;
            && PacketsTo(s', c) == PacketsTo(s, c) + OneIf(matches)
            && Grew(s.fields.counts, s'.fields.counts,
                    OneIf(matches && a.send.Sent?), 0, OneIf(matches && a.send.QueueFull?),
                    OneIf(!matches || a.send.Broken?))
            && s'.tasks == s.tasks && s'.fields == s.fields.(counts := s'.fields.counts)
  {
    hide WriteStep, Described, OneStart, Counted, TasksDescribed, OneAnnounce;
    KnownWrite(s.fields, a.pkt, a.send);
  }

  /** Every other call: exactly those unwanted or waiting are discarded, exactly those complete with nobody announcing
      begin the announce and are counted when it ends, and the rest fail, unusable or too late. */
  lemma OtherwiseByState(s: State, a: Step)
    requires Inv(s) && Enabled(s, a) && a.Write? && !Forwarded(s, a.pkt)
    ensures var s' := Apply(s, a);
            var discarded := Usable(a.pkt) && (Unwanted(s, a.pkt) || Waits(s, a.pkt));
            var begins := BeginsAnnounce(s, a.pkt);
            && Grew(s.fields.counts, s'.fields.counts, 0, OneIf(discarded), 0, OneIf(!discarded && !begins))
            && (a.task in s'.tasks <==> begins) && (s'.fields.announcing == (s.fields.announcing || begins))
            && forall c :: PacketsTo(s', c) == PacketsTo(s, c)
  {
    hide Described, ClientsOk, OneStart, Counted, TasksDescribed, OneAnnounce, Known;
  }

  /** The goroutine that begins the announce starts its first client for the medium of its packet. */
  lemma AnnounceBeginsForPacket(s: State, a: Step)
    requires Inv(s) && Enabled(s, a) && a.Write? && BeginsAnnounce(s, a.pkt)
    ensures var s' := Apply(s, a);
            && a.task in s'.tasks && s'.tasks[a.task].phase == Starting(0, a.client) && a.client in s'.clients
            && MediumOf(s', a.pkt).Some?
            && s'.tasks[a.task].origin == ForPacket(MediumOf(s', a.pkt).value, a.pkt.payloadType)
  {
    hide Described, ClientsOk, OneStart, Counted, TasksDescribed, OneAnnounce, Known;
  }

  /** A track's first wanted packet before any announce makes its medium known, with that packet's payload type; no
      other packet changes either medium. */
  lemma FirstPacketAddsMedium(s: State, a: Step)
    requires Inv(s) && Enabled(s, a) && a.Write?
    ensures var s' := Apply(s, a);
            var adds := Usable(a.pkt) && !Unwanted(s, a.pkt) && MediumOf(s, a.pkt).None?
                        && !s.fields.announced && !s.fields.announcing;
            && (adds ==> MediumOf(s', a.pkt).Some? && MediumOf(s', a.pkt).value.kind == a.pkt.kind
                         && MediumOf(s', a.pkt).value.payloadType == a.pkt.payloadType && s'.fields.timer)
            && (!adds || a.pkt.kind.Audio? ==> s'.fields.video == s.fields.video)
            && (!adds || a.pkt.kind.Video? ==> s'.fields.audio == s.fields.audio)
  {
    hide WriteStep, Delivered, Described, ClientsOk, OneStart, Counted, TasksDescribed, OneAnnounce;
    WriteMedia(s.fields, a.pkt, a.send);
  }

  /** A writer back from its announce: without a client its packet fails, after Close it is discarded and the client
      closed, and otherwise the client is installed and its packet forwarded like any other. */
  lemma AnnounceEndsForPacket(s: State, a: Step)
    requires Inv(s) && Enabled(s, a) && a.Relock? && s.tasks[a.task].origin.ForPacket?
    ensures var s' := Apply(s, a);
            var origin, phase := s.tasks[a.task].origin, s.tasks[a.task].phase;
            var matches := origin.payloadType == origin.medium.payloadType;
            && s'.tasks == map[] && !s'.fields.announcing
            && (phase.GaveUp? ==>
                  Grew(s.fields.counts, s'.fields.counts, 0, 0, 0, 1) && !s'.fields.announced && s'.clients == s.clients)
            && (phase.Started? && s.fields.closed ==>
                  Grew(s.fields.counts, s'.fields.counts, 0, 1, 0, 0) && !s'.fields.announced
                  && PacketsTo(s', phase.client) == 0 && s'.clients[phase.client].closes == 1)
            && (phase.Started? && !s.fields.closed ==>
                  && s'.fields.client == Some(phase.client) && s'.fields.announced
                  && PacketsTo(s', phase.client) == OneIf(matches)
                  && Grew(s.fields.counts, s'.fields.counts,
                          OneIf(matches && a.send.Sent?), 0, OneIf(matches && a.send.QueueFull?),
                          OneIf(!matches || a.send.Broken?)))
  {
    hide Described, OneStart, Counted, Known;
    OnlyTask(s, a.task);
    var phase := s.tasks[a.task].phase;
    if phase.Started? {
      assert HeldBy(phase, phase.client) && InHand(s, phase.client);
      assert ClientOk(s, phase.client);
      assert s.fields.client.None?;
    }
    assert s.tasks[a.task].origin.medium in s.fields.medias;
  }

  /** The grace timer announces exactly when nothing is announced, announcing or closed and video is known. */
  lemma GraceAnnouncesWithVideo(s: State, a: Step)
    requires Inv(s) && Enabled(s, a) && a.GraceFires?
    ensures var s' := Apply(s, a);
            var announces := !s.fields.announced && !s.fields.announcing && !s.fields.closed && s.fields.video.Some?;
            && (a.task in s'.tasks <==> announces) && (!announces ==> s' == s)
            && (announces ==> s'.fields.graceExpired && s'.fields.announcing
                              && s'.tasks[a.task] == Announcer(ForGrace, Starting(0, a.client)))
  {
    hide Described, ClientsOk, OneStart, Counted, TasksDescribed, OneAnnounce, Known;
  }

  /** An announcer gives up after its third failure, and before that only when it finds the publisher closed. */
  lemma GivesUpAfterThree(s: State, a: Step)
    requires Inv(s) && Enabled(s, a) && a.AttemptFails?
    ensures var phase := s.tasks[a.task].phase;
            Apply(s, a).tasks[a.task].phase == if phase.attempt < 2 then Pausing(phase.attempt + 1) else GaveUp
  {
    hide Described, ClientsOk, OneStart, Counted, TasksDescribed, OneAnnounce, Known;
  }
}
