/** The RTSP publisher's fields and its locked sections. An announce releases the mutex, so a write
    that must announce is cut in two: up to the announce, and from its outcome on. */
module Publisher {
  import opened Prelude

  datatype Kind = Video | Audio | Unknown

  /** A track's description; number tells one allocation from another, as a pointer would. */
  datatype Medium = Medium(kind: Kind, payloadType: int, number: nat)

  /** An RTP packet and the track it came from. supported: the track's MIME type is the one
      republished for its kind. present: the packet is not nil. */
  datatype Packet = Packet(kind: Kind, supported: bool, present: bool, payloadType: int)

  /** What the RTSP client answers to a packet. */
  datatype Answer = Sent | QueueFull | Broken

  datatype Outcome =
    | Published
    | Discarded
    | QueueDropped
    | Unsupported
    | LateTrack
    | MediumAbsent
    | WrongPayloadType
    | AnnounceFailed
    | SendFailed

  datatype Counters = Counters(published: nat, discarded: nat, queueDropped: nat, failed: nat) {
    function Total(): nat {
      published + discarded + queueDropped + failed
    }

    /** The one counter an outcome bumps. */
    function Bump(o: Outcome): Counters {
      match o
      case Published => this.(published := published + 1)
      case Discarded => this.(discarded := discarded + 1)
      case QueueDropped => this.(queueDropped := queueDropped + 1)
      case _ => this.(failed := failed + 1)
    }
  }

  type ClientId = nat

  datatype Fields = Fields(
    wantAudio: bool,
    client: Option<ClientId>,
    medias: seq<Medium>,
    video: Option<Medium>,
    audio: Option<Medium>,
    announced: bool,
    announcing: bool,
    closed: bool,
    timer: bool,
    graceExpired: bool,
    allocs: nat,
    counts: Counters)

  function NewFields(wantAudio: bool): Fields {
    Fields(wantAudio, None, [], None, None, false, false, false, false, false, 0, Counters(0, 0, 0, 0))
  }

  /** Where a locked section of WriteRTP leaves the call. */
  datatype Progress =
    | Finished(outcome: Outcome)
    | MustAnnounce(medium: Medium)

  predicate Supported(pkt: Packet) {
    !pkt.kind.Unknown? && pkt.supported && pkt.present
  }

  function Finish(p: Fields, o: Outcome): (Fields, Progress) {
    (p.(counts := p.counts.Bump(o)), Finished(o))
  }

  function Known(video: Option<Medium>, audio: Option<Medium>): seq<Medium> {
    (if video.Some? then [video.value] else []) + (if audio.Some? then [audio.value] else [])
  }

  /** addMedium, rebuildDescription and startAnnounceTimer. */
  function AddMedium(p: Fields, kind: Kind, payloadType: int): (Fields, Medium) {
    var m := Medium(kind, payloadType, p.allocs);
    var video := if kind.Video? then Some(m) else p.video;
    var audio := if kind.Video? then p.audio else Some(m);
    (p.(video := video, audio := audio, medias := Known(video, audio), timer := true, allocs := p.allocs + 1), m)
  }

  predicate HaveEveryExpectedTrack(p: Fields) {
    p.video.Some? && (!p.wantAudio || p.audio.Some?)
  }

  /** The tail of WriteRTP, once the session is announced. */
  function Forward(p: Fields, m: Medium, payloadType: int, send: Answer): (Fields, Progress) {
    if m !in p.medias then Finish(p, MediumAbsent)
    else if payloadType != m.payloadType then Finish(p, WrongPayloadType)
    else match send
      case Sent => Finish(p, Published)
      case QueueFull => Finish(p, QueueDropped)
      case Broken => Finish(p, SendFailed)
  }

  /** WriteRTP up to its end or to the announce it must run; send is the client's answer if one is asked. */
  function WriteStep(p: Fields, pkt: Packet, send: Answer): (Fields, Progress) {
    if !Supported(pkt) then Finish(p, Unsupported)
    else if p.closed then Finish(p, Discarded)
    else if pkt.kind.Audio? && !p.wantAudio then Finish(p, Discarded)
    else
      var known := if pkt.kind.Video? then p.video else p.audio;
      if known.None? && (p.announced || p.announcing) then Finish(p, LateTrack)
      else
        var (q, m) := if known.None? then AddMedium(p, pkt.kind, pkt.payloadType) else (p, known.value);
        if q.announced then Forward(q, m, pkt.payloadType, send)
        else if !HaveEveryExpectedTrack(q) && !q.graceExpired then Finish(q, Discarded)
        else if q.announcing then Finish(q, Discarded)
        else (q.(announcing := true), MustAnnounce(m))
  }

  /** announceLocked after its round trips: the client it started, if any. */
  function AnnounceEnd(p: Fields, started: Option<ClientId>): Fields {
    var q := p.(announcing := false);
    if started.None? || q.closed then q else q.(client := started, announced := true)
  }

  /** WriteRTP from the end of its announce on. */
  function ResumeStep(p: Fields, m: Medium, payloadType: int, started: Option<ClientId>, send: Answer): (Fields, Progress) {
    var q := AnnounceEnd(p, started);
    if started.None? then Finish(q, AnnounceFailed)
    else if !q.announced then Finish(q, Discarded)
    else Forward(q, m, payloadType, send)
  }

  /** announceAfterGrace up to its announce, if it runs one. */
  function GraceStep(p: Fields): (Fields, bool) {
    if p.announced || p.announcing || p.closed || p.video.None? then (p, false)
    else (p.(graceExpired := true, announcing := true), true)
  }

  // ---- What a locked section may do ----

  /** The description lists exactly the known media, video first; nothing is announced without video,
      nor without wanted audio unless the grace period is over. */
  ghost predicate Described(p: Fields) {
    && p.medias == Known(p.video, p.audio)
    && (p.video.Some? ==> p.video.value.kind.Video?)
    && (p.audio.Some? ==> p.audio.value.kind.Audio? && p.wantAudio)
    && (p.graceExpired ==> p.video.Some?)
    && (p.announcing || p.announced ==> p.video.Some? && (p.wantAudio ==> p.audio.Some? || p.graceExpired))
  }

  ghost predicate SameDescription(p: Fields, q: Fields) {
    q.medias == p.medias && q.video == p.video && q.audio == p.audio
  }

  lemma BumpsOne(c: Counters, o: Outcome)
    ensures c.Bump(o).Total() == c.Total() + 1
  {
  }

  lemma ForwardEffects(p: Fields, m: Medium, payloadType: int, send: Answer)
    requires m in p.medias
    ensures var (q, next) := Forward(p, m, payloadType, send);
            next.Finished? && next.outcome != MediumAbsent
            && q == p.(counts := p.counts.Bump(next.outcome)) && q.counts.Total() == p.counts.Total() + 1
  {
    hide Counters.Bump;
    BumpsOne(p.counts, Forward(p, m, payloadType, send).1.outcome);
  }

  lemma AddEffects(p: Fields, kind: Kind, payloadType: int)
    requires Described(p) && !p.announced && !p.announcing && !kind.Unknown? && (kind.Audio? ==> p.wantAudio)
    requires (if kind.Video? then p.video else p.audio).None?
    ensures var (q, m) := AddMedium(p, kind, payloadType);
            && Described(q) && m in q.medias && (forall k :: k in p.medias ==> k in q.medias)
            && q == p.(medias := q.medias, video := q.video, audio := q.audio, timer := true, allocs := q.allocs)
  {
  }

  lemma WriteEffects(p: Fields, pkt: Packet, send: Answer)
    requires Described(p) && !(p.announcing && p.announced)
    ensures var (q, next) := WriteStep(p, pkt, send);
            && Described(q) && (p.announcing || p.announced ==> SameDescription(p, q))
            && (forall m :: m in p.medias ==> m in q.medias)
            && q.closed == p.closed && q.client == p.client && q.announced == p.announced
            && q.counts == (if next.Finished? then p.counts.Bump(next.outcome) else p.counts)
            && q.counts.Total() == p.counts.Total() + (if next.Finished? then 1 else 0)
            && (next.Finished? ==> q.announcing == p.announcing && next.outcome != MediumAbsent)
            && (next.MustAnnounce? ==> !p.announcing && !p.announced && !p.closed && q.announcing && next.medium in q.medias)
            && (Reached(next) ==> p.announced && !p.closed)
  {
    hide AddMedium, Forward, Known, Counters.Bump, Counters.Total;
    BumpsOne(p.counts, Unsupported);
    BumpsOne(p.counts, Discarded);
    BumpsOne(p.counts, LateTrack);
    if Supported(pkt) && !p.closed && !(pkt.kind.Audio? && !p.wantAudio) {
      var known := if pkt.kind.Video? then p.video else p.audio;
      if known.None? {
        if !p.announced && !p.announcing {
          AddEffects(p, pkt.kind, pkt.payloadType);
        }
      } else {
        KnownIsDescribed(p, known.value);
        ForwardEffects(p, known.value, pkt.payloadType, send);
      }
    }
  }

  lemma KnownIsDescribed(p: Fields, m: Medium)
    requires Described(p) && (p.video == Some(m) || p.audio == Some(m))
    ensures m in p.medias
  {
  }

  /** A packet of a known medium, once announced. */
  lemma KnownWrite(p: Fields, pkt: Packet, send: Answer)
    requires Described(p) && p.announced && !p.closed && Supported(pkt) && !(pkt.kind.Audio? && !p.wantAudio)
    requires (if pkt.kind.Video? then p.video else p.audio).Some?
    ensures var m := (if pkt.kind.Video? then p.video else p.audio).value;
            var outcome := if pkt.payloadType != m.payloadType then WrongPayloadType
                           else match send case Sent => Published case QueueFull => QueueDropped case Broken => SendFailed;
            WriteStep(p, pkt, send) == Finish(p, outcome)
  {
    hide AddMedium, Known, Counters.Bump, Described;
    KnownIsDescribed(p, (if pkt.kind.Video? then p.video else p.audio).value);
  }

  lemma WriteMedia(p: Fields, pkt: Packet, send: Answer)
    ensures var q := WriteStep(p, pkt, send).0;
            var adds := Supported(pkt) && !p.closed && !(pkt.kind.Audio? && !p.wantAudio)
                        && (if pkt.kind.Video? then p.video else p.audio).None? && !p.announced && !p.announcing;
            var m := Some(Medium(pkt.kind, pkt.payloadType, p.allocs));
            && q.video == (if adds && pkt.kind.Video? then m else p.video)
            && q.audio == (if adds && pkt.kind.Audio? then m else p.audio)
            && (adds ==> q.timer)
  {
    hide Known, Counters.Bump;
  }

  lemma ResumeEffects(p: Fields, m: Medium, payloadType: int, started: Option<ClientId>, send: Answer)
    requires Described(p) && p.announcing && !p.announced && m in p.medias
    ensures var (q, next) := ResumeStep(p, m, payloadType, started, send);
            && q == AnnounceEnd(p, started).(counts := q.counts)
            && next.Finished? && next.outcome != MediumAbsent
            && q.counts == p.counts.Bump(next.outcome) && q.counts.Total() == p.counts.Total() + 1
            && (Reached(next) ==> !p.closed && started.Some?)
  {
    hide Forward, Described, Counters.Bump, Counters.Total;
    BumpsOne(p.counts, AnnounceFailed);
    BumpsOne(p.counts, Discarded);
    if started.Some? && !p.closed {
      ForwardEffects(AnnounceEnd(p, started), m, payloadType, send);
    }
  }

  lemma AnnounceEndEffects(p: Fields, started: Option<ClientId>)
    requires Described(p) && p.announcing
    ensures var q := AnnounceEnd(p, started);
            && Described(q) && SameDescription(p, q) && q.closed == p.closed && !q.announcing && q.counts == p.counts
            && (if started.Some? && !p.closed then q.client == started && q.announced
                else q.client == p.client && q.announced == p.announced)
  {
  }

  lemma GraceEffects(p: Fields)
    requires Described(p)
    ensures var (q, announce) := GraceStep(p);
            && Described(q) && SameDescription(p, q) && q.closed == p.closed && q.client == p.client
            && q.announced == p.announced && q.counts == p.counts
            && (if announce then !p.announcing && !p.announced && !p.closed && q.announcing
                else q.announcing == p.announcing)
  {
  }

  /** The outcomes that asked the client to write a packet. */
  predicate Reached(next: Progress) {
    next.Finished? && (next.outcome.Published? || next.outcome.QueueDropped? || next.outcome.SendFailed?)
  }

  // ---- In place ----

  /** A gortsplib client: how often it was closed, and whether it has recorded. */
  class Client {
    const id: ClientId
    var started: bool
    var closes: nat

    constructor (id: ClientId)
      ensures this.id == id && !started && closes == 0
    {
      this.id := id;
      started, closes := false, 0;
    }

    method StartRecording() returns (ok: bool)
      requires !started && closes == 0
      modifies this`started
      ensures started == ok
    {
      ok := *;
      started := ok;
    }

    method Close()
      modifies this`closes
      ensures closes == old(closes) + 1
    {
      closes := closes + 1;
    }

    /** Only a started client that nobody has closed may be asked to write. */
    method WritePacketRTP() returns (answer: Answer)
      requires started && closes == 0
    {
      answer :| true;
    }
  }

  function IdOf(client: Client?): Option<ClientId> {
    if client == null then None else Some(client.id)
  }

  const ANNOUNCE_ATTEMPTS := 3

  /** announceWithRetry: at most three clients; all of them but the one returned are closed exactly once. It gives up
      only after three failures, or between two attempts when it finds the publisher closed. */
  method AnnounceWithRetry(firstId: ClientId) returns (client: Client?, tried: seq<Client>, abandoned: bool)
    ensures client == null ==> |tried| == 3 || abandoned
    ensures abandoned ==> client == null && 1 <= |tried| < 3
    ensures client != null ==> tried != [] && tried[|tried| - 1] == client
    ensures |tried| <= ANNOUNCE_ATTEMPTS && (forall c :: c in tried ==> fresh(c))
    ensures client != null ==> client in tried && client.started && client.closes == 0
    ensures forall c :: c in tried && c != client ==> !c.started && c.closes == 1
  {
    client, tried, abandoned := null, [], false;
    for attempt := 0 to ANNOUNCE_ATTEMPTS
      invariant |tried| == attempt
      invariant forall c :: c in tried ==> fresh(c) && !c.started && c.closes == 1
    {
      if attempt > 0 {
        var publisherClosed: bool := *;
        if publisherClosed {
          abandoned := true;
          return;
        }
      }
      var c := new Client(firstId + attempt);
      var ok := c.StartRecording();
      tried := tried + [c];
      if !ok {
        c.Close();
        continue;
      }
      client := c;
      return;
    }
  }

  class Publisher {
    const wantAudio: bool
    var client: Client?
    var medias: seq<Medium>
    var video: Option<Medium>
    var audio: Option<Medium>
    var announced: bool
    var announcing: bool
    var closed: bool
    var timer: bool
    var graceExpired: bool
    var allocs: nat
    var counts: Counters

    ghost function View(): Fields
      reads this
    {
      Fields(wantAudio, IdOf(client), medias, video, audio, announced,
             announcing, closed, timer, graceExpired, allocs, counts)
    }

    /** The installed client is the one announced, and it is open until the publisher closes. */
    ghost predicate Valid()
      reads this, client
    {
      && announced == (client != null)
      && (client != null ==> client.started && client.closes == if closed then 1 else 0)
    }

    constructor (wantAudio: bool)
      ensures Valid() && View() == NewFields(wantAudio)
    {
      this.wantAudio := wantAudio;
      client, medias, video, audio := null, [], None, None;
      announced, announcing, closed, timer, graceExpired := false, false, false, false, false;
      allocs, counts := 0, Counters(0, 0, 0, 0);
    }

    method RebuildDescription()
      modifies this`medias
      ensures medias == Known(video, audio)
    {
      medias := [];
      if video.Some? {
        medias := medias + [video.value];
      }
      if audio.Some? {
        medias := medias + [audio.value];
      }
    }

    method Add(kind: Kind, payloadType: int) returns (m: Medium)
      modifies this`video, this`audio, this`medias, this`timer, this`allocs
      ensures (View(), m) == AddMedium(old(View()), kind, payloadType)
    {
      m := Medium(kind, payloadType, allocs);
      allocs := allocs + 1;
      if kind.Video? {
        video := Some(m);
      } else {
        audio := Some(m);
      }
      RebuildDescription();
      timer := true;
    }

    method Send(m: Medium, payloadType: int) returns (outcome: Outcome, ghost answer: Answer)
      requires Valid() && announced && !closed
      modifies this`counts
      ensures Valid() && (View(), Finished(outcome)) == Forward(old(View()), m, payloadType, answer)
    {
      answer := Sent;
      if m !in medias {
        outcome := MediumAbsent;
      } else if payloadType != m.payloadType {
        outcome := WrongPayloadType;
      } else {
        var reply := client.WritePacketRTP();
        answer := reply;
        outcome := match reply case QueueFull => QueueDropped case Broken => SendFailed case Sent => Published;
      }
      counts := counts.Bump(outcome);
    }

    /** WriteRTP's locked section up to its end or its announce. */
    method Write(pkt: Packet) returns (next: Progress, ghost answer: Answer)
      requires Valid()
      modifies this`video, this`audio, this`medias, this`timer, this`allocs, this`announcing, this`counts
      ensures Valid() && (View(), next) == WriteStep(old(View()), pkt, answer)
    {
      if pkt.kind.Unknown? || !pkt.supported || !pkt.present {
        counts := counts.Bump(Unsupported);
        return Finished(Unsupported), Sent;
      }
      if closed || (pkt.kind.Audio? && !wantAudio) {
        counts := counts.Bump(Discarded);
        return Finished(Discarded), Sent;
      }
      var known := if pkt.kind.Video? then video else audio;
      if known.None? && (announced || announcing) {
        counts := counts.Bump(LateTrack);
        return Finished(LateTrack), Sent;
      }
      var m;
      if known.None? {
        m := Add(pkt.kind, pkt.payloadType);
      } else {
        m := known.value;
      }
      if announced {
        var outcome;
        outcome, answer := Send(m, pkt.payloadType);
        next := Finished(outcome);
        return;
      }
      var complete := video.Some? && (!wantAudio || audio.Some?);
      if (!complete && !graceExpired) || announcing {
        counts := counts.Bump(Discarded);
        return Finished(Discarded), Sent;
      }
      announcing := true;
      next, answer := MustAnnounce(m), Sent;
    }

    /** announceLocked once it has the mutex again: install the client, or close it if nobody wants it. */
    method EndAnnounce(started: Client?)
      requires Valid() && announcing && !announced
      requires started != null ==> started.started && started.closes == 0
      modifies this`announcing, this`client, this`announced, started
      ensures Valid() && View() == AnnounceEnd(old(View()), IdOf(started))
      ensures started != null ==> started.closes == if closed then 1 else 0
      ensures started != null ==> (client == started) == !closed
    {
      announcing := false;
      if started == null {
        return;
      }
      if closed {
        started.Close();
        return;
      }
      client := started;
      announced := true;
    }

    /** WriteRTP's second locked section. */
    method Resume(m: Medium, payloadType: int, started: Client?) returns (outcome: Outcome, ghost answer: Answer)
      requires Valid() && announcing && !announced
      requires started != null ==> started.started && started.closes == 0
      modifies this`announcing, this`client, this`announced, this`counts, started
      ensures Valid()
      ensures (View(), Finished(outcome)) == ResumeStep(old(View()), m, payloadType, IdOf(started), answer)
      ensures started != null ==> started.closes == if closed then 1 else 0
    {
      EndAnnounce(started);
      answer := Sent;
      if started == null {
        outcome := AnnounceFailed;
        counts := counts.Bump(outcome);
      } else if !announced {
        outcome := Discarded;
        counts := counts.Bump(outcome);
      } else {
        outcome, answer := Send(m, payloadType);
      }
    }

    method GraceExpires() returns (announce: bool)
      modifies this`graceExpired, this`announcing
      ensures (View(), announce) == GraceStep(old(View()))
    {
      if announced || announcing || closed || video.None? {
        return false;
      }
      graceExpired, announcing := true, true;
      announce := true;
    }

    method Close()
      requires Valid()
      modifies this`closed, client
      ensures Valid() && View() == old(View()).(closed := true)
      ensures client != null ==> client.closes == 1
    {
      if closed {
        return;
      }
      closed := true;
      if client != null {
        client.Close();
      }
    }
  }
}
