/** Track pumps, the grace timer and Close interleaving over one publisher. Between the locked sections an
    announcing goroutine holds no mutex: its attempts to start a client are steps of their own. */
module PublisherProtocol {
  import opened Prelude
  import opened Publisher

  /** Why a goroutine announces: to send a packet of its medium, or because the grace timer fired. */
  datatype Origin = ForPacket(medium: Medium, payloadType: int) | ForGrace

  datatype Phase =
    | Pausing(attempt: nat)                     // between attempts, selecting on closedCh
    | Starting(attempt: nat, client: ClientId)  // StartRecording in flight
    | Started(client: ClientId)                 // about to take the mutex again with a client
    | GaveUp                                    // about to take the mutex again without one

  datatype Announcer = Announcer(origin: Origin, phase: Phase)

  datatype Rtsp = Rtsp(started: bool, closes: nat, packets: nat)

  type Task = nat

  /** calls counts the WriteRTP calls made so far. */
  datatype State = State(fields: Fields, tasks: map<Task, Announcer>, clients: map<ClientId, Rtsp>, calls: nat)

  datatype Step =
    | Write(task: Task, pkt: Packet, send: Answer, client: ClientId)
    | GraceFires(task: Task, client: ClientId)
    | AttemptFails(task: Task)
    | AttemptSucceeds(task: Task)
    | Retry(task: Task, client: ClientId)
    | AbandonOnClose(task: Task)
    | Relock(task: Task, send: Answer)
    | Close

  function Init(wantAudio: bool): State {
    State(NewFields(wantAudio), map[], map[], 0)
  }

  predicate InPhase(s: State, t: Task, pausing: bool, starting: bool, ended: bool) {
    && t in s.tasks
    && match s.tasks[t].phase
       case Pausing(_) => pausing
       case Starting(_, c) => starting && c in s.clients
       case _ => ended
  }

  predicate Enabled(s: State, a: Step) {
    match a
    case Write(t, _, _, c) => t !in s.tasks && c !in s.clients
    case GraceFires(t, c) => s.fields.timer && t !in s.tasks && c !in s.clients
    case AttemptFails(t) => InPhase(s, t, false, true, false)
    case AttemptSucceeds(t) => InPhase(s, t, false, true, false)
    case Retry(t, c) => InPhase(s, t, true, false, false) && c !in s.clients
    case AbandonOnClose(t) => InPhase(s, t, true, false, false) && s.fields.closed
    case Relock(t, _) => InPhase(s, t, false, false, true)
    case Close => true
  }

  const NEW_CLIENT := Rtsp(false, 0, 0)

  function Closing(clients: map<ClientId, Rtsp>, c: ClientId): map<ClientId, Rtsp> {
    if c in clients then clients[c := clients[c].(closes := clients[c].closes + 1)] else clients
  }

  /** The installed client after a locked section of WriteRTP that may have sent to it. */
  function Delivered(clients: map<ClientId, Rtsp>, installed: Option<ClientId>, next: Progress): map<ClientId, Rtsp> {
    if Reached(next) && installed.Some? && installed.value in clients then
      clients[installed.value := clients[installed.value].(packets := clients[installed.value].packets + 1)]
    else clients
  }

  function Begin(s: State, fields: Fields, t: Task, origin: Origin, c: ClientId): State {
    s.(fields := fields, tasks := s.tasks[t := Announcer(origin, Starting(0, c))], clients := s.clients[c := NEW_CLIENT])
  }

  function Moved(s: State, t: Task, phase: Phase): map<Task, Announcer>
    requires t in s.tasks
  {
    s.tasks[t := s.tasks[t].(phase := phase)]
  }

  function RelockStep(s: State, t: Task, send: Answer): State
    requires t in s.tasks
  {
    var phase := s.tasks[t].phase;
    var started := if phase.Started? then Some(phase.client) else None;
    var clients := if started.Some? && s.fields.closed then Closing(s.clients, started.value) else s.clients;
    match s.tasks[t].origin
    case ForGrace =>
      s.(fields := AnnounceEnd(s.fields, started), tasks := s.tasks - {t}, clients := clients)
    case ForPacket(m, payloadType) =>
      var (fields, next) := ResumeStep(s.fields, m, payloadType, started, send);
      s.(fields := fields, tasks := s.tasks - {t}, clients := Delivered(clients, fields.client, next))
  }

  function CloseStep(s: State): State {
    if s.fields.closed then s
    else s.(fields := s.fields.(closed := true),
            clients := if s.fields.client.Some? then Closing(s.clients, s.fields.client.value) else s.clients)
  }

  function WriteCall(s: State, t: Task, pkt: Packet, send: Answer, c: ClientId): State {
    var (fields, next) := WriteStep(s.fields, pkt, send);
    var s' := s.(calls := s.calls + 1);
    match next
    case MustAnnounce(m) => Begin(s', fields, t, ForPacket(m, pkt.payloadType), c)
    case Finished(_) => s'.(fields := fields, clients := Delivered(s.clients, fields.client, next))
  }

  function GraceCall(s: State, t: Task, c: ClientId): State {
    var (fields, announce) := GraceStep(s.fields);
    if announce then Begin(s, fields, t, ForGrace, c) else s.(fields := fields)
  }

  function Apply(s: State, a: Step): State
    requires Enabled(s, a)
  {
    match a
    case Write(t, pkt, send, c) => WriteCall(s, t, pkt, send, c)
    case GraceFires(t, c) => GraceCall(s, t, c)
    case AttemptFails(t) =>
      var p := s.tasks[t].phase;
      s.(clients := Closing(s.clients, p.client),
         tasks := Moved(s, t, if p.attempt + 1 < ANNOUNCE_ATTEMPTS then Pausing(p.attempt + 1) else GaveUp))
    case AttemptSucceeds(t) =>
      var c := s.tasks[t].phase.client;
      s.(clients := s.clients[c := s.clients[c].(started := true)], tasks := Moved(s, t, Started(c)))
    case Retry(t, c) =>
      s.(clients := s.clients[c := NEW_CLIENT], tasks := Moved(s, t, Starting(s.tasks[t].phase.attempt, c)))
    case AbandonOnClose(t) => s.(tasks := Moved(s, t, GaveUp))
    case Relock(t, send) => RelockStep(s, t, send)
    case Close => CloseStep(s)
  }

  // ---- The invariant ----

  /** The announce in flight is the only goroutine between locked sections, and announcing says there is one. */
  ghost predicate OneAnnounce(s: State) {
    && (forall a, b :: a in s.tasks && b in s.tasks ==> a == b)
    && s.fields.announcing == (s.tasks != map[])
    && (s.fields.announcing ==> !s.fields.announced)
  }

  ghost predicate TasksDescribed(s: State) {
    forall t :: t in s.tasks && s.tasks[t].origin.ForPacket? ==> s.tasks[t].origin.medium in s.fields.medias
  }

  /** A client some announcer still holds. */
  ghost predicate InHand(s: State, c: ClientId) {
    exists t :: t in s.tasks && HeldBy(s.tasks[t].phase, c)
  }

  predicate HeldBy(p: Phase, c: ClientId) {
    (p.Starting? && p.client == c) || (p.Started? && p.client == c)
  }

  /** Every client is the installed one, in hand, or closed exactly once. */
  ghost predicate ClientOk(s: State, c: ClientId)
    requires c in s.clients
  {
    if s.fields.client == Some(c) then
      s.clients[c].started && !InHand(s, c) && s.clients[c].closes == if s.fields.closed then 1 else 0
    else if InHand(s, c) then s.clients[c].closes == 0 && s.clients[c].packets == 0
    else s.clients[c].closes == 1 && s.clients[c].packets == 0
  }

  ghost predicate ClientsOk(s: State) {
    && (forall c :: c in s.clients ==> ClientOk(s, c))
    && s.fields.announced == s.fields.client.Some?
    && (s.fields.client.Some? ==> s.fields.client.value in s.clients)
    && (forall t, c :: t in s.tasks && HeldBy(s.tasks[t].phase, c) ==> c in s.clients)
    && (forall t :: t in s.tasks && s.tasks[t].phase.Started? ==> s.clients[s.tasks[t].phase.client].started)
    && (forall t :: t in s.tasks && s.tasks[t].phase.Starting? ==> !s.clients[s.tasks[t].phase.client].started)
  }

  /** At most one client is ever started; while an announce can still start one, none has been. */
  ghost predicate OneStart(s: State) {
    && (forall c, d :: c in s.clients && d in s.clients && s.clients[c].started && s.clients[d].started ==> c == d)
    && (forall t, c :: t in s.tasks && !s.tasks[t].phase.Started? && c in s.clients ==> !s.clients[c].started)
    && (forall c :: c in s.clients && s.clients[c].started ==>
          s.fields.announced || s.fields.closed || exists t :: t in s.tasks && s.tasks[t].phase.Started?)
  }

  /** Calls are counted once each, when they end. */
  ghost predicate Counted(s: State) {
    s.calls == s.fields.counts.Total() + |Pending(s)|
  }

  ghost function Pending(s: State): set<Task> {
    set t | t in s.tasks && s.tasks[t].origin.ForPacket?
  }

  ghost predicate Inv(s: State) {
    OneAnnounce(s) && Described(s.fields) && TasksDescribed(s) && ClientsOk(s) && OneStart(s) && Counted(s)
  }

  // ---- Preservation ----

  /** With an announce in flight, its task is the only one. */
  lemma OnlyTask(s: State, t: Task)
    requires OneAnnounce(s) && t in s.tasks
    ensures s.tasks == map[t := s.tasks[t]] && s.tasks - {t} == map[]
    ensures Pending(s) == if s.tasks[t].origin.ForPacket? then {t} else {}
  {
  }

  /** An announce begins: only when none is in flight and nothing has been announced or closed. */
  lemma BeginKeeps(s: State, fields: Fields, t: Task, origin: Origin, c: ClientId)
    requires Inv(s) && t !in s.tasks && c !in s.clients
    requires !s.fields.announcing && !s.fields.announced && !s.fields.closed
    requires Described(fields) && fields.announcing && !fields.announced && !fields.closed && fields.client == s.fields.client
    requires forall m :: m in s.fields.medias ==> m in fields.medias
    requires origin.ForPacket? ==> origin.medium in fields.medias
    requires fields.counts.Total() == s.fields.counts.Total()
    ensures Inv(Begin(s, fields, t, origin, c).(calls := s.calls + if origin.ForPacket? then 1 else 0))
  {
    hide Described, Known;
    var s' := Begin(s, fields, t, origin, c).(calls := s.calls + if origin.ForPacket? then 1 else 0);
    assert s.tasks == map[];
    OnlyTask(s', t);
    assert forall d :: d in s.clients ==> !InHand(s, d);
    assert InHand(s', c);
    assert forall d :: d in s.clients ==> !InHand(s', d);
  }

  /** A locked section that starts no announce and touches no client but to send to the installed one. */
  lemma FieldsKeep(s: State, fields: Fields, next: Progress, calls: nat)
    requires Inv(s) && Described(fields) && fields.closed == s.fields.closed && fields.client == s.fields.client
    requires fields.announced == s.fields.announced && fields.announcing == s.fields.announcing
    requires forall m :: m in s.fields.medias ==> m in fields.medias
    requires calls - s.calls == fields.counts.Total() - s.fields.counts.Total()
    ensures Inv(s.(fields := fields, clients := Delivered(s.clients, fields.client, next), calls := calls))
  {
    hide Described, Known;
    var s' := s.(fields := fields, clients := Delivered(s.clients, fields.client, next), calls := calls);
    assert forall c :: InHand(s', c) == InHand(s, c);
    assert Pending(s') == Pending(s);
  }

  lemma WriteKeeps(s: State, t: Task, pkt: Packet, send: Answer, c: ClientId)
    requires Inv(s) && t !in s.tasks && c !in s.clients
    ensures Inv(WriteCall(s, t, pkt, send, c))
  {
    hide WriteStep, Described, Known, TasksDescribed, ClientsOk, OneStart, Counted, Pending;
    assert !(s.fields.announcing && s.fields.announced);
    WriteEffects(s.fields, pkt, send);
    var (fields, next) := WriteStep(s.fields, pkt, send);
    match next
    case MustAnnounce(m) =>
      BeginKeeps(s, fields, t, ForPacket(m, pkt.payloadType), c);
    case Finished(_) =>
      FieldsKeep(s, fields, next, s.calls + 1);
  }

  lemma GraceKeeps(s: State, t: Task, c: ClientId)
    requires Inv(s) && t !in s.tasks && c !in s.clients
    ensures Inv(GraceCall(s, t, c))
  {
    hide GraceStep, Described, Known, TasksDescribed, ClientsOk, OneStart, Counted, Pending;
    GraceEffects(s.fields);
    var (fields, announce) := GraceStep(s.fields);
    if announce {
      BeginKeeps(s, fields, t, ForGrace, c);
    } else {
      FieldsKeep(s, fields, Finished(Discarded), s.calls);
    }
  }

  ghost predicate Attempting(s: State, a: Step) {
    Inv(s) && Enabled(s, a) && (a.AttemptFails? || a.AttemptSucceeds? || a.Retry? || a.AbandonOnClose?)
  }

  lemma AttemptKeeps(s: State, a: Step)
    requires Attempting(s, a)
    ensures Inv(Apply(s, a))
  {
    AttemptMoves(s, a);
    AttemptClients(s, a);
    AttemptStarts(s, a);
    hide OneAnnounce, Described, TasksDescribed, ClientsOk, OneStart, Counted;
  }

  lemma AttemptMoves(s: State, a: Step)
    requires Attempting(s, a)
    ensures var s' := Apply(s, a);
            OneAnnounce(s') && Described(s'.fields) && TasksDescribed(s') && Counted(s')
  {
    hide Described, ClientsOk, OneStart;
    var s' := Apply(s, a);
    OnlyTask(s, a.task);
    OnlyTask(s', a.task);
  }

  lemma AttemptClients(s: State, a: Step)
    requires Attempting(s, a)
    ensures ClientsOk(Apply(s, a))
  {
    hide Described, OneStart, TasksDescribed, Counted;
    var s' := Apply(s, a);
    OnlyTask(s, a.task);
    OnlyTask(s', a.task);
    var was, now := s.tasks[a.task].phase, s'.tasks[a.task].phase;
    assert forall c :: InHand(s, c) <==> HeldBy(was, c);
    assert forall c :: InHand(s', c) <==> HeldBy(now, c);
  }

  lemma AttemptStarts(s: State, a: Step)
    requires Attempting(s, a)
    ensures OneStart(Apply(s, a))
  {
    hide Described, TasksDescribed, Counted;
    var s' := Apply(s, a);
    OnlyTask(s, a.task);
    OnlyTask(s', a.task);
    assert a.task in s'.tasks;
  }

  function StartedBy(p: Phase): Option<ClientId> {
    if p.Started? then Some(p.client) else None
  }

  lemma RelockFields(s: State, t: Task, send: Answer)
    requires Inv(s) && InPhase(s, t, false, false, true)
    ensures var s' := RelockStep(s, t, send);
            var started := StartedBy(s.tasks[t].phase);
            && Described(s'.fields) && s'.tasks == map[]
            && s'.fields.closed == s.fields.closed && !s'.fields.announcing
            && (if started.Some? && !s.fields.closed then s'.fields.client == started && s'.fields.announced
                else s'.fields.client == s.fields.client && s'.fields.announced == s.fields.announced)
            && Counted(s')
  {
    hide Described, AnnounceEnd, ResumeStep, Delivered, Closing, ClientsOk, OneStart;
    OnlyTask(s, t);
    var started := StartedBy(s.tasks[t].phase);
    AnnounceEndEffects(s.fields, started);
    if s.tasks[t].origin.ForPacket? {
      ResumeEffects(s.fields, s.tasks[t].origin.medium, s.tasks[t].origin.payloadType, started, send);
    }
    var s' := RelockStep(s, t, send);
    DescribedIgnoresCounts(AnnounceEnd(s.fields, started), s'.fields.counts);
    assert Pending(s') == {};
  }

  lemma RelockClients(s: State, t: Task, send: Answer)
    requires Inv(s) && InPhase(s, t, false, false, true)
    ensures var s' := RelockStep(s, t, send);
            var started := StartedBy(s.tasks[t].phase);
            && s'.clients.Keys == s.clients.Keys
            && (forall c :: c in s.clients && started != Some(c) ==> s'.clients[c] == s.clients[c])
            && (started.Some? ==>
                  (var c := s'.clients[started.value];
                   && c.started && c.closes == (if s.fields.closed then 1 else 0)
                   && (s.fields.closed ==> c.packets == 0)))
  {
    hide Described, AnnounceEnd, ResumeStep, OneStart, Counted;
    OnlyTask(s, t);
    var started := StartedBy(s.tasks[t].phase);
    AnnounceEndEffects(s.fields, started);
    if s.tasks[t].origin.ForPacket? {
      ResumeEffects(s.fields, s.tasks[t].origin.medium, s.tasks[t].origin.payloadType, started, send);
    }
    if started.Some? {
      assert HeldBy(s.tasks[t].phase, started.value) && InHand(s, started.value);
      assert ClientOk(s, started.value);
    }
  }

  lemma RelockKeeps(s: State, t: Task, send: Answer)
    requires Inv(s) && InPhase(s, t, false, false, true)
    ensures Inv(RelockStep(s, t, send))
  {
    hide Described, RelockStep, Counted, TasksDescribed;
    var s' := RelockStep(s, t, send);
    OnlyTask(s, t);
    RelockFields(s, t, send);
    RelockClients(s, t, send);
    NoTasksDescribed(s');
    assert forall c :: InHand(s, c) <==> HeldBy(s.tasks[t].phase, c);
    assert forall c :: !InHand(s', c);
  }

  lemma NoTasksDescribed(s: State)
    requires s.tasks == map[]
    ensures TasksDescribed(s)
  {
  }

  lemma DescribedIgnoresCounts(p: Fields, counts: Counters)
    requires Described(p)
    ensures Described(p.(counts := counts))
  {
  }

  lemma CloseKeeps(s: State)
    requires Inv(s)
    ensures Inv(CloseStep(s))
  {
    hide Known;
    var s' := CloseStep(s);
    assert forall c :: InHand(s', c) == InHand(s, c);
    assert Pending(s') == Pending(s);
  }

  lemma InvStep(s: State, a: Step)
    requires Inv(s) && Enabled(s, a)
    ensures Inv(Apply(s, a))
  {
    hide Inv;
    match a
    case Write(t, pkt, send, c) => WriteKeeps(s, t, pkt, send, c);
    case GraceFires(t, c) => GraceKeeps(s, t, c);
    case Relock(t, send) => RelockKeeps(s, t, send);
    case Close => CloseKeeps(s);
    case _ => AttemptKeeps(s, a);
  }
}
