/**
 The whole relay as a state machine: the shared state, every session there ever was, and
 one step for each stretch of code between two points where other code can run.

 `Step` is total: a label that the state does not allow leaves it as it is. Any schedule of
 any sessions is therefore a sequence of labels, and `Run` takes it from the empty state.
 Ids in labels stand for freshly drawn v4 UUIDs: a label that reuses one does nothing.
 */
module Protocol {
  import opened Wrappers
  import opened RoomEvents
  import opened RoomLog
  import opened RoomTable
  import opened ServerModel
  import opened PendingPool
  import opened Sessions
  import AdmissionModel
  import AdmissionRuns

  // What sessions were told about the creator of a room, and when that was reset.
  datatype CreatorNote = Reset | Told(conn: ConnId, isCreator: bool, creatorId: Option<ConnId>)

  datatype World = World(
    server: Server,
    sessions: map<ConnId, Session>,
    lock: Option<ConnId>,                        // the session inside `join`, if any
    pool: Pool,
    guards: multiset<Ip>,                        // guards handed out and not dropped
    created: set<RoomId>,                        // ids ever given to a room
    history: seq<TableOp>,
    notes: map<RoomId, seq<CreatorNote>>,
    checks: seq<AdmissionRuns.Op>)               // what was asked of the admission limiter

  const EMPTY := World(Server(map[], map[], []), map[], None, EMPTY_POOL, multiset{}, {}, [], map[], [])

  datatype Label =
    | CreateRoom(id: RoomId, hash: Option<string>, now: int, up: bool, ip: Ip, at: real)
    | Maintain(at: real)
    | Open(conn: ConnId, id: RoomId, ip: Ip, at: real)
    | Abandon(conn: ConnId)
    | Challenge(conn: ConnId)
    | Present(conn: ConnId, password: string, at: real)
    | Verify(conn: ConnId)
    | Refuse(conn: ConnId, busy: bool, delivered: bool)
    | AttachRoom(conn: ConnId, up: bool, delivered: bool)
    | Greet(conn: ConnId)
    | Announce(conn: ConnId, publicKey: Option<string>, pqPublicKey: Option<string>, sig: Option<string>)
    | StartJoin(conn: ConnId, peers: seq<(ConnId, Participant)>, delivered: bool)
    | EndJoin(conn: ConnId)
    | Confirm(conn: ConnId)
    | SeedKey(conn: ConnId)
    | BeginRelay(conn: ConnId)
    | Take(conn: ConnId, delivered: bool)
    | Activity(conn: ConnId, payload: string, epoch: Option<nat>, counter: Option<nat>, now: int, up: bool)
    | SendChat(conn: ConnId)
    | Say(conn: ConnId, event: RoomEvent)
    | Break(conn: ConnId)
    | DetachRoom(conn: ConnId)
    | ExpireRooms(now: int, threshold: int, up: bool)

  predicate In(w: World, conn: ConnId, p: Phase) {
    conn in w.sessions && w.sessions[conn].phase == p
  }

  function Put(w: World, conn: ConnId, s: Session): World {
    w.(sessions := w.sessions[conn := s])
  }

  function Notes(w: World, id: RoomId): seq<CreatorNote> {
    if id in w.notes then w.notes[id] else []
  }

  // ---------- The admission limiter ----------

  // A check, whatever comes of it; the limiter is where the checks so far have brought it.
  function Consult(w: World, key: AdmissionModel.Budget, at: real): World {
    w.(checks := w.checks + [AdmissionRuns.CheckOp(key, at)])
  }

  function Verdict(w: World, key: AdmissionModel.Budget, at: real): AdmissionModel.Answer {
    AdmissionRuns.Reply(w.checks, key, at)
  }

  function DoMaintain(w: World, at: real): World {
    w.(checks := w.checks + [AdmissionRuns.MaintainOp(at)])
  }

  // ---------- The table ----------

  // Creating a room costs its address a check.
  function DoCreate(w: World, id: RoomId, hash: Option<string>, now: int, up: bool, ip: Ip, at: real): World {
    var key := AdmissionModel.Creation(ip);
    if id in w.created then w
    else if Verdict(w, key, at).Ok? then DoInsert(Consult(w, key, at), id, hash, now, up)
    else Consult(w, key, at)
  }

  function DoInsert(w: World, id: RoomId, hash: Option<string>, now: int, up: bool): World {
    if !up || id in w.created then w
    else w.(server := w.server.(rows := Insert(w.server.rows, id, now, hash)),
            created := w.created + {id}, history := w.history + [Inserted(id, now, hash)])
  }

  // ---------- Up to the attach ----------

  // So does opening a socket.
  function DoOpen(w: World, conn: ConnId, id: RoomId, ip: Ip, at: real): World {
    var key := AdmissionModel.Connection(ip);
    if conn in w.sessions then w
    else if Verdict(w, key, at).Ok? then DoEnter(Consult(w, key, at), conn, id, ip)
    else Consult(w, key, at)
  }

  // The upgrade handler looks the room up and takes a guard if it is protected.
  function DoEnter(w: World, conn: ConnId, id: RoomId, ip: Ip): World {
    if conn in w.sessions || id !in w.server.rows then w
    else
      var hash := w.server.rows[id].hash;
      var w' := Put(w, conn, Fresh(id, ip, hash));
      if hash.None? then w'
      else
        match Acquire(w.pool, ip)
        case None => w
        case Some(pool) => w'.(pool := pool, guards := w.guards + multiset{ip})
  }

  // The guard is dropped where authentication ends, however it ends.
  function DropGuard(w: World, ip: Ip): World {
    match Release(w.pool, ip)
    case None => w
    case Some(pool) => w.(pool := pool, guards := w.guards - multiset{ip})
  }

  // The upgrade itself fails, and the handler is dropped without running.
  function DoAbandon(w: World, conn: ConnId): World {
    if In(w, conn, AuthStart) then DropGuard(Put(w, conn, w.sessions[conn].Enter(Closed)), w.sessions[conn].ip)
    else if In(w, conn, Admitted) && !w.sessions[conn].IsProtected() then Put(w, conn, w.sessions[conn].Enter(Closed))
    else w
  }

  function DoChallenge(w: World, conn: ConnId): World {
    if !In(w, conn, AuthStart) then w
    else Put(w, conn, w.sessions[conn].Enter(AuthWaiting).Write(AuthRequiredFrame(PROTECTED_PROTOCOL_VERSION)))
  }

  // A well-formed password frame costs its room a check; only then is it verified.
  function DoPresent(w: World, conn: ConnId, password: string, at: real): World {
    if !In(w, conn, AuthWaiting) then w
    else
      var key := AdmissionModel.Budget.Room(w.sessions[conn].room);
      Put(Consult(w, key, at), conn, w.sessions[conn].Enter(PresentedPhase(password, Verdict(w, key, at))))
  }

  function PresentedPhase(password: string, verdict: AdmissionModel.Answer): Phase {
    match verdict
    case Ok => AuthVerifying(password)
    case Limited(n) => AuthDenied(AuthRateLimitedFrame(n))
    case Unavailable => AuthDenied(AuthUnavailableFrame)
  }

  function DoVerify(cfg: Config, w: World, conn: ConnId): World {
    if conn !in w.sessions || !w.sessions[conn].phase.AuthVerifying? || w.sessions[conn].hash.None? then w
    else
      var s := w.sessions[conn];
      if !cfg.matches(s.phase.password, s.hash.value) then w
      else DropGuard(Put(w, conn, s.(verified := Some(s.phase.password), phase := Admitted)), s.ip)
  }

  // What a session is told that is turned away: what the limiter said if that is why; that
  // the verifier was unavailable if it was; and otherwise that authentication failed.
  function Refusal(p: Phase, busy: bool): Option<OutgoingMessage> {
    match p
    case AuthStart => Some(AuthFailedFrame)
    case AuthWaiting => Some(AuthFailedFrame)
    case AuthDenied(denial) => if denial.IsAuthFailure() then Some(denial) else None
    case AuthVerifying(_) => Some(if busy then AuthUnavailableFrame else AuthFailedFrame)
    case _ => None
  }

  predicate MayRefuse(p: Phase, failure: OutgoingMessage) {
    Refusal(p, true) == Some(failure) || Refusal(p, false) == Some(failure)
  }

  function DoRefuse(w: World, conn: ConnId, busy: bool, delivered: bool): World {
    if conn !in w.sessions || Refusal(w.sessions[conn].phase, busy).None? then w
    else
      var s := w.sessions[conn];
      DropGuard(Put(w, conn, s.Enter(Closed).WriteIf(delivered, Refusal(s.phase, busy).value)), s.ip)
  }

  // Building a room begins a new epoch.
  function Since(w: World, id: RoomId): seq<CreatorNote> {
    if id in w.server.rooms then Notes(w, id) else Notes(w, id) + [Reset]
  }

  function DoAttach(w: World, conn: ConnId, up: bool, delivered: bool): World {
    if !In(w, conn, Admitted) || w.lock.Some? then w
    else
      var s := w.sessions[conn];
      var (server, answer) := Attach(w.server, s.room, conn, up);
      match answer
      case None => Put(w, conn, s.Enter(Closed).WriteIf(delivered, AuthUnavailableFrame))
      case Some(a) =>
        var told := Told(conn, a.isCreator, a.creatorId);
        Put(w, conn, s.(attachment := answer, attaches := s.attaches + 1, phase := Attached))
          .(server := server,
            notes := w.notes[s.room := Since(w, s.room) + [told]])
  }

  // ---------- From the welcome to the relay loop ----------

  function DoGreet(w: World, conn: ConnId): World {
    if !In(w, conn, Attached) || w.sessions[conn].attachment.None? then w
    else Put(w, conn, w.sessions[conn].Enter(Welcomed).Write(WelcomeOf(conn, w.sessions[conn])))
  }

  function DoAnnounce(cfg: Config, w: World, conn: ConnId, publicKey: Option<string>, pqPublicKey: Option<string>,
                      sig: Option<string>): World {
    if !In(w, conn, Welcomed) then w
    else
      match AcceptKeys(cfg, publicKey, pqPublicKey, sig)
      case None => Put(w, conn, w.sessions[conn].Enter(Leaving))
      case Some(keys) => Put(w, conn, w.sessions[conn].(keys := keys, phase := Keyed))
  }

  // Checks, snapshot and subscription; an admitted join keeps the lock.
  function DoStartJoin(w: World, conn: ConnId, peers: seq<(ConnId, Participant)>, delivered: bool): World {
    if !In(w, conn, Keyed) || w.lock.Some? then w
    else
      var s := w.sessions[conn];
      match CheckJoin(w.server, s.room, MAX_PARTICIPANTS)
      case RoomGone => Put(w, conn, s.Enter(Leaving))
      case Full => Put(w, conn, s.Enter(Leaving).WriteIf(delivered, RoomFullFrame))
      case Admit =>
        var room := w.server.rooms[s.room];
        if !Lists(peers, room.participants) || |w.server.channels| <= room.tx then w
        else
          var at := |w.server.channels[room.tx].log|;
          Put(w, conn, s.(snapshot := peers, seeded := 0, start := at, cursor := at, phase := Joining))
            .(lock := Some(conn))
  }

  function DoEndJoin(w: World, conn: ConnId): World {
    if !In(w, conn, Joining) || w.lock != Some(conn) then w
    else
      var s := w.sessions[conn];
      if s.room !in w.server.rooms || |w.server.channels| <= w.server.rooms[s.room].tx then w
      else
        var next := if s.IsProtected() then Confirming else Seeding;
        Put(w, conn, s.(joined := true, opening := |s.frames|, phase := next))
             .(server := Enrol(w.server, s.room, conn, s.keys), lock := None)
  }

  function DoConfirm(w: World, conn: ConnId): World {
    if !In(w, conn, Confirming) then w
    else Put(w, conn, Confirmed(w.sessions[conn]))
  }

  function DoSeedKey(w: World, conn: ConnId): World {
    if !In(w, conn, Seeding) || |w.sessions[conn].snapshot| <= w.sessions[conn].seeded then w
    else Put(w, conn, SeededOne(w.sessions[conn]))
  }

  function DoBeginRelay(w: World, conn: ConnId): World {
    if !In(w, conn, Seeding) || w.sessions[conn].seeded < |w.sessions[conn].snapshot| then w
    else Put(w, conn, w.sessions[conn].Enter(Relaying))
  }

  // ---------- The relay loop ----------

  // Between two turns of the loop: relaying, with no chat half sent.
  predicate AtSelect(w: World, conn: ConnId) {
    && In(w, conn, Relaying)
    && w.sessions[conn].outbox.None?
    && w.sessions[conn].attachment.Some?
    && w.sessions[conn].attachment.value.tx < |w.server.channels|
  }

  function LogOf(w: World, conn: ConnId): seq<RoomEvent>
    requires conn in w.sessions && w.sessions[conn].attachment.Some?
    requires w.sessions[conn].attachment.value.tx < |w.server.channels|
  {
    w.server.channels[w.sessions[conn].attachment.value.tx].log
  }

  function DoTake(cfg: Config, w: World, conn: ConnId, delivered: bool): World {
    if !AtSelect(w, conn) || |LogOf(w, conn)| <= w.sessions[conn].cursor then w
    else Put(w, conn, ReceiveOne(w.sessions[conn], conn, LogOf(w, conn), cfg.capacity, delivered))
  }

  // A chat first refreshes its room, and only then is sent: others may act in between.
  function DoActivity(w: World, conn: ConnId, payload: string, epoch: Option<nat>, counter: Option<nat>, now: int,
                      up: bool): World {
    if !AtSelect(w, conn) then w
    else
      var s := w.sessions[conn];
      var w' := Put(w, conn, s.(outbox := Some(Chat(conn, payload, epoch, counter))));
      if !up then w'
      else w'.(server := w.server.(rows := Touch(w.server.rows, s.room, now)),
               history := w.history + [Touched(s.room, now)])
  }

  function DoSendChat(w: World, conn: ConnId): World {
    if !In(w, conn, Relaying) || w.sessions[conn].outbox.None? || w.sessions[conn].attachment.None? then w
    else
      var s := w.sessions[conn];
      if |w.server.channels| <= s.attachment.value.tx then w
      else Put(w, conn, s.(outbox := None)).(server := Publish(w.server, s.attachment.value.tx, s.outbox.value))
  }

  function DoSay(w: World, conn: ConnId, e: RoomEvent): World {
    if !AtSelect(w, conn) || !e.IsTraffic() || e.Chat? || e.from != conn then w
    else w.(server := Publish(w.server, w.sessions[conn].attachment.value.tx, e))
  }

  function DoBreak(w: World, conn: ConnId): World {
    if conn !in w.sessions || !w.sessions[conn].phase.CanBreak() || w.sessions[conn].outbox.Some? then w
    else Put(w, conn, w.sessions[conn].Enter(Leaving))
  }

  // ---------- The end ----------

  function DoDetach(w: World, conn: ConnId): World {
    if !In(w, conn, Leaving) || w.lock.Some? || !Wired(w.server) then w
    else
      var s := w.sessions[conn];
      var server := Detach(w.server, s.room, conn);
      Put(w, conn, s.(detaches := s.detaches + 1, phase := Closed))
        .(server := server,
          notes := if s.room in server.rooms && server.rooms[s.room].participants == map[]
                   then w.notes[s.room := Notes(w, s.room) + [Reset]] else w.notes)
  }

  function DoExpire(w: World, now: int, threshold: int, up: bool): World {
    if w.lock.Some? || !up then w
    else w.(server := Expire(w.server, now, threshold), history := w.history + [Swept(now, threshold)])
  }

  // Rooms and sockets coming into being.
  function EntryStep(cfg: Config, w: World, l: Label): World {
    match l
    case CreateRoom(id, hash, now, up, ip, at) => DoCreate(w, id, hash, now, up, ip, at)
    case Maintain(at) => DoMaintain(w, at)
    case Open(conn, id, ip, at) => DoOpen(w, conn, id, ip, at)
    case Abandon(conn) => DoAbandon(w, conn)
    case _ => w
  }

  // Authentication ending.
  function AuthenticationStep(cfg: Config, w: World, l: Label): World {
    match l
    case Verify(conn) => DoVerify(cfg, w, conn)
    case Refuse(conn, busy, delivered) => DoRefuse(w, conn, busy, delivered)
    case _ => w
  }

  // A session advancing on its own.
  function HandshakeStep(cfg: Config, w: World, l: Label): World {
    match l
    case Challenge(conn) => DoChallenge(w, conn)
    case Present(conn, password, at) => DoPresent(w, conn, password, at)
    case Greet(conn) => DoGreet(w, conn)
    case Announce(conn, publicKey, pqPublicKey, sig) => DoAnnounce(cfg, w, conn, publicKey, pqPublicKey, sig)
    case Confirm(conn) => DoConfirm(w, conn)
    case SeedKey(conn) => DoSeedKey(w, conn)
    case BeginRelay(conn) => DoBeginRelay(w, conn)
    case _ => w
  }

  // Inside the relay loop.
  function RelayStep(cfg: Config, w: World, l: Label): World {
    match l
    case Take(conn, delivered) => DoTake(cfg, w, conn, delivered)
    case Activity(conn, payload, epoch, counter, now, up) => DoActivity(w, conn, payload, epoch, counter, now, up)
    case SendChat(conn) => DoSendChat(w, conn)
    case Say(conn, e) => DoSay(w, conn, e)
    case Break(conn) => DoBreak(w, conn)
    case _ => w
  }

  // The two halves of a join.
  function JoinStep(cfg: Config, w: World, l: Label): World {
    match l
    case StartJoin(conn, peers, delivered) => DoStartJoin(w, conn, peers, delivered)
    case EndJoin(conn) => DoEndJoin(w, conn)
    case _ => w
  }

  // Under the room lock throughout.
  function RoomStep(cfg: Config, w: World, l: Label): World {
    match l
    case AttachRoom(conn, up, delivered) => DoAttach(w, conn, up, delivered)
    case DetachRoom(conn) => DoDetach(w, conn)
    case ExpireRooms(now, threshold, up) => DoExpire(w, now, threshold, up)
    case _ => w
  }

  predicate IsEntry(l: Label) {
    l.CreateRoom? || l.Maintain? || l.Open? || l.Abandon?
  }

  predicate IsAuthentication(l: Label) {
    l.Verify? || l.Refuse?
  }

  predicate IsHandshake(l: Label) {
    l.Challenge? || l.Present? || l.Greet? || l.Announce? || l.Confirm? || l.SeedKey? || l.BeginRelay?
  }

  predicate IsJoin(l: Label) {
    l.StartJoin? || l.EndJoin?
  }

  predicate IsRelay(l: Label) {
    l.Take? || l.Activity? || l.SendChat? || l.Say? || l.Break?
  }

  function Step(cfg: Config, w: World, l: Label): World {
    if IsEntry(l) then EntryStep(cfg, w, l)
    else if IsAuthentication(l) then AuthenticationStep(cfg, w, l)
    else if IsHandshake(l) then HandshakeStep(cfg, w, l)
    else if IsJoin(l) then JoinStep(cfg, w, l)
    else if IsRelay(l) then RelayStep(cfg, w, l)
    else RoomStep(cfg, w, l)
  }

  function Run(cfg: Config, ls: seq<Label>): World {
    if ls == [] then EMPTY else Step(cfg, Run(cfg, ls[..|ls| - 1]), ls[|ls| - 1])
  }

  // A schedule taken from a given state.
  function Play(cfg: Config, w: World, ls: seq<Label>): World
    decreases |ls|
  {
    if ls == [] then w else Play(cfg, Step(cfg, w, ls[0]), ls[1..])
  }
}
