/** Nobody is kept out: who may come in comes in, and only a full or vanished room turns it away. */
module SessionBeginnings {
  import opened Wrappers
  import opened RoomEvents
  import opened RoomLog
  import opened ServerModel
  import opened Sessions
  import opened Protocol
  import opened StepShapes
  import opened ProtocolInvariant
  import opened RoomSteps
  import opened ProtocolRuns
  import opened CreatorClaims
  import opened PendingPool
  import AdmissionModel

  // ---------- What a join comes to ----------

  // Sixteen may be in; the seventeenth is told that the room is full, a room that is gone
  // needs no telling, and everybody else subscribes and takes the lock.
  predicate JoinDecided(w: World, w': World, conn: ConnId, delivered: bool)
    requires conn in w.sessions
  {
    var s := w.sessions[conn];
    && conn in w'.sessions && w'.server == w.server
    && if s.room !in w.server.rooms then w'.sessions[conn] == s.(phase := Leaving) && w'.lock.None?
       else if |w.server.rooms[s.room].participants| >= 16 then
         && w'.sessions[conn].phase.Leaving? && w'.lock.None?
         && w'.sessions[conn].frames == if delivered then s.frames + [RoomFullFrame] else s.frames
       else w'.sessions[conn].phase.Joining? && w'.lock == Some(conn) && w'.sessions[conn].frames == s.frames
  }

  lemma {:induction false} JoinIsDecided(cfg: Config, ls: seq<Label>, conn: ConnId, peers: seq<(ConnId, Participant)>,
                                         delivered: bool)
    requires In(Run(cfg, ls), conn, Keyed) && Run(cfg, ls).lock.None?
    requires Lists(peers, Members(Run(cfg, ls), Run(cfg, ls).sessions[conn].room))
    ensures JoinDecided(Run(cfg, ls), Step(cfg, Run(cfg, ls), StartJoin(conn, peers, delivered)), conn, delivered)
  {
    RunKeeps(cfg, ls);
    StartDecides(cfg, Run(cfg, ls), conn, peers, delivered);
  }

  // Who is in; nobody, before the room is in the map.
  function Members(w: World, id: RoomId): Roster {
    if id in w.server.rooms then w.server.rooms[id].participants else map[]
  }

  lemma StartDecides(cfg: Config, w: World, conn: ConnId, peers: seq<(ConnId, Participant)>, delivered: bool)
    requires Inv(cfg, w) && In(w, conn, Keyed) && w.lock.None? && Lists(peers, Members(w, w.sessions[conn].room))
    ensures JoinDecided(w, Step(cfg, w, StartJoin(conn, peers, delivered)), conn, delivered)
  {
    ServerHolds(cfg, w);
    RoomsAreWired(w);
    JoinStepIs(cfg, w, StartJoin(conn, peers, delivered));
    DecidedIn(w, conn, peers, delivered);
  }

  lemma DecidedIn(w: World, conn: ConnId, peers: seq<(ConnId, Participant)>, delivered: bool)
    requires Wired(w.server) && In(w, conn, Keyed) && w.lock.None? && Lists(peers, Members(w, w.sessions[conn].room))
    ensures JoinDecided(w, DoStartJoin(w, conn, peers, delivered), conn, delivered)
  {
  }

  // ---------- What knocking comes to ----------

  // A socket the limiter lets through to a room with a row begins a session: at its challenge
  // if the room is protected, unless a hundred are waiting there or ten from its address; and
  // else with nothing to prove.
  ghost predicate OpeningDecided(w: World, w': World, conn: ConnId, id: RoomId, ip: Ip, at: real) {
    if Verdict(w, AdmissionModel.Connection(ip), at) != AdmissionModel.Ok || id !in w.server.rows
    then w'.sessions == w.sessions && w'.guards == w.guards
    else if w.server.rows[id].hash.None? then
      && In(w', conn, Admitted) && w'.sessions[conn].room == id && w'.sessions[conn].hash.None?
      && w'.guards == w.guards
    else if |w.guards| == 100 || w.guards[ip] == 10 then w'.sessions == w.sessions && w'.guards == w.guards
    else
      && In(w', conn, AuthStart) && w'.sessions[conn].room == id
      && w'.sessions[conn].hash == w.server.rows[id].hash && w'.guards == w.guards + multiset{ip}
  }

  lemma {:induction false} OpeningIsDecided(cfg: Config, ls: seq<Label>, conn: ConnId, id: RoomId, ip: Ip, at: real)
    requires conn !in Run(cfg, ls).sessions
    ensures OpeningDecided(Run(cfg, ls), Step(cfg, Run(cfg, ls), Open(conn, id, ip, at)), conn, id, ip, at)
  {
    RunKeeps(cfg, ls);
    OpenDecides(cfg, Run(cfg, ls), conn, id, ip, at);
  }

  lemma OpenDecides(cfg: Config, w: World, conn: ConnId, id: RoomId, ip: Ip, at: real)
    requires Inv(cfg, w) && conn !in w.sessions
    ensures OpeningDecided(w, Step(cfg, w, Open(conn, id, ip, at)), conn, id, ip, at)
  {
    InvMeans(cfg, w);
    AcquireAccounts(w.pool, w.guards, ip);
    EntryStepIs(cfg, w, Open(conn, id, ip, at));
    OpenedIn(w, conn, id, ip, at);
  }

  lemma OpenedIn(w: World, conn: ConnId, id: RoomId, ip: Ip, at: real)
    requires conn !in w.sessions
    requires Acquire(w.pool, ip).None? <==> |w.guards| == 100 || w.guards[ip] == 10
    ensures OpeningDecided(w, DoOpen(w, conn, id, ip, at), conn, id, ip, at)
  {
  }

  // ---------- What waiting comes to ----------

  // Whoever is still to prove something, however far it is, can be turned away: that is the end
  // of its session, and gives its guard and no other back.
  lemma {:induction false} WaitingCanEnd(cfg: Config, ls: seq<Label>, conn: ConnId, busy: bool)
    requires conn in Run(cfg, ls).sessions && Run(cfg, ls).sessions[conn].phase.IsAuthenticating()
    ensures var w := Run(cfg, ls);
            var w' := Step(cfg, w, Refuse(conn, busy, false));
            && w'.sessions == w.sessions[conn := w.sessions[conn].(phase := Closed)]
            && w.sessions[conn].ip in w.guards && w'.guards == w.guards - multiset{w.sessions[conn].ip}
  {
    RunKeeps(cfg, ls);
    RefusedIn(cfg, Run(cfg, ls), conn, busy);
  }

  lemma RefusedIn(cfg: Config, w: World, conn: ConnId, busy: bool)
    requires Inv(cfg, w) && conn in w.sessions && w.sessions[conn].phase.IsAuthenticating()
    ensures var w' := Step(cfg, w, Refuse(conn, busy, false));
            && w'.sessions == w.sessions[conn := w.sessions[conn].(phase := Closed)]
            && w.sessions[conn].ip in w.guards && w'.guards == w.guards - multiset{w.sessions[conn].ip}
  {
    MayBeRefused(cfg, w, conn, busy);
    GuardIsOut(cfg, w, conn);
    AuthenticationStepIs(cfg, w, Refuse(conn, busy, false));
    RefusingEnds(w, conn, busy);
  }

  lemma MayBeRefused(cfg: Config, w: World, conn: ConnId, busy: bool)
    requires Inv(cfg, w) && conn in w.sessions && w.sessions[conn].phase.IsAuthenticating()
    ensures Refusal(w.sessions[conn].phase, busy).Some?
  {
    SessionHolds(cfg, w, conn);
  }

  lemma GuardIsOut(cfg: Config, w: World, conn: ConnId)
    requires Inv(cfg, w) && conn in w.sessions && w.sessions[conn].phase.IsAuthenticating()
    ensures w.sessions[conn].ip in w.guards && Release(w.pool, w.sessions[conn].ip).Some?
  {
    InvMeans(cfg, w);
    HolderIsCounted(w, conn);
    ReleaseAccounts(w.pool, w.guards, w.sessions[conn].ip);
  }

  lemma RefusingEnds(w: World, conn: ConnId, busy: bool)
    requires conn in w.sessions && Refusal(w.sessions[conn].phase, busy).Some?
    requires Release(w.pool, w.sessions[conn].ip).Some?
    ensures var w' := DoRefuse(w, conn, busy, false);
            && w'.sessions == w.sessions[conn := w.sessions[conn].(phase := Closed)]
            && w'.guards == w.guards - multiset{w.sessions[conn].ip}
  {
  }

  lemma HolderIsCounted(w: World, conn: ConnId)
    requires GuardsFit(w) && conn in w.sessions && w.sessions[conn].phase.IsAuthenticating()
    ensures w.sessions[conn].ip in w.guards
  {
    assert conn in Holders(w.sessions, w.sessions[conn].ip);
  }

  // ---------- What announcing comes to ----------

  // Keys of the right lengths are taken as they are; any other announcement ends the session.
  lemma AnnouncementIsDecided(cfg: Config, w: World, conn: ConnId, publicKey: Option<string>,
                              pqPublicKey: Option<string>, sig: Option<string>)
    requires In(w, conn, Welcomed)
    ensures var s, w' := w.sessions[conn], Step(cfg, w, Announce(conn, publicKey, pqPublicKey, sig));
            && conn in w'.sessions && w' == Put(w, conn, w'.sessions[conn])
            && if publicKey.Some? && cfg.decodedLength(publicKey.value) == Some(1952)
                  && pqPublicKey.Some? && cfg.decodedLength(pqPublicKey.value) == Some(1184)
               then
                 w'.sessions[conn] == s.(keys := Participant(publicKey.value, pqPublicKey.value, sig), phase := Keyed)
               else w'.sessions[conn] == s.(phase := Leaving)
  {
    HandshakeStepIs(cfg, w, Announce(conn, publicKey, pqPublicKey, sig));
  }

  // ---------- What attaching comes to ----------

  // With a row to be found the session is attached, and told that it is the creator exactly
  // if there is none on record; without one, or without a table to look in, it is told so and
  // is over.
  predicate AttachDecided(w: World, w': World, conn: ConnId, up: bool, delivered: bool)
    requires conn in w.sessions
  {
    var s := w.sessions[conn];
    && conn in w'.sessions
    && if up && s.room in w.server.rows then
         && In(w', conn, Attached) && w'.sessions[conn].frames == s.frames && w'.sessions[conn].attachment.Some?
         && s.room in w'.server.rooms && w'.server.rooms[s.room].participants == Members(w, s.room)
         && var a, first := w'.sessions[conn].attachment.value,
                            s.room !in w.server.rooms || w.server.rooms[s.room].creatorId.None?;
            && a.isCreator == first && w'.server.rooms[s.room].creatorId == a.creatorId
            && a.creatorId == if first then Some(conn) else w.server.rooms[s.room].creatorId
       else
         && In(w', conn, Closed) && w'.server == w.server
         && w'.sessions[conn].frames == if delivered then s.frames + [AuthUnavailableFrame] else s.frames
  }

  lemma AttachIsDecided(cfg: Config, w: World, conn: ConnId, up: bool, delivered: bool)
    requires In(w, conn, Admitted) && w.lock.None?
    ensures AttachDecided(w, Step(cfg, w, AttachRoom(conn, up, delivered)), conn, up, delivered)
  {
    AttachStepIs(cfg, w, conn, up, delivered);
    AttachedIn(w, conn, up, delivered);
  }

  lemma AttachedIn(w: World, conn: ConnId, up: bool, delivered: bool)
    requires In(w, conn, Admitted) && w.lock.None?
    ensures AttachDecided(w, DoAttach(w, conn, up, delivered), conn, up, delivered)
  {
  }

  // ---------- The way in ----------

  // In the relay loop, and among the participants with these keys beside those there before.
  predicate IsIn(w: World, conn: ConnId, id: RoomId, keys: Participant, others: Roster) {
    && In(w, conn, Relaying) && w.sessions[conn].room == id
    && id in w.server.rooms && w.server.rooms[id].participants == others[conn := keys]
  }

  predicate InBy(cfg: Config, w: World, more: seq<Label>, conn: ConnId, id: RoomId, keys: Participant, others: Roster) {
    IsIn(Play(cfg, w, more), conn, id, keys, others)
  }

  ghost predicate CanGetIn(cfg: Config, w: World, conn: ConnId, id: RoomId, keys: Participant, others: Roster) {
    exists more: seq<Label> :: InBy(cfg, w, more, conn, id, keys, others)
  }

  lemma InVia(cfg: Config, w: World, l: Label, conn: ConnId, id: RoomId, keys: Participant, others: Roster)
    requires CanGetIn(cfg, Step(cfg, w, l), conn, id, keys, others)
    ensures CanGetIn(cfg, w, conn, id, keys, others)
  {
    var rest: seq<Label> :| InBy(cfg, Step(cfg, w, l), rest, conn, id, keys, others);
    PlayNext(cfg, w, l, rest);
    assert InBy(cfg, w, [l] + rest, conn, id, keys, others);
  }

  // Enrolled, and writing what comes before the loop.
  predicate Enrolled(w: World, conn: ConnId, id: RoomId, keys: Participant, others: Roster) {
    && conn in w.sessions && w.sessions[conn].room == id
    && id in w.server.rooms && w.server.rooms[id].participants == others[conn := keys]
  }

  lemma BeginRelayIs(cfg: Config, w: World, conn: ConnId)
    requires In(w, conn, Seeding) && w.sessions[conn].seeded >= |w.sessions[conn].snapshot|
    ensures Step(cfg, w, BeginRelay(conn)) == Put(w, conn, w.sessions[conn].Enter(Relaying))
  {
    HandshakeStepIs(cfg, w, BeginRelay(conn));
  }

  lemma SeedKeyIs(cfg: Config, w: World, conn: ConnId)
    requires In(w, conn, Seeding) && w.sessions[conn].seeded < |w.sessions[conn].snapshot|
    ensures Step(cfg, w, SeedKey(conn)) == Put(w, conn, SeededOne(w.sessions[conn]))
  {
    HandshakeStepIs(cfg, w, SeedKey(conn));
  }

  lemma SeededGetsIn(cfg: Config, w: World, conn: ConnId, id: RoomId, keys: Participant, others: Roster)
    requires In(w, conn, Seeding) && Enrolled(w, conn, id, keys, others)
    requires w.sessions[conn].seeded >= |w.sessions[conn].snapshot|
    ensures CanGetIn(cfg, w, conn, id, keys, others)
  {
    BeginRelayIs(cfg, w, conn);
    assert InBy(cfg, Step(cfg, w, BeginRelay(conn)), [], conn, id, keys, others);
    InVia(cfg, w, BeginRelay(conn), conn, id, keys, others);
  }

  lemma {:induction false} FromSeeding(cfg: Config, w: World, conn: ConnId, id: RoomId, keys: Participant,
                                       others: Roster)
    requires In(w, conn, Seeding) && Enrolled(w, conn, id, keys, others)
    ensures CanGetIn(cfg, w, conn, id, keys, others)
    decreases |w.sessions[conn].snapshot| - w.sessions[conn].seeded
  {
    if w.sessions[conn].seeded < |w.sessions[conn].snapshot| {
      SeedKeyIs(cfg, w, conn);
      FromSeeding(cfg, Step(cfg, w, SeedKey(conn)), conn, id, keys, others);
      InVia(cfg, w, SeedKey(conn), conn, id, keys, others);
    } else {
      SeededGetsIn(cfg, w, conn, id, keys, others);
    }
  }

  lemma ConfirmIs(cfg: Config, w: World, conn: ConnId)
    requires In(w, conn, Confirming)
    ensures Step(cfg, w, Confirm(conn)) == Put(w, conn, Confirmed(w.sessions[conn]))
  {
    HandshakeStepIs(cfg, w, Confirm(conn));
  }

  lemma FromEnrolled(cfg: Config, w: World, conn: ConnId, id: RoomId, keys: Participant, others: Roster)
    requires In(w, conn, Seeding) || In(w, conn, Confirming)
    requires Enrolled(w, conn, id, keys, others)
    ensures CanGetIn(cfg, w, conn, id, keys, others)
  {
    if In(w, conn, Seeding) {
      FromSeeding(cfg, w, conn, id, keys, others);
    } else {
      ConfirmIs(cfg, w, conn);
      FromSeeding(cfg, Step(cfg, w, Confirm(conn)), conn, id, keys, others);
      InVia(cfg, w, Confirm(conn), conn, id, keys, others);
    }
  }

  // The join's second half puts the session among the participants.
  lemma JoinEnrols(cfg: Config, w: World, conn: ConnId)
    requires CanEnrol(w, conn)
    ensures var s, w' := w.sessions[conn], Step(cfg, w, EndJoin(conn));
            && Enrolled(w', conn, s.room, s.keys, w.server.rooms[s.room].participants)
            && (In(w', conn, Seeding) || In(w', conn, Confirming))
  {
    EndJoinStepIs(cfg, w, conn);
  }

  lemma JoiningGetsIn(cfg: Config, w: World, conn: ConnId)
    requires Inv(cfg, w) && In(w, conn, Joining)
    ensures var s := w.sessions[conn]; CanGetIn(cfg, w, conn, s.room, s.keys, Members(w, s.room))
  {
    JoinerIsNew(cfg, w, conn);
    JoinEnrols(cfg, w, conn);
    var s := w.sessions[conn];
    FromEnrolled(cfg, Step(cfg, w, EndJoin(conn)), conn, s.room, s.keys, Members(w, s.room));
    InVia(cfg, w, EndJoin(conn), conn, s.room, s.keys, Members(w, s.room));
  }

  lemma StartKeepsRoomAndKeys(w: World, conn: ConnId, peers: seq<(ConnId, Participant)>)
    requires In(w, conn, Keyed)
    ensures var w' := DoStartJoin(w, conn, peers, true);
            conn in w'.sessions && w'.sessions[conn].room == w.sessions[conn].room
                && w'.sessions[conn].keys == w.sessions[conn].keys
  {
  }

  ghost predicate HasPlace(w: World, id: RoomId) {
    id in w.server.rooms && |w.server.rooms[id].participants| < 16
  }

  lemma KeyedGetsIn(cfg: Config, w: World, conn: ConnId)
    requires Inv(cfg, w) && In(w, conn, Keyed) && w.lock.None? && HasPlace(w, w.sessions[conn].room)
    ensures var s := w.sessions[conn]; CanGetIn(cfg, w, conn, s.room, s.keys, Members(w, s.room))
  {
    ListingExists(Members(w, w.sessions[conn].room));
    var peers: seq<(ConnId, Participant)> :| Lists(peers, Members(w, w.sessions[conn].room));
    ListedGetsIn(cfg, w, conn, peers);
  }

  lemma ListedGetsIn(cfg: Config, w: World, conn: ConnId, peers: seq<(ConnId, Participant)>)
    requires Inv(cfg, w) && In(w, conn, Keyed) && w.lock.None? && HasPlace(w, w.sessions[conn].room)
    requires Lists(peers, Members(w, w.sessions[conn].room))
    ensures var s := w.sessions[conn]; CanGetIn(cfg, w, conn, s.room, s.keys, Members(w, s.room))
  {
    var s := w.sessions[conn];
    var l := StartJoin(conn, peers, true);
    StartDecides(cfg, w, conn, peers, true);
    JoinStepIs(cfg, w, l);
    StartKeepsRoomAndKeys(w, conn, peers);
    StepKeeps(cfg, w, l);
    JoiningGetsIn(cfg, Step(cfg, w, l), conn);
    InVia(cfg, w, l, conn, s.room, s.keys, Members(w, s.room));
  }

  // Keys of the right lengths are accepted, as they are.
  lemma FromWelcomed(cfg: Config, w: World, conn: ConnId, keys: Participant)
    requires Inv(cfg, w) && In(w, conn, Welcomed) && w.lock.None? && HasPlace(w, w.sessions[conn].room)
    requires ValidKeys(cfg, keys)
    ensures CanGetIn(cfg, w, conn, w.sessions[conn].room, keys, Members(w, w.sessions[conn].room))
  {
    var id := w.sessions[conn].room;
    var l := Announce(conn, Some(keys.publicKey), Some(keys.pqPublicKey), keys.sig);
    AnnounceStepIs(cfg, w, conn, keys);
    StepKeeps(cfg, w, l);
    KeyedGetsIn(cfg, Step(cfg, w, l), conn);
    InVia(cfg, w, l, conn, id, keys, Members(w, id));
  }

  lemma FromAttached(cfg: Config, w: World, conn: ConnId, keys: Participant)
    requires Inv(cfg, w) && In(w, conn, Attached) && w.lock.None? && HasPlace(w, w.sessions[conn].room)
    requires ValidKeys(cfg, keys)
    ensures CanGetIn(cfg, w, conn, w.sessions[conn].room, keys, Members(w, w.sessions[conn].room))
  {
    var id := w.sessions[conn].room;
    SessionHolds(cfg, w, conn);
    GreetStepIs(cfg, w, conn);
    StepKeeps(cfg, w, Greet(conn));
    FromWelcomed(cfg, Step(cfg, w, Greet(conn)), conn, keys);
    InVia(cfg, w, Greet(conn), conn, id, keys, Members(w, id));
  }

  lemma AttachingIs(w: World, conn: ConnId)
    requires In(w, conn, Admitted) && w.lock.None? && w.sessions[conn].room in w.server.rows
    ensures var id, w' := w.sessions[conn].room, DoAttach(w, conn, true, true);
            && In(w', conn, Attached) && w'.sessions[conn].room == id && w'.lock.None?
            && id in w'.server.rooms && w'.server.rooms[id].participants == Members(w, id)
  {
  }

  lemma FromAdmitted(cfg: Config, w: World, conn: ConnId, keys: Participant)
    requires Inv(cfg, w) && In(w, conn, Admitted) && w.lock.None? && w.sessions[conn].room in w.server.rows
    requires |Members(w, w.sessions[conn].room)| < 16 && ValidKeys(cfg, keys)
    ensures CanGetIn(cfg, w, conn, w.sessions[conn].room, keys, Members(w, w.sessions[conn].room))
  {
    var id, l := w.sessions[conn].room, AttachRoom(conn, true, true);
    AttachStepIs(cfg, w, conn, true, true);
    AttachingIs(w, conn);
    StepKeeps(cfg, w, l);
    FromAttached(cfg, Step(cfg, w, l), conn, keys);
    InVia(cfg, w, l, conn, id, keys, Members(w, id));
  }

  // From every reachable state with the lock free, a session that needs to prove nothing more
  // can go on into its room, if it has a row and fewer than sixteen are in, with whatever valid
  // keys it announces; they join those of the participants it finds, and nothing else of
  // them changes.
  lemma {:induction false} EverySessionCanJoin(cfg: Config, ls: seq<Label>, conn: ConnId, keys: Participant)
    requires In(Run(cfg, ls), conn, Admitted) && Run(cfg, ls).lock.None? && ValidKeys(cfg, keys)
    requires var w := Run(cfg, ls);
             w.sessions[conn].room in w.server.rows && |Members(w, w.sessions[conn].room)| < 16
    ensures var w := Run(cfg, ls);
            var id := w.sessions[conn].room;
            exists more: seq<Label> :: IsIn(Run(cfg, ls + more), conn, id, keys, Members(w, id))
  {
    RunKeeps(cfg, ls);
    var w := Run(cfg, ls);
    var id := w.sessions[conn].room;
    FromAdmitted(cfg, w, conn, keys);
    var more: seq<Label> :| InBy(cfg, w, more, conn, id, keys, Members(w, id));
    RunPlays(cfg, ls, more);
    assert IsIn(Run(cfg, ls + more), conn, id, keys, Members(w, id));
  }
}
