/**
 How a step changes the world, told once for all the properties that need it: which function
 it runs, that it changes one session at most, and how.
 */
module StepShapes {
  import opened Wrappers
  import opened RoomEvents
  import opened RoomTable
  import opened ServerModel
  import opened PendingPool
  import opened Sessions
  import opened Protocol

  // ---------- Which function a label runs ----------

  lemma AttachStepIs(cfg: Config, w: World, conn: ConnId, up: bool, delivered: bool)
    ensures Step(cfg, w, AttachRoom(conn, up, delivered)) == DoAttach(w, conn, up, delivered)
  {
  }

  lemma DetachStepIs(cfg: Config, w: World, conn: ConnId)
    ensures Step(cfg, w, DetachRoom(conn)) == DoDetach(w, conn)
  {
  }

  lemma EndJoinStepIs(cfg: Config, w: World, conn: ConnId)
    ensures Step(cfg, w, EndJoin(conn)) == DoEndJoin(w, conn)
  {
  }

  lemma LockedStepIs(cfg: Config, w: World, l: Label)
    requires l.AttachRoom? || l.DetachRoom? || l.ExpireRooms?
    ensures Step(cfg, w, l) == RoomStep(cfg, w, l)
  {
  }

  lemma EntryStepIs(cfg: Config, w: World, l: Label)
    requires IsEntry(l)
    ensures Step(cfg, w, l) == EntryStep(cfg, w, l)
  {
  }

  lemma AuthenticationStepIs(cfg: Config, w: World, l: Label)
    requires IsAuthentication(l)
    ensures Step(cfg, w, l) == AuthenticationStep(cfg, w, l)
  {
  }

  lemma HandshakeStepIs(cfg: Config, w: World, l: Label)
    requires IsHandshake(l)
    ensures Step(cfg, w, l) == HandshakeStep(cfg, w, l)
  {
  }

  lemma JoinStepIs(cfg: Config, w: World, l: Label)
    requires IsJoin(l)
    ensures Step(cfg, w, l) == JoinStep(cfg, w, l)
  {
  }

  lemma RelayStepIs(cfg: Config, w: World, l: Label)
    requires IsRelay(l)
    ensures Step(cfg, w, l) == RelayStep(cfg, w, l)
  {
  }

  // ---------- What it does to a session ----------

  // A session moves on: it keeps its room, hash, attachment and what it has composed, does
  // not come back to life, and writes one frame at most, a Welcome only if it is its own and a
  // failure only where it may be refused. Only a session waiting for a password is denied.
  predicate Moved(conn: ConnId, s: Session, s': Session) {
    && s'.room == s.room && s'.hash == s.hash && s'.attachment == s.attachment
    && (s.phase.Closed? ==> s'.phase.Closed?)
    && s'.outbox == s.outbox
    && (s'.phase.AuthDenied? ==> s'.phase == s.phase || s.phase.AuthWaiting?)
    && (s'.frames == s.frames || WritesOne(conn, s, s'))
  }

  predicate WritesOne(conn: ConnId, s: Session, s': Session) {
    && |s'.frames| == |s.frames| + 1 && s'.frames == s.frames + [s'.frames[|s.frames|]]
    && (s'.frames[|s.frames|].WelcomeFrame? ==> s.attachment.Some? && s'.frames[|s.frames|] == WelcomeOf(conn, s))
    && (s'.frames[|s.frames|].IsAuthFailure() ==> MayRefuse(s.phase, s'.frames[|s.frames|]))
  }

  lemma WritingMoves(conn: ConnId, s: Session, p: Phase, f: OutgoingMessage, delivered: bool)
    requires s.phase.Closed? ==> p.Closed?
    requires f.WelcomeFrame? ==> s.attachment.Some? && f == WelcomeOf(conn, s)
    requires (f.IsAuthFailure() ==> MayRefuse(s.phase, f)) && !p.AuthDenied?
    ensures Moved(conn, s, s.Enter(p)) && Moved(conn, s, s.Enter(p).Write(f))
            && Moved(conn, s, s.Enter(p).WriteIf(delivered, f))
  {
  }

  // At most that session changes; it moves on, or is new.
  predicate Changes(sessions: map<ConnId, Session>, sessions': map<ConnId, Session>, conn: ConnId) {
    || sessions' == sessions
    || (conn in sessions' && sessions' == sessions[conn := sessions'[conn]] &&
        if conn in sessions then Moved(conn, sessions[conn], sessions'[conn])
        else IsBlank(sessions'[conn]))
  }

  predicate IsBlank(s: Session) {
    s.attachment.None? && s.outbox.None? && s.frames == [] && !s.phase.AuthDenied?
  }

  predicate SameServer(w: World, w': World) {
    w'.server == w.server && w'.created == w.created
  }

  // A step that is nobody's business but the session's.
  predicate Private(w: World, w': World, conn: ConnId) {
    SameServer(w, w') && Changes(w.sessions, w'.sessions, conn)
  }

  lemma PutIsPrivate(w: World, conn: ConnId, s': Session)
    requires conn in w.sessions && Moved(conn, w.sessions[conn], s')
    ensures Private(w, Put(w, conn, s'), conn) && Private(w, DropGuard(Put(w, conn, s'), s'.ip), conn)
  {
  }

  lemma OpenIsPrivate(w: World, conn: ConnId, id: RoomId, ip: Ip, at: real)
    ensures Private(w, DoOpen(w, conn, id, ip, at), conn)
  {
  }

  lemma AbandonIsPrivate(w: World, conn: ConnId)
    ensures Private(w, DoAbandon(w, conn), conn)
  {
    if conn in w.sessions {
      WritingMoves(conn, w.sessions[conn], Closed, JoinedFrame, false);
      PutIsPrivate(w, conn, w.sessions[conn].Enter(Closed));
    }
  }

  lemma VerifyIsPrivate(cfg: Config, w: World, conn: ConnId)
    ensures Private(w, DoVerify(cfg, w, conn), conn)
  {
    if conn in w.sessions && w.sessions[conn].phase.AuthVerifying? {
      var s := w.sessions[conn];
      PutIsPrivate(w, conn, s.(verified := Some(s.phase.password), phase := Admitted));
    }
  }

  lemma RefuseIsPrivate(w: World, conn: ConnId, busy: bool, delivered: bool)
    ensures Private(w, DoRefuse(w, conn, busy, delivered), conn)
  {
    if conn in w.sessions && Refusal(w.sessions[conn].phase, busy).Some? {
      var failure := Refusal(w.sessions[conn].phase, busy).value;
      WritingMoves(conn, w.sessions[conn], Closed, failure, delivered);
      PutIsPrivate(w, conn, w.sessions[conn].Enter(Closed).WriteIf(delivered, failure));
    }
  }

  lemma ChallengeIsPrivate(w: World, conn: ConnId)
    ensures Private(w, DoChallenge(w, conn), conn)
  {
    if In(w, conn, AuthStart) {
      WritingMoves(conn, w.sessions[conn], AuthWaiting, AuthRequiredFrame(PROTECTED_PROTOCOL_VERSION), true);
      PutIsPrivate(w, conn, w.sessions[conn].Enter(AuthWaiting).Write(AuthRequiredFrame(PROTECTED_PROTOCOL_VERSION)));
    }
  }

  lemma PresentIsPrivate(w: World, conn: ConnId, password: string, at: real)
    ensures Private(w, DoPresent(w, conn, password, at), conn)
  {
  }

  lemma GreetIsPrivate(w: World, conn: ConnId)
    ensures Private(w, DoGreet(w, conn), conn)
  {
    if In(w, conn, Attached) && w.sessions[conn].attachment.Some? {
      WritingMoves(conn, w.sessions[conn], Welcomed, WelcomeOf(conn, w.sessions[conn]), true);
      PutIsPrivate(w, conn, w.sessions[conn].Enter(Welcomed).Write(WelcomeOf(conn, w.sessions[conn])));
    }
  }

  lemma AnnounceIsPrivate(cfg: Config, w: World, conn: ConnId, publicKey: Option<string>, pqPublicKey: Option<string>,
                          sig: Option<string>)
    ensures Private(w, DoAnnounce(cfg, w, conn, publicKey, pqPublicKey, sig), conn)
  {
  }

  lemma ConfirmIsPrivate(w: World, conn: ConnId)
    ensures Private(w, DoConfirm(w, conn), conn)
  {
    if In(w, conn, Confirming) {
      PutIsPrivate(w, conn, Confirmed(w.sessions[conn]));
    }
  }

  lemma SeedKeyIsPrivate(w: World, conn: ConnId)
    ensures Private(w, DoSeedKey(w, conn), conn)
  {
    if In(w, conn, Seeding) && w.sessions[conn].seeded < |w.sessions[conn].snapshot| {
      PutIsPrivate(w, conn, SeededOne(w.sessions[conn]));
    }
  }

  lemma BeginRelayIsPrivate(w: World, conn: ConnId)
    ensures Private(w, DoBeginRelay(w, conn), conn)
  {
  }

  predicate IsPrivate(l: Label) {
    l.Open? || l.Abandon? || IsAuthentication(l) || IsHandshake(l)
  }

  lemma EntryIsPrivate(cfg: Config, w: World, l: Label)
    requires l.Open? || l.Abandon? || IsAuthentication(l)
    ensures Private(w, Step(cfg, w, l), l.conn)
  {
    if IsEntry(l) { EntryStepIs(cfg, w, l); } else { AuthenticationStepIs(cfg, w, l); }
    match l
    case Open(conn, id, ip, at) => OpenIsPrivate(w, conn, id, ip, at);
    case Abandon(conn) => AbandonIsPrivate(w, conn);
    case Verify(conn) => VerifyIsPrivate(cfg, w, conn);
    case Refuse(conn, busy, delivered) => RefuseIsPrivate(w, conn, busy, delivered);
  }

  lemma HandshakeIsPrivate(cfg: Config, w: World, l: Label)
    requires IsHandshake(l)
    ensures Private(w, Step(cfg, w, l), l.conn)
  {
    if l.Challenge? || l.Present? || l.Greet? || l.Announce? {
      ExchangeIsPrivate(cfg, w, l);
    } else {
      JoinedIsPrivate(cfg, w, l);
    }
  }

  lemma ExchangeIsPrivate(cfg: Config, w: World, l: Label)
    requires l.Challenge? || l.Present? || l.Greet? || l.Announce?
    ensures Private(w, Step(cfg, w, l), l.conn)
  {
    HandshakeStepIs(cfg, w, l);
    match l
    case Challenge(conn) => ChallengeIsPrivate(w, conn);
    case Present(conn, password, at) => PresentIsPrivate(w, conn, password, at);
    case Greet(conn) => GreetIsPrivate(w, conn);
    case Announce(conn, publicKey, pqPublicKey, sig) => AnnounceIsPrivate(cfg, w, conn, publicKey, pqPublicKey, sig);
  }

  lemma JoinedIsPrivate(cfg: Config, w: World, l: Label)
    requires l.Confirm? || l.SeedKey? || l.BeginRelay?
    ensures Private(w, Step(cfg, w, l), l.conn)
  {
    HandshakeStepIs(cfg, w, l);
    match l
    case Confirm(conn) => ConfirmIsPrivate(w, conn);
    case SeedKey(conn) => SeedKeyIsPrivate(w, conn);
    case BeginRelay(conn) => BeginRelayIsPrivate(w, conn);
  }

  lemma PrivateStep(cfg: Config, w: World, l: Label)
    requires IsPrivate(l)
    ensures Private(w, Step(cfg, w, l), l.conn)
  {
    if IsHandshake(l) {
      HandshakeIsPrivate(cfg, w, l);
    } else {
      EntryIsPrivate(cfg, w, l);
    }
  }

  lemma StartJoinChanges(w: World, conn: ConnId, peers: seq<(ConnId, Participant)>, delivered: bool)
    ensures Changes(w.sessions, DoStartJoin(w, conn, peers, delivered).sessions, conn)
  {
  }

  lemma EndJoinChanges(w: World, conn: ConnId)
    ensures Changes(w.sessions, DoEndJoin(w, conn).sessions, conn)
  {
  }

  lemma TakeChanges(cfg: Config, w: World, conn: ConnId, delivered: bool)
    ensures Changes(w.sessions, DoTake(cfg, w, conn, delivered).sessions, conn)
  {
  }

  lemma BreakChanges(w: World, conn: ConnId)
    ensures Changes(w.sessions, DoBreak(w, conn).sessions, conn)
  {
  }

  lemma DetachChanges(w: World, conn: ConnId)
    ensures Changes(w.sessions, DoDetach(w, conn).sessions, conn)
  {
  }

  // Steps of the table and of the limiter change no session.
  predicate HasSession(l: Label) {
    !l.CreateRoom? && !l.Maintain? && !l.ExpireRooms?
  }

  lemma SessionlessStep(cfg: Config, w: World, l: Label)
    requires !HasSession(l)
    ensures Step(cfg, w, l).sessions == w.sessions
  {
  }

  lemma JoinOrRelayChanges(cfg: Config, w: World, l: Label)
    requires IsJoin(l) || (IsRelay(l) && !l.Activity? && !l.SendChat?)
    ensures Changes(w.sessions, Step(cfg, w, l).sessions, l.conn)
  {
    if IsJoin(l) { JoinStepIs(cfg, w, l); } else { RelayStepIs(cfg, w, l); }
    match l
    case StartJoin(conn, peers, delivered) => StartJoinChanges(w, conn, peers, delivered);
    case EndJoin(conn) => EndJoinChanges(w, conn);
    case Take(conn, delivered) => TakeChanges(cfg, w, conn, delivered);
    case Break(conn) => BreakChanges(w, conn);
    case Say(_, _) =>
  }

  // All that changes of a session is what it has composed.
  predicate Composes(sessions: map<ConnId, Session>, sessions': map<ConnId, Session>, conn: ConnId) {
    || sessions' == sessions
    || (conn in sessions && conn in sessions'
        && sessions' == sessions[conn := sessions[conn].(outbox := sessions'[conn].outbox)])
  }

  lemma ChatSteps(cfg: Config, w: World, l: Label)
    requires l.Activity? || l.SendChat?
    ensures Composes(w.sessions, Step(cfg, w, l).sessions, l.conn)
  {
    if l.Activity? { ActivityStepIs(cfg, w, l); } else { SendChatStepIs(cfg, w, l.conn); }
  }

  // A chat being composed, and a chat being sent, which with the answer to an attach is all
  // that is left.
  lemma ActivityStepIs(cfg: Config, w: World, l: Label)
    requires l.Activity?
    ensures var w' := Step(cfg, w, l);
            if AtSelect(w, l.conn) then
              var s := w.sessions[l.conn];
              && w'.sessions == w.sessions[l.conn := s.(outbox := Some(Chat(l.conn, l.payload, l.epoch, l.counter)))]
              && (l.up ==> w'.history == w.history + [Touched(s.room, l.now)])
            else w' == w
  {
    RelayStepIs(cfg, w, l);
  }

  predicate HasChat(w: World, conn: ConnId) {
    && In(w, conn, Relaying) && w.sessions[conn].outbox.Some? && w.sessions[conn].attachment.Some?
    && w.sessions[conn].attachment.value.tx < |w.server.channels|
  }

  lemma SendChatStepIs(cfg: Config, w: World, conn: ConnId)
    ensures var w' := Step(cfg, w, SendChat(conn));
            if HasChat(w, conn) then
              var s := w.sessions[conn];
              && w'.sessions == w.sessions[conn := s.(outbox := None)]
              && w'.server == Publish(w.server, s.attachment.value.tx, s.outbox.value)
            else w' == w
  {
    RelayStepIs(cfg, w, SendChat(conn));
  }

  // What a session says otherwise is sent at once.
  predicate MaySay(w: World, conn: ConnId, e: RoomEvent) {
    AtSelect(w, conn) && e.IsTraffic() && !e.Chat? && e.from == conn
  }

  lemma SayStepIs(cfg: Config, w: World, conn: ConnId, e: RoomEvent)
    ensures Step(cfg, w, Say(conn, e)) ==
            if MaySay(w, conn, e) then w.(server := Publish(w.server, w.sessions[conn].attachment.value.tx, e)) else w
  {
    RelayStepIs(cfg, w, Say(conn, e));
  }

  // How any other step changes its session.
  lemma StepChanges(cfg: Config, w: World, l: Label)
    requires HasSession(l) && !l.AttachRoom? && !l.Activity? && !l.SendChat?
    ensures Changes(w.sessions, Step(cfg, w, l).sessions, l.conn)
  {
    if IsPrivate(l) {
      PrivateStep(cfg, w, l);
    } else if l.DetachRoom? {
      DetachStepIs(cfg, w, l.conn);
      DetachChanges(w, l.conn);
    } else {
      JoinOrRelayChanges(cfg, w, l);
    }
  }
}
