/**
 Three things one might expect of creators that the relay does not promise: that at most one
 live session was told it is the creator, that such a session is also the one on record, and
 that a room with participants has a creator. Each is shown to fail, and each is shown to
 hold exactly in the runs that contain no step of one kind.
 */
module CreatorClaims {
  import opened Wrappers
  import opened Sequences
  import opened RoomEvents
  import opened RoomLog
  import opened RoomTable
  import opened ServerModel
  import opened Sessions
  import opened Protocol
  import opened StepShapes
  import opened ProtocolInvariant
  import opened RoomSteps
  import opened ProtocolRuns
  import opened RoomTheorems
  import AdmissionModel
  import AdmissionRuns
  import AdmissionTheorems

  // ---------- Who believes it is the creator ----------

  // A session not yet over that was told it created the room.
  predicate Believes(w: World, id: RoomId, x: ConnId) {
    && x in w.sessions && w.sessions[x].room == id && !w.sessions[x].phase.Closed?
    && w.sessions[x].attachment.Some? && w.sessions[x].attachment.value.isCreator
  }

  // At most one live session believes it, and it is the creator on record.
  ghost predicate Sole(w: World, id: RoomId) {
    && (forall x, y :: Believes(w, id, x) && Believes(w, id, y) ==> x == y)
    && (id in w.server.rooms ==> forall x :: Believes(w, id, x) ==> w.server.rooms[id].creatorId == Some(x))
  }

  // A detach that leaves the room with no participant while another session that was told
  // it is the creator is still there: its record is reset behind its back.
  ghost predicate Orphans(w: World, l: Label, id: RoomId) {
    && l.DetachRoom? && In(w, l.conn, Leaving) && w.lock.None? && w.sessions[l.conn].room == id
    && id in w.server.rooms && w.server.rooms[id].participants - {l.conn} == map[]
    && exists x :: x != l.conn && Believes(w, id, x)
  }

  // No session has been told anything new, and none has come back to life.
  ghost predicate NothingTold(sessions: map<ConnId, Session>, sessions': map<ConnId, Session>) {
    forall x :: x in sessions' && sessions'[x].attachment.Some? ==>
      && x in sessions && sessions'[x].attachment == sessions[x].attachment && sessions'[x].room == sessions[x].room
      && (sessions[x].phase.Closed? ==> sessions'[x].phase.Closed?)
  }

  lemma OnlyAttachTells(cfg: Config, w: World, l: Label)
    requires !l.AttachRoom?
    ensures NothingTold(w.sessions, Step(cfg, w, l).sessions)
  {
    if !HasSession(l) {
      SessionlessStep(cfg, w, l);
    } else if l.Activity? || l.SendChat? {
      ChatSteps(cfg, w, l);
      ComposingTellsNothing(w.sessions, Step(cfg, w, l).sessions, l.conn);
    } else {
      StepChanges(cfg, w, l);
      ChangesTellNothing(w.sessions, Step(cfg, w, l).sessions, l.conn);
    }
  }

  lemma ComposingTellsNothing(sessions: map<ConnId, Session>, sessions': map<ConnId, Session>, conn: ConnId)
    requires Composes(sessions, sessions', conn)
    ensures NothingTold(sessions, sessions')
  {
  }

  lemma ChangesTellNothing(sessions: map<ConnId, Session>, sessions': map<ConnId, Session>, conn: ConnId)
    requires Changes(sessions, sessions', conn)
    ensures NothingTold(sessions, sessions')
  {
  }

  // The creator on record is as it was, if the room still is.
  ghost predicate SameCreator(w: World, w': World, id: RoomId) {
    id in w'.server.rooms ==> id in w.server.rooms && w'.server.rooms[id].creatorId == w.server.rooms[id].creatorId
  }

  lemma SoleKept(w: World, w': World, id: RoomId)
    requires Sole(w, id) && NothingTold(w.sessions, w'.sessions) && SameCreator(w, w', id)
    ensures Sole(w', id)
  {
    assert forall x :: Believes(w', id, x) ==> Believes(w, id, x);
  }

  // A session once attached keeps its room in the map for as long as it has a row.
  lemma AttachedHasRoom(cfg: Config, w: World, x: ConnId)
    requires Inv(cfg, w) && x in w.sessions && w.sessions[x].attachment.Some?
    ensures w.sessions[x].room in w.server.rows ==> w.sessions[x].room in w.server.rooms
  {
    InvMeans(cfg, w);
    SessionHolds(cfg, w, x);
    assert ChannelFits(w.server, w.created, w.sessions[x].attachment.value.tx);
  }

  // What an attach does to who believes what.
  ghost predicate AttachAnswered(w: World, conn: ConnId, w': World) {
    && conn in w.sessions && w.sessions[conn].attachment.None? && conn in w'.sessions
    && w'.sessions == w.sessions[conn := w'.sessions[conn]]
    && w'.sessions[conn].room == w.sessions[conn].room && !w'.sessions[conn].phase.Closed?
    && var id := w.sessions[conn].room;
       && id in w'.server.rooms
       && var free := id !in w.server.rooms || w.server.rooms[id].creatorId.None?;
          && w'.sessions[conn].attachment.Some? && w'.sessions[conn].attachment.value.isCreator == free
          && w'.server.rooms[id].creatorId == if free then Some(conn) else w.server.rooms[id].creatorId
  }

  lemma AttachAnswers(cfg: Config, w: World, conn: ConnId, delivered: bool)
    requires SessionsFit(cfg, w) && In(w, conn, Admitted) && w.lock.None? && w.sessions[conn].room in w.server.rows
    ensures AttachAnswered(w, conn, DoAttach(w, conn, true, delivered))
  {
    SessionIsBare(cfg, w, conn);
  }

  lemma SessionIsBare(cfg: Config, w: World, conn: ConnId)
    requires SessionsFit(cfg, w) && In(w, conn, Admitted)
    ensures w.sessions[conn].attachment.None?
  {
    assert SessionFits(cfg, conn, w.sessions[conn], w.server.channels);
  }

  lemma AnsweredKeepsSole(w: World, conn: ConnId, w': World)
    requires AttachAnswered(w, conn, w') && Sole(w, w.sessions[conn].room)
    requires w.sessions[conn].room !in w.server.rooms ==> forall x :: !Believes(w, w.sessions[conn].room, x)
    ensures Sole(w', w.sessions[conn].room)
  {
    var id := w.sessions[conn].room;
    assert forall x :: x != conn ==> (Believes(w', id, x) <==> Believes(w, id, x));
    assert !Believes(w, id, conn);
  }

  lemma AttachElsewhere(w: World, conn: ConnId, up: bool, delivered: bool, id: RoomId)
    requires In(w, conn, Admitted) && w.sessions[conn].attachment.None?
    requires !up || w.sessions[conn].room !in w.server.rows || w.sessions[conn].room != id || w.lock.Some?
    ensures var w' := DoAttach(w, conn, up, delivered);
            && SameCreator(w, w', id)
            && forall x :: Believes(w', id, x) ==> Believes(w, id, x)
  {
  }

  lemma AttachKeepsSole(cfg: Config, w: World, conn: ConnId, up: bool, delivered: bool, id: RoomId)
    requires Inv(cfg, w) && Sole(w, id)
    ensures Sole(DoAttach(w, conn, up, delivered), id)
  {
    SessionsHold(cfg, w);
    if In(w, conn, Admitted) {
      SessionIsBare(cfg, w, conn);
      if !up || w.sessions[conn].room !in w.server.rows || w.sessions[conn].room != id || w.lock.Some? {
        AttachElsewhere(w, conn, up, delivered, id);
      } else {
        forall x | x in w.sessions && w.sessions[x].room == id && w.sessions[x].attachment.Some?
          ensures id in w.server.rooms
        {
          AttachedHasRoom(cfg, w, x);
        }
        AttachAnswers(cfg, w, conn, delivered);
        AnsweredKeepsSole(w, conn, DoAttach(w, conn, up, delivered));
      }
    }
  }

  lemma DetachAndSole(w: World, conn: ConnId, id: RoomId)
    requires ServerFits(w) && Sole(w, id)
    ensures Sole(DoDetach(w, conn), id) <==> !Orphans(w, DetachRoom(conn), id)
  {
    if In(w, conn, Leaving) && w.lock.None? && w.sessions[conn].room == id && id in w.server.rooms {
      RoomsAreWired(w);
      DetachRoomsAre(w.server, id, conn);
      OwnDetachAndSole(w, conn, id);
    } else {
      OtherDetachKeepsCreator(w, conn, id);
      DetachChanges(w, conn);
      ChangesTellNothing(w.sessions, DoDetach(w, conn).sessions, conn);
      SoleKept(w, DoDetach(w, conn), id);
    }
  }

  lemma OwnDetachAndSole(w: World, conn: ConnId, id: RoomId)
    requires Wired(w.server) && In(w, conn, Leaving) && w.lock.None? && w.sessions[conn].room == id
             && id in w.server.rooms
    requires id in DoDetach(w, conn).server.rooms
             && LeftBehind(w.server.rooms[id], DoDetach(w, conn).server.rooms[id], conn)
    requires Sole(w, id)
    ensures Sole(DoDetach(w, conn), id) <==> !Orphans(w, DetachRoom(conn), id)
  {
    assert forall x :: Believes(DoDetach(w, conn), id, x) <==> x != conn && Believes(w, id, x);
  }

  lemma OtherDetachKeepsCreator(w: World, conn: ConnId, id: RoomId)
    requires ServerFits(w)
    requires !(In(w, conn, Leaving) && w.lock.None? && w.sessions[conn].room == id && id in w.server.rooms)
    ensures SameCreator(w, DoDetach(w, conn), id)
  {
    RoomsAreWired(w);
    if In(w, conn, Leaving) && w.lock.None? && w.sessions[conn].room in w.server.rooms {
      DetachRoomsAre(w.server, w.sessions[conn].room, conn);
    }
  }

  lemma StepAndSole(cfg: Config, w: World, l: Label, id: RoomId)
    requires Inv(cfg, w) && Sole(w, id)
    ensures Sole(Step(cfg, w, l), id) <==> !Orphans(w, l, id)
  {
    if l.AttachRoom? {
      AttachKeepsSole(cfg, w, l.conn, l.up, l.delivered, id);
      AttachStepIs(cfg, w, l.conn, l.up, l.delivered);
    } else if l.DetachRoom? {
      ServerHolds(cfg, w);
      DetachAndSole(w, l.conn, id);
      DetachStepIs(cfg, w, l.conn);
    } else {
      OthersKeepSole(cfg, w, l, id);
    }
  }

  lemma OthersKeepSole(cfg: Config, w: World, l: Label, id: RoomId)
    requires Sole(w, id) && !l.AttachRoom? && !l.DetachRoom?
    ensures Sole(Step(cfg, w, l), id)
  {
    OnlyAttachTells(cfg, w, l);
    OthersKeepCreator(cfg, w, l, id);
    SoleKept(w, Step(cfg, w, l), id);
  }

  lemma OthersKeepCreator(cfg: Config, w: World, l: Label, id: RoomId)
    requires !l.AttachRoom? && !l.DetachRoom?
    ensures SameCreator(w, Step(cfg, w, l), id)
  {
    if IsJoin(l) {
      JoinRoomsAre(cfg, w, l, id);
    } else if l.ExpireRooms? {
      LockedStepIs(cfg, w, l);
    } else {
      OnlyLockedStepsTouchRooms(cfg, w, l);
    }
  }

  lemma JoinRoomsAre(cfg: Config, w: World, l: Label, id: RoomId)
    requires IsJoin(l)
    ensures SameCreator(w, Step(cfg, w, l), id)
  {
  }

  // In a whole run every live session told it is the creator is, at all times, the only one
  // and the one on record, exactly when no detach of the run left the room empty under one.
  lemma {:induction false} BeliefsHoldExactly(cfg: Config, ls: seq<Label>, id: RoomId)
    ensures (forall n: nat :: n <= |ls| ==> Sole(Run(cfg, ls[..n]), id)) <==>
            (forall n: nat :: n < |ls| ==> !Orphans(Run(cfg, ls[..n]), ls[n], id))
  {
    var holds: nat -> bool := (n: nat) => n <= |ls| && Sole(Run(cfg, ls[..n]), id);
    var bad: nat -> bool := (n: nat) => n < |ls| && Orphans(Run(cfg, ls[..n]), ls[n], id);
    forall n: nat | n < |ls| && holds(n) ensures holds(n + 1) <==> !bad(n) {
      SoleNext(cfg, ls, n, id);
    }
    AlwaysExactly(holds, bad, |ls|);
    assert forall n: nat :: n <= |ls| ==> (Sole(Run(cfg, ls[..n]), id) <==> holds(n));
    assert forall n: nat :: n < |ls| ==> (Orphans(Run(cfg, ls[..n]), ls[n], id) <==> bad(n));
  }

  lemma {:induction false} SoleNext(cfg: Config, ls: seq<Label>, n: nat, id: RoomId)
    requires n < |ls| && Sole(Run(cfg, ls[..n]), id)
    ensures Sole(Run(cfg, ls[..n + 1]), id) <==> !Orphans(Run(cfg, ls[..n]), ls[n], id)
  {
    RunKeeps(cfg, ls[..n]);
    StepAndSole(cfg, Run(cfg, ls[..n]), ls[n], id);
    RunNext(cfg, ls, n);
  }

  lemma {:induction false} RunNext(cfg: Config, ls: seq<Label>, n: nat)
    requires n < |ls|
    ensures Run(cfg, ls[..n + 1]) == Step(cfg, Run(cfg, ls[..n]), ls[n])
  {
    assert ls[..n + 1][..n] == ls[..n];
  }

  // ---------- Two believers ----------

  ghost predicate AtMostOne(w: World, id: RoomId) {
    forall x, y :: Believes(w, id, x) && Believes(w, id, y) ==> x == y
  }

  // An attach that is let through, to that room.
  predicate Attaches(w: World, l: Label, id: RoomId) {
    && l.AttachRoom? && l.up && In(w, l.conn, Admitted) && w.lock.None?
    && w.sessions[l.conn].room == id && id in w.server.rows
  }

  predicate Unclaimed(w: World, id: RoomId) {
    id !in w.server.rooms || w.server.rooms[id].creatorId.None?
  }

  // The attach finds no creator on record while a live session believes it is the one.
  ghost predicate Doubles(w: World, l: Label, id: RoomId) {
    Attaches(w, l, id) && Unclaimed(w, id) && exists x :: Believes(w, id, x)
  }

  lemma AnsweredAndOne(w: World, conn: ConnId, w': World)
    requires AttachAnswered(w, conn, w') && AtMostOne(w, w.sessions[conn].room)
    ensures var id := w.sessions[conn].room;
            AtMostOne(w', id) <==> !(Unclaimed(w, id) && exists x :: Believes(w, id, x))
  {
    var id := w.sessions[conn].room;
    assert forall x :: x != conn ==> (Believes(w', id, x) <==> Believes(w, id, x));
    assert !Believes(w, id, conn);
    assert Believes(w', id, conn) <==> Unclaimed(w, id);
  }

  lemma AttachAndOne(cfg: Config, w: World, l: Label, id: RoomId)
    requires SessionsFit(cfg, w) && AtMostOne(w, id) && l.AttachRoom?
    ensures AtMostOne(DoAttach(w, l.conn, l.up, l.delivered), id) <==> !Doubles(w, l, id)
  {
    if In(w, l.conn, Admitted) {
      SessionIsBare(cfg, w, l.conn);
      if Attaches(w, l, id) {
        AttachAnswers(cfg, w, l.conn, l.delivered);
        AnsweredAndOne(w, l.conn, DoAttach(w, l.conn, true, l.delivered));
      } else {
        AttachElsewhere(w, l.conn, l.up, l.delivered, id);
      }
    }
  }

  lemma OneKept(w: World, w': World, id: RoomId)
    requires AtMostOne(w, id) && NothingTold(w.sessions, w'.sessions)
    ensures AtMostOne(w', id)
  {
    assert forall x :: Believes(w', id, x) ==> Believes(w, id, x);
  }

  lemma StepAndOne(cfg: Config, w: World, l: Label, id: RoomId)
    requires Inv(cfg, w) && AtMostOne(w, id)
    ensures AtMostOne(Step(cfg, w, l), id) <==> !Doubles(w, l, id)
  {
    if l.AttachRoom? {
      SessionsHold(cfg, w);
      AttachAndOne(cfg, w, l, id);
      AttachStepIs(cfg, w, l.conn, l.up, l.delivered);
    } else {
      OthersKeepOne(cfg, w, l, id);
    }
  }

  lemma OthersKeepOne(cfg: Config, w: World, l: Label, id: RoomId)
    requires !l.AttachRoom? && AtMostOne(w, id)
    ensures AtMostOne(Step(cfg, w, l), id)
  {
    OnlyAttachTells(cfg, w, l);
    OneKept(w, Step(cfg, w, l), id);
  }

  // At no time of a run were two live sessions told they created the room, exactly when no
  // attach of the run found the record empty while a session believing so was still there.
  lemma {:induction false} OneBelieverExactly(cfg: Config, ls: seq<Label>, id: RoomId)
    ensures (forall n: nat :: n <= |ls| ==> AtMostOne(Run(cfg, ls[..n]), id)) <==>
            (forall n: nat :: n < |ls| ==> !Doubles(Run(cfg, ls[..n]), ls[n], id))
  {
    var holds: nat -> bool := (n: nat) => n <= |ls| && AtMostOne(Run(cfg, ls[..n]), id);
    var bad: nat -> bool := (n: nat) => n < |ls| && Doubles(Run(cfg, ls[..n]), ls[n], id);
    forall n: nat | n < |ls| && holds(n) ensures holds(n + 1) <==> !bad(n) {
      OneNext(cfg, ls, n, id);
    }
    AlwaysExactly(holds, bad, |ls|);
    assert forall n: nat :: n <= |ls| ==> (AtMostOne(Run(cfg, ls[..n]), id) <==> holds(n));
    assert forall n: nat :: n < |ls| ==> (Doubles(Run(cfg, ls[..n]), ls[n], id) <==> bad(n));
  }

  lemma OneNext(cfg: Config, ls: seq<Label>, n: nat, id: RoomId)
    requires n < |ls| && AtMostOne(Run(cfg, ls[..n]), id)
    ensures AtMostOne(Run(cfg, ls[..n + 1]), id) <==> !Doubles(Run(cfg, ls[..n]), ls[n], id)
  {
    RunKeeps(cfg, ls[..n]);
    StepAndOne(cfg, Run(cfg, ls[..n]), ls[n], id);
    RunNext(cfg, ls, n);
  }

  // ---------- Rooms with participants and no creator ----------

  predicate HasCreator(w: World, id: RoomId) {
    id in w.server.rooms && w.server.rooms[id].participants != map[] ==> w.server.rooms[id].creatorId.Some?
  }

  // A join into a room that has no creator on record.
  predicate JoinsUncreated(w: World, l: Label, id: RoomId) {
    && l.EndJoin? && In(w, l.conn, Joining) && w.lock == Some(l.conn) && w.sessions[l.conn].room == id
    && id in w.server.rooms && w.server.rooms[id].creatorId.None?
  }

  lemma JoinAndCreator(cfg: Config, w: World, l: Label, id: RoomId)
    requires Inv(cfg, w) && IsJoin(l) && HasCreator(w, id)
    ensures HasCreator(Step(cfg, w, l), id) <==> !JoinsUncreated(w, l, id)
  {
    if l.EndJoin? && In(w, l.conn, Joining) && w.lock == Some(l.conn) {
      JoinerIsNew(cfg, w, l.conn);
      EnrolAndCreator(w, l.conn, id);
      EndJoinStepIs(cfg, w, l.conn);
    } else {
      NoJoinNoChange(cfg, w, l);
    }
  }

  lemma EnrolAndCreator(w: World, conn: ConnId, id: RoomId)
    requires In(w, conn, Joining) && w.lock == Some(conn) && HasCreator(w, id)
    requires w.sessions[conn].room in w.server.rooms && w.server.rooms[w.sessions[conn].room].tx < |w.server.channels|
    ensures HasCreator(DoEndJoin(w, conn), id) <==> !JoinsUncreated(w, EndJoin(conn), id)
  {
    var room := w.server.rooms[w.sessions[conn].room];
    assert conn in room.participants[conn := w.sessions[conn].keys];
  }

  lemma NoJoinNoChange(cfg: Config, w: World, l: Label)
    requires IsJoin(l) && !(l.EndJoin? && In(w, l.conn, Joining) && w.lock == Some(l.conn))
    ensures Step(cfg, w, l).server == w.server
  {
  }

  lemma DetachKeepsHavingCreator(w: World, conn: ConnId, id: RoomId)
    requires ServerFits(w) && HasCreator(w, id)
    ensures HasCreator(DoDetach(w, conn), id)
  {
    RoomsAreWired(w);
    if In(w, conn, Leaving) && w.lock.None? && w.sessions[conn].room in w.server.rooms {
      DetachRoomsAre(w.server, w.sessions[conn].room, conn);
    }
  }

  lemma AttachKeepsHavingCreator(w: World, conn: ConnId, up: bool, delivered: bool, id: RoomId)
    requires HasCreator(w, id)
    ensures HasCreator(DoAttach(w, conn, up, delivered), id)
  {
  }

  lemma StepAndCreator(cfg: Config, w: World, l: Label, id: RoomId)
    requires Inv(cfg, w) && HasCreator(w, id)
    ensures HasCreator(Step(cfg, w, l), id) <==> !JoinsUncreated(w, l, id)
  {
    if IsJoin(l) {
      JoinAndCreator(cfg, w, l, id);
    } else if l.AttachRoom? {
      AttachKeepsHavingCreator(w, l.conn, l.up, l.delivered, id);
      LockedStepIs(cfg, w, l);
    } else if l.DetachRoom? {
      ServerHolds(cfg, w);
      DetachKeepsHavingCreator(w, l.conn, id);
      LockedStepIs(cfg, w, l);
    } else if l.ExpireRooms? {
      LockedStepIs(cfg, w, l);
    } else {
      OnlyLockedStepsTouchRooms(cfg, w, l);
    }
  }

  // A room with participants has a creator at all times of a run exactly when everybody who
  // joined it joined while there was one.
  lemma {:induction false} CreatorsThereExactly(cfg: Config, ls: seq<Label>, id: RoomId)
    ensures (forall n: nat :: n <= |ls| ==> HasCreator(Run(cfg, ls[..n]), id)) <==>
            (forall n: nat :: n < |ls| ==> !JoinsUncreated(Run(cfg, ls[..n]), ls[n], id))
  {
    var holds: nat -> bool := (n: nat) => n <= |ls| && HasCreator(Run(cfg, ls[..n]), id);
    var bad: nat -> bool := (n: nat) => n < |ls| && JoinsUncreated(Run(cfg, ls[..n]), ls[n], id);
    forall n: nat | n < |ls| && holds(n) ensures holds(n + 1) <==> !bad(n) {
      CreatorNext(cfg, ls, n, id);
    }
    AlwaysExactly(holds, bad, |ls|);
    assert forall n: nat :: n <= |ls| ==> (HasCreator(Run(cfg, ls[..n]), id) <==> holds(n));
    assert forall n: nat :: n < |ls| ==> (JoinsUncreated(Run(cfg, ls[..n]), ls[n], id) <==> bad(n));
  }

  lemma {:induction false} CreatorNext(cfg: Config, ls: seq<Label>, n: nat, id: RoomId)
    requires n < |ls| && HasCreator(Run(cfg, ls[..n]), id)
    ensures HasCreator(Run(cfg, ls[..n + 1]), id) <==> !JoinsUncreated(Run(cfg, ls[..n]), ls[n], id)
  {
    RunKeeps(cfg, ls[..n]);
    StepAndCreator(cfg, Run(cfg, ls[..n]), ls[n], id);
    RunNext(cfg, ls, n);
  }

  // ---------- Runs in which they fail ----------

  // Three sessions on their way into the open room "r".
  function Arrivals(): seq<Label> {
    [CreateRoom("r", None, 0, true, "", 0.0)] + [Open("a", "r", "a", 0.0)] + [Open("b", "r", "b", 0.0)]
        + [Open("c", "r", "c", 0.0)]
  }

  predicate IsGuest(s: Session) {
    s.room == "r" && s.hash.None? && s.outbox.None?
  }

  // What the counterexamples follow: phases and answers of the three, the creator on
  // record and whether anybody is in.
  predicate Scene(w: World, a: Phase, b: Phase, c: Phase, creator: Option<Option<ConnId>>) {
    && In(w, "a", a) && In(w, "b", b) && In(w, "c", c) && w.lock.None?
    && IsGuest(w.sessions["a"]) && IsGuest(w.sessions["b"]) && IsGuest(w.sessions["c"])
    && "r" in w.server.rows
    && (creator.None? ==> w.server.rooms == map[] && w.server.channels == [])
    && (creator.Some? ==>
          && "r" in w.server.rooms && w.server.rooms["r"] == RoomState(0, creator.value, map[])
          && |w.server.channels| == 1 && w.server.rooms.Keys == {"r"})
  }

  // Each of them is the first its address is known for.
  predicate Asked(w: World, keys: set<AdmissionModel.Budget>) {
    AdmissionRuns.TableAfter(w.checks).Keys == keys && |keys| <= 4
  }

  lemma NewcomerIsAdmitted(w: World, keys: set<AdmissionModel.Budget>, key: AdmissionModel.Budget, at: real)
    requires Asked(w, keys) && key !in keys && |keys| <= 3
    ensures Verdict(w, key, at).Ok? && Asked(Consult(w, key, at), keys + {key})
  {
    AdmissionTheorems.NewcomerPasses(w.checks, key, at);
  }

  predicate Opened(w: World, w': World, conn: ConnId) {
    && conn !in w.sessions && w'.sessions == w.sessions[conn := Fresh("r", conn, None)]
    && w'.server == w.server && w'.lock == w.lock
  }

  lemma Opens(cfg: Config, w: World, conn: ConnId, keys: set<AdmissionModel.Budget>)
    requires Asked(w, keys) && AdmissionModel.Connection(conn) !in keys && |keys| <= 3
    requires conn !in w.sessions && "r" in w.server.rows && w.server.rows["r"].hash.None?
    ensures var w' := Step(cfg, w, Open(conn, "r", conn, 0.0));
            Opened(w, w', conn) && Asked(w', keys + {AdmissionModel.Connection(conn)})
  {
    EntryStepIs(cfg, w, Open(conn, "r", conn, 0.0));
    NewcomerIsAdmitted(w, keys, AdmissionModel.Connection(conn), 0.0);
  }

  predicate IsNew(w: World) {
    w.sessions == map[] && w.lock.None? && w.server == Server(map["r" := Row(0, 0, None)], map[], [])
  }

  lemma Creates(cfg: Config)
    ensures var w := Step(cfg, EMPTY, CreateRoom("r", None, 0, true, "", 0.0));
            IsNew(w) && Asked(w, {AdmissionModel.Creation("")})
  {
    EntryStepIs(cfg, EMPTY, CreateRoom("r", None, 0, true, "", 0.0));
    FirstIsAdmitted();
    CreatesIn(EMPTY);
  }

  lemma FirstIsAdmitted()
    ensures Verdict(EMPTY, AdmissionModel.Creation(""), 0.0).Ok?
    ensures Asked(Consult(EMPTY, AdmissionModel.Creation(""), 0.0), {AdmissionModel.Creation("")})
  {
    NewcomerIsAdmitted(EMPTY, {}, AdmissionModel.Creation(""), 0.0);
    assert {} + {AdmissionModel.Creation("")} == {AdmissionModel.Creation("")};
  }

  lemma CreatesIn(w: World)
    requires w.sessions == map[] && w.lock.None? && w.server == Server(map[], map[], []) && w.created == {}
    requires Verdict(w, AdmissionModel.Creation(""), 0.0).Ok?
    ensures var w' := DoCreate(w, "r", None, 0, true, "", 0.0);
            IsNew(w') && w'.checks == Consult(w, AdmissionModel.Creation(""), 0.0).checks
  {
  }

  lemma ThreeOpened(w0: World, w1: World, w2: World, w3: World)
    requires IsNew(w0) && Opened(w0, w1, "a") && Opened(w1, w2, "b") && Opened(w2, w3, "c")
    ensures Scene(w3, Admitted, Admitted, Admitted, None)
  {
  }

  predicate Comes(cfg: Config, w: World, conn: ConnId, w': World) {
    w' == Step(cfg, w, Open(conn, "r", conn, 0.0))
  }

  lemma Coming(cfg: Config, w: World, conn: ConnId, w': World, keys: set<AdmissionModel.Budget>)
    requires Comes(cfg, w, conn, w') && Asked(w, keys) && AdmissionModel.Connection(conn) !in keys && |keys| <= 3
    requires conn !in w.sessions && "r" in w.server.rows && w.server.rows["r"].hash.None?
    ensures Opened(w, w', conn) && Asked(w', keys + {AdmissionModel.Connection(conn)})
  {
    Opens(cfg, w, conn, keys);
  }

  lemma Arrive(cfg: Config, w0: World, w1: World, w2: World, w3: World)
    requires IsNew(w0) && Asked(w0, {AdmissionModel.Creation("")})
    requires Comes(cfg, w0, "a", w1) && Comes(cfg, w1, "b", w2) && Comes(cfg, w2, "c", w3)
    ensures Scene(w3, Admitted, Admitted, Admitted, None)
  {
    TwoCome(cfg, w0, w1, w2);
    Coming(cfg, w2, "c", w3, TwoSeen());
    ThreeOpened(w0, w1, w2, w3);
  }

  function TwoSeen(): set<AdmissionModel.Budget> {
    {AdmissionModel.Creation("")} + {AdmissionModel.Connection("a")} + {AdmissionModel.Connection("b")}
  }

  lemma TwoCome(cfg: Config, w0: World, w1: World, w2: World)
    requires IsNew(w0) && Asked(w0, {AdmissionModel.Creation("")})
    requires Comes(cfg, w0, "a", w1) && Comes(cfg, w1, "b", w2)
    ensures Opened(w0, w1, "a") && Opened(w1, w2, "b") && Asked(w2, TwoSeen())
  {
    Coming(cfg, w0, "a", w1, {AdmissionModel.Creation("")});
    Coming(cfg, w1, "b", w2, {AdmissionModel.Creation("")} + {AdmissionModel.Connection("a")});
  }

  lemma Arrived(cfg: Config)
    ensures Scene(Run(cfg, Arrivals()), Admitted, Admitted, Admitted, None)
  {
    Creates(cfg);
    ArrivalsRun(cfg);
    var w0 := Step(cfg, EMPTY, CreateRoom("r", None, 0, true, "", 0.0));
    var w1 := Step(cfg, w0, Open("a", "r", "a", 0.0));
    var w2 := Step(cfg, w1, Open("b", "r", "b", 0.0));
    Arrive(cfg, w0, w1, w2, Run(cfg, Arrivals()));
  }

  lemma ArrivalsRun(cfg: Config)
    ensures Run(cfg, Arrivals()) ==
            Step(cfg, Step(cfg, Step(cfg, Step(cfg, EMPTY, CreateRoom("r", None, 0, true, "", 0.0)),
                                          Open("a", "r", "a", 0.0)), Open("b", "r", "b", 0.0)),
                                              Open("c", "r", "c", 0.0))
  {
    var l0, l1, l2, l3 := CreateRoom("r", None, 0, true, "", 0.0), Open("a", "r", "a", 0.0), Open("b", "r", "b", 0.0),
                          Open("c", "r", "c", 0.0);
    RunOneMore(cfg, [], l0);
    RunOneMore(cfg, [l0], l1);
    RunOneMore(cfg, [l0] + [l1], l2);
    RunOneMore(cfg, [l0] + [l1] + [l2], l3);
    assert [] + [l0] == [l0];
  }

  // "a" attaches and is told it is the creator; "b" attaches and is told it is not.
  lemma TwoAttach(cfg: Config, w: World)
    requires Scene(w, Admitted, Admitted, Admitted, None)
    ensures var w' := Step(cfg, Step(cfg, w, AttachRoom("a", true, true)), AttachRoom("b", true, true));
            Scene(w', Attached, Attached, Admitted, Some(Some("a"))) && Believes(w', "r", "a")
                && w'.sessions["b"].attachment.Some?
  {
    FirstAttaches(cfg, w);
    SecondAttaches(cfg, Step(cfg, w, AttachRoom("a", true, true)));
  }

  lemma FirstAttaches(cfg: Config, w: World)
    requires Scene(w, Admitted, Admitted, Admitted, None)
    ensures var w' := Step(cfg, w, AttachRoom("a", true, true));
            Scene(w', Attached, Admitted, Admitted, Some(Some("a"))) && Believes(w', "r", "a")
  {
    AttachStepIs(cfg, w, "a", true, true);
  }

  lemma SecondAttaches(cfg: Config, w: World)
    requires Scene(w, Attached, Admitted, Admitted, Some(Some("a"))) && Believes(w, "r", "a")
    ensures var w' := Step(cfg, w, AttachRoom("b", true, true));
            Scene(w', Attached, Attached, Admitted, Some(Some("a"))) && Believes(w', "r", "a")
                && w'.sessions["b"].attachment.Some?
  {
    AttachStepIs(cfg, w, "b", true, true);
  }

  // Of the two attached, one goes.
  function PhaseOf(x: ConnId, gone: ConnId): Phase {
    if x == gone then Closed else Attached
  }

  // One of them goes without ever joining: the room is empty and its creator forgotten.
  lemma OneGoes(cfg: Config, w: World, conn: ConnId)
    requires Scene(w, Attached, Attached, Admitted, Some(Some("a"))) && (conn == "a" || conn == "b")
    ensures var w' := Step(cfg, Step(cfg, w, Break(conn)), DetachRoom(conn));
            && Scene(w', PhaseOf("a", conn), PhaseOf("b", conn), Admitted, Some(None))
            && (conn != "a" ==> w'.sessions["a"] == w.sessions["a"])
            && (conn != "b" ==> w'.sessions["b"] == w.sessions["b"])
  {
    BreakStepIs(cfg, w, conn);
    DetachStepIs(cfg, Put(w, conn, w.sessions[conn].Enter(Leaving)), conn);
    EmptyDetach(w, conn);
  }

  lemma BreakStepIs(cfg: Config, w: World, conn: ConnId)
    requires In(w, conn, Attached) && w.sessions[conn].outbox.None?
    ensures Step(cfg, w, Break(conn)) == Put(w, conn, w.sessions[conn].Enter(Leaving))
  {
  }

  lemma EmptyDetach(w: World, conn: ConnId)
    requires Scene(w, Attached, Attached, Admitted, Some(Some("a"))) && (conn == "a" || conn == "b")
    ensures var w' := DoDetach(Put(w, conn, w.sessions[conn].Enter(Leaving)), conn);
            && Scene(w', PhaseOf("a", conn), PhaseOf("b", conn), Admitted, Some(None))
            && (conn != "a" ==> w'.sessions["a"] == w.sessions["a"])
            && (conn != "b" ==> w'.sessions["b"] == w.sessions["b"])
  {
    var left := Put(w, conn, w.sessions[conn].Enter(Leaving));
    EmptyRoomReset(w.server, conn);
    LeftIsGuest(w, conn, DoDetach(left, conn));
    SceneEmptied(w, DoDetach(left, conn), conn);
  }

  lemma LeftIsGuest(w: World, conn: ConnId, w': World)
    requires In(w, conn, Attached) && IsGuest(w.sessions[conn]) && w.lock.None? && Wired(w.server)
    requires w' == DoDetach(Put(w, conn, w.sessions[conn].Enter(Leaving)), conn)
    ensures conn in w'.sessions && w'.sessions == w.sessions[conn := w'.sessions[conn]]
            && w'.sessions[conn].phase.Closed? && IsGuest(w'.sessions[conn])
    ensures w'.lock == w.lock && w'.server == Detach(w.server, "r", conn)
  {
    DetachIs(Put(w, conn, w.sessions[conn].Enter(Leaving)), conn);
  }

  lemma SceneEmptied(w: World, w': World, conn: ConnId)
    requires Scene(w, Attached, Attached, Admitted, Some(Some("a"))) && (conn == "a" || conn == "b")
    requires conn in w'.sessions && w'.sessions == w.sessions[conn := w'.sessions[conn]]
             && w'.sessions[conn].phase.Closed? && IsGuest(w'.sessions[conn])
    requires w'.lock.None? && w'.server.rows == w.server.rows && |w'.server.channels| == 1
             && w'.server.rooms.Keys == {"r"} && w'.server.rooms["r"] == RoomState(0, None, map[])
    ensures Scene(w', PhaseOf("a", conn), PhaseOf("b", conn), Admitted, Some(None))
    ensures conn != "a" ==> w'.sessions["a"] == w.sessions["a"]
    ensures conn != "b" ==> w'.sessions["b"] == w.sessions["b"]
  {
  }

  lemma EmptyRoomReset(s: Server, conn: ConnId)
    requires |s.channels| == 1 && s.rooms.Keys == {"r"} && s.rooms["r"] == RoomState(0, Some("a"), map[])
    ensures Wired(s)
    ensures var s' := Detach(s, "r", conn);
            && s'.rows == s.rows && |s'.channels| == 1
            && s'.rooms.Keys == {"r"} && s'.rooms["r"] == RoomState(0, None, map[])
  {
    DetachRoomsAre(s, "r", conn);
  }

  lemma DetachIs(w: World, conn: ConnId)
    requires In(w, conn, Leaving) && w.lock.None? && Wired(w.server)
    ensures var w' := DoDetach(w, conn);
            && w'.server == Detach(w.server, w.sessions[conn].room, conn) && w'.lock == w.lock
            && w'.sessions ==
               w.sessions[conn := w.sessions[conn].(detaches := w.sessions[conn].detaches + 1, phase := Closed)]
  {
  }

  lemma {:induction false} RunTwoMore(cfg: Config, ls: seq<Label>, l: Label, m: Label)
    ensures Run(cfg, ls + [l] + [m]) == Step(cfg, Step(cfg, Run(cfg, ls), l), m)
  {
    RunOneMore(cfg, ls, l);
    RunOneMore(cfg, ls + [l], m);
  }

  // Both attached, and then one of them gone.
  function Departure(conn: ConnId): seq<Label> {
    Arrivals() + [AttachRoom("a", true, true)] + [AttachRoom("b", true, true)] + [Break(conn)] + [DetachRoom(conn)]
  }

  lemma Departed(cfg: Config, conn: ConnId)
    requires conn == "a" || conn == "b"
    ensures var w := Run(cfg, Departure(conn));
            && Scene(w, PhaseOf("a", conn), PhaseOf("b", conn), Admitted, Some(None))
            && (conn == "b" ==> Believes(w, "r", "a"))
            && (conn == "a" ==> w.sessions["b"].attachment.Some?)
  {
    var both := Arrivals() + [AttachRoom("a", true, true)] + [AttachRoom("b", true, true)];
    Arrived(cfg);
    TwoAttach(cfg, Run(cfg, Arrivals()));
    RunTwoMore(cfg, Arrivals(), AttachRoom("a", true, true), AttachRoom("b", true, true));
    OneGoes(cfg, Run(cfg, both), conn);
    RunTwoMore(cfg, both, Break(conn), DetachRoom(conn));
  }

  // "a" attaches, "b" attaches and goes, "c" attaches: both "a" and "c" are alive and were
  // told that they created the room.
  lemma TwoCreators(cfg: Config)
    ensures exists ls :: Believes(Run(cfg, ls), "r", "a") && Believes(Run(cfg, ls), "r", "c")
  {
    Departed(cfg, "b");
    ThirdBelieves(cfg, Departure("b"));
    var ls := Departure("b") + [AttachRoom("c", true, true)];
    assert Believes(Run(cfg, ls), "r", "a") && Believes(Run(cfg, ls), "r", "c");
  }

  lemma ThirdBelieves(cfg: Config, ls: seq<Label>)
    requires var w := Run(cfg, ls); Scene(w, Attached, Closed, Admitted, Some(None)) && Believes(w, "r", "a")
    ensures var w := Run(cfg, ls + [AttachRoom("c", true, true)]); Believes(w, "r", "a") && Believes(w, "r", "c")
  {
    RunOneMore(cfg, ls, AttachRoom("c", true, true));
    ThirdAttaches(cfg, Run(cfg, ls));
  }

  lemma ThirdAttaches(cfg: Config, w: World)
    requires Scene(w, Attached, Closed, Admitted, Some(None)) && Believes(w, "r", "a")
    ensures Believes(Step(cfg, w, AttachRoom("c", true, true)), "r", "a")
    ensures Believes(Step(cfg, w, AttachRoom("c", true, true)), "r", "c")
  {
    AttachStepIs(cfg, w, "c", true, true);
    ThirdIsTold(w);
  }

  lemma ThirdIsTold(w: World)
    requires Scene(w, Attached, Closed, Admitted, Some(None)) && Believes(w, "r", "a")
    ensures var w' := DoAttach(w, "c", true, true); Believes(w', "r", "a") && Believes(w', "r", "c")
  {
  }

  predicate Creatorless(w: World, conn: ConnId) {
    "r" in w.server.rooms && conn in w.server.rooms["r"].participants && !HasCreator(w, "r")
  }

  // "a" and "b" attach, "a" goes, "b" joins: "b" is in a room that has no creator.
  lemma CreatorlessRoom(cfg: Config, publicKey: string, pqPublicKey: string)
    requires ValidKeys(cfg, Participant(publicKey, pqPublicKey, None))
    ensures exists ls :: Creatorless(Run(cfg, ls), "b")
  {
    var keys := Participant(publicKey, pqPublicKey, None);
    var announced := Announced(keys);
    AnnouncedScene(cfg, keys);
    SecondJoins(cfg, Run(cfg, announced), keys);
    RunTwoMore(cfg, announced, StartJoin("b", [], true), EndJoin("b"));
    assert Creatorless(Run(cfg, announced + [StartJoin("b", [], true)] + [EndJoin("b")]), "b");
  }

  function Announced(keys: Participant): seq<Label> {
    Departure("a") + [Greet("b")] + [Announce("b", Some(keys.publicKey), Some(keys.pqPublicKey), keys.sig)]
  }

  lemma AnnouncedScene(cfg: Config, keys: Participant)
    requires ValidKeys(cfg, keys)
    ensures Scene(Run(cfg, Announced(keys)), Closed, Keyed, Admitted, Some(None))
  {
    Departed(cfg, "a");
    SecondAnnounces(cfg, Run(cfg, Departure("a")), keys);
    RunTwoMore(cfg, Departure("a"), Greet("b"), Announce("b", Some(keys.publicKey), Some(keys.pqPublicKey), keys.sig));
  }

  lemma SecondAnnounces(cfg: Config, w: World, keys: Participant)
    requires Scene(w, Closed, Attached, Admitted, Some(None)) && w.sessions["b"].attachment.Some?
             && ValidKeys(cfg, keys)
    ensures Scene(Step(cfg, Step(cfg, w, Greet("b")),
            Announce("b", Some(keys.publicKey), Some(keys.pqPublicKey), keys.sig)),
                  Closed, Keyed, Admitted, Some(None))
  {
    var w1 := Step(cfg, w, Greet("b"));
    GreetStepIs(cfg, w, "b");
    AnnounceStepIs(cfg, w1, "b", keys);
  }

  lemma GreetStepIs(cfg: Config, w: World, conn: ConnId)
    requires In(w, conn, Attached) && w.sessions[conn].attachment.Some?
    ensures Step(cfg, w, Greet(conn)) ==
            Put(w, conn, w.sessions[conn].Enter(Welcomed).Write(WelcomeOf(conn, w.sessions[conn])))
  {
  }

  lemma AnnounceStepIs(cfg: Config, w: World, conn: ConnId, keys: Participant)
    requires In(w, conn, Welcomed) && ValidKeys(cfg, keys)
    ensures Step(cfg, w, Announce(conn, Some(keys.publicKey), Some(keys.pqPublicKey), keys.sig)) ==
            Put(w, conn, w.sessions[conn].(keys := keys, phase := Keyed))
  {
  }

  lemma SecondJoins(cfg: Config, w: World, keys: Participant)
    requires Scene(w, Closed, Keyed, Admitted, Some(None))
    ensures var w' := Step(cfg, Step(cfg, w, StartJoin("b", [], true)), EndJoin("b"));
            Creatorless(w', "b")
  {
    var w1 := Step(cfg, w, StartJoin("b", [], true));
    assert Lists([], map[]);
    assert In(w1, "b", Joining) && w1.lock == Some("b") && w1.server == w.server;
    EndJoinStepIs(cfg, w1, "b");
    assert "b" in DoEndJoin(w1, "b").server.rooms["r"].participants;
  }
}
