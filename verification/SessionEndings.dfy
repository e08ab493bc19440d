/** No session is ever stuck: from any state, each attached session can be brought to its detach. */
module SessionEndings {
  import opened RoomEvents
  import opened RoomLog
  import opened ServerModel
  import opened Sessions
  import opened Protocol
  import opened StepShapes
  import opened ProtocolInvariant
  import opened RoomSteps
  import opened ProtocolRuns
  import opened CreatorClaims

  predicate EndsWithOneDetach(w: World, conn: ConnId) {
    In(w, conn, Closed) && w.sessions[conn].attaches == 1 && w.sessions[conn].detaches == 1
  }

  predicate ClosesBy(cfg: Config, w: World, more: seq<Label>, conn: ConnId) {
    EndsWithOneDetach(Play(cfg, w, more), conn)
  }

  ghost predicate CanClose(cfg: Config, w: World, conn: ConnId) {
    exists more: seq<Label> :: ClosesBy(cfg, w, more, conn)
  }

  lemma ClosesVia(cfg: Config, w: World, l: Label, conn: ConnId)
    requires CanClose(cfg, Step(cfg, w, l), conn)
    ensures CanClose(cfg, w, conn)
  {
    var rest: seq<Label> :| ClosesBy(cfg, Step(cfg, w, l), rest, conn);
    PlayNext(cfg, w, l, rest);
    assert ClosesBy(cfg, w, [l] + rest, conn);
  }

  lemma DetachEnds(cfg: Config, w: World, conn: ConnId)
    requires SessionsFit(cfg, w) && Wired(w.server) && In(w, conn, Leaving) && w.lock.None?
    ensures EndsWithOneDetach(Step(cfg, w, DetachRoom(conn)), conn)
  {
    assert SessionFits(cfg, conn, w.sessions[conn], w.server.channels);
    DetachStepIs(cfg, w, conn);
    DetachIs(w, conn);
  }

  lemma FromLeaving(cfg: Config, w: World, conn: ConnId)
    requires Inv(cfg, w) && In(w, conn, Leaving) && w.lock.None?
    ensures CanClose(cfg, w, conn)
  {
    SessionsHold(cfg, w);
    ServerHolds(cfg, w);
    RoomsAreWired(w);
    DetachEnds(cfg, w, conn);
    assert ClosesBy(cfg, Step(cfg, w, DetachRoom(conn)), [], conn);
    ClosesVia(cfg, w, DetachRoom(conn), conn);
  }

  lemma BreakIs(cfg: Config, w: World, conn: ConnId)
    requires conn in w.sessions && w.sessions[conn].phase.CanBreak() && w.sessions[conn].outbox.None?
    ensures Step(cfg, w, Break(conn)) == Put(w, conn, w.sessions[conn].Enter(Leaving))
  {
  }

  lemma FromBlock(cfg: Config, w: World, conn: ConnId)
    requires Inv(cfg, w) && w.lock.None?
    requires conn in w.sessions && w.sessions[conn].phase.CanBreak() && w.sessions[conn].outbox.None?
    ensures CanClose(cfg, w, conn)
  {
    BreakIs(cfg, w, conn);
    StepKeeps(cfg, w, Break(conn));
    FromLeaving(cfg, Step(cfg, w, Break(conn)), conn);
    ClosesVia(cfg, w, Break(conn), conn);
  }

  lemma SendingIs(cfg: Config, w: World, conn: ConnId)
    requires In(w, conn, Relaying) && w.sessions[conn].outbox.Some?
    requires w.sessions[conn].attachment.Some? && w.sessions[conn].attachment.value.tx < |w.server.channels|
    ensures var w' := Step(cfg, w, SendChat(conn));
            In(w', conn, Relaying) && w'.sessions[conn].outbox.None? && w'.lock == w.lock
  {
  }

  // A chat half sent is sent first.
  lemma FromRelay(cfg: Config, w: World, conn: ConnId)
    requires Inv(cfg, w) && In(w, conn, Relaying) && w.lock.None?
    ensures CanClose(cfg, w, conn)
  {
    if w.sessions[conn].outbox.None? {
      FromBlock(cfg, w, conn);
    } else {
      AttachedHasChannel(cfg, w, conn);
      SendingIs(cfg, w, conn);
      StepKeeps(cfg, w, SendChat(conn));
      FromBlock(cfg, Step(cfg, w, SendChat(conn)), conn);
      ClosesVia(cfg, w, SendChat(conn), conn);
    }
  }

  lemma AttachedHasChannel(cfg: Config, w: World, conn: ConnId)
    requires Inv(cfg, w) && In(w, conn, Relaying)
    ensures w.sessions[conn].attachment.Some? && w.sessions[conn].attachment.value.tx < |w.server.channels|
  {
    SessionHolds(cfg, w, conn);
  }

  // What letting go of the lock does: the joiner is in, and everybody else as before.
  lemma JoinEnds(cfg: Config, w: World, joiner: ConnId)
    requires CanEnrol(w, joiner)
    ensures var s, w' := w.sessions[joiner], Step(cfg, w, EndJoin(joiner));
            && w'.lock.None?
            && w'.sessions == w.sessions[joiner := s.(joined := true, opening := |s.frames|,
                                                      phase := if s.IsProtected() then Confirming else Seeding)]
  {
    EndJoinStepIs(cfg, w, joiner);
  }

  lemma OutboxOnlyInRelay(cfg: Config, w: World, conn: ConnId)
    requires Inv(cfg, w) && conn in w.sessions && !w.sessions[conn].phase.Relaying?
    ensures w.sessions[conn].outbox.None?
  {
    SessionHolds(cfg, w, conn);
  }

  lemma FromJoining(cfg: Config, w: World, conn: ConnId)
    requires Inv(cfg, w) && In(w, conn, Joining)
    ensures CanClose(cfg, w, conn)
  {
    JoinerIsNew(cfg, w, conn);
    JoinEnds(cfg, w, conn);
    StepKeeps(cfg, w, EndJoin(conn));
    OutboxOnlyInRelay(cfg, Step(cfg, w, EndJoin(conn)), conn);
    FromBlock(cfg, Step(cfg, w, EndJoin(conn)), conn);
    ClosesVia(cfg, w, EndJoin(conn), conn);
  }

  // A session with its keys accepted has to try the join.
  lemma JoinStarts(cfg: Config, w: World, conn: ConnId, peers: seq<(ConnId, Participant)>)
    requires In(w, conn, Keyed) && w.lock.None?
    requires w.sessions[conn].room in w.server.rooms ==>
               && w.server.rooms[w.sessions[conn].room].tx < |w.server.channels|
               && Lists(peers, w.server.rooms[w.sessions[conn].room].participants)
    ensures var w' := Step(cfg, w, StartJoin(conn, peers, true));
            (In(w', conn, Leaving) && w'.lock.None?) || In(w', conn, Joining)
  {
  }

  lemma FromKeyed(cfg: Config, w: World, conn: ConnId)
    requires Inv(cfg, w) && In(w, conn, Keyed) && w.lock.None?
    ensures CanClose(cfg, w, conn)
  {
    ServerHolds(cfg, w);
    RoomsAreWired(w);
    var id := w.sessions[conn].room;
    var roster: Roster := if id in w.server.rooms then w.server.rooms[id].participants else map[];
    ListingExists(roster);
    var peers: seq<(ConnId, Participant)> :| Lists(peers, roster);
    JoinStarts(cfg, w, conn, peers);
    KeyedCanClose(cfg, w, Step(cfg, w, StartJoin(conn, peers, true)), StartJoin(conn, peers, true), conn);
  }

  lemma KeyedCanClose(cfg: Config, w: World, w': World, l: Label, conn: ConnId)
    requires Inv(cfg, w) && w' == Step(cfg, w, l)
    requires (In(w', conn, Leaving) && w'.lock.None?) || In(w', conn, Joining)
    ensures CanClose(cfg, w, conn)
  {
    StepKeeps(cfg, w, l);
    if In(w', conn, Leaving) {
      FromLeaving(cfg, w', conn);
    } else {
      FromJoining(cfg, w', conn);
    }
    ClosesVia(cfg, w, l, conn);
  }

  predicate IsLive(w: World, conn: ConnId) {
    conn in w.sessions && w.sessions[conn].attachment.Some? && !w.sessions[conn].phase.Closed?
  }

  lemma LivePhases(cfg: Config, w: World, conn: ConnId)
    requires SessionsFit(cfg, w) && LockFits(w) && IsLive(w, conn) && w.lock.None?
    ensures var p := w.sessions[conn].phase;
            p.CanBreak() || p.Keyed? || p.Leaving?
  {
    assert SessionFits(cfg, conn, w.sessions[conn], w.server.channels);
  }

  lemma UnlockedCanClose(cfg: Config, w: World, conn: ConnId)
    requires Inv(cfg, w) && IsLive(w, conn) && w.lock.None?
    ensures CanClose(cfg, w, conn)
  {
    InvMeans(cfg, w);
    LivePhases(cfg, w, conn);
    match w.sessions[conn].phase
    case Keyed => FromKeyed(cfg, w, conn);
    case Leaving => FromLeaving(cfg, w, conn);
    case Relaying => FromRelay(cfg, w, conn);
    case _ =>
      OutboxOnlyInRelay(cfg, w, conn);
      FromBlock(cfg, w, conn);
  }

  lemma LiveCanClose(cfg: Config, w: World, conn: ConnId)
    requires Inv(cfg, w) && IsLive(w, conn)
    ensures CanClose(cfg, w, conn)
  {
    InvMeans(cfg, w);
    if w.lock.None? {
      UnlockedCanClose(cfg, w, conn);
    } else {
      var joiner := w.lock.value;
      HolderIsJoining(w);
      JoinerIsNew(cfg, w, joiner);
      JoinEnds(cfg, w, joiner);
      StepKeeps(cfg, w, EndJoin(joiner));
      InvMeans(cfg, Step(cfg, w, EndJoin(joiner)));
      UnlockedCanClose(cfg, Step(cfg, w, EndJoin(joiner)), conn);
      ClosesVia(cfg, w, EndJoin(joiner), conn);
    }
  }

  lemma HolderIsJoining(w: World)
    requires LockFits(w) && w.lock.Some?
    ensures In(w, w.lock.value, Joining)
  {
  }

  // Whatever state a run has reached, and whoever holds the lock, it can go on so that a
  // session that attached ends with exactly one detach.
  lemma {:induction false} EverySessionCanEnd(cfg: Config, ls: seq<Label>, conn: ConnId)
    requires IsLive(Run(cfg, ls), conn)
    ensures exists more: seq<Label> :: EndsWithOneDetach(Run(cfg, ls + more), conn)
  {
    RunKeeps(cfg, ls);
    LiveCanClose(cfg, Run(cfg, ls), conn);
    var more: seq<Label> :| ClosesBy(cfg, Run(cfg, ls), more, conn);
    RunPlays(cfg, ls, more);
    assert EndsWithOneDetach(Run(cfg, ls + more), conn);
  }
}
