/**
 What holds of rooms, their channels and the life of sessions, in every state that any
 schedule of any sessions can reach.
 */
module RoomTheorems {
  import opened Sequences
  import opened Wrappers
  import opened RoomEvents
  import opened RoomLog
  import opened RoomTable
  import opened ServerModel
  import opened PendingPool
  import opened Sessions
  import opened Protocol
  import opened StepShapes
  import opened ProtocolInvariant
  import opened RoomSteps
  import opened ProtocolRuns
  import opened ClientTheorems

  // ---------- One channel per room id ----------

  predicate AttachedTogether(w: World, a: ConnId, b: ConnId) {
    && a in w.sessions && w.sessions[a].attachment.Some?
    && b in w.sessions && w.sessions[b].attachment.Some?
    && w.sessions[a].room == w.sessions[b].room
  }

  // However long the run, no id ever had a second channel, every id in the map has a row,
  // and all sessions ever attached to an id hold the same channel.
  lemma {:induction false} OneRoomPerId(cfg: Config, ls: seq<Label>)
    ensures var w := Run(cfg, ls);
            && OneChannelPerRoom(w.server.channels)
            && (forall id :: id in w.server.rooms ==> id in w.server.rows)
            && (forall a, b :: AttachedTogether(w, a, b) ==>
                  w.sessions[a].attachment.value.tx == w.sessions[b].attachment.value.tx)
  {
    RunKeeps(cfg, ls);
    SharedChannels(cfg, Run(cfg, ls));
  }

  lemma SharedChannels(cfg: Config, w: World)
    requires Inv(cfg, w)
    ensures OneChannelPerRoom(w.server.channels)
    ensures forall id :: id in w.server.rooms ==> id in w.server.rows
    ensures forall a, b :: AttachedTogether(w, a, b) ==>
              w.sessions[a].attachment.value.tx == w.sessions[b].attachment.value.tx
  {
    InvMeans(cfg, w);
    RoomsHaveRows(w);
    forall a, b | AttachedTogether(w, a, b)
      ensures w.sessions[a].attachment.value.tx == w.sessions[b].attachment.value.tx
    {
      SessionHolds(cfg, w, a);
      SessionHolds(cfg, w, b);
      OneOwnerOneChannel(w, w.sessions[a].attachment.value.tx, w.sessions[b].attachment.value.tx);
    }
  }

  // An id that was given to a room and has no row any more.
  predicate Gone(w: World, id: RoomId) {
    id in w.created && id !in w.server.rows
  }

  lemma CreateKeepsGone(w: World, other: RoomId, hash: Option<string>, now: int, up: bool, ip: Ip, at: real, id: RoomId)
    requires Gone(w, id)
    ensures Gone(DoCreate(w, other, hash, now, up, ip, at), id)
  {
  }

  lemma ActivityKeepsGone(cfg: Config, w: World, l: Label, id: RoomId)
    requires Gone(w, id) && l.Activity?
    ensures Gone(RelayStep(cfg, w, l), id)
  {
  }

  predicate SameRows(w: World, w': World) {
    w'.server.rows == w.server.rows && w'.created == w.created
  }

  lemma RelayKeepsRows(cfg: Config, w: World, l: Label)
    requires IsRelay(l) && !l.Activity?
    ensures SameRows(w, RelayStep(cfg, w, l))
  {
  }

  lemma JoinKeepsRows(cfg: Config, w: World, l: Label)
    requires IsJoin(l)
    ensures SameRows(w, JoinStep(cfg, w, l))
  {
  }

  lemma LockedStepKeepsGone(cfg: Config, w: World, l: Label, id: RoomId)
    requires Wired(w.server) && Gone(w, id) && (l.AttachRoom? || l.DetachRoom? || l.ExpireRooms?)
    ensures Gone(RoomStep(cfg, w, l), id)
  {
  }

  lemma StepKeepsGone(cfg: Config, w: World, l: Label, id: RoomId)
    requires Inv(cfg, w) && Gone(w, id)
    ensures Gone(Step(cfg, w, l), id)
  {
    assert Wired(w.server) by { ServerHolds(cfg, w); RoomsAreWired(w); }
    if l.CreateRoom? {
      EntryStepIs(cfg, w, l);
      CreateKeepsGone(w, l.id, l.hash, l.now, l.up, l.ip, l.at, id);
    } else if l.Maintain? {
      EntryStepIs(cfg, w, l);
    } else if IsPrivate(l) {
      PrivateStep(cfg, w, l);
    } else if IsJoin(l) {
      JoinStepIs(cfg, w, l);
      JoinKeepsRows(cfg, w, l);
    } else if IsRelay(l) {
      RelayStepIs(cfg, w, l);
      if l.Activity? { ActivityKeepsGone(cfg, w, l, id); } else { RelayKeepsRows(cfg, w, l); }
    } else {
      LockedStepIs(cfg, w, l);
      LockedStepKeepsGone(cfg, w, l, id);
    }
  }

  lemma {:induction false} GoneForGood(cfg: Config, ls: seq<Label>, more: seq<Label>, id: RoomId)
    requires Gone(Run(cfg, ls), id)
    ensures Gone(Run(cfg, ls + more), id)
  {
    if more == [] {
      assert ls + more == ls;
    } else {
      var n := |more| - 1;
      var prior := ls + more[..n];
      GoneForGood(cfg, ls, more[..n], id);
      assert ls + more == prior + [more[n]];
      RunKeeps(cfg, prior);
      StepKeepsGone(cfg, Run(cfg, prior), more[n], id);
      RunOneMore(cfg, prior, more[n]);
    }
  }

  lemma GoneFromMap(cfg: Config, w: World, id: RoomId)
    requires Inv(cfg, w) && Gone(w, id)
    ensures id !in w.server.rooms
  {
    ServerHolds(cfg, w);
    RoomsHaveRows(w);
  }

  // Once the row of a room is gone, however it went and whoever is still on the way to it,
  // its id is never in the table or in the map again.
  lemma {:induction false} NoResurrection(cfg: Config, ls: seq<Label>, more: seq<Label>, id: RoomId)
    requires Gone(Run(cfg, ls), id)
    ensures id !in Run(cfg, ls + more).server.rows && id !in Run(cfg, ls + more).server.rooms
  {
    GoneForGood(cfg, ls, more, id);
    RunKeeps(cfg, ls + more);
    GoneFromMap(cfg, Run(cfg, ls + more), id);
  }

  // In particular a channel that has carried RoomExpired has lost its room for good.
  lemma {:induction false} ExpiredIsGone(cfg: Config, ls: seq<Label>, k: nat)
    requires k < |Run(cfg, ls).server.channels| && Replay(Run(cfg, ls).server.channels[k].log).expired
    ensures Gone(Run(cfg, ls), Run(cfg, ls).server.channels[k].owner)
  {
    RunKeeps(cfg, ls);
    ExpiredChannelGone(cfg, Run(cfg, ls), k);
  }

  lemma ExpiredChannelGone(cfg: Config, w: World, k: nat)
    requires Inv(cfg, w) && k < |w.server.channels| && Replay(w.server.channels[k].log).expired
    ensures Gone(w, w.server.channels[k].owner)
  {
    ServerHolds(cfg, w);
    assert ChannelFits(w.server, w.created, k);
  }

  // No two rooms ever send on one channel, which is what expiry relies on.
  lemma {:induction false} RoomsOwnChannels(cfg: Config, ls: seq<Label>)
    ensures OwnChannels(Run(cfg, ls).server.rooms)
  {
    RunKeeps(cfg, ls);
    FitRoomsOwnChannels(cfg, Run(cfg, ls));
  }

  lemma FitRoomsOwnChannels(cfg: Config, w: World)
    requires Inv(cfg, w)
    ensures OwnChannels(w.server.rooms)
  {
    ServerHolds(cfg, w);
    forall a, b | a in w.server.rooms && b in w.server.rooms && w.server.rooms[a].tx == w.server.rooms[b].tx
      ensures a == b
    {
      assert RoomFits(w.server, a) && RoomFits(w.server, b);
    }
  }

  lemma RoomsHaveRows(w: World)
    requires ServerFits(w)
    ensures forall id :: id in w.server.rooms ==> id in w.server.rows
  {
    forall id | id in w.server.rooms ensures id in w.server.rows {
      assert RoomFits(w.server, id);
    }
  }

  // ---------- The log determines membership ----------

  // The participants of a room are those whose join the log of its channel shows and whose
  // departure it does not, with the keys announced; and the log has no RoomExpired.
  ghost predicate LogTells(s: Server, id: RoomId)
    requires id in s.rooms
  {
    && s.rooms[id].tx < |s.channels|
    && var participants, log := s.rooms[id].participants, s.channels[s.rooms[id].tx].log;
       && !EverExpired(log)
       && (forall x :: x in participants <==> EverJoined(log, x) && !EverLeft(log, x))
       && (forall j :: 0 <= j < |log| && log[j].PeerJoined? && log[j].from in participants ==>
             log[j] == Announcement(log[j].from, participants[log[j].from]))
  }

  // Every log ever is orderly, and the log of a room in the map tells who is in it.
  lemma {:induction false} LogDeterminesMembership(cfg: Config, ls: seq<Label>)
    ensures var s := Run(cfg, ls).server;
            && (forall k :: 0 <= k < |s.channels| ==> Orderly(s.channels[k].log))
            && (forall id :: id in s.rooms ==> LogTells(s, id))
  {
    RunKeeps(cfg, ls);
    MembershipIn(cfg, Run(cfg, ls));
  }

  lemma MembershipIn(cfg: Config, w: World)
    requires Inv(cfg, w)
    ensures forall k :: 0 <= k < |w.server.channels| ==> Orderly(w.server.channels[k].log)
    ensures forall id :: id in w.server.rooms ==> LogTells(w.server, id)
  {
    InvMeans(cfg, w);
    forall k | 0 <= k < |w.server.channels| ensures Orderly(w.server.channels[k].log) {
      assert ChannelFits(w.server, w.created, k);
      WellFormedIsOrderly(w.server.channels[k].log);
    }
    forall id | id in w.server.rooms ensures LogTells(w.server, id) {
      LiveChannel(w, id);
      LiveLogTells(w.server, id);
    }
  }

  lemma LiveLogTells(s: Server, id: RoomId)
    requires id in s.rooms && s.rooms[id].tx < |s.channels|
    requires var log := s.channels[s.rooms[id].tx].log;
             WellFormed(log) && !Replay(log).expired && s.rooms[id].participants == Replay(log).present
    ensures LogTells(s, id)
  {
    var log := s.channels[s.rooms[id].tx].log;
    TallyMeans(log);
    forall j | 0 <= j < |log| && log[j].PeerJoined? && log[j].from in s.rooms[id].participants
      ensures log[j] == Announcement(log[j].from, s.rooms[id].participants[log[j].from])
    {
      assert Recorded(Replay(log), log[j]);
    }
  }

  // Detaching again adds nothing.
  lemma DetachIsIdempotent(s: Server, id: RoomId, conn: ConnId)
    requires Wired(s)
    ensures Wired(Detach(s, id, conn)) && Detach(Detach(s, id, conn), id, conn) == Detach(s, id, conn)
  {
    if id in s.rooms {
      DetachRoomsAre(s, id, conn);
      var s' := Detach(s, id, conn);
      assert conn !in s'.rooms[id].participants;
      DetachRoomsAre(s', id, conn);
      assert s'.rooms[id].participants - {conn} == s'.rooms[id].participants;
      assert Detach(s', id, conn).rooms == s'.rooms;
    }
  }

  // ---------- Creators ----------

  // A creator that has detached is named only while somebody is in the room; the creator
  // of an empty room is a session still attached to it that has not joined.
  lemma {:induction false} StaleCreatorOnlyWhileOccupied(cfg: Config, ls: seq<Label>, id: RoomId)
    requires id in Run(cfg, ls).server.rooms && Run(cfg, ls).server.rooms[id].creatorId.Some?
    ensures var w := Run(cfg, ls);
            var room := w.server.rooms[id];
            var c := room.creatorId.value;
            && c in w.sessions && w.sessions[c].attachment.Some? && w.sessions[c].room == id
            && (w.sessions[c].phase.Closed? ==> room.participants != map[])
            && (room.participants == map[] ==> !w.sessions[c].phase.Closed? && !w.sessions[c].joined)
  {
    RunKeeps(cfg, ls);
    CreatorOfRoom(cfg, Run(cfg, ls), id);
  }

  lemma CreatorOfRoom(cfg: Config, w: World, id: RoomId)
    requires Inv(cfg, w) && id in w.server.rooms && w.server.rooms[id].creatorId.Some?
    ensures var room := w.server.rooms[id];
            var c := room.creatorId.value;
            && c in w.sessions && w.sessions[c].attachment.Some? && w.sessions[c].room == id
            && (w.sessions[c].phase.Closed? ==> room.participants != map[])
            && (room.participants == map[] ==> !w.sessions[c].phase.Closed? && !w.sessions[c].joined)
  {
    InvMeans(cfg, w);
    var c := w.server.rooms[id].creatorId.value;
    assert CreatorFits(w, id);
    if w.sessions[c].joined && w.server.rooms[id].participants == map[] {
      LiveMemberIsPresent(cfg, w, c);
      SameChannel(cfg, w, c);
      LiveChannel(w, id);
    }
  }

  // The creator on record is the one the answers given amount to; there is one exactly
  // when somebody has attached since the last reset.
  lemma {:induction false} CreatorIsAsTold(cfg: Config, ls: seq<Label>, id: RoomId)
    requires id in Run(cfg, ls).server.rooms
    ensures var w := Run(cfg, ls);
            var notes := Notes(w, id);
            && Truthful(notes)
            && w.server.rooms[id].creatorId == CreatorBy(notes)
            && (w.server.rooms[id].creatorId.Some? <==> notes != [] && notes[|notes| - 1].Told?)
  {
    RunKeeps(cfg, ls);
    NotesTell(cfg, Run(cfg, ls), id);
    CreatorSinceReset(Notes(Run(cfg, ls), id));
  }

  lemma NotesTell(cfg: Config, w: World, id: RoomId)
    requires Inv(cfg, w) && id in w.server.rooms
    ensures Truthful(Notes(w, id)) && w.server.rooms[id].creatorId == CreatorBy(Notes(w, id))
  {
    assert CreatorsFit(w) by { InvMeans(cfg, w); }
    assert CreatorFits(w, id);
    assert id in w.notes ==> Truthful(w.notes[id]);
  }

  lemma CreatorSinceReset(notes: seq<CreatorNote>)
    requires Truthful(notes)
    ensures CreatorBy(notes).Some? <==> notes != [] && notes[|notes| - 1].Told?
  {
  }

  // No reset in between.
  predicate SameEpoch(notes: seq<CreatorNote>, i: nat, j: nat)
    requires i <= j < |notes|
  {
    forall k :: i <= k <= j ==> notes[k].Told?
  }

  lemma {:induction false} PrefixTruthful(notes: seq<CreatorNote>, n: nat)
    requires Truthful(notes) && n <= |notes|
    ensures Truthful(notes[..n])
  {
    if n == |notes| {
      assert notes[..n] == notes;
    } else {
      PrefixTruthful(notes[..|notes| - 1], n);
      assert notes[..|notes| - 1][..n] == notes[..n];
    }
  }

  lemma TruthfulAt(notes: seq<CreatorNote>, i: nat)
    requires Truthful(notes) && i < |notes| && notes[i].Told?
    ensures notes[i].isCreator == CreatorBy(notes[..i]).None?
    ensures notes[i].creatorId == (if notes[i].isCreator then Some(notes[i].conn) else CreatorBy(notes[..i]))
    ensures notes[i].creatorId.Some? && CreatorBy(notes[..i + 1]) == notes[i].creatorId
  {
    PrefixTruthful(notes, i + 1);
    TakeNext(notes, i);
    NotesAppend(notes[..i], notes[i]);
  }

  // Creator epochs: in any truthful record the first answer after a reset makes its
  // session the creator, every later answer before the next reset says no, and all of
  // them name the same creator.
  lemma {:induction false} EpochHasOneCreator(notes: seq<CreatorNote>, i: nat, j: nat)
    requires Truthful(notes) && i < j < |notes| && SameEpoch(notes, i, j)
    ensures !notes[j].isCreator && notes[j].creatorId == notes[i].creatorId
    ensures i == 0 || notes[i - 1].Reset? ==> notes[i].isCreator && notes[i].creatorId == Some(notes[i].conn)
    decreases j
  {
    TruthfulAt(notes, i);
    TruthfulAt(notes, j);
    if i + 1 < j {
      TruthfulAt(notes, j - 1);
      EpochHasOneCreator(notes, i, j - 1);
    }
    if i > 0 && notes[i - 1].Reset? {
      ResetForgets(notes, i);
    }
  }

  lemma ResetForgets(notes: seq<CreatorNote>, i: nat)
    requires 0 < i <= |notes| && notes[i - 1].Reset?
    ensures CreatorBy(notes[..i]).None?
  {
    TakeNext(notes, i - 1);
    NotesAppend(notes[..i - 1], notes[i - 1]);
  }

  // What a session is told on attaching is what goes on record.
  lemma {:induction false} AnswersAreRecorded(cfg: Config, ls: seq<Label>, conn: ConnId, up: bool, delivered: bool)
    requires var w := Run(cfg, ls);
             In(w, conn, Admitted) && w.lock.None? && up && w.sessions[conn].room in w.server.rows
    ensures var w := Run(cfg, ls);
            var w' := Step(cfg, w, AttachRoom(conn, up, delivered));
            var id := w.sessions[conn].room;
            && conn in w'.sessions && w'.sessions[conn].attachment.Some? && id in w'.server.rooms
            && var a := w'.sessions[conn].attachment.value;
               && Notes(w', id) == Since(w, id) + [Told(conn, a.isCreator, a.creatorId)]
               && w'.server.rooms[id].creatorId == a.creatorId
  {
  }

  predicate KeptOrReset(room: RoomState, room': RoomState, l: Label) {
    room'.creatorId == room.creatorId || (room'.creatorId.None? && room'.participants == map[] && l.DetachRoom?)
  }

  // The creator of a room only ever changes through a reset, which only a detach that
  // leaves the room empty makes.
  lemma {:induction false} CreatorNeverHandedOver(cfg: Config, ls: seq<Label>, l: Label, id: RoomId)
    requires var w := Run(cfg, ls);
             id in w.server.rooms && w.server.rooms[id].creatorId.Some? && id in Step(cfg, w, l).server.rooms
    ensures KeptOrReset(Run(cfg, ls).server.rooms[id], Step(cfg, Run(cfg, ls), l).server.rooms[id], l)
  {
    RunKeeps(cfg, ls);
    CreatorKept(cfg, Run(cfg, ls), l, id);
  }

  lemma CreatorKept(cfg: Config, w: World, l: Label, id: RoomId)
    requires Inv(cfg, w) && id in w.server.rooms && w.server.rooms[id].creatorId.Some?
             && id in Step(cfg, w, l).server.rooms
    ensures KeptOrReset(w.server.rooms[id], Step(cfg, w, l).server.rooms[id], l)
  {
    if IsJoin(l) {
      JoinKeepsCreator(cfg, w, l, id);
    } else if l.AttachRoom? || l.DetachRoom? || l.ExpireRooms? {
      ServerHolds(cfg, w);
      LockedKeepsCreator(cfg, w, l, id);
    } else {
      OnlyLockedStepsTouchRooms(cfg, w, l);
    }
  }

  lemma LockedKeepsCreator(cfg: Config, w: World, l: Label, id: RoomId)
    requires ServerFits(w) && id in w.server.rooms && w.server.rooms[id].creatorId.Some?
             && id in Step(cfg, w, l).server.rooms
    requires l.AttachRoom? || l.DetachRoom? || l.ExpireRooms?
    ensures KeptOrReset(w.server.rooms[id], Step(cfg, w, l).server.rooms[id], l)
  {
    LockedStepIs(cfg, w, l);
    RoomStepKeepsCreator(cfg, w, l, id);
  }

  lemma OnlyLockedStepsTouchRooms(cfg: Config, w: World, l: Label)
    requires !IsJoin(l) && !l.AttachRoom? && !l.DetachRoom? && !l.ExpireRooms?
    ensures Step(cfg, w, l).server.rooms == w.server.rooms
  {
    if IsPrivate(l) {
      PrivateStep(cfg, w, l);
    } else if IsEntry(l) {
      EntryStepIs(cfg, w, l);
    } else {
      RelayStepIs(cfg, w, l);
      RelayKeepsRooms(cfg, w, l);
    }
  }

  lemma RelayKeepsRooms(cfg: Config, w: World, l: Label)
    ensures RelayStep(cfg, w, l).server.rooms == w.server.rooms
  {
  }

  lemma JoinKeepsCreator(cfg: Config, w: World, l: Label, id: RoomId)
    requires IsJoin(l) && id in w.server.rooms
    ensures id in Step(cfg, w, l).server.rooms
            && Step(cfg, w, l).server.rooms[id].creatorId == w.server.rooms[id].creatorId
  {
  }

  lemma RoomStepKeepsCreator(cfg: Config, w: World, l: Label, id: RoomId)
    requires ServerFits(w) && id in w.server.rooms && w.server.rooms[id].creatorId.Some?
             && id in RoomStep(cfg, w, l).server.rooms
    ensures KeptOrReset(w.server.rooms[id], RoomStep(cfg, w, l).server.rooms[id], l)
  {
    match l
    case DetachRoom(conn) => DetachKeepsCreator(w, conn, id);
    case AttachRoom(conn, up, delivered) => AttachKeepsCreator(w, conn, up, delivered, id);
    case _ =>
  }

  lemma AttachKeepsCreator(w: World, conn: ConnId, up: bool, delivered: bool, id: RoomId)
    requires id in w.server.rooms && w.server.rooms[id].creatorId.Some?
    ensures id in DoAttach(w, conn, up, delivered).server.rooms
            && DoAttach(w, conn, up, delivered).server.rooms[id] == w.server.rooms[id]
  {
  }

  lemma DetachKeepsCreator(w: World, conn: ConnId, id: RoomId)
    requires ServerFits(w) && id in w.server.rooms
    ensures id in DoDetach(w, conn).server.rooms
    ensures KeptOrReset(w.server.rooms[id], DoDetach(w, conn).server.rooms[id], DetachRoom(conn))
  {
    RoomsAreWired(w);
    if conn in w.sessions && w.sessions[conn].room in w.server.rooms {
      DetachRoomsAre(w.server, w.sessions[conn].room, conn);
    }
  }

  // ---------- Guards ----------

  // The pool counts exactly the sessions still authenticating, per address and in all,
  // within its bounds and with no empty entries.
  lemma {:induction false} PendingConservation(cfg: Config, ls: seq<Label>, ip: Ip)
    ensures var w := Run(cfg, ls);
            && Waiting(w.pool, ip) == |Holders(w.sessions, ip)| <= MAX_PENDING_PER_IP
            && (ip in w.pool.pending <==> Holders(w.sessions, ip) != {})
            && w.pool.total == |w.guards| == Sum(w.pool.pending) <= MAX_PENDING
  {
    RunKeeps(cfg, ls);
    PoolCounts(cfg, Run(cfg, ls), ip);
  }

  lemma PoolCounts(cfg: Config, w: World, ip: Ip)
    requires Inv(cfg, w)
    ensures Waiting(w.pool, ip) == |Holders(w.sessions, ip)| <= MAX_PENDING_PER_IP
    ensures ip in w.pool.pending <==> Holders(w.sessions, ip) != {}
    ensures w.pool.total == |w.guards| == Sum(w.pool.pending) <= MAX_PENDING
  {
    assert GuardsFit(w) by { InvMeans(cfg, w); }
    assert |Holders(w.sessions, ip)| == w.guards[ip];
    TotalIsSum(w.pool.pending, w.guards);
  }

  // Dropping the guard of a session that holds one never panics, and gives back that one.
  lemma {:induction false} GuardsDropCleanly(cfg: Config, ls: seq<Label>, conn: ConnId)
    requires conn in Run(cfg, ls).sessions && Run(cfg, ls).sessions[conn].phase.IsAuthenticating()
    ensures var w := Run(cfg, ls);
            var ip := w.sessions[conn].ip;
            && Release(w.pool, ip).Some?
            && Release(w.pool, ip).value.total == w.pool.total - 1
            && Waiting(Release(w.pool, ip).value, ip) == Waiting(w.pool, ip) - 1
            && (forall other :: other != ip ==> Waiting(Release(w.pool, ip).value, other) == Waiting(w.pool, other))
  {
    RunKeeps(cfg, ls);
    DropsCleanly(cfg, Run(cfg, ls), conn);
  }

  lemma DropsCleanly(cfg: Config, w: World, conn: ConnId)
    requires Inv(cfg, w) && conn in w.sessions && w.sessions[conn].phase.IsAuthenticating()
    ensures var ip := w.sessions[conn].ip;
            && Release(w.pool, ip).Some?
            && Release(w.pool, ip).value.total == w.pool.total - 1
            && Waiting(Release(w.pool, ip).value, ip) == Waiting(w.pool, ip) - 1
            && (forall other :: other != ip ==> Waiting(Release(w.pool, ip).value, other) == Waiting(w.pool, other))
  {
    assert GuardsFit(w) by { InvMeans(cfg, w); }
    var ip := w.sessions[conn].ip;
    assert conn in Holders(w.sessions, ip);
    assert |Holders(w.sessions, ip)| == w.guards[ip];
    ReleaseAccounts(w.pool, w.guards, ip);
  }

  // ---------- Lives of sessions ----------

  // A session attaches at most once, detaches at most once, and has detached exactly when
  // it attached and is over.
  lemma {:induction false} LifecycleBalance(cfg: Config, ls: seq<Label>, conn: ConnId)
    requires conn in Run(cfg, ls).sessions
    ensures var s := Run(cfg, ls).sessions[conn];
            && s.attaches <= 1
            && (s.attaches == 1 <==> s.attachment.Some?)
            && s.detaches == (if s.phase.Closed? then s.attaches else 0)
  {
    RunKeeps(cfg, ls);
    SessionHolds(cfg, Run(cfg, ls), conn);
  }

  // Nothing stands in the way of the end: a session out of its block detaches as soon as
  // the lock is free, and the session holding the lock can always let go of it.
  lemma {:induction false} LeavingCanDetach(cfg: Config, ls: seq<Label>, conn: ConnId)
    requires In(Run(cfg, ls), conn, Leaving) && Run(cfg, ls).lock.None?
    ensures In(Step(cfg, Run(cfg, ls), DetachRoom(conn)), conn, Closed)
  {
    RunKeeps(cfg, ls);
    LeaverDetaches(cfg, Run(cfg, ls), conn);
  }

  lemma LeaverDetaches(cfg: Config, w: World, conn: ConnId)
    requires Inv(cfg, w) && In(w, conn, Leaving) && w.lock.None?
    ensures In(RoomStep(cfg, w, DetachRoom(conn)), conn, Closed)
  {
    ServerHolds(cfg, w);
    RoomsAreWired(w);
  }

  lemma {:induction false} LockIsReleased(cfg: Config, ls: seq<Label>)
    requires Run(cfg, ls).lock.Some?
    ensures var w := Run(cfg, ls);
            var w' := Step(cfg, w, EndJoin(w.lock.value));
            w'.lock.None? && w.lock.value in w'.sessions && w'.sessions[w.lock.value].joined
  {
    RunKeeps(cfg, ls);
    LockHolderEnds(cfg, Run(cfg, ls));
  }

  lemma LockHolderEnds(cfg: Config, w: World)
    requires Inv(cfg, w) && w.lock.Some?
    ensures var w' := JoinStep(cfg, w, EndJoin(w.lock.value));
            w'.lock.None? && w.lock.value in w'.sessions && w'.sessions[w.lock.value].joined
  {
    InvMeans(cfg, w);
    JoinerIsNew(cfg, w, w.lock.value);
  }

  // The participants of a room are exactly the sessions that joined it and have not
  // detached: at most sixteen, all with validated keys, each listed with its own.
  lemma {:induction false} ParticipantsAreLiveSessions(cfg: Config, ls: seq<Label>, id: RoomId)
    requires id in Run(cfg, ls).server.rooms
    ensures var w := Run(cfg, ls);
            var room := w.server.rooms[id];
            && |room.participants| <= MAX_PARTICIPANTS
            && (forall x :: x in room.participants <==>
                  x in w.sessions && w.sessions[x].room == id && w.sessions[x].joined && !w.sessions[x].phase.Closed?)
            && (forall x :: x in room.participants ==>
               room.participants[x] == w.sessions[x].keys && ValidKeys(cfg, w.sessions[x].keys))
  {
    RunKeeps(cfg, ls);
    LiveSessionsIn(cfg, Run(cfg, ls), id);
  }

  lemma LiveSessionsIn(cfg: Config, w: World, id: RoomId)
    requires Inv(cfg, w) && id in w.server.rooms
    ensures var room := w.server.rooms[id];
            && |room.participants| <= MAX_PARTICIPANTS
            && (forall x :: x in room.participants <==>
                  x in w.sessions && w.sessions[x].room == id && w.sessions[x].joined && !w.sessions[x].phase.Closed?)
            && (forall x :: x in room.participants ==>
               room.participants[x] == w.sessions[x].keys && ValidKeys(cfg, w.sessions[x].keys))
  {
    InvMeans(cfg, w);
    LiveChannel(w, id);
    assert RoomFits(w.server, id);
    var k := w.server.rooms[id].tx;
    assert MembersOf(w.sessions, k, Replay(w.server.channels[k].log));
    forall x
      ensures x in w.server.rooms[id].participants ==>
                x in w.sessions && w.sessions[x].room == id && w.sessions[x].joined && !w.sessions[x].phase.Closed?
                    && ValidKeys(cfg, w.sessions[x].keys)
    {
      if x in w.server.rooms[id].participants {
        assert JoinedOn(w.sessions, x, k);
        SessionHolds(cfg, w, x);
      }
    }
    forall x | x in w.sessions && w.sessions[x].room == id && w.sessions[x].joined && !w.sessions[x].phase.Closed?
      ensures x in w.server.rooms[id].participants
    {
      SessionHolds(cfg, w, x);
      SameChannel(cfg, w, x);
      LiveMemberIsPresent(cfg, w, x);
    }
  }

  // When every session is over, every room is empty and has no creator.
  lemma {:induction false} QuietRelayIsEmpty(cfg: Config, ls: seq<Label>, id: RoomId)
    requires forall conn :: conn in Run(cfg, ls).sessions ==> Run(cfg, ls).sessions[conn].phase.Closed?
    requires id in Run(cfg, ls).server.rooms
    ensures Run(cfg, ls).server.rooms[id].participants == map[] && Run(cfg, ls).server.rooms[id].creatorId.None?
  {
    RunKeeps(cfg, ls);
    QuietIn(cfg, Run(cfg, ls), id);
  }

  lemma QuietIn(cfg: Config, w: World, id: RoomId)
    requires Inv(cfg, w) && id in w.server.rooms
    requires forall conn :: conn in w.sessions ==> w.sessions[conn].phase.Closed?
    ensures w.server.rooms[id].participants == map[] && w.server.rooms[id].creatorId.None?
  {
    InvMeans(cfg, w);
    LiveSessionsIn(cfg, w, id);
    assert w.server.rooms[id].participants == map[] by {
      assert forall x :: x !in w.server.rooms[id].participants;
    }
    assert CreatorFits(w, id);
  }

  // ---------- Expiry ----------

  // An expiry run removes exactly the rows idle beyond the threshold and exactly their
  // rooms, and puts one RoomExpired on the channel of each such room and on no other.
  lemma {:induction false} ExpiryIsExact(cfg: Config, ls: seq<Label>, now: int, threshold: int)
    requires Run(cfg, ls).lock.None?
    ensures var w := Run(cfg, ls);
            var w' := Step(cfg, w, ExpireRooms(now, threshold, true));
            && w'.sessions == w.sessions
            && (forall id :: id in w'.server.rows <==>
               id in w.server.rows && w.server.rows[id].lastActivity >= now - threshold)
            && (forall id :: id in w'.server.rows ==> w'.server.rows[id] == w.server.rows[id])
            && (forall id :: id in w'.server.rooms <==> id in w.server.rooms && id in w'.server.rows)
            && (forall id :: id in w'.server.rooms ==> w'.server.rooms[id] == w.server.rooms[id])
            && |w'.server.channels| == |w.server.channels|
            && (forall k :: 0 <= k < |w.server.channels| ==>
                  w'.server.channels[k].log == w.server.channels[k].log +
                    if w.server.channels[k].owner in w.server.rooms - w'.server.rooms.Keys then [RoomExpired] else [])
    ensures Step(cfg, Run(cfg, ls), ExpireRooms(now, threshold, false)) == Run(cfg, ls)
  {
    RunKeeps(cfg, ls);
    ExpireStepIs(cfg, Run(cfg, ls), now, threshold);
    ExpiryIn(cfg, Run(cfg, ls), now, threshold);
  }

  lemma ExpiryIn(cfg: Config, w: World, now: int, threshold: int)
    requires Inv(cfg, w)
    ensures var s' := Expire(w.server, now, threshold);
            && (forall id :: id in s'.rows <==>
               id in w.server.rows && w.server.rows[id].lastActivity >= now - threshold)
            && (forall id :: id in s'.rows ==> s'.rows[id] == w.server.rows[id])
            && (forall id :: id in s'.rooms <==> id in w.server.rooms && id in s'.rows)
            && (forall id :: id in s'.rooms ==> s'.rooms[id] == w.server.rooms[id])
            && |s'.channels| == |w.server.channels|
            && (forall k :: 0 <= k < |w.server.channels| ==>
                  s'.channels[k].log == w.server.channels[k].log +
                    if w.server.channels[k].owner in w.server.rooms - s'.rooms.Keys then [RoomExpired] else [])
  {
    InvMeans(cfg, w);
    var s' := Expire(w.server, now, threshold);
    var stale := Stale(w.server.rows, now, threshold);
    RoomsHaveRows(w);
    forall k | 0 <= k < |w.server.channels|
      ensures s'.channels[k].log == w.server.channels[k].log +
                if w.server.channels[k].owner in w.server.rooms - s'.rooms.Keys then [RoomExpired] else []
    {
      ExpireChannelAt(w.server, stale, k);
      EndingIsOwnersExpiry(w, stale, k);
      assert w.server.channels[k].log + [] == w.server.channels[k].log;
    }
  }

  lemma EndingIsOwnersExpiry(w: World, stale: set<RoomId>, k: nat)
    requires ServerFits(w) && k < |w.server.channels|
    ensures Ending(w.server, stale, k) <==>
            w.server.channels[k].owner in w.server.rooms && w.server.channels[k].owner in stale
  {
    var owner := w.server.channels[k].owner;
    assert ChannelFits(w.server, w.created, k);
    if Ending(w.server, stale, k) {
      var id :| id in stale && id in w.server.rooms && w.server.rooms[id].tx == k;
      assert RoomFits(w.server, id);
    }
    if owner in w.server.rooms && owner in stale {
      assert RoomFits(w.server, owner);
      assert owner in stale && owner in w.server.rooms && w.server.rooms[owner].tx == k;
    }
  }

  // Under a clock that does not run backwards, an expiry run removes a row exactly when
  // more than the threshold has passed since its creation and since each chat that
  // refreshed it.
  lemma {:induction false} ExpiryIsJustified(cfg: Config, ls: seq<Label>, id: RoomId, now: int, threshold: int)
    requires var w := Run(cfg, ls);
             w.lock.None? && ClockMonotone(w.history) && id in w.server.rows
    ensures var w := Run(cfg, ls);
            id !in Step(cfg, w, ExpireRooms(now, threshold, true)).server.rows <==>
            forall i :: 0 <= i < |w.history| && Refreshes(w.history, i, id) ==> now - w.history[i].at > threshold
  {
    RunKeeps(cfg, ls);
    ExpireStepIs(cfg, Run(cfg, ls), now, threshold);
    JustifiedIn(cfg, Run(cfg, ls), id, now, threshold);
  }

  lemma ExpireStepIs(cfg: Config, w: World, now: int, threshold: int)
    requires w.lock.None?
    ensures Step(cfg, w, ExpireRooms(now, threshold, true)).server == Expire(w.server, now, threshold)
    ensures Step(cfg, w, ExpireRooms(now, threshold, true)).sessions == w.sessions
  {
  }

  lemma JustifiedIn(cfg: Config, w: World, id: RoomId, now: int, threshold: int)
    requires Inv(cfg, w) && ClockMonotone(w.history) && id in w.server.rows
    ensures id !in Expire(w.server, now, threshold).rows <==>
            forall i :: 0 <= i < |w.history| && Refreshes(w.history, i, id) ==> now - w.history[i].at > threshold
  {
    ServerHolds(cfg, w);
    SweepIsJustified(w.history, id, now, threshold);
    RowsAppend(w.history, Swept(now, threshold));
  }
}
