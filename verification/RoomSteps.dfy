/** The steps on rooms and their channels keep the invariant. */
module RoomSteps {
  import opened Wrappers
  import opened RoomEvents
  import opened RoomLog
  import opened RoomTable
  import opened ServerModel
  import opened Sessions
  import opened Protocol
  import opened ProtocolInvariant
  import opened AdmissionSteps
  import opened SessionSteps

  lemma SessionsFitAsLogsGrow(cfg: Config, w: World, channels: seq<ChannelState>)
    requires SessionsFit(cfg, w) && Grown(w.server.channels, channels)
    ensures forall conn :: conn in w.sessions ==> SessionFits(cfg, conn, w.sessions[conn], channels)
  {
    forall conn | conn in w.sessions ensures SessionFits(cfg, conn, w.sessions[conn], channels) {
      FitsAsLogsGrow(cfg, conn, w.sessions[conn], w.server.channels, channels);
    }
  }

  // An attached session of a room in the map holds that room's channel.
  lemma SameChannel(cfg: Config, w: World, conn: ConnId)
    requires SessionsFit(cfg, w) && ServerFits(w)
    requires conn in w.sessions && w.sessions[conn].attachment.Some? && w.sessions[conn].room in w.server.rooms
    ensures w.sessions[conn].attachment.value.tx == w.server.rooms[w.sessions[conn].room].tx
  {
    var s := w.sessions[conn];
    assert SessionFits(cfg, conn, s, w.server.channels);
    assert RoomFits(w.server, s.room);
  }

  // The channel of a room in the map is live, and its log tells the participants.
  lemma LiveChannel(w: World, id: RoomId)
    requires ServerFits(w) && id in w.server.rooms
    ensures var k := w.server.rooms[id].tx;
            && k < |w.server.channels| && w.server.channels[k].owner == id
            && WellFormed(w.server.channels[k].log) && !Replay(w.server.channels[k].log).expired
            && w.server.rooms[id].participants == Replay(w.server.channels[k].log).present
  {
    assert RoomFits(w.server, id);
    assert ChannelFits(w.server, w.created, w.server.rooms[id].tx);
  }

  // ---------- Attaching ----------

  lemma NotesAppend(notes: seq<CreatorNote>, note: CreatorNote)
    ensures CreatorBy(notes + [note]) ==
            if note.Reset? then None else if note.isCreator then Some(note.conn) else CreatorBy(notes)
    ensures Truthful(notes + [note]) <==>
            && Truthful(notes)
            && (note.Told? ==>
                  && note.isCreator == CreatorBy(notes).None?
                  && note.creatorId == if note.isCreator then Some(note.conn) else CreatorBy(notes))
  {
    assert (notes + [note])[..|notes|] == notes;
  }

  lemma NobodyHadChannel(w: World, id: RoomId)
    requires ServerFits(w) && id in w.server.rows && id !in w.server.rooms
    ensures forall k :: 0 <= k < |w.server.channels| ==> w.server.channels[k].owner != id
  {
    forall k | 0 <= k < |w.server.channels| ensures w.server.channels[k].owner != id {
      assert ChannelFits(w.server, w.created, k);
    }
  }

  lemma AttachServerFits(w: World, id: RoomId, conn: ConnId, w': World)
    requires ServerFits(w) && id in w.server.rows
    requires w'.server == Attach(w.server, id, conn, true).0 && w'.created == w.created && w'.history == w.history
    ensures ServerFits(w')
  {
    if id !in w.server.rooms {
      NobodyHadChannel(w, id);
    }
    forall x | x in w'.server.rooms ensures RoomFits(w'.server, x) {
      AttachRoomFits(w, id, conn, x);
    }
    forall k: nat | k < |w'.server.channels| ensures ChannelFits(w'.server, w'.created, k) {
      AttachChannelFits(w, id, conn, k);
    }
  }

  lemma AttachRoomFits(w: World, id: RoomId, conn: ConnId, x: RoomId)
    requires ServerFits(w) && id in w.server.rows && x in Attach(w.server, id, conn, true).0.rooms
    ensures RoomFits(Attach(w.server, id, conn, true).0, x)
  {
    assert x in w.server.rooms ==> RoomFits(w.server, x);
  }

  lemma AttachChannelFits(w: World, id: RoomId, conn: ConnId, k: nat)
    requires ServerFits(w) && id in w.server.rows && k < |Attach(w.server, id, conn, true).0.channels|
    ensures ChannelFits(Attach(w.server, id, conn, true).0, w.created, k)
  {
    assert k < |w.server.channels| ==> ChannelFits(w.server, w.created, k);
  }

  // What attaching changes besides the room's creator and its notes.
  ghost predicate AttachShape(w: World, conn: ConnId, w': World) {
    && In(w, conn, Admitted) && conn in w'.sessions
    && (var s, s' := w.sessions[conn], w'.sessions[conn];
        && w'.sessions == w.sessions[conn := s']
        && s'.attachment.Some? && s' == s.(attachment := s'.attachment, attaches := s.attaches + 1, phase := Attached)
        && s.room in w'.server.rooms && s'.attachment.value.tx == w'.server.rooms[s.room].tx)
    && (w'.server.channels == w.server.channels
       || w'.server.channels == w.server.channels + [ChannelState(w.sessions[conn].room, [])])
    && w'.server.rows == w.server.rows && w'.created == w.created
    && w'.lock == w.lock && w'.pool == w.pool && w'.guards == w.guards
  }

  lemma AttachHasShape(w: World, conn: ConnId, delivered: bool)
    requires In(w, conn, Admitted) && w.lock.None? && w.sessions[conn].room in w.server.rows
    ensures AttachShape(w, conn, DoAttach(w, conn, true, delivered))
    ensures var w', id := DoAttach(w, conn, true, delivered), w.sessions[conn].room;
            && w'.server == Attach(w.server, id, conn, true).0 && w'.history == w.history
            && w'.notes == w.notes[id := NotesOfAttach(w, id, w'.sessions[conn].attachment.value, conn)]
  {
  }

  function NotesOfAttach(w: World, id: RoomId, a: Attachment, conn: ConnId): seq<CreatorNote> {
    Since(w, id) + [Told(conn, a.isCreator, a.creatorId)]
  }

  lemma AttachMembersFit(cfg: Config, w: World, conn: ConnId, w': World)
    requires SessionsFit(cfg, w) && MembersFit(w) && AttachShape(w, conn, w')
    ensures MembersFit(w')
  {
    assert SessionFits(cfg, conn, w.sessions[conn], w.server.channels);
    forall k | 0 <= k < |w'.server.channels|
      ensures MembersOf(w'.sessions, k, Replay(w'.server.channels[k].log))
    {
      if k < |w.server.channels| {
        MembersOfCarryOver(w.sessions, w'.sessions, k, Replay(w.server.channels[k].log));
      } else {
        NobodyJoinedYet(cfg, w, w', k);
      }
    }
  }

  // On a channel that was not there before, nobody has joined.
  lemma NobodyJoinedYet(cfg: Config, w: World, w': World, k: nat)
    requires SessionsFit(cfg, w) && SameMembers(w.sessions, w'.sessions)
    requires |w.server.channels| <= k < |w'.server.channels| && w'.server.channels[k].log == []
    ensures MembersOf(w'.sessions, k, Replay(w'.server.channels[k].log))
  {
    forall x | x in w.sessions && w.sessions[x].joined
      ensures w.sessions[x].attachment.Some? && w.sessions[x].attachment.value.tx < |w.server.channels|
    {
      assert SessionFits(cfg, x, w.sessions[x], w.server.channels);
    }
  }

  lemma AttachNotesFit(w: World, id: RoomId, conn: ConnId)
    requires CreatorsFit(w) && id in w.server.rows
    ensures var (server, answer) := Attach(w.server, id, conn, true);
            var notes := NotesOfAttach(w, id, answer.value, conn);
            CreatorBy(notes) == server.rooms[id].creatorId && Truthful(notes)
  {
    var (server, answer) := Attach(w.server, id, conn, true);
    var told := Told(conn, answer.value.isCreator, answer.value.creatorId);
    assert Truthful(Notes(w, id));
    if id in w.server.rooms {
      assert CreatorFits(w, id);
      NotesAppend(Notes(w, id), told);
    } else {
      NotesAppend(Notes(w, id), Reset);
      NotesAppend(Notes(w, id) + [Reset], told);
    }
  }

  lemma AttachCreatorsFit(w: World, conn: ConnId, w': World)
    requires CreatorsFit(w) && AttachShape(w, conn, w') && w.sessions[conn].room in w.server.rows
    requires var id := w.sessions[conn].room;
             && w'.server == Attach(w.server, id, conn, true).0
             && w'.sessions[conn].attachment == Attach(w.server, id, conn, true).1
             && w'.notes == w.notes[id := NotesOfAttach(w, id, w'.sessions[conn].attachment.value, conn)]
    requires w.sessions[conn].attachment.None?
    ensures CreatorsFit(w')
  {
    var id := w.sessions[conn].room;
    AttachNotesFit(w, id, conn);
    AttachElsewhereKeeps(w.server, id, conn);
    OtherNotesKept(w, w', id);
    forall x | x in w'.server.rooms && x != id ensures CreatorFits(w', x) {
      OtherCreatorFits(w, conn, w', x);
    }
    OwnCreatorFits(w, conn, w');
  }

  lemma AttachElsewhereKeeps(s: Server, id: RoomId, conn: ConnId)
    ensures var rooms := Attach(s, id, conn, true).0.rooms;
            forall x :: x != id && x in rooms ==> x in s.rooms && rooms[x] == s.rooms[x]
  {
  }

  lemma OtherNotesKept(w: World, w': World, id: RoomId)
    requires CreatorsFit(w) && id in w'.notes && w'.notes == w.notes[id := w'.notes[id]] && Truthful(w'.notes[id])
    ensures forall x :: x in w'.notes ==> Truthful(w'.notes[x])
    ensures forall x :: x != id ==> Notes(w', x) == Notes(w, x)
  {
  }

  lemma OtherCreatorFits(w: World, conn: ConnId, w': World, x: RoomId)
    requires CreatorsFit(w) && conn in w.sessions && w.sessions[conn].attachment.None?
    requires conn in w'.sessions && w'.sessions == w.sessions[conn := w'.sessions[conn]]
    requires x in w.server.rooms && x in w'.server.rooms && w'.server.rooms[x] == w.server.rooms[x]
             && Notes(w', x) == Notes(w, x)
    ensures CreatorFits(w', x)
  {
    assert CreatorFits(w, x);
  }

  lemma OwnCreatorFits(w: World, conn: ConnId, w': World)
    requires CreatorsFit(w) && AttachShape(w, conn, w') && w.sessions[conn].room in w.server.rows
    requires var id := w.sessions[conn].room;
             && w'.server == Attach(w.server, id, conn, true).0
             && CreatorBy(Notes(w', id)) == w'.server.rooms[id].creatorId
    ensures CreatorFits(w', w.sessions[conn].room)
  {
    var id := w.sessions[conn].room;
    assert id in w.server.rooms ==> CreatorFits(w, id);
  }

  lemma AttachSessionsFit(cfg: Config, w: World, conn: ConnId, w': World)
    requires SessionsFit(cfg, w) && ServerFits(w') && AttachShape(w, conn, w')
    ensures SessionsFit(cfg, w')
  {
    SessionsFitAsLogsGrow(cfg, w, w'.server.channels);
    AttachedSessionFits(cfg, w, conn, w');
  }

  lemma AttachedSessionFits(cfg: Config, w: World, conn: ConnId, w': World)
    requires SessionsFit(cfg, w) && ServerFits(w') && AttachShape(w, conn, w')
    ensures SessionFits(cfg, conn, w'.sessions[conn], w'.server.channels)
  {
    SessionsFitAsLogsGrow(cfg, w, w'.server.channels);
    assert SessionFits(cfg, conn, w.sessions[conn], w'.server.channels);
    assert RoomFits(w'.server, w.sessions[conn].room);
    AttachedFits(cfg, conn, w.sessions[conn], w'.server.channels, w'.sessions[conn].attachment.value);
  }

  lemma AttachedFits(cfg: Config, conn: ConnId, s: Session, channels: seq<ChannelState>, a: Attachment)
    requires SessionFits(cfg, conn, s, channels) && s.phase.Admitted?
    requires a.tx < |channels| && channels[a.tx].owner == s.room
    ensures SessionFits(cfg, conn, s.(attachment := Some(a), attaches := s.attaches + 1, phase := Attached), channels)
  {
  }

  lemma AttachLockFits(w: World, conn: ConnId, w': World)
    requires LockFits(w) && HashesFit(w) && GuardsFit(w) && AttachShape(w, conn, w') && w.lock.None?
    ensures LockFits(w') && HashesFit(w') && GuardsFit(w')
  {
    GuardsUnheld(w, conn, w'.sessions[conn]);
  }

  lemma AttachKeeps(cfg: Config, w: World, conn: ConnId, up: bool, delivered: bool)
    requires Inv(cfg, w)
    ensures Inv(cfg, RoomStep(cfg, w, AttachRoom(conn, up, delivered)))
  {
    if In(w, conn, Admitted) && w.lock.None? {
      if up && w.sessions[conn].room in w.server.rows {
        FoundKeeps(cfg, w, conn, delivered);
      } else {
        UnavailableKeeps(cfg, w, conn, delivered);
      }
    }
  }

  lemma FoundKeeps(cfg: Config, w: World, conn: ConnId, delivered: bool)
    requires Inv(cfg, w) && In(w, conn, Admitted) && w.lock.None? && w.sessions[conn].room in w.server.rows
    ensures Inv(cfg, DoAttach(w, conn, true, delivered))
  {
    var w' := DoAttach(w, conn, true, delivered);
    AttachHasShape(w, conn, delivered);
    AttachedInv(cfg, w, conn, w');
  }

  lemma AttachedInv(cfg: Config, w: World, conn: ConnId, w': World)
    requires Inv(cfg, w) && w.lock.None? && AttachShape(w, conn, w') && w.sessions[conn].room in w.server.rows
    requires var id := w.sessions[conn].room;
             && w'.server == Attach(w.server, id, conn, true).0 && w'.history == w.history
             && w'.sessions[conn].attachment == Attach(w.server, id, conn, true).1
             && w'.notes == w.notes[id := NotesOfAttach(w, id, w'.sessions[conn].attachment.value, conn)]
    ensures Inv(cfg, w')
  {
    InvMeans(cfg, w);
    assert w.sessions[conn].attachment.None? by { SessionHolds(cfg, w, conn); }
    AttachCreatorsFit(w, conn, w');
    AttachServerFits(w, w.sessions[conn].room, conn, w');
    AttachMembersFit(cfg, w, conn, w');
    AttachSessionsFit(cfg, w, conn, w');
    AttachLockFits(w, conn, w');
    InvFrom(cfg, w');
  }

  // ---------- Sending on a channel ----------

  // A session that is in its room is present in its log.
  lemma LiveMemberIsPresent(cfg: Config, w: World, conn: ConnId)
    requires SessionsFit(cfg, w) && MembersFit(w)
    requires conn in w.sessions && w.sessions[conn].joined && !w.sessions[conn].phase.Closed?
    ensures w.sessions[conn].attachment.Some? && w.sessions[conn].attachment.value.tx < |w.server.channels|
    ensures conn in Replay(LogOf(w, conn)).present
  {
    assert SessionFits(cfg, conn, w.sessions[conn], w.server.channels);
    var k := w.sessions[conn].attachment.value.tx;
    assert MembersOf(w.sessions, k, Replay(w.server.channels[k].log));
    assert JoinedOn(w.sessions, conn, k);
  }

  lemma TrafficServerFits(w: World, k: nat, e: RoomEvent)
    requires ServerFits(w) && k < |w.server.channels| && e.IsTraffic() && Legal(Replay(w.server.channels[k].log), e)
    ensures ServerFits(w.(server := Publish(w.server, k, e)))
  {
    var w' := w.(server := Publish(w.server, k, e));
    ReplayAppend(w.server.channels[k].log, e);
    forall x | x in w'.server.rooms ensures RoomFits(w'.server, x) {
      assert RoomFits(w.server, x);
    }
    forall i | 0 <= i < |w'.server.channels| ensures ChannelFits(w'.server, w'.created, i) {
      assert ChannelFits(w.server, w.created, i);
    }
  }

  lemma TrafficMembersFit(w: World, k: nat, e: RoomEvent)
    requires MembersFit(w) && k < |w.server.channels| && e.IsTraffic()
    ensures MembersFit(w.(server := Publish(w.server, k, e)))
  {
    var w' := w.(server := Publish(w.server, k, e));
    ReplayAppend(w.server.channels[k].log, e);
    TalliesCarryOver(w, w');
  }

  // Sessions as before, and every log with the tally it had.
  lemma TalliesCarryOver(w: World, w': World)
    requires MembersFit(w) && w'.sessions == w.sessions
    requires |w'.server.channels| == |w.server.channels|
    requires forall i :: 0 <= i < |w.server.channels| ==>
             Replay(w'.server.channels[i].log) == Replay(w.server.channels[i].log)
    ensures MembersFit(w')
  {
  }

  lemma TrafficSessionsFit(cfg: Config, w: World, k: nat, e: RoomEvent)
    requires SessionsFit(cfg, w) && k < |w.server.channels|
    ensures SessionsFit(cfg, w.(server := Publish(w.server, k, e)))
  {
    SessionsFitAsLogsGrow(cfg, w, Append(w.server.channels, k, e));
  }

  lemma TrafficRestFits(w: World, w': World)
    requires LockFits(w) && HashesFit(w) && GuardsFit(w)
    requires w'.sessions == w.sessions && w'.lock == w.lock && w'.pool == w.pool && w'.guards == w.guards
             && w'.created == w.created
    requires w'.server.rooms == w.server.rooms && w'.server.rows == w.server.rows
    ensures LockFits(w') && HashesFit(w') && GuardsFit(w')
  {
  }

  lemma TrafficKeeps(cfg: Config, w: World, k: nat, e: RoomEvent)
    requires Inv(cfg, w) && k < |w.server.channels| && e.IsTraffic()
             && e.from in Replay(w.server.channels[k].log).present
    ensures Inv(cfg, w.(server := Publish(w.server, k, e)))
  {
    InvMeans(cfg, w);
    var w' := w.(server := Publish(w.server, k, e));
    TrafficServerFits(w, k, e);
    TrafficMembersFit(w, k, e);
    TrafficSessionsFit(cfg, w, k, e);
    CreatorsCarryOver(w, w');
    TrafficRestFits(w, w');
    InvFrom(cfg, w');
  }

  lemma SayKeeps(cfg: Config, w: World, conn: ConnId, e: RoomEvent)
    requires Inv(cfg, w)
    ensures Inv(cfg, RelayStep(cfg, w, Say(conn, e)))
  {
    SayingKeeps(cfg, w, conn, e);
  }

  lemma SayingKeeps(cfg: Config, w: World, conn: ConnId, e: RoomEvent)
    requires Inv(cfg, w)
    ensures Inv(cfg, DoSay(w, conn, e))
  {
    if AtSelect(w, conn) && e.IsTraffic() && !e.Chat? && e.from == conn {
      RelayingIsPresent(cfg, w, conn);
      TrafficKeeps(cfg, w, w.sessions[conn].attachment.value.tx, e);
    }
  }

  lemma SentFits(cfg: Config, conn: ConnId, s: Session, channels: seq<ChannelState>)
    requires SessionFits(cfg, conn, s, channels)
    ensures SessionFits(cfg, conn, s.(outbox := None), channels) && SameRole(s, s.(outbox := None))
    ensures s.outbox.Some? ==> s.outbox.value.IsTraffic() && s.outbox.value.from == conn
  {
  }

  lemma SendChatKeeps(cfg: Config, w: World, conn: ConnId)
    requires Inv(cfg, w)
    ensures Inv(cfg, RelayStep(cfg, w, SendChat(conn)))
  {
    if In(w, conn, Relaying) && w.sessions[conn].outbox.Some? {
      var s := w.sessions[conn];
      SessionHolds(cfg, w, conn);
      SentFits(cfg, conn, s, w.server.channels);
      RelayingIsPresent(cfg, w, conn);
      SessionOnly(cfg, w, conn, s.(outbox := None));
      TrafficKeeps(cfg, Put(w, conn, s.(outbox := None)), s.attachment.value.tx, s.outbox.value);
    }
  }

  lemma RelayingIsPresent(cfg: Config, w: World, conn: ConnId)
    requires Inv(cfg, w) && In(w, conn, Relaying)
    ensures w.sessions[conn].attachment.Some? && w.sessions[conn].attachment.value.tx < |w.server.channels|
    ensures conn in Replay(LogOf(w, conn)).present
  {
    InvMeans(cfg, w);
    assert SessionFits(cfg, conn, w.sessions[conn], w.server.channels);
    LiveMemberIsPresent(cfg, w, conn);
  }

  // ---------- Refreshing a row ----------

  lemma TouchKeeps(cfg: Config, w: World, id: RoomId, now: int)
    requires Inv(cfg, w)
    ensures Inv(cfg, w.(server := w.server.(rows := Touch(w.server.rows, id, now)),
                    history := w.history + [Touched(id, now)]))
  {
    InvMeans(cfg, w);
    var w' := w.(server := w.server.(rows := Touch(w.server.rows, id, now)), history := w.history + [Touched(id, now)]);
    TouchServerFits(w, id, now);
    TalliesCarryOver(w, w');
    CreatorsCarryOver(w, w');
    TouchRestFits(cfg, w, id, now);
    InvFrom(cfg, w');
  }

  lemma TouchRestFits(cfg: Config, w: World, id: RoomId, now: int)
    requires SessionsFit(cfg, w) && LockFits(w) && HashesFit(w) && GuardsFit(w)
    ensures var w' := w.(server := w.server.(rows := Touch(w.server.rows, id, now)),
                         history := w.history + [Touched(id, now)]);
            SessionsFit(cfg, w') && LockFits(w') && HashesFit(w') && GuardsFit(w')
  {
  }

  lemma TouchServerFits(w: World, id: RoomId, now: int)
    requires ServerFits(w)
    ensures ServerFits(w.(server := w.server.(rows := Touch(w.server.rows, id, now)),
                    history := w.history + [Touched(id, now)]))
  {
    var w' := w.(server := w.server.(rows := Touch(w.server.rows, id, now)), history := w.history + [Touched(id, now)]);
    RowsAppend(w.history, Touched(id, now));
    forall x | x in w'.server.rooms ensures RoomFits(w'.server, x) {
      assert RoomFits(w.server, x);
    }
    forall i | 0 <= i < |w'.server.channels| ensures ChannelFits(w'.server, w'.created, i) {
      assert ChannelFits(w.server, w.created, i);
    }
  }

  lemma ActivityKeeps(cfg: Config, w: World, conn: ConnId, payload: string, epoch: Option<nat>, counter: Option<nat>,
                      now: int, up: bool)
    requires Inv(cfg, w)
    ensures Inv(cfg, RelayStep(cfg, w, Activity(conn, payload, epoch, counter, now, up)))
  {
    if AtSelect(w, conn) {
      var e := Chat(conn, payload, epoch, counter);
      var composed := Put(w, conn, w.sessions[conn].(outbox := Some(e)));
      ActivityIs(w, conn, payload, epoch, counter, now, up);
      ComposeKeeps(cfg, w, conn, e);
      if up {
        TouchKeeps(cfg, composed, w.sessions[conn].room, now);
      }
    }
  }

  lemma ActivityIs(w: World, conn: ConnId, payload: string, epoch: Option<nat>, counter: Option<nat>, now: int,
                   up: bool)
    requires AtSelect(w, conn)
    ensures var s := w.sessions[conn];
            var composed := Put(w, conn, s.(outbox := Some(Chat(conn, payload, epoch, counter))));
            DoActivity(w, conn, payload, epoch, counter, now, up) ==
            if up then composed.(server := composed.server.(rows := Touch(composed.server.rows, s.room, now)),
                                 history := composed.history + [Touched(s.room, now)])
            else composed
  {
  }

  // ---------- Joining ----------

  lemma SubscribingFits(cfg: Config, conn: ConnId, s: Session, channels: seq<ChannelState>,
                        peers: seq<(ConnId, Participant)>)
    requires SessionFits(cfg, conn, s, channels) && s.phase.Keyed?
    requires var log := channels[s.attachment.value.tx].log;
             Lists(peers, Replay(log).present) && conn !in Replay(log).present
    ensures var at := |channels[s.attachment.value.tx].log|;
            SessionFits(cfg, conn, s.(snapshot := peers, seeded := 0, start := at, cursor := at, phase := Joining),
                channels)
  {
    var log := channels[s.attachment.value.tx].log;
    assert log[..|log|] == log;
  }

  lemma JoiningKeeps(cfg: Config, w: World, conn: ConnId, s': Session)
    requires Inv(cfg, w) && w.lock.None? && In(w, conn, Keyed)
    requires s'.phase.Joining? && SessionFits(cfg, conn, s', w.server.channels)
    requires var s := w.sessions[conn]; s'.room == s.room && s'.ip == s.ip && s'.hash == s.hash
                                        && s'.attachment == s.attachment && s'.joined == s.joined == false
    requires s'.room in w.server.rooms && |w.server.rooms[s'.room].participants| < MAX_PARTICIPANTS
    ensures Inv(cfg, Put(w, conn, s').(lock := Some(conn)))
  {
    InvMeans(cfg, w);
    UnjoinedUpdateMembers(w, conn, s', Put(w, conn, s').(lock := Some(conn)));
    CreatorsWhileAttached(w, conn, s', Some(conn));
    JoiningServerFits(w, conn, s');
    JoiningRestFits(cfg, w, conn, s');
    InvFrom(cfg, Put(w, conn, s').(lock := Some(conn)));
  }

  lemma JoiningServerFits(w: World, conn: ConnId, s': Session)
    requires ServerFits(w)
    ensures ServerFits(Put(w, conn, s').(lock := Some(conn)))
  {
  }

  lemma JoiningRestFits(cfg: Config, w: World, conn: ConnId, s': Session)
    requires SessionsFit(cfg, w) && LockFits(w) && HashesFit(w) && GuardsFit(w) && w.lock.None? && In(w, conn, Keyed)
    requires s'.phase.Joining? && SessionFits(cfg, conn, s', w.server.channels)
    requires var s := w.sessions[conn]; s'.room == s.room && s'.ip == s.ip && s'.hash == s.hash
    requires s'.room in w.server.rooms && |w.server.rooms[s'.room].participants| < MAX_PARTICIPANTS
    ensures var w' := Put(w, conn, s').(lock := Some(conn));
            SessionsFit(cfg, w') && LockFits(w') && HashesFit(w') && GuardsFit(w')
  {
    GuardsUnheld(w, conn, s');
    JoiningSessionsFit(cfg, w, conn, s');
    JoiningLockFits(w, conn, s');
    JoiningHashesFit(w, conn, s');
    SameGuardsFit(Put(w, conn, s'), Put(w, conn, s').(lock := Some(conn)));
  }

  lemma JoiningHashesFit(w: World, conn: ConnId, s': Session)
    requires HashesFit(w) && conn in w.sessions && s'.room == w.sessions[conn].room && s'.hash == w.sessions[conn].hash
    ensures HashesFit(Put(w, conn, s').(lock := Some(conn)))
  {
  }

  lemma SameGuardsFit(w: World, w': World)
    requires GuardsFit(w) && w'.sessions == w.sessions && w'.pool == w.pool && w'.guards == w.guards
    ensures GuardsFit(w')
  {
  }

  lemma JoiningLockFits(w: World, conn: ConnId, s': Session)
    requires LockFits(w) && w.lock.None? && conn in w.sessions && s'.phase.Joining?
    requires s'.room in w.server.rooms && |w.server.rooms[s'.room].participants| < MAX_PARTICIPANTS
    ensures LockFits(Put(w, conn, s').(lock := Some(conn)))
  {
  }

  lemma JoiningSessionsFit(cfg: Config, w: World, conn: ConnId, s': Session)
    requires SessionsFit(cfg, w) && SessionFits(cfg, conn, s', w.server.channels)
    ensures SessionsFit(cfg, Put(w, conn, s').(lock := Some(conn)))
  {
  }

  lemma UnjoinedUpdateMembers(w: World, conn: ConnId, s': Session, w': World)
    requires MembersFit(w) && conn in w.sessions && !w.sessions[conn].joined && !s'.joined
    requires w'.sessions == w.sessions[conn := s'] && w'.server.channels == w.server.channels
    ensures MembersFit(w')
  {
    MembersCarryOver(w, w');
  }

  lemma CreatorsWhileAttached(w: World, conn: ConnId, s': Session, lock: Option<ConnId>)
    requires CreatorsFit(w) && conn in w.sessions
    requires s'.room == w.sessions[conn].room && s'.attachment == w.sessions[conn].attachment && !s'.phase.Closed?
    ensures CreatorsFit(Put(w, conn, s').(lock := lock))
  {
    var w' := Put(w, conn, s').(lock := lock);
    forall id | id in w.server.rooms ensures CreatorFits(w', id) {
      assert CreatorFits(w, id) && Notes(w', id) == Notes(w, id);
    }
  }

  // The record of a session that subscribes here and has this snapshot.
  function Subscribing(s: Session, peers: seq<(ConnId, Participant)>, at: nat): Session {
    s.(snapshot := peers, seeded := 0, start := at, cursor := at, phase := Joining)
  }

  lemma SubscriptionFits(cfg: Config, w: World, conn: ConnId, peers: seq<(ConnId, Participant)>)
    requires SessionsFit(cfg, w) && ServerFits(w) && MembersFit(w) && In(w, conn, Keyed)
    requires var room := w.sessions[conn].room;
             room in w.server.rooms && Lists(peers, w.server.rooms[room].participants)
    ensures var s, k := w.sessions[conn], w.server.rooms[w.sessions[conn].room].tx;
            && k < |w.server.channels| && !s.joined
            && SessionFits(cfg, conn, Subscribing(s, peers, |w.server.channels[k].log|), w.server.channels)
  {
    var s := w.sessions[conn];
    assert SessionFits(cfg, conn, s, w.server.channels);
    SameChannel(cfg, w, conn);
    LiveChannel(w, s.room);
    UnjoinedIsUnseen(w, conn, s.attachment.value.tx);
    SubscribingFits(cfg, conn, s, w.server.channels, peers);
  }

  lemma AdmittedKeeps(cfg: Config, w: World, conn: ConnId, peers: seq<(ConnId, Participant)>)
    requires Inv(cfg, w) && In(w, conn, Keyed) && w.lock.None?
    requires var room := w.sessions[conn].room;
             CheckJoin(w.server, room, MAX_PARTICIPANTS) == Admit && Lists(peers, w.server.rooms[room].participants)
    ensures w.server.rooms[w.sessions[conn].room].tx < |w.server.channels|
    ensures var at := |w.server.channels[w.server.rooms[w.sessions[conn].room].tx].log|;
            Inv(cfg, Put(w, conn, Subscribing(w.sessions[conn], peers, at)).(lock := Some(conn)))
  {
    InvMeans(cfg, w);
    SubscriptionFits(cfg, w, conn, peers);
    JoiningKeeps(cfg, w, conn,
        Subscribing(w.sessions[conn], peers, |w.server.channels[w.server.rooms[w.sessions[conn].room].tx].log|));
  }

  lemma StartJoinKeeps(cfg: Config, w: World, conn: ConnId, peers: seq<(ConnId, Participant)>, delivered: bool)
    requires Inv(cfg, w)
    ensures Inv(cfg, JoinStep(cfg, w, StartJoin(conn, peers, delivered)))
  {
    if In(w, conn, Keyed) && w.lock.None? {
      var room := w.sessions[conn].room;
      if CheckJoin(w.server, room, MAX_PARTICIPANTS) != Admit {
        TurnedAwayKeeps(cfg, w, conn, delivered);
      } else if Lists(peers, w.server.rooms[room].participants) {
        AdmittedKeeps(cfg, w, conn, peers);
      }
    }
  }

  // A session in the middle of its join has not been seen in the room, which is live.
  lemma JoinerIsNew(cfg: Config, w: World, conn: ConnId)
    requires Inv(cfg, w) && In(w, conn, Joining)
    ensures CanEnrol(w, conn)
  {
    InvMeans(cfg, w);
    JoinerCanEnrol(cfg, w, conn);
  }

  lemma JoinerCanEnrol(cfg: Config, w: World, conn: ConnId)
    requires SessionsFit(cfg, w) && ServerFits(w) && MembersFit(w) && LockFits(w) && In(w, conn, Joining)
    ensures CanEnrol(w, conn)
  {
    JoinerIsAttached(cfg, w, conn);
    SameChannel(cfg, w, conn);
    JoinerIsUnseen(w, conn);
  }

  lemma JoinerIsUnseen(w: World, conn: ConnId)
    requires ServerFits(w) && MembersFit(w) && conn in w.sessions && w.sessions[conn].room in w.server.rooms
    requires w.sessions[conn].attachment.Some? && !w.sessions[conn].joined
             && w.sessions[conn].attachment.value.tx == w.server.rooms[w.sessions[conn].room].tx
    ensures w.sessions[conn].attachment.value.tx < |w.server.channels|
    ensures Legal(Replay(LogOf(w, conn)), Announcement(conn, w.sessions[conn].keys))
  {
    LiveChannel(w, w.sessions[conn].room);
    UnjoinedIsUnseen(w, conn, w.sessions[conn].attachment.value.tx);
  }

  lemma JoinerIsAttached(cfg: Config, w: World, conn: ConnId)
    requires SessionsFit(cfg, w) && LockFits(w) && In(w, conn, Joining)
    ensures w.sessions[conn].attachment.Some? && !w.sessions[conn].joined && w.lock == Some(conn)
    ensures w.sessions[conn].room in w.server.rooms
            && |w.server.rooms[w.sessions[conn].room].participants| < MAX_PARTICIPANTS
  {
    assert SessionFits(cfg, conn, w.sessions[conn], w.server.channels);
  }

  lemma UnjoinedIsUnseen(w: World, conn: ConnId, k: nat)
    requires MembersFit(w) && k < |w.server.channels| && conn in w.sessions && !w.sessions[conn].joined
    ensures var t := Replay(w.server.channels[k].log); conn !in t.present && conn !in t.gone
  {
    assert MembersOf(w.sessions, k, Replay(w.server.channels[k].log));
    assert !JoinedOn(w.sessions, conn, k);
  }

  lemma EnrolServerFits(w: World, id: RoomId, conn: ConnId, p: Participant)
    requires ServerFits(w) && id in w.server.rooms && w.server.rooms[id].tx < |w.server.channels|
    requires |w.server.rooms[id].participants| < MAX_PARTICIPANTS
    requires Legal(Replay(w.server.channels[w.server.rooms[id].tx].log), Announcement(conn, p))
    ensures ServerFits(w.(server := Enrol(w.server, id, conn, p)))
  {
    var s' := Enrol(w.server, id, conn, p);
    forall x | x in s'.rooms ensures RoomFits(s', x) {
      EnrolRoomFits(w, id, conn, p, x);
    }
    forall k: nat | k < |s'.channels| ensures ChannelFits(s', w.created, k) {
      EnrolChannelFits(w, id, conn, p, k);
    }
  }

  lemma EnrolRoomFits(w: World, id: RoomId, conn: ConnId, p: Participant, x: RoomId)
    requires ServerFits(w) && id in w.server.rooms && w.server.rooms[id].tx < |w.server.channels|
    requires |w.server.rooms[id].participants| < MAX_PARTICIPANTS && x in w.server.rooms
    ensures RoomFits(Enrol(w.server, id, conn, p), x)
  {
    var before := w.server.rooms[id].participants;
    assert before[conn := p].Keys == before.Keys + {conn};
    assert RoomFits(w.server, x);
  }

  lemma EnrolChannelFits(w: World, id: RoomId, conn: ConnId, p: Participant, k: nat)
    requires ServerFits(w) && id in w.server.rooms && w.server.rooms[id].tx < |w.server.channels|
             && k < |w.server.channels|
    requires Legal(Replay(w.server.channels[w.server.rooms[id].tx].log), Announcement(conn, p))
    ensures ChannelFits(Enrol(w.server, id, conn, p), w.created, k)
  {
    assert ChannelFits(w.server, w.created, k);
    LiveChannel(w, id);
    ReplayAppend(w.server.channels[k].log, Announcement(conn, p));
  }

  lemma EnrolMembersFit(w: World, conn: ConnId, s': Session, k: nat, w': World)
    requires MembersFit(w) && conn in w.sessions && !w.sessions[conn].joined
    requires s'.joined && s'.attachment.Some? && s'.attachment.value.tx == k < |w.server.channels| && !s'.phase.Closed?
    requires w'.sessions == w.sessions[conn := s']
    requires w'.server.channels == Append(w.server.channels, k, Announcement(conn, s'.keys))
    ensures MembersFit(w')
  {
    forall i | 0 <= i < |w'.server.channels|
      ensures MembersOf(w'.sessions, i, Replay(w'.server.channels[i].log))
    {
      var t := Replay(w.server.channels[i].log);
      assert MembersOf(w.sessions, i, t);
      if i == k {
        ReplayAppend(w.server.channels[k].log, Announcement(conn, s'.keys));
        MembersOfEnrols(w.sessions, conn, s', k, t);
      } else {
        MembersOfElsewhere(w.sessions, conn, s', i, t);
      }
    }
  }

  lemma MembersOfEnrols(sessions: map<ConnId, Session>, conn: ConnId, s': Session, k: nat, t: Tally)
    requires MembersOf(sessions, k, t) && conn in sessions && !sessions[conn].joined
    requires s'.joined && s'.attachment.Some? && s'.attachment.value.tx == k && !s'.phase.Closed?
    ensures MembersOf(sessions[conn := s'], k, Count(t, Announcement(conn, s'.keys)))
  {
    assert !JoinedOn(sessions, conn, k);
    var sessions', t' := sessions[conn := s'], Count(t, Announcement(conn, s'.keys));
    assert t' == t.(present := t.present[conn := s'.keys]);
    OthersAsBefore(sessions, conn, s', k);
  }

  lemma OthersAsBefore(sessions: map<ConnId, Session>, conn: ConnId, s': Session, k: nat)
    ensures forall x :: x != conn ==>
              && (JoinedOn(sessions[conn := s'], x, k) <==> JoinedOn(sessions, x, k))
              && (x in sessions ==> sessions[conn := s'][x] == sessions[x])
  {
  }

  // What one session does on its channel is nothing to the others.
  lemma MembersOfElsewhere(sessions: map<ConnId, Session>, conn: ConnId, s': Session, i: nat, t: Tally)
    requires MembersOf(sessions, i, t) && !JoinedOn(sessions, conn, i) && !JoinedOn(sessions[conn := s'], conn, i)
    ensures MembersOf(sessions[conn := s'], i, t)
  {
    assert forall x :: x != conn ==> (JoinedOn(sessions[conn := s'], x, i) <==> JoinedOn(sessions, x, i));
  }

  lemma EnrolledFits(cfg: Config, conn: ConnId, s: Session, channels: seq<ChannelState>)
    requires SessionFits(cfg, conn, s, channels) && s.phase.Joining?
    ensures SessionFits(cfg, conn,
            s.(joined := true, opening := |s.frames|, phase := if s.IsProtected() then Confirming else Seeding),
                channels)
  {
    var log := channels[s.attachment.value.tx].log;
    assert log[s.start..s.cursor] == [];
    assert s.snapshot[..0] == [];
    assert s.frames[..|s.frames|] == s.frames;
    assert s.frames[|s.frames|..] == [];
  }

  lemma EndJoinKeeps(cfg: Config, w: World, conn: ConnId)
    requires Inv(cfg, w)
    ensures Inv(cfg, JoinStep(cfg, w, EndJoin(conn)))
  {
    if In(w, conn, Joining) {
      JoinerIsNew(cfg, w, conn);
      EndJoinInv(cfg, w, conn);
    }
  }

  ghost predicate CanEnrol(w: World, conn: ConnId) {
    && In(w, conn, Joining) && w.lock == Some(conn)
    && var s := w.sessions[conn];
       && !s.joined && s.attachment.Some?
       && s.room in w.server.rooms && |w.server.rooms[s.room].participants| < MAX_PARTICIPANTS
       && s.attachment.value.tx == w.server.rooms[s.room].tx < |w.server.channels|
       && Legal(Replay(LogOf(w, conn)), Announcement(conn, s.keys))
  }

  lemma EnrolSessionsFit(cfg: Config, w: World, conn: ConnId)
    requires SessionsFit(cfg, w) && CanEnrol(w, conn)
    ensures SessionsFit(cfg, DoEndJoin(w, conn))
  {
    var w' := DoEndJoin(w, conn);
    SessionsFitAsLogsGrow(cfg, w, w'.server.channels);
    EnrolledFits(cfg, conn, w.sessions[conn], w'.server.channels);
  }

  lemma EnrolLockFits(w: World, conn: ConnId)
    requires LockFits(w) && HashesFit(w) && CanEnrol(w, conn)
    ensures LockFits(DoEndJoin(w, conn)) && HashesFit(DoEndJoin(w, conn))
  {
  }

  lemma EndJoinInv(cfg: Config, w: World, conn: ConnId)
    requires Inv(cfg, w) && CanEnrol(w, conn)
    ensures Inv(cfg, DoEndJoin(w, conn))
  {
    InvMeans(cfg, w);
    var s := w.sessions[conn];
    var w' := DoEndJoin(w, conn);
    EnrolServerFits(w, s.room, conn, s.keys);
    EnrolMembersFit(w, conn, w'.sessions[conn], s.attachment.value.tx, w');
    EnrolSessionsFit(cfg, w, conn);
    EnrolCreatorsFit(w, conn, w');
    EnrolLockFits(w, conn);
    EnrolGuardsFit(w, conn);
    InvFrom(cfg, w');
  }

  lemma EnrolGuardsFit(w: World, conn: ConnId)
    requires GuardsFit(w) && CanEnrol(w, conn)
    ensures GuardsFit(DoEndJoin(w, conn))
  {
    GuardsUnheld(w, conn, DoEndJoin(w, conn).sessions[conn]);
  }

  lemma EnrolCreatorsFit(w: World, conn: ConnId, w': World)
    requires CreatorsFit(w) && In(w, conn, Joining) && w' == DoEndJoin(w, conn) && w.lock == Some(conn)
    ensures CreatorsFit(w')
  {
    forall id | id in w'.server.rooms ensures CreatorFits(w', id) {
      assert CreatorFits(w, id) && Notes(w', id) == Notes(w, id);
    }
  }

  // ---------- Detaching ----------

  // The sessions and tallies after a detach, for the channel the session was on.
  lemma MembersOfDetaches(sessions: map<ConnId, Session>, conn: ConnId, s': Session, k: nat, t: Tally)
    requires MembersOf(sessions, k, t) && JoinedOn(sessions, conn, k) && !sessions[conn].phase.Closed?
    requires s'.phase.Closed? && s'.joined == sessions[conn].joined && s'.attachment == sessions[conn].attachment
             && s'.keys == sessions[conn].keys
    ensures !t.expired ==> MembersOf(sessions[conn := s'], k, Count(t, PeerLeft(conn)))
    ensures t.expired ==> MembersOf(sessions[conn := s'], k, t)
  {
    var sessions' := sessions[conn := s'];
    assert forall x :: JoinedOn(sessions', x, k) <==> JoinedOn(sessions, x, k);
  }

  function NotesOfDetach(w: World, server: Server, id: RoomId): map<RoomId, seq<CreatorNote>> {
    if id in server.rooms && server.rooms[id].participants == map[] then w.notes[id := Notes(w, id) + [Reset]]
    else w.notes
  }

  // What detaching changes besides the room's creator and its notes.
  ghost predicate DetachShape(w: World, conn: ConnId, w': World) {
    && In(w, conn, Leaving) && w.lock.None? && conn in w'.sessions
    && (var s := w.sessions[conn]; w'.sessions == w.sessions[conn := s.(detaches := s.detaches + 1, phase := Closed)])
    && w'.server.rows == w.server.rows && w'.created == w.created && w'.history == w.history
    && w'.lock == w.lock && w'.pool == w.pool && w'.guards == w.guards
  }

  lemma DetachedFits(cfg: Config, conn: ConnId, s: Session, channels: seq<ChannelState>)
    requires SessionFits(cfg, conn, s, channels) && s.phase.Leaving?
    ensures SessionFits(cfg, conn, s.(detaches := s.detaches + 1, phase := Closed), channels)
  {
  }

  lemma DetachRestFits(cfg: Config, w: World, conn: ConnId, w': World)
    requires SessionsFit(cfg, w) && LockFits(w) && HashesFit(w) && GuardsFit(w)
    requires DetachShape(w, conn, w') && Grown(w.server.channels, w'.server.channels)
    ensures SessionsFit(cfg, w') && LockFits(w') && HashesFit(w') && GuardsFit(w')
  {
    SessionsFitAsLogsGrow(cfg, w, w'.server.channels);
    DetachedFits(cfg, conn, w.sessions[conn], w'.server.channels);
    DetachLockFits(w, conn, w');
    DetachGuardsFit(w, conn, w');
  }

  lemma DetachLockFits(w: World, conn: ConnId, w': World)
    requires LockFits(w) && HashesFit(w) && DetachShape(w, conn, w')
    ensures LockFits(w') && HashesFit(w')
  {
  }

  lemma DetachGuardsFit(w: World, conn: ConnId, w': World)
    requires GuardsFit(w) && DetachShape(w, conn, w')
    ensures GuardsFit(w')
  {
    GuardsUnheld(w, conn, w'.sessions[conn]);
  }

  // Whether a leaving session is a participant of its room is whether it joined.
  lemma ParticipantIffJoined(cfg: Config, w: World, conn: ConnId)
    requires SessionsFit(cfg, w) && ServerFits(w) && MembersFit(w)
    requires In(w, conn, Leaving) && w.sessions[conn].room in w.server.rooms
    ensures var s := w.sessions[conn];
            && s.attachment.Some? && s.attachment.value.tx == w.server.rooms[s.room].tx < |w.server.channels|
            && (conn in w.server.rooms[s.room].participants <==> s.joined)
  {
    var s := w.sessions[conn];
    assert SessionFits(cfg, conn, s, w.server.channels);
    SameChannel(cfg, w, conn);
    LiveChannel(w, s.room);
    if s.joined {
      LiveMemberIsPresent(cfg, w, conn);
    } else {
      UnjoinedIsUnseen(w, conn, s.attachment.value.tx);
    }
  }

  // The room has gone: every channel that knows the session has expired.
  lemma GoneChannelExpired(cfg: Config, w: World, conn: ConnId)
    requires SessionsFit(cfg, w) && ServerFits(w) && conn in w.sessions && w.sessions[conn].attachment.Some?
    requires w.sessions[conn].room !in w.server.rooms
    ensures w.sessions[conn].attachment.value.tx < |w.server.channels| && Replay(LogOf(w, conn)).expired
  {
    assert SessionFits(cfg, conn, w.sessions[conn], w.server.channels);
    assert ChannelFits(w.server, w.created, w.sessions[conn].attachment.value.tx);
  }

  lemma DetachMembersFit(cfg: Config, w: World, conn: ConnId, w': World)
    requires MembersFit(w) && DetachShape(w, conn, w') && w.sessions[conn].attachment.Some?
    requires var s, k := w.sessions[conn], w.sessions[conn].attachment.value.tx;
             && k < |w.server.channels|
             && if s.joined && !Replay(w.server.channels[k].log).expired
                then w'.server.channels == Append(w.server.channels, k, PeerLeft(conn))
                else w'.server.channels == w.server.channels
    ensures MembersFit(w')
  {
    var s, k := w.sessions[conn], w.sessions[conn].attachment.value.tx;
    forall i | 0 <= i < |w'.server.channels|
      ensures MembersOf(w'.sessions, i, Replay(w'.server.channels[i].log))
    {
      var t := Replay(w.server.channels[i].log);
      assert MembersOf(w.sessions, i, t);
      if i == k && s.joined {
        ReplayAppend(w.server.channels[k].log, PeerLeft(conn));
        MembersOfDetaches(w.sessions, conn, w'.sessions[conn], k, t);
      } else {
        MembersOfElsewhere(w.sessions, conn, w'.sessions[conn], i, t);
      }
    }
  }

  lemma LeaveServerFits(w: World, id: RoomId, conn: ConnId)
    requires ServerFits(w) && id in w.server.rooms && Wired(w.server)
    ensures ServerFits(w.(server := Leave(w.server, id, conn)))
  {
    if conn in w.server.rooms[id].participants {
      ParticipantLeaves(w, id, conn);
    }
  }

  lemma ParticipantLeaves(w: World, id: RoomId, conn: ConnId)
    requires ServerFits(w) && id in w.server.rooms && Wired(w.server) && conn in w.server.rooms[id].participants
    ensures ServerFits(w.(server := Leave(w.server, id, conn)))
  {
    var s' := Leave(w.server, id, conn);
    forall x | x in s'.rooms ensures RoomFits(s', x) {
      LeaveRoomFits(w, id, conn, x);
    }
    forall k: nat | k < |s'.channels| ensures ChannelFits(s', w.created, k) {
      LeaveChannelFits(w, id, conn, k);
    }
  }

  lemma LeaveRoomFits(w: World, id: RoomId, conn: ConnId, x: RoomId)
    requires ServerFits(w) && id in w.server.rooms && Wired(w.server) && conn in w.server.rooms[id].participants
    requires x in w.server.rooms
    ensures RoomFits(Leave(w.server, id, conn), x)
  {
    var before := w.server.rooms[id].participants;
    assert (before - {conn}).Keys == before.Keys - {conn};
    assert RoomFits(w.server, x);
  }

  lemma LeaveChannelFits(w: World, id: RoomId, conn: ConnId, k: nat)
    requires ServerFits(w) && id in w.server.rooms && Wired(w.server) && conn in w.server.rooms[id].participants
    requires k < |w.server.channels|
    ensures ChannelFits(Leave(w.server, id, conn), w.created, k)
  {
    assert ChannelFits(w.server, w.created, k);
    LiveChannel(w, id);
    ReplayAppend(w.server.channels[k].log, PeerLeft(conn));
  }

  lemma ResetServerFits(w: World, id: RoomId)
    requires ServerFits(w) && id in w.server.rooms
    ensures ServerFits(w.(server := ResetIfEmpty(w.server, id)))
  {
    var w' := w.(server := ResetIfEmpty(w.server, id));
    forall x | x in w'.server.rooms ensures RoomFits(w'.server, x) {
      assert RoomFits(w.server, x);
    }
    forall i | 0 <= i < |w'.server.channels| ensures ChannelFits(w'.server, w'.created, i) {
      assert ChannelFits(w.server, w.created, i);
    }
  }

  lemma DetachServerFits(w: World, id: RoomId, conn: ConnId, w': World)
    requires ServerFits(w) && Wired(w.server)
    requires w'.server == Detach(w.server, id, conn) && w'.created == w.created && w'.history == w.history
    ensures ServerFits(w')
  {
    if id in w.server.rooms {
      LeaveServerFits(w, id, conn);
      var mid := w.(server := Leave(w.server, id, conn));
      ResetServerFits(mid, id);
      assert w'.server == mid.(server := ResetIfEmpty(mid.server, id)).server;
    }
  }

  // The room a detach leaves behind.
  ghost predicate LeftBehind(room: RoomState, room': RoomState, conn: ConnId) {
    && room'.tx == room.tx
    && room'.participants == room.participants - {conn}
    && room'.creatorId == if room'.participants == map[] then None else room.creatorId
  }

  lemma DetachRoomsAre(s: Server, id: RoomId, conn: ConnId)
    requires Wired(s) && id in s.rooms
    ensures var s' := Detach(s, id, conn);
            && s'.rooms == s.rooms[id := s'.rooms[id]] && LeftBehind(s.rooms[id], s'.rooms[id], conn)
            && s'.channels ==
               if conn in s.rooms[id].participants then Append(s.channels, s.rooms[id].tx, PeerLeft(conn))
               else s.channels
  {
    assert conn !in s.rooms[id].participants ==> s.rooms[id].participants - {conn} == s.rooms[id].participants;
  }

  lemma DetachCreatorsFit(w: World, conn: ConnId, w': World)
    requires CreatorsFit(w) && DetachShape(w, conn, w')
    requires var id := w.sessions[conn].room;
             && id in w.server.rooms && id in w'.server.rooms
             && w'.server.rooms == w.server.rooms[id := w'.server.rooms[id]]
             && LeftBehind(w.server.rooms[id], w'.server.rooms[id], conn)
             && w'.notes == NotesOfDetach(w, w'.server, id)
    ensures CreatorsFit(w')
  {
    var id := w.sessions[conn].room;
    NotesAppend(Notes(w, id), Reset);
    assert Truthful(Notes(w, id));
    forall x | x in w'.server.rooms ensures CreatorFits(w', x) {
      assert CreatorFits(w, x);
      if x != id { assert Notes(w', x) == Notes(w, x); }
    }
  }

  lemma GoneCreatorsFit(w: World, conn: ConnId, w': World)
    requires CreatorsFit(w) && DetachShape(w, conn, w') && w'.server == w.server && w'.notes == w.notes
    requires w.sessions[conn].room !in w.server.rooms
    ensures CreatorsFit(w')
  {
    forall x | x in w'.server.rooms ensures CreatorFits(w', x) {
      assert CreatorFits(w, x) && Notes(w', x) == Notes(w, x);
    }
  }

  lemma RoomsAreWired(w: World)
    requires ServerFits(w)
    ensures Wired(w.server)
  {
    forall id | id in w.server.rooms ensures w.server.rooms[id].tx < |w.server.channels| {
      assert RoomFits(w.server, id);
    }
  }

  lemma DetachKeeps(cfg: Config, w: World, conn: ConnId)
    requires Inv(cfg, w)
    ensures Inv(cfg, RoomStep(cfg, w, DetachRoom(conn)))
  {
    ServerHolds(cfg, w);
    RoomsAreWired(w);
    if In(w, conn, Leaving) && w.lock.None? {
      var w' := DoDetach(w, conn);
      DetachHasShape(w, conn);
      if w.sessions[conn].room in w.server.rooms {
        DetachFromRoom(cfg, w, conn, w');
      } else {
        DetachFromNothing(cfg, w, conn, w');
      }
    }
  }

  lemma DetachHasShape(w: World, conn: ConnId)
    requires Wired(w.server) && In(w, conn, Leaving) && w.lock.None?
    ensures var w', id := DoDetach(w, conn), w.sessions[conn].room;
            && DetachShape(w, conn, w') && w'.server == Detach(w.server, id, conn)
            && (id !in w.server.rooms ==> w'.server == w.server && w'.notes == w.notes)
            && (id in w.server.rooms ==>
                  && id in w'.server.rooms
                  && w'.notes == NotesOfDetach(w, w'.server, id))
  {
    if w.sessions[conn].room in w.server.rooms {
      DetachRoomsAre(w.server, w.sessions[conn].room, conn);
    }
  }

  // What detaching from a room in the map does to the channels.
  lemma DetachChannelsAre(cfg: Config, w: World, conn: ConnId)
    requires SessionsFit(cfg, w) && ServerFits(w) && MembersFit(w) && Wired(w.server)
    requires In(w, conn, Leaving) && w.sessions[conn].room in w.server.rooms
    ensures var s := w.sessions[conn];
            && s.attachment.Some? && s.attachment.value.tx < |w.server.channels|
            && var k, channels := s.attachment.value.tx, Detach(w.server, s.room, conn).channels;
               && Grown(w.server.channels, channels)
               && channels == if s.joined && !Replay(w.server.channels[k].log).expired
                              then Append(w.server.channels, k, PeerLeft(conn)) else w.server.channels
  {
    ParticipantIffJoined(cfg, w, conn);
    LiveChannel(w, w.sessions[conn].room);
    DetachChannelIs(w.server, w.sessions[conn].room, conn);
  }

  lemma DetachChannelIs(s: Server, id: RoomId, conn: ConnId)
    requires Wired(s) && id in s.rooms
    ensures var channels := Detach(s, id, conn).channels;
            && channels == (if conn in s.rooms[id].participants then Append(s.channels, s.rooms[id].tx, PeerLeft(conn))
                            else s.channels)
            && Grown(s.channels, channels)
  {
    DetachRoomsAre(s, id, conn);
  }

  lemma DetachFromRoom(cfg: Config, w: World, conn: ConnId, w': World)
    requires Inv(cfg, w) && Wired(w.server) && DetachShape(w, conn, w') && w.sessions[conn].room in w.server.rooms
    requires var id := w.sessions[conn].room;
             && w'.server == Detach(w.server, id, conn)
             && w'.notes == NotesOfDetach(w, w'.server, id)
    ensures Inv(cfg, w')
  {
    InvMeans(cfg, w);
    var id := w.sessions[conn].room;
    DetachRoomsAre(w.server, id, conn);
    DetachChannelsAre(cfg, w, conn);
    DetachCreatorsFit(w, conn, w');
    DetachServerFits(w, id, conn, w');
    DetachMembersFit(cfg, w, conn, w');
    DetachRestFits(cfg, w, conn, w');
    InvFrom(cfg, w');
  }

  lemma DetachFromNothing(cfg: Config, w: World, conn: ConnId, w': World)
    requires Inv(cfg, w) && DetachShape(w, conn, w') && w.sessions[conn].room !in w.server.rooms
    requires w'.server == w.server && w'.notes == w.notes
    ensures Inv(cfg, w')
  {
    InvMeans(cfg, w);
    assert w.sessions[conn].attachment.Some? by { SessionHolds(cfg, w, conn); }
    GoneChannelExpired(cfg, w, conn);
    GoneCreatorsFit(w, conn, w');
    DetachMembersFit(cfg, w, conn, w');
    DetachRestFits(cfg, w, conn, w');
    SameServerFits(w, w');
    InvFrom(cfg, w');
  }

  // ---------- Expiring ----------

  ghost predicate Ending(s: Server, ids: set<RoomId>, k: nat) {
    exists id :: id in ids && id in s.rooms && s.rooms[id].tx == k
  }

  lemma ExpireChannelAt(s: Server, ids: set<RoomId>, k: nat)
    requires k < |s.channels|
    ensures var ch, ch' := s.channels[k], ExpireChannels(s, ids)[k];
            ch' == if Ending(s, ids, k) then ch.(log := ch.log + [RoomExpired]) else ch
  {
  }

  lemma ExpireServerFits(w: World, now: int, threshold: int)
    requires ServerFits(w)
    ensures ServerFits(DoExpire(w.(lock := None), now, threshold, true))
  {
    var w' := DoExpire(w.(lock := None), now, threshold, true);
    RowsAppend(w.history, Swept(now, threshold));
    ExpiredRoomsFit(w, Stale(w.server.rows, now, threshold));
    forall k: nat | k < |w'.server.channels| ensures ChannelFits(w'.server, w'.created, k) {
      ExpiredChannelFits(w, Stale(w.server.rows, now, threshold), k);
    }
  }

  lemma ExpiredRoomsFit(w: World, stale: set<RoomId>)
    requires ServerFits(w)
    ensures var s' := Server(w.server.rows - stale, w.server.rooms - stale, ExpireChannels(w.server, stale));
            forall x :: x in s'.rooms ==> RoomFits(s', x)
  {
    var s' := Server(w.server.rows - stale, w.server.rooms - stale, ExpireChannels(w.server, stale));
    forall x | x in s'.rooms ensures RoomFits(s', x) {
      assert RoomFits(w.server, x);
      ExpireChannelAt(w.server, stale, w.server.rooms[x].tx);
    }
  }

  lemma ExpiredChannelFits(w: World, stale: set<RoomId>, k: nat)
    requires ServerFits(w) && k < |w.server.channels| && stale <= w.server.rows.Keys
    ensures ChannelFits(Server(w.server.rows - stale, w.server.rooms - stale, ExpireChannels(w.server, stale)),
            w.created, k)
  {
    ExpireChannelAt(w.server, stale, k);
    assert ChannelFits(w.server, w.created, k);
    ReplayAppend(w.server.channels[k].log, RoomExpired);
    if Ending(w.server, stale, k) {
      var id :| id in stale && id in w.server.rooms && w.server.rooms[id].tx == k;
      assert RoomFits(w.server, id);
    }
  }

  lemma ExpireMembersFit(w: World, w': World, stale: set<RoomId>)
    requires MembersFit(w) && w'.sessions == w.sessions && w'.server.channels == ExpireChannels(w.server, stale)
    ensures MembersFit(w')
  {
    forall k | 0 <= k < |w'.server.channels|
      ensures MembersOf(w'.sessions, k, Replay(w'.server.channels[k].log))
    {
      ExpireChannelAt(w.server, stale, k);
      assert MembersOf(w.sessions, k, Replay(w.server.channels[k].log));
      ReplayAppend(w.server.channels[k].log, RoomExpired);
    }
  }

  lemma ExpireSessionsFit(cfg: Config, w: World, w': World, stale: set<RoomId>)
    requires SessionsFit(cfg, w) && w'.sessions == w.sessions && w'.server.channels == ExpireChannels(w.server, stale)
    ensures SessionsFit(cfg, w')
  {
    forall k | 0 <= k < |w.server.channels|
      ensures w'.server.channels[k].owner == w.server.channels[k].owner
              && w.server.channels[k].log <= w'.server.channels[k].log
    {
      ExpireChannelAt(w.server, stale, k);
    }
    SessionsFitAsLogsGrow(cfg, w, w'.server.channels);
  }

  lemma ExpireRestFits(w: World, w': World, stale: set<RoomId>)
    requires LockFits(w) && w.lock.None? && HashesFit(w) && GuardsFit(w) && CreatorsFit(w)
    requires w'.sessions == w.sessions && w'.lock == w.lock && w'.pool == w.pool && w'.guards == w.guards
    requires w'.created == w.created && w'.notes == w.notes
    requires w'.server.rows == w.server.rows - stale && w'.server.rooms == w.server.rooms - stale
    ensures LockFits(w') && HashesFit(w') && GuardsFit(w') && CreatorsFit(w')
  {
    forall x | x in w'.server.rooms ensures CreatorFits(w', x) {
      assert CreatorFits(w, x) && Notes(w', x) == Notes(w, x);
    }
  }

  lemma ExpireKeeps(cfg: Config, w: World, now: int, threshold: int, up: bool)
    requires Inv(cfg, w)
    ensures Inv(cfg, RoomStep(cfg, w, ExpireRooms(now, threshold, up)))
  {
    ExpiringKeeps(cfg, w, now, threshold, up);
  }

  lemma ExpiringKeeps(cfg: Config, w: World, now: int, threshold: int, up: bool)
    requires Inv(cfg, w)
    ensures Inv(cfg, DoExpire(w, now, threshold, up))
  {
    InvMeans(cfg, w);
    if w.lock.None? && up {
      var w' := DoExpire(w, now, threshold, up);
      var stale := Stale(w.server.rows, now, threshold);
      ExpireServerFits(w, now, threshold);
      assert w.(lock := None) == w;
      ExpireMembersFit(w, w', stale);
      ExpireSessionsFit(cfg, w, w', stale);
      ExpireRestFits(w, w', stale);
      InvFrom(cfg, w');
    }
  }
}
