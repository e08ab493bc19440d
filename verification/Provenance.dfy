/**
 Where everything comes from: each event a room carries, and each frame a client is sent for
 one, goes back to a session of that room that said just that; and each Welcome says what the
 attach answered.
 */
module Provenance {
  import opened Wrappers
  import opened RoomEvents
  import opened RoomLog
  import opened RoomTable
  import opened ServerModel
  import opened Sessions
  import opened Protocol
  import opened StepShapes
  import opened ProtocolInvariant
  import opened RoomSteps
  import opened ProtocolRuns
  import opened ClientTheorems
  import opened CreatorClaims

  // ---------- What one step adds to a log ----------

  // The step sends this event on channel k.
  predicate Sends(w: World, l: Label, k: nat, e: RoomEvent) {
    match l
    case SendChat(conn) =>
      conn in w.sessions && w.sessions[conn].outbox == Some(e) && w.sessions[conn].attachment.Some?
          && w.sessions[conn].attachment.value.tx == k
    case Say(conn, event) =>
      AtSelect(w, conn) && w.sessions[conn].attachment.value.tx == k && event == e && e.IsTraffic() && !e.Chat?
          && e.from == conn
    case _ => false
  }

  predicate IsMore(log: seq<RoomEvent>, log': seq<RoomEvent>) {
    log' == log || (|log'| == |log| + 1 && log' == log + [log'[|log|]])
  }

  // Each channel gains one event at most, and traffic only by being sent.
  predicate LogStep(w: World, channels: seq<ChannelState>, l: Label, k: nat)
    requires k < |channels|
  {
    if k >= |w.server.channels| then channels[k].log == []
    else
      var log, log' := w.server.channels[k].log, channels[k].log;
      && channels[k].owner == w.server.channels[k].owner && IsMore(log, log')
      && (log' != log && log'[|log|].IsTraffic() ==> Sends(w, l, k, log'[|log|]))
  }

  ghost predicate LogsStep(w: World, channels: seq<ChannelState>, l: Label) {
    |w.server.channels| <= |channels| && forall k: nat :: k < |channels| ==> LogStep(w, channels, l, k)
  }

  lemma StillLogs(w: World, l: Label)
    ensures LogsStep(w, w.server.channels, l)
  {
  }

  lemma AppendLogs(w: World, l: Label, k: nat, e: RoomEvent)
    requires k < |w.server.channels| && (e.IsTraffic() ==> Sends(w, l, k, e))
    ensures LogsStep(w, Append(w.server.channels, k, e), l)
  {
  }

  lemma JoinLogs(cfg: Config, w: World, l: Label)
    requires IsJoin(l)
    ensures LogsStep(w, Step(cfg, w, l).server.channels, l)
  {
    StillLogs(w, l);
    if l.EndJoin? {
      EndJoinStepIs(cfg, w, l.conn);
      if In(w, l.conn, Joining) && w.sessions[l.conn].room in w.server.rooms
        && w.server.rooms[w.sessions[l.conn].room].tx < |w.server.channels| {
        AppendLogs(w, l, w.server.rooms[w.sessions[l.conn].room].tx, Announcement(l.conn, w.sessions[l.conn].keys));
      }
    } else {
      NoJoinNoChange(cfg, w, l);
    }
  }

  lemma RelayChannelsAre(cfg: Config, w: World, l: Label)
    requires IsRelay(l)
    ensures var channels := RelayStep(cfg, w, l).server.channels;
            || channels == w.server.channels
            || (exists k: nat, e: RoomEvent ::
                  k < |w.server.channels| && Sends(w, l, k, e) && channels == Append(w.server.channels, k, e))
  {
    match l
    case SendChat(conn) =>
      if In(w, conn, Relaying) && w.sessions[conn].outbox.Some? && w.sessions[conn].attachment.Some? {
        var k, e := w.sessions[conn].attachment.value.tx, w.sessions[conn].outbox.value;
        assert k < |w.server.channels| ==>
            Sends(w, l, k, e) && DoSendChat(w, conn).server.channels == Append(w.server.channels, k, e);
      }
    case Say(conn, e) =>
      if AtSelect(w, conn) && e.IsTraffic() && !e.Chat? && e.from == conn {
        var k := w.sessions[conn].attachment.value.tx;
        assert Sends(w, l, k, e) && DoSay(w, conn, e).server.channels == Append(w.server.channels, k, e);
      }
    case _ =>
  }

  lemma RelayLogs(cfg: Config, w: World, l: Label)
    requires IsRelay(l)
    ensures LogsStep(w, Step(cfg, w, l).server.channels, l)
  {
    StillLogs(w, l);
    RelayStepIs(cfg, w, l);
    RelayChannelsAre(cfg, w, l);
    var channels := RelayStep(cfg, w, l).server.channels;
    if channels != w.server.channels {
      var k: nat, e: RoomEvent :| k < |w.server.channels| && Sends(w, l, k, e)
          && channels == Append(w.server.channels, k, e);
      AppendLogs(w, l, k, e);
    }
  }

  lemma AttachLogs(w: World, conn: ConnId, up: bool, delivered: bool)
    ensures LogsStep(w, DoAttach(w, conn, up, delivered).server.channels, AttachRoom(conn, up, delivered))
  {
  }

  lemma DetachLogs(w: World, conn: ConnId)
    requires Wired(w.server)
    ensures LogsStep(w, DoDetach(w, conn).server.channels, DetachRoom(conn))
  {
    StillLogs(w, DetachRoom(conn));
    if In(w, conn, Leaving) && w.lock.None? && w.sessions[conn].room in w.server.rooms {
      DetachIs(w, conn);
      DetachRoomsAre(w.server, w.sessions[conn].room, conn);
      AppendLogs(w, DetachRoom(conn), w.server.rooms[w.sessions[conn].room].tx, PeerLeft(conn));
    }
  }

  lemma ExpireLogs(w: World, now: int, threshold: int, up: bool)
    ensures LogsStep(w, DoExpire(w, now, threshold, up).server.channels, ExpireRooms(now, threshold, up))
  {
  }

  lemma OtherStepsSayNothing(cfg: Config, w: World, l: Label)
    requires IsEntry(l) || IsAuthentication(l) || IsHandshake(l)
    ensures Step(cfg, w, l).server.channels == w.server.channels
  {
    if IsPrivate(l) {
      PrivateStep(cfg, w, l);
    } else {
      EntryStepIs(cfg, w, l);
    }
  }

  lemma StepLogs(cfg: Config, w: World, l: Label)
    requires Wired(w.server)
    ensures LogsStep(w, Step(cfg, w, l).server.channels, l)
  {
    if l.AttachRoom? || l.DetachRoom? || l.ExpireRooms? {
      LockedLogs(cfg, w, l);
    } else if IsJoin(l) {
      JoinLogs(cfg, w, l);
    } else if IsRelay(l) {
      RelayLogs(cfg, w, l);
    } else {
      StillLogs(w, l);
      OtherStepsSayNothing(cfg, w, l);
    }
  }

  lemma LockedLogs(cfg: Config, w: World, l: Label)
    requires Wired(w.server) && (l.AttachRoom? || l.DetachRoom? || l.ExpireRooms?)
    ensures LogsStep(w, Step(cfg, w, l).server.channels, l)
  {
    LockedStepIs(cfg, w, l);
    match l
    case AttachRoom(conn, up, delivered) => AttachLogs(w, conn, up, delivered);
    case DetachRoom(conn) => DetachLogs(w, conn);
    case ExpireRooms(now, threshold, up) => ExpireLogs(w, now, threshold, up);
  }

  // ---------- Traffic ----------

  // The n-th step of the run is a session of that room, in its relay loop, saying just
  // this; and a chat refreshes its room there, before it is sent, unless the table fails.
  ghost predicate Origin(cfg: Config, ls: seq<Label>, n: nat, room: RoomId, e: RoomEvent)
    requires n < |ls|
  {
    var w := Run(cfg, ls[..n]);
    && e.IsTraffic() && AtSelect(w, e.from) && w.sessions[e.from].room == room
    && if e.Chat? then
         && ls[n].Activity? && ls[n].conn == e.from
         && ls[n].payload == e.payload && ls[n].epoch == e.epoch && ls[n].counter == e.counter
         && (ls[n].up ==> Step(cfg, w, ls[n]).history == w.history + [Touched(room, ls[n].now)])
       else ls[n] == Say(e.from, e)
  }

  ghost predicate Backed(cfg: Config, ls: seq<Label>, room: RoomId, e: RoomEvent) {
    exists n: nat :: n < |ls| && Origin(cfg, ls, n, room, e)
  }

  lemma BackedLater(cfg: Config, ls: seq<Label>, l: Label, room: RoomId, e: RoomEvent)
    requires Backed(cfg, ls, room, e)
    ensures Backed(cfg, ls + [l], room, e)
  {
    var n: nat :| n < |ls| && Origin(cfg, ls, n, room, e);
    assert (ls + [l])[..n] == ls[..n];
    assert Origin(cfg, ls + [l], n, room, e);
  }

  lemma BackedNow(cfg: Config, ls: seq<Label>, l: Label, room: RoomId, e: RoomEvent)
    requires Origin(cfg, ls + [l], |ls|, room, e)
    ensures Backed(cfg, ls + [l], room, e)
  {
  }

  ghost predicate OutboxesBacked(cfg: Config, ls: seq<Label>, sessions: map<ConnId, Session>) {
    forall x :: x in sessions && sessions[x].outbox.Some? ==>
        Backed(cfg, ls, sessions[x].room, sessions[x].outbox.value)
  }

  ghost predicate LogsBacked(cfg: Config, ls: seq<Label>, channels: seq<ChannelState>) {
    forall k: nat, i: nat :: k < |channels| && i < |channels[k].log| && channels[k].log[i].IsTraffic() ==>
      Backed(cfg, ls, channels[k].owner, channels[k].log[i])
  }

  lemma AllBackedLater(cfg: Config, ls: seq<Label>, l: Label, w: World)
    requires OutboxesBacked(cfg, ls, w.sessions) && LogsBacked(cfg, ls, w.server.channels)
    ensures OutboxesBacked(cfg, ls + [l], w.sessions) && LogsBacked(cfg, ls + [l], w.server.channels)
  {
    forall x | x in w.sessions && w.sessions[x].outbox.Some?
      ensures Backed(cfg, ls + [l], w.sessions[x].room, w.sessions[x].outbox.value)
    {
      BackedLater(cfg, ls, l, w.sessions[x].room, w.sessions[x].outbox.value);
    }
    var channels := w.server.channels;
    forall k: nat, i: nat | k < |channels| && i < |channels[k].log| && channels[k].log[i].IsTraffic()
      ensures Backed(cfg, ls + [l], channels[k].owner, channels[k].log[i])
    {
      BackedLater(cfg, ls, l, channels[k].owner, channels[k].log[i]);
    }
  }

  lemma OutboxesNext(cfg: Config, ls: seq<Label>, l: Label, w: World)
    requires w == Run(cfg, ls) && OutboxesBacked(cfg, ls + [l], w.sessions)
    ensures OutboxesBacked(cfg, ls + [l], Step(cfg, w, l).sessions)
  {
    if l.Activity? {
      ActivityBacked(cfg, ls, l, w);
    } else {
      OutboxesKept(cfg, w, l);
    }
  }

  // Whoever has composed something had done so before, in the same room.
  ghost predicate OutboxesStay(sessions: map<ConnId, Session>, sessions': map<ConnId, Session>) {
    forall conn :: conn in sessions' && sessions'[conn].outbox.Some? ==>
      conn in sessions && sessions'[conn].outbox == sessions[conn].outbox && sessions'[conn].room == sessions[conn].room
  }

  // Nothing but an activity frame puts anything into an outbox.
  lemma OutboxesKept(cfg: Config, w: World, l: Label)
    requires !l.Activity?
    ensures OutboxesStay(w.sessions, Step(cfg, w, l).sessions)
  {
    if !HasSession(l) {
      SessionlessStep(cfg, w, l);
    } else if l.AttachRoom? {
      AttachStepIs(cfg, w, l.conn, l.up, l.delivered);
      AttachKeepsOutbox(w, l.conn, l.up, l.delivered);
    } else if l.SendChat? {
      SendChatStepIs(cfg, w, l.conn);
      SendingKeepsOutboxes(w.sessions, Step(cfg, w, l).sessions, l.conn);
    } else {
      StepChanges(cfg, w, l);
      ChangesKeepOutboxes(w.sessions, Step(cfg, w, l).sessions, l.conn);
    }
  }

  lemma AttachKeepsOutbox(w: World, conn: ConnId, up: bool, delivered: bool)
    ensures OutboxesStay(w.sessions, DoAttach(w, conn, up, delivered).sessions)
  {
  }

  lemma SendingKeepsOutboxes(sessions: map<ConnId, Session>, sessions': map<ConnId, Session>, x: ConnId)
    requires sessions' == sessions || (x in sessions && sessions' == sessions[x := sessions[x].(outbox := None)])
    ensures OutboxesStay(sessions, sessions')
  {
  }

  lemma ChangesKeepOutboxes(sessions: map<ConnId, Session>, sessions': map<ConnId, Session>, x: ConnId)
    requires Changes(sessions, sessions', x)
    ensures OutboxesStay(sessions, sessions')
  {
  }

  lemma ActivityBacked(cfg: Config, ls: seq<Label>, l: Label, w: World)
    requires w == Run(cfg, ls) && l.Activity? && OutboxesBacked(cfg, ls + [l], w.sessions)
    ensures OutboxesBacked(cfg, ls + [l], Step(cfg, w, l).sessions)
  {
    ActivityStepIs(cfg, w, l);
    if AtSelect(w, l.conn) {
      assert (ls + [l])[..|ls|] == ls;
      BackedNow(cfg, ls, l, w.sessions[l.conn].room, Chat(l.conn, l.payload, l.epoch, l.counter));
    }
  }

  lemma SentIsBacked(cfg: Config, ls: seq<Label>, l: Label, w: World, k: nat, e: RoomEvent)
    requires w == Run(cfg, ls) && SessionsFit(cfg, w) && OutboxesBacked(cfg, ls + [l], w.sessions)
    requires k < |w.server.channels| && Sends(w, l, k, e)
    ensures Backed(cfg, ls + [l], w.server.channels[k].owner, e)
  {
    var conn := l.conn;
    assert SessionFits(cfg, conn, w.sessions[conn], w.server.channels);
    if l.Say? {
      assert (ls + [l])[..|ls|] == ls;
      BackedNow(cfg, ls, l, w.sessions[conn].room, e);
    }
  }

  lemma LogsNext(cfg: Config, ls: seq<Label>, l: Label, w: World, channels: seq<ChannelState>)
    requires w == Run(cfg, ls) && SessionsFit(cfg, w)
    requires OutboxesBacked(cfg, ls + [l], w.sessions) && LogsBacked(cfg, ls + [l], w.server.channels)
    requires LogsStep(w, channels, l)
    ensures LogsBacked(cfg, ls + [l], channels)
  {
    forall k: nat, i: nat | k < |channels| && i < |channels[k].log| && channels[k].log[i].IsTraffic()
      ensures Backed(cfg, ls + [l], channels[k].owner, channels[k].log[i])
    {
      assert LogStep(w, channels, l, k);
      if i == |w.server.channels[k].log| {
        SentIsBacked(cfg, ls, l, w, k, channels[k].log[i]);
      }
    }
  }

  lemma {:induction false} RunIsBacked(cfg: Config, ls: seq<Label>)
    ensures OutboxesBacked(cfg, ls, Run(cfg, ls).sessions) && LogsBacked(cfg, ls, Run(cfg, ls).server.channels)
  {
    if ls == [] {
      NothingYet(cfg);
    } else {
      var prior, l := ls[..|ls| - 1], ls[|ls| - 1];
      RunIsBacked(cfg, prior);
      RunKeeps(cfg, prior);
      StepIsBacked(cfg, prior, l, Run(cfg, prior));
      RunOneMore(cfg, prior, l);
      assert ls == prior + [l];
    }
  }

  lemma NothingYet(cfg: Config)
    ensures OutboxesBacked(cfg, [], Run(cfg, []).sessions) && LogsBacked(cfg, [], Run(cfg, []).server.channels)
  {
  }

  lemma StepIsBacked(cfg: Config, ls: seq<Label>, l: Label, w: World)
    requires w == Run(cfg, ls) && Inv(cfg, w)
    requires OutboxesBacked(cfg, ls, w.sessions) && LogsBacked(cfg, ls, w.server.channels)
    ensures OutboxesBacked(cfg, ls + [l], Step(cfg, w, l).sessions)
    ensures LogsBacked(cfg, ls + [l], Step(cfg, w, l).server.channels)
  {
    SessionsHold(cfg, w);
    ServerHolds(cfg, w);
    RoomsAreWired(w);
    AllBackedLater(cfg, ls, l, w);
    OutboxesNext(cfg, ls, l, w);
    StepLogs(cfg, w, l);
    LogsNext(cfg, ls, l, w, Step(cfg, w, l).server.channels);
  }

  // Every chat, tree commit, welcome and typing notice a room ever carries was said, word
  // for word, by the session it is ascribed to, while that session was relaying in that
  // room; a chat's room was refreshed before it was sent.
  lemma {:induction false} TrafficHasOrigin(cfg: Config, ls: seq<Label>, k: nat, i: nat)
    requires k < |Run(cfg, ls).server.channels| && i < |Run(cfg, ls).server.channels[k].log|
    requires Run(cfg, ls).server.channels[k].log[i].IsTraffic()
    ensures Backed(cfg, ls, Run(cfg, ls).server.channels[k].owner, Run(cfg, ls).server.channels[k].log[i])
  {
    RunIsBacked(cfg, ls);
  }

  // ---------- Frames ----------

  // A frame says of an event all there is to say, to the client it is meant for.
  predicate Renders(conn: ConnId, f: OutgoingMessage, e: RoomEvent) {
    match f
    case MessageFrame(x, payload, epoch, counter) => e == Chat(x, payload, epoch, counter)
    case TreeCommitFrame(x, data) => e == TreeCommit(x, data)
    case TypingFrame(x) => e == Typing(x)
    case TreeWelcomeFrame(data) => e.TreeWelcome? && e.target == conn && e.treeData == data
    case _ => false
  }

  predicate IsTrafficFrame(f: OutgoingMessage) {
    f.NeedsKeys() || f.TreeWelcomeFrame?
  }

  // No client is ever sent a message, commit, welcome or typing notice that another session
  // of its room did not say, word for word.
  lemma {:induction false} NothingIsForged(cfg: Config, ls: seq<Label>, conn: ConnId, i: nat)
    requires conn in Run(cfg, ls).sessions && i < |Run(cfg, ls).sessions[conn].frames|
    requires IsTrafficFrame(Run(cfg, ls).sessions[conn].frames[i])
    ensures var s := Run(cfg, ls).sessions[conn];
            exists e :: Renders(conn, s.frames[i], e) && Backed(cfg, ls, s.room, e) && e.from != conn
  {
    RunKeeps(cfg, ls);
    RunIsBacked(cfg, ls);
    var w := Run(cfg, ls);
    FrameHasEvent(cfg, w, conn, i);
    var s := w.sessions[conn];
    var log := LogOf(w, conn);
    var j: nat :| j < |log| && Renders(conn, s.frames[i], log[j]) && log[j].IsTraffic() && log[j].from != conn;
    assert Backed(cfg, ls, s.room, log[j]);
  }

  lemma FrameHasEvent(cfg: Config, w: World, conn: ConnId, i: nat)
    requires Inv(cfg, w) && conn in w.sessions && i < |w.sessions[conn].frames|
             && IsTrafficFrame(w.sessions[conn].frames[i])
    ensures InRoom(w, conn) && w.server.channels[w.sessions[conn].attachment.value.tx].owner == w.sessions[conn].room
    ensures var log := LogOf(w, conn);
            exists j: nat :: j < |log| && Renders(conn, w.sessions[conn].frames[i], log[j]) && log[j].IsTraffic()
                && log[j].from != conn
  {
    InvMeans(cfg, w);
    SessionHolds(cfg, w, conn);
    assert w.sessions[conn].joined by {
      assert !w.sessions[conn].joined ==> IsSilent(w.sessions[conn].frames[i]);
    }
    JoinedIsInRoom(cfg, w, conn);
    RelayedFrame(conn, w.sessions[conn], LogOf(w, conn), i);
  }

  lemma RelayedFrame(conn: ConnId, s: Session, log: seq<RoomEvent>, i: nat)
    requires WroteExactly(conn, s, log) && i < |s.frames| && IsTrafficFrame(s.frames[i])
    ensures exists j: nat ::
              j < |log| && Renders(conn, s.frames[i], log[j]) && log[j].IsTraffic() && log[j].from != conn
  {
    var keys, relayed := KeyFrames(s.snapshot[..s.seeded]), RelayFrames(conn, log[s.start..s.cursor]);
    OnlyKeys(s.snapshot[..s.seeded]);
    InThirdPart(s.frames, s.opening, keys, relayed, i);
    var j := SourceOf(conn, log, s.start, s.cursor, i - s.opening - |keys|);
    EventOfFrame(conn, s.frames[i], log[j]);
  }

  // The event that a relayed frame renders.
  lemma SourceOf(conn: ConnId, log: seq<RoomEvent>, start: nat, cursor: nat, n: nat) returns (j: nat)
    requires start <= cursor <= |log| && n < |RelayFrames(conn, log[start..cursor])|
    ensures j < |log| && Concerns(conn, log[j]) && RelayFrames(conn, log[start..cursor])[n] == FromEvent(log[j])
  {
    var src := Sources(conn, log, start, cursor);
    SourcesExact(conn, log, start, cursor, src, RelayFrames(conn, log[start..cursor]));
    j := src[n];
  }

  lemma EventOfFrame(conn: ConnId, f: OutgoingMessage, e: RoomEvent)
    requires IsTrafficFrame(f) && f == FromEvent(e) && Concerns(conn, e)
    ensures Renders(conn, f, e) && e.IsTraffic() && e.from != conn
  {
  }

  // The opening is silent and the keys are keys.
  lemma InThirdPart(frames: seq<OutgoingMessage>, opening: nat, keys: seq<OutgoingMessage>,
                    relayed: seq<OutgoingMessage>, i: nat)
    requires opening <= |frames| && frames[opening..] == keys + relayed
    requires Silent(frames[..opening]) && forall f :: f in keys ==> f.PeerKeyFrame?
    requires i < |frames| && IsTrafficFrame(frames[i])
    ensures opening + |keys| <= i && frames[i] == relayed[i - opening - |keys|]
  {
    forall q: nat | q < opening ensures !IsTrafficFrame(frames[q]) {
      assert frames[..opening][q] == frames[q] && IsSilent(frames[..opening][q]);
    }
    assert frames[i] == frames[opening..][i - opening];
    forall q: nat | q < |keys| ensures !IsTrafficFrame(keys[q]) {
      assert keys[q].PeerKeyFrame?;
    }
  }

  lemma {:induction false} OnlyKeys(peers: seq<(ConnId, Participant)>)
    ensures forall f :: f in KeyFrames(peers) ==> f.PeerKeyFrame?
  {
    if peers != [] {
      OnlyKeys(peers[..|peers| - 1]);
    }
  }

  // ---------- Welcomes ----------

  // A Welcome bears the session's own id, the version its room calls for, and the answer
  // the session got when it attached.
  predicate Tells(conn: ConnId, s: Session, f: OutgoingMessage) {
    f.WelcomeFrame? ==>
      && f.peerId == conn && f.protocolVersion == (if s.hash.Some? then 2 else 1)
      && s.attachment.Some? && f.isCreator == s.attachment.value.isCreator
         && f.creatorId == s.attachment.value.creatorId
  }

  ghost predicate WelcomesFit(sessions: map<ConnId, Session>) {
    forall conn :: conn in sessions ==> WelcomeFits(conn, sessions[conn])
  }

  predicate WelcomeFits(conn: ConnId, s: Session) {
    forall f :: f in s.frames ==> Tells(conn, s, f)
  }

  lemma MovedKeepsWelcome(conn: ConnId, s: Session, s': Session)
    requires WelcomeFits(conn, s) && Moved(conn, s, s')
    ensures WelcomeFits(conn, s')
  {
    forall f | f in s'.frames ensures Tells(conn, s', f) {
      if f in s.frames {
        assert Tells(conn, s, f);
      } else {
        assert f == s'.frames[|s.frames|];
      }
    }
  }

  // Nobody has been welcomed before attaching.
  lemma AttachKeepsWelcome(cfg: Config, w: World, conn: ConnId, up: bool, delivered: bool)
    requires SessionsFit(cfg, w) && WelcomesFit(w.sessions)
    ensures WelcomesFit(Step(cfg, w, AttachRoom(conn, up, delivered)).sessions)
  {
    AttachStepIs(cfg, w, conn, up, delivered);
    if In(w, conn, Admitted) && w.lock.None? {
      SessionIsBare(cfg, w, conn);
      AttachedSession(w, conn, up, delivered);
      BareHasNoWelcome(conn, w.sessions[conn], DoAttach(w, conn, up, delivered).sessions[conn]);
    }
  }

  lemma BareHasNoWelcome(conn: ConnId, s: Session, s': Session)
    requires WelcomeFits(conn, s) && s.attachment.None?
    requires s'.frames == s.frames || s'.frames == s.frames + [AuthUnavailableFrame]
    ensures WelcomeFits(conn, s')
  {
    forall f | f in s'.frames ensures Tells(conn, s', f) {
      if f in s.frames {
        assert Tells(conn, s, f);
      }
    }
  }

  lemma AttachedSession(w: World, conn: ConnId, up: bool, delivered: bool)
    requires In(w, conn, Admitted) && w.lock.None?
    ensures var s, sessions' := w.sessions[conn], DoAttach(w, conn, up, delivered).sessions;
            && conn in sessions' && sessions' == w.sessions[conn := sessions'[conn]]
            && (sessions'[conn].frames == s.frames || sessions'[conn].frames == s.frames + [AuthUnavailableFrame])
  {
  }

  lemma {:induction false} RunWelcomesFit(cfg: Config, ls: seq<Label>)
    ensures WelcomesFit(Run(cfg, ls).sessions)
  {
    if ls != [] {
      var prior, l := ls[..|ls| - 1], ls[|ls| - 1];
      RunWelcomesFit(cfg, prior);
      RunKeeps(cfg, prior);
      InvMeans(cfg, Run(cfg, prior));
      StepWelcomesFit(cfg, Run(cfg, prior), l);
    }
  }

  lemma StepWelcomesFit(cfg: Config, w: World, l: Label)
    requires SessionsFit(cfg, w) && WelcomesFit(w.sessions)
    ensures WelcomesFit(Step(cfg, w, l).sessions)
  {
    if !HasSession(l) {
      SessionlessStep(cfg, w, l);
    } else if l.AttachRoom? {
      AttachKeepsWelcome(cfg, w, l.conn, l.up, l.delivered);
    } else if l.Activity? {
      ActivityStepIs(cfg, w, l);
      if AtSelect(w, l.conn) {
        assert WelcomeFits(l.conn, w.sessions[l.conn]);
        ComposedWelcome(l.conn, w.sessions[l.conn], Some(Chat(l.conn, l.payload, l.epoch, l.counter)));
      }
    } else if l.SendChat? {
      SendChatStepIs(cfg, w, l.conn);
      if HasChat(w, l.conn) {
        assert WelcomeFits(l.conn, w.sessions[l.conn]);
        ComposedWelcome(l.conn, w.sessions[l.conn], None);
      }
    } else {
      StepChanges(cfg, w, l);
      ChangedWelcomes(w.sessions, Step(cfg, w, l).sessions, l.conn);
    }
  }

  lemma ComposedWelcome(conn: ConnId, s: Session, outbox: Option<RoomEvent>)
    requires WelcomeFits(conn, s)
    ensures WelcomeFits(conn, s.(outbox := outbox))
  {
    forall f | f in s.frames ensures Tells(conn, s.(outbox := outbox), f) {
      assert Tells(conn, s, f);
    }
  }

  lemma ChangedWelcomes(sessions: map<ConnId, Session>, sessions': map<ConnId, Session>, conn: ConnId)
    requires WelcomesFit(sessions) && Changes(sessions, sessions', conn)
    ensures WelcomesFit(sessions')
  {
    if conn in sessions && conn in sessions' && sessions' != sessions {
      MovedKeepsWelcome(conn, sessions[conn], sessions'[conn]);
    }
  }

  // Whatever Welcome a client was sent tells the truth about its attach.
  lemma {:induction false} WelcomeIsTruthful(cfg: Config, ls: seq<Label>, conn: ConnId, i: nat)
    requires conn in Run(cfg, ls).sessions && i < |Run(cfg, ls).sessions[conn].frames|
    ensures Tells(conn, Run(cfg, ls).sessions[conn], Run(cfg, ls).sessions[conn].frames[i])
  {
    RunWelcomesFit(cfg, ls);
    assert WelcomeFits(conn, Run(cfg, ls).sessions[conn]);
  }
}
