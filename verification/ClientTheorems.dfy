/**
 What clients can rely on, in every state that any schedule of any sessions can reach:
 what they were sent, and what they know from it.
 */
module ClientTheorems {
  import opened Sequences
  import opened Wrappers
  import opened RoomEvents
  import opened RoomLog
  import opened Broadcast
  import opened Sessions
  import opened Protocol
  import opened ProtocolInvariant
  import opened RoomSteps
  import opened ProtocolRuns

  // ---------- Shorthands ----------

  ghost predicate InRoom(w: World, conn: ConnId) {
    && conn in w.sessions && w.sessions[conn].joined
    && w.sessions[conn].attachment.Some?
    && w.sessions[conn].attachment.value.tx < |w.server.channels|
  }

  lemma JoinedIsInRoom(cfg: Config, w: World, conn: ConnId)
    requires Inv(cfg, w) && conn in w.sessions && w.sessions[conn].joined
    ensures InRoom(w, conn)
    ensures WroteExactly(conn, w.sessions[conn], LogOf(w, conn)) && Subscribed(conn, w.sessions[conn], LogOf(w, conn))
    ensures WellFormed(LogOf(w, conn))
    ensures w.server.channels[w.sessions[conn].attachment.value.tx].owner == w.sessions[conn].room
  {
    InvMeans(cfg, w);
    assert SessionFits(cfg, conn, w.sessions[conn], w.server.channels);
    assert ChannelFits(w.server, w.created, w.sessions[conn].attachment.value.tx);
  }

  // ---------- Exact delivery ----------

  // A session that joined has written its opening, then one PeerKey for each of the first
  // `seeded` members of the roster at its subscription, and then the frames for exactly
  // the log from its subscription to its cursor: contiguous, in order, nothing skipped.
  // It starts on the log only once every member's keys are written.
  lemma {:induction false} DeliveryIsExact(cfg: Config, ls: seq<Label>, conn: ConnId)
    requires conn in Run(cfg, ls).sessions && Run(cfg, ls).sessions[conn].joined
    ensures var w := Run(cfg, ls);
            && InRoom(w, conn)
            && var s, log := w.sessions[conn], LogOf(w, conn);
               && s.opening <= |s.frames| && s.seeded <= |s.snapshot| && s.start <= s.cursor <= |log|
               && Lists(s.snapshot, Replay(log[..s.start]).present)
               && s.frames ==
                  s.frames[..s.opening] + KeyFrames(s.snapshot[..s.seeded]) + RelayFrames(conn, log[s.start..s.cursor])
               && Silent(s.frames[..s.opening])
               && (s.start < s.cursor ==> s.seeded == |s.snapshot|)
  {
    RunKeeps(cfg, ls);
    JoinedIsInRoom(cfg, Run(cfg, ls), conn);
    WritingIsExact(conn, Run(cfg, ls).sessions[conn], LogOf(Run(cfg, ls), conn));
  }

  lemma WritingIsExact(conn: ConnId, s: Session, log: seq<RoomEvent>)
    requires WroteExactly(conn, s, log)
    ensures s.frames ==
            s.frames[..s.opening] + KeyFrames(s.snapshot[..s.seeded]) + RelayFrames(conn, log[s.start..s.cursor])
  {
    assert s.frames == s.frames[..s.opening] + s.frames[s.opening..];
    Regroup(s.frames[..s.opening], KeyFrames(s.snapshot[..s.seeded]), RelayFrames(conn, log[s.start..s.cursor]));
  }

  // The receive arm of a relaying session follows what the bounded ring answers its
  // receiver: the next event of the unbounded log is written if it concerns the session, and
  // the session moves on by one; a write that fails, or an event that has been overwritten,
  // ends the session with nothing written; an empty queue changes nothing.
  predicate Follows(conn: ConnId, s: Session, s': Session, r: Received, delivered: bool) {
    match r
    case Empty => s' == s
    case Lagged(_) => s' == s.Enter(Leaving)
    case Event(e) =>
      if Concerns(conn, e) && !delivered then s' == s.Enter(Leaving)
      else s'.cursor == s.cursor + 1 && s'.frames == s.frames + Emit(conn, e)
           && s'.phase == if Concerns(conn, e) && e.RoomExpired? then Leaving else Relaying
  }

  lemma {:induction false} RingNeverSkips(cfg: Config, ls: seq<Label>, conn: ConnId, delivered: bool)
    requires AtSelect(Run(cfg, ls), conn)
    ensures var w := Run(cfg, ls);
            var s, log := w.sessions[conn], LogOf(w, conn);
            && s.cursor <= |log|
            && var w' := Step(cfg, w, Take(conn, delivered));
               && conn in w'.sessions && w' == Put(w, conn, w'.sessions[conn])
               && Follows(conn, s, w'.sessions[conn], Receive(log, s.cursor, cfg.capacity), delivered)
  {
    RunKeeps(cfg, ls);
    TakeFollows(cfg, Run(cfg, ls), conn, delivered);
  }

  lemma TakeFollows(cfg: Config, w: World, conn: ConnId, delivered: bool)
    requires Inv(cfg, w) && AtSelect(w, conn)
    ensures w.sessions[conn].cursor <= |LogOf(w, conn)|
    ensures var s, w' := w.sessions[conn], Step(cfg, w, Take(conn, delivered));
            && conn in w'.sessions && w' == Put(w, conn, w'.sessions[conn])
            && Follows(conn, s, w'.sessions[conn], Receive(LogOf(w, conn), s.cursor, cfg.capacity), delivered)
  {
    SessionHolds(cfg, w, conn);
    var s, log := w.sessions[conn], LogOf(w, conn);
    TakeStepIs(cfg, w, conn, delivered);
    if s.cursor == |log| {
      assert Put(w, conn, s) == w;
    } else {
      assert s.frames + [] == s.frames;
    }
  }

  lemma TakeStepIs(cfg: Config, w: World, conn: ConnId, delivered: bool)
    ensures Step(cfg, w, Take(conn, delivered)) == DoTake(cfg, w, conn, delivered)
  {
  }

  // ---------- Keys before messages ----------

  ghost function AnnouncedKeys(w: World): Roster {
    map x | x in w.sessions && w.sessions[x].joined :: w.sessions[x].keys
  }

  // Every join in every log announced the keys that session validated.
  lemma LogsAreVouched(cfg: Config, w: World, k: nat)
    requires Inv(cfg, w) && k < |w.server.channels|
    ensures Vouched(w.server.channels[k].log, AnnouncedKeys(w))
  {
    InvMeans(cfg, w);
    assert ChannelFits(w.server, w.created, k) && MembersOf(w.sessions, k, Replay(w.server.channels[k].log));
    MembersVouch(w, k, w.server.channels[k].log);
  }

  lemma MembersVouch(w: World, k: nat, log: seq<RoomEvent>)
    requires WellFormed(log) && MembersOf(w.sessions, k, Replay(log))
    ensures Vouched(log, AnnouncedKeys(w))
  {
    TallyMeans(log);
    forall j | 0 <= j < |log| && log[j].PeerJoined?
      ensures log[j].from in AnnouncedKeys(w) && log[j] == Announcement(log[j].from, AnnouncedKeys(w)[log[j].from])
    {
      assert Recorded(Replay(log), log[j]);
    }
  }

  // A client is sent a Message, TreeCommit or Typing frame of a peer only while it knows
  // that peer's keys from the frames before it, and the keys it knows are those the peer's
  // own session announced and the relay validated.
  lemma {:induction false} KeysBeforeMessages(cfg: Config, ls: seq<Label>, conn: ConnId)
    requires conn in Run(cfg, ls).sessions
    ensures KeysKnown(Run(cfg, ls).sessions[conn].frames, AnnouncedKeys(Run(cfg, ls)))
    ensures forall x :: x in AnnouncedKeys(Run(cfg, ls)) ==> ValidKeys(cfg, AnnouncedKeys(Run(cfg, ls))[x])
  {
    RunKeeps(cfg, ls);
    KeysKnownIn(cfg, Run(cfg, ls), conn);
    AnnouncedAreValid(cfg, Run(cfg, ls));
  }

  lemma AnnouncedAreValid(cfg: Config, w: World)
    requires Inv(cfg, w)
    ensures forall x :: x in AnnouncedKeys(w) ==> ValidKeys(cfg, AnnouncedKeys(w)[x])
  {
    InvMeans(cfg, w);
    forall x | x in AnnouncedKeys(w) ensures ValidKeys(cfg, AnnouncedKeys(w)[x]) {
      SessionHolds(cfg, w, x);
    }
  }

  lemma SilentKeysKnown(frames: seq<OutgoingMessage>, keys: Roster)
    requires Silent(frames)
    ensures KeysKnown(frames, keys)
  {
    assert forall i :: 0 <= i < |frames| ==> IsSilent(frames[i]);
  }

  lemma KeysKnownIn(cfg: Config, w: World, conn: ConnId)
    requires Inv(cfg, w) && conn in w.sessions
    ensures KeysKnown(w.sessions[conn].frames, AnnouncedKeys(w))
  {
    SessionHolds(cfg, w, conn);
    if w.sessions[conn].joined {
      InvMeans(cfg, w);
      JoinedIsInRoom(cfg, w, conn);
      LogsAreVouched(cfg, w, w.sessions[conn].attachment.value.tx);
      JoinedKeysKnown(conn, w.sessions[conn], LogOf(w, conn), AnnouncedKeys(w));
    } else {
      SilentKeysKnown(w.sessions[conn].frames, AnnouncedKeys(w));
    }
  }

  lemma SeedingKeepsKeysKnown(before: seq<OutgoingMessage>, peers: seq<(ConnId, Participant)>, keys: Roster)
    requires KeysKnown(before, keys)
    ensures KeysKnown(before + KeyFrames(peers), keys)
  {
    if peers == [] {
      assert before + [] == before;
    } else {
      var n := |peers| - 1;
      SeedingKeepsKeysKnown(before, peers[..n], keys);
      KeysKnownAppend(before + KeyFrames(peers[..n]), KeyFrame(peers[n]), keys);
      Regroup(before, KeyFrames(peers[..n]), [KeyFrame(peers[n])]);
    }
  }

  // What the client knows once all the keys of its snapshot are written: the roster at the
  // moment it subscribed.
  lemma SeededClientKnowsSnapshot(conn: ConnId, s: Session, log: seq<RoomEvent>)
    requires WroteExactly(conn, s, log) && Subscribed(conn, s, log)
    ensures ClientRoster(s.frames[..s.opening] + KeyFrames(s.snapshot)) == Replay(log[..s.start]).present - {conn}
  {
    SilenceTeachesNothing(s.frames[..s.opening]);
    SeedingTeaches(s.frames[..s.opening], s.snapshot);
    ListingIsRoster(s.snapshot, Replay(log[..s.start]).present);
    assert Replay(log[..s.start]).present - {conn} == Replay(log[..s.start]).present;
  }

  lemma JoinedKeysKnown(conn: ConnId, s: Session, log: seq<RoomEvent>, keys: Roster)
    requires WroteExactly(conn, s, log) && Subscribed(conn, s, log) && WellFormed(log) && Vouched(log, keys)
    ensures KeysKnown(s.frames, keys)
  {
    var opening := s.frames[..s.opening];
    assert s.frames == opening + s.frames[s.opening..];
    assert KeysKnown(opening, keys) by {
      assert forall i :: 0 <= i < |opening| ==> IsSilent(opening[i]);
    }
    SeedingKeepsKeysKnown(opening, s.snapshot[..s.seeded], keys);
    Regroup(opening, KeyFrames(s.snapshot[..s.seeded]), RelayFrames(conn, log[s.start..s.cursor]));
    if s.start < s.cursor {
      SeededClientKnowsSnapshot(conn, s, log);
      assert s.snapshot[..s.seeded] == s.snapshot;
      RelayKeepsKeysKnown(conn, log, s.start, s.cursor, opening + KeyFrames(s.snapshot), keys);
    } else {
      assert log[s.start..s.cursor] == [];
      assert opening + KeyFrames(s.snapshot[..s.seeded]) + [] == opening + KeyFrames(s.snapshot[..s.seeded]);
    }
  }

  // What it means to know a peer's keys: they were sent, by PeerKey or PeerJoined, and no
  // PeerLeft for that peer has been sent since.
  predicate Teaches(f: OutgoingMessage, x: ConnId, keys: Participant) {
    f == PeerKeyFrame(x, keys.publicKey, keys.pqPublicKey, keys.sig)
        || f == PeerJoinedFrame(x, keys.publicKey, keys.pqPublicKey, keys.sig)
  }

  ghost predicate Taught(frames: seq<OutgoingMessage>, x: ConnId, keys: Participant) {
    exists i :: 0 <= i < |frames| && Teaches(frames[i], x, keys) && SilentAbout(frames[i + 1..], x)
  }

  // Nothing said of the peer's keys or departure.
  predicate SilentAbout(frames: seq<OutgoingMessage>, x: ConnId) {
    forall f :: f in frames && (f.PeerKeyFrame? || f.PeerJoinedFrame? || f.PeerLeftFrame?) ==> f.peerId != x
  }

  lemma {:induction false} KnowingIsHavingBeenTaught(frames: seq<OutgoingMessage>, x: ConnId, keys: Participant)
    ensures x in ClientRoster(frames) && ClientRoster(frames)[x] == keys <==> Taught(frames, x, keys)
  {
    if frames != [] {
      var n := |frames| - 1;
      KnowingIsHavingBeenTaught(frames[..n], x, keys);
      TaughtNext(frames[..n], frames[n], x, keys);
      TakeNext(frames, n);
      assert frames[..n + 1] == frames;
    }
  }

  lemma TaughtNext(frames: seq<OutgoingMessage>, f: OutgoingMessage, x: ConnId, keys: Participant)
    ensures Taught(frames + [f], x, keys) <==> Teaches(f, x, keys) || (Taught(frames, x, keys) && SilentAbout([f], x))
  {
    var more, n := frames + [f], |frames|;
    if Teaches(f, x, keys) {
      assert Teaches(more[n], x, keys) && SilentAbout(more[n + 1..], x);
    } else if Taught(frames, x, keys) && SilentAbout([f], x) {
      StillTaught(frames, f, x, keys);
    } else if Taught(more, x, keys) {
      TaughtBefore(frames, f, x, keys);
    }
  }

  lemma StillTaught(frames: seq<OutgoingMessage>, f: OutgoingMessage, x: ConnId, keys: Participant)
    requires Taught(frames, x, keys) && SilentAbout([f], x)
    ensures Taught(frames + [f], x, keys)
  {
    var more := frames + [f];
    var i :| 0 <= i < |frames| && Teaches(frames[i], x, keys) && SilentAbout(frames[i + 1..], x);
    assert more[i + 1..] == frames[i + 1..] + [f];
    assert Teaches(more[i], x, keys) && SilentAbout(more[i + 1..], x);
  }

  lemma TaughtBefore(frames: seq<OutgoingMessage>, f: OutgoingMessage, x: ConnId, keys: Participant)
    requires Taught(frames + [f], x, keys) && !Teaches(f, x, keys)
    ensures Taught(frames, x, keys) && SilentAbout([f], x)
  {
    var more := frames + [f];
    var i :| 0 <= i < |more| && Teaches(more[i], x, keys) && SilentAbout(more[i + 1..], x);
    assert more[i + 1..] == frames[i + 1..] + [f];
    assert f in more[i + 1..];
    assert Teaches(frames[i], x, keys) && SilentAbout(frames[i + 1..], x);
  }

  // ---------- Roster agreement ----------

  // What a session of a room still has to write if nothing more happens: the rest of its
  // snapshot's keys, and frames for the events still queued.
  function Outstanding(conn: ConnId, s: Session, log: seq<RoomEvent>): seq<OutgoingMessage>
    requires s.seeded <= |s.snapshot| && s.cursor <= |log|
  {
    KeyFrames(s.snapshot[s.seeded..]) + RelayFrames(conn, log[s.cursor..])
  }

  lemma {:induction false} KeyFramesConcat(a: seq<(ConnId, Participant)>, b: seq<(ConnId, Participant)>)
    ensures KeyFrames(a + b) == KeyFrames(a) + KeyFrames(b)
  {
    if b == [] {
      assert a + b == a;
    } else {
      var n := |b| - 1;
      KeyFramesConcat(a, b[..n]);
      assert (a + b)[..|a + b| - 1] == a + b[..n];
      Regroup(KeyFrames(a), KeyFrames(b[..n]), [KeyFrame(b[n])]);
    }
  }

  lemma {:induction false} RelayFramesConcat(conn: ConnId, a: seq<RoomEvent>, b: seq<RoomEvent>)
    ensures RelayFrames(conn, a + b) == RelayFrames(conn, a) + RelayFrames(conn, b)
  {
    if b == [] {
      assert a + b == a;
    } else {
      var n := |b| - 1;
      RelayFramesConcat(conn, a, b[..n]);
      assert (a + b)[..|a + b| - 1] == a + b[..n];
      Regroup(RelayFrames(conn, a), RelayFrames(conn, b[..n]), Emit(conn, b[n]));
    }
  }

  lemma {:induction false} KeyFramesSplit(peers: seq<(ConnId, Participant)>, n: nat)
    requires n <= |peers|
    ensures KeyFrames(peers) == KeyFrames(peers[..n]) + KeyFrames(peers[n..])
  {
    KeyFramesConcat(peers[..n], peers[n..]);
    assert peers[..n] + peers[n..] == peers;
  }

  lemma {:induction false} RelayFramesSplit(conn: ConnId, log: seq<RoomEvent>, start: nat, cursor: nat)
    requires start <= cursor <= |log|
    ensures RelayFrames(conn, log[start..]) == RelayFrames(conn, log[start..cursor]) + RelayFrames(conn, log[cursor..])
  {
    RelayFramesConcat(conn, log[start..cursor], log[cursor..]);
    assert log[start..cursor] + log[cursor..] == log[start..];
  }

  lemma {:induction false} AllTold(conn: ConnId, s: Session, log: seq<RoomEvent>)
    requires WroteExactly(conn, s, log) && (s.cursor > s.start ==> s.seeded == |s.snapshot|)
    ensures s.frames + Outstanding(conn, s, log) ==
            (s.frames[..s.opening] + KeyFrames(s.snapshot)) + RelayFrames(conn, log[s.start..])
  {
    var opening, read, rest := s.frames[..s.opening], RelayFrames(conn, log[s.start..s.cursor]),
        RelayFrames(conn, log[s.cursor..]);
    var told, untold := KeyFrames(s.snapshot[..s.seeded]), KeyFrames(s.snapshot[s.seeded..]);
    assert s.frames == opening + (told + read) by { assert s.frames == opening + s.frames[s.opening..]; }
    KeyFramesSplit(s.snapshot, s.seeded);
    RelayFramesSplit(conn, log, s.start, s.cursor);
    if s.start == s.cursor {
      assert log[s.start..s.cursor] == [];
    } else {
      assert s.snapshot[s.seeded..] == [];
    }
    Shuffle(opening, told, read, untold, rest);
  }

  // With nothing read, or no keys untold, the pieces fall in order.
  lemma Shuffle<T>(opening: seq<T>, told: seq<T>, read: seq<T>, untold: seq<T>, rest: seq<T>)
    requires read == [] || untold == []
    ensures (opening + (told + read)) + (untold + rest) == (opening + (told + untold)) + (read + rest)
  {
  }

  lemma RoomIsAsLogged(cfg: Config, w: World, conn: ConnId)
    requires Inv(cfg, w) && InRoom(w, conn) && w.sessions[conn].room in w.server.rooms
    ensures w.server.rooms[w.sessions[conn].room].participants == Replay(LogOf(w, conn)).present
  {
    SessionsHold(cfg, w);
    ServerHolds(cfg, w);
    SameChannel(cfg, w, conn);
    LiveChannel(w, w.sessions[conn].room);
  }

  // The roster theorem: for every session in a room that is still in the map, the frames
  // written so far and those outstanding leave the client with exactly the true
  // participants other than itself, keys included. A client whose queue is drained
  // therefore holds exactly the true roster.
  lemma {:induction false} RosterAgreement(cfg: Config, ls: seq<Label>, conn: ConnId)
    requires var w := Run(cfg, ls);
             conn in w.sessions && w.sessions[conn].joined && w.sessions[conn].room in w.server.rooms
    ensures var w := Run(cfg, ls);
            && InRoom(w, conn)
            && var s, log := w.sessions[conn], LogOf(w, conn);
               && s.seeded <= |s.snapshot| && s.cursor <= |log|
               && ClientRoster(s.frames + Outstanding(conn, s, log)) == w.server.rooms[s.room].participants - {conn}
               && (s.seeded == |s.snapshot| && s.cursor == |log| ==>
                     ClientRoster(s.frames) == w.server.rooms[s.room].participants - {conn})
  {
    RunKeeps(cfg, ls);
    var w := Run(cfg, ls);
    JoinedIsInRoom(cfg, w, conn);
    var s, log := w.sessions[conn], LogOf(w, conn);
    RoomIsAsLogged(cfg, w, conn);
    ClientEndsWithRoster(conn, s, log);
    if s.seeded == |s.snapshot| && s.cursor == |log| {
      assert s.snapshot[s.seeded..] == [] && log[s.cursor..] == [];
      assert s.frames + Outstanding(conn, s, log) == s.frames;
    }
  }

  lemma ClientEndsWithRoster(conn: ConnId, s: Session, log: seq<RoomEvent>)
    requires WroteExactly(conn, s, log) && Subscribed(conn, s, log)
    ensures ClientRoster(s.frames + Outstanding(conn, s, log)) == Replay(log).present - {conn}
  {
    AllTold(conn, s, log);
    SeededClientKnowsSnapshot(conn, s, log);
    ClientFollows(conn, log, s.start, |log|, s.frames[..s.opening] + KeyFrames(s.snapshot));
    assert log[s.start..|log|] == log[s.start..] && log[..|log|] == log;
  }

  // ---------- Common order ----------

  // The log indices a session relayed, in the order it relayed them.
  function RelayedIndices(w: World, conn: ConnId): seq<nat>
    requires conn in w.sessions && w.sessions[conn].attachment.Some?
    requires w.sessions[conn].attachment.value.tx < |w.server.channels|
    requires w.sessions[conn].start <= w.sessions[conn].cursor <= |LogOf(w, conn)|
  {
    Sources(conn, LogOf(w, conn), w.sessions[conn].start, w.sessions[conn].cursor)
  }

  // Two sessions read one log, and what both relayed they relayed in one order. The first
  // relays every event that concerns it and no other: none of its own, and a TreeWelcome
  // only when it is the target.
  ghost predicate InStep(w: World, a: ConnId, b: ConnId) {
    && InRoom(w, a) && InRoom(w, b) && LogOf(w, a) == LogOf(w, b)
    && w.sessions[a].start <= w.sessions[a].cursor <= |LogOf(w, a)|
    && w.sessions[b].start <= w.sessions[b].cursor <= |LogOf(w, b)|
    && SameOrder(RelayedIndices(w, a), RelayedIndices(w, b))
    && RelaysItsOwn(a, LogOf(w, a), w.sessions[a].start, w.sessions[a].cursor, RelayedIndices(w, a))
  }

  ghost predicate SameOrder(src: seq<nat>, src': seq<nat>) {
    forall p, q, p', q' ::
      (0 <= p < q < |src| && 0 <= p' < |src'| && 0 <= q' < |src'| && src[p] == src'[p'] && src[q] == src'[q']) ==>
          p' < q'
  }

  ghost predicate RelaysItsOwn(conn: ConnId, log: seq<RoomEvent>, start: nat, cursor: nat, src: seq<nat>) {
    && start <= cursor <= |log|
    && SourcesFit(conn, log, start, cursor, src, RelayFrames(conn, log[start..cursor]))
    && (forall p :: 0 <= p < |src| ==> log[src[p]].Sender() != Some(conn))
    && (forall p :: 0 <= p < |src| && log[src[p]].TreeWelcome? ==> log[src[p]].target == conn)
  }

  lemma RelaysExactly(conn: ConnId, log: seq<RoomEvent>, start: nat, cursor: nat)
    requires start <= cursor <= |log|
    ensures RelaysItsOwn(conn, log, start, cursor, Sources(conn, log, start, cursor))
  {
    SourcesExact(conn, log, start, cursor, Sources(conn, log, start, cursor), RelayFrames(conn, log[start..cursor]));
  }

  lemma {:induction false} CommonOrder(cfg: Config, ls: seq<Label>, a: ConnId, b: ConnId)
    requires var w := Run(cfg, ls);
             && a in w.sessions && w.sessions[a].joined && b in w.sessions && w.sessions[b].joined
             && w.sessions[a].room == w.sessions[b].room
    ensures InStep(Run(cfg, ls), a, b)
  {
    RunKeeps(cfg, ls);
    var w := Run(cfg, ls);
    JoinedIsInRoom(cfg, w, a);
    JoinedIsInRoom(cfg, w, b);
    InStepIn(cfg, w, a, b);
  }

  lemma InStepIn(cfg: Config, w: World, a: ConnId, b: ConnId)
    requires Inv(cfg, w) && InRoom(w, a) && InRoom(w, b)
    requires w.server.channels[w.sessions[a].attachment.value.tx].owner ==
             w.server.channels[w.sessions[b].attachment.value.tx].owner
    requires Subscribed(a, w.sessions[a], LogOf(w, a)) && Subscribed(b, w.sessions[b], LogOf(w, b))
    ensures InStep(w, a, b)
  {
    ServerHolds(cfg, w);
    OneOwnerOneChannel(w, w.sessions[a].attachment.value.tx, w.sessions[b].attachment.value.tx);
    RelaysExactly(a, LogOf(w, a), w.sessions[a].start, w.sessions[a].cursor);
    RelaysExactly(b, LogOf(w, b), w.sessions[b].start, w.sessions[b].cursor);
    IncreasingAgree(RelayedIndices(w, a), RelayedIndices(w, b));
  }

  lemma OneOwnerOneChannel(w: World, i: nat, j: nat)
    requires ServerFits(w) && i < |w.server.channels| && j < |w.server.channels|
    requires w.server.channels[i].owner == w.server.channels[j].owner
    ensures i == j
  {
    assert OneChannelPerRoom(w.server.channels);
  }

  lemma IncreasingAgree(src: seq<nat>, src': seq<nat>)
    requires forall i, j :: 0 <= i < j < |src| ==> src[i] < src[j]
    requires forall i, j :: 0 <= i < j < |src'| ==> src'[i] < src'[j]
    ensures SameOrder(src, src')
  {
  }

  // ---------- The grammar ----------

  // Every session's frames are, in every state, a reading of the grammar.
  lemma {:induction false} FramesAreGrammatical(cfg: Config, ls: seq<Label>, conn: ConnId)
    requires conn in Run(cfg, ls).sessions
    ensures var s := Run(cfg, ls).sessions[conn]; Reading(s.IsProtected(), s.frames) != OffGrammar
  {
    RunKeeps(cfg, ls);
    SessionHolds(cfg, Run(cfg, ls), conn);
  }

  // The grammar has no way back: every prefix of a reading is a reading.
  lemma {:induction false} PrefixesAreGrammatical(protected: bool, frames: seq<OutgoingMessage>, n: nat)
    requires n <= |frames| && Reading(protected, frames) != OffGrammar
    ensures Reading(protected, frames[..n]) != OffGrammar
  {
    if n == |frames| {
      assert frames[..n] == frames;
    } else {
      PrefixesAreGrammatical(protected, frames[..|frames| - 1], n);
      assert frames[..|frames| - 1][..n] == frames[..n];
    }
  }

  predicate IsFinal(f: OutgoingMessage) {
    f.IsAuthFailure() || f.RoomFullFrame? || f.RoomExpiredFrame?
  }

  // What the grammar says, frame by frame: a refusal, RoomFull or RoomExpired is the last
  // frame; a protected session starts with AuthRequired unless it is nothing but a
  // failure; there is one Welcome at most, and nothing of any peer before it; and no
  // PeerKey follows a relayed event.
  lemma GrammarMeans(protected: bool, frames: seq<OutgoingMessage>, i: nat, j: nat)
    requires Reading(protected, frames) != OffGrammar && i < j < |frames|
    ensures !IsFinal(frames[i])
    ensures protected ==> frames[0].AuthRequiredFrame?
    ensures frames[j].WelcomeFrame? ==> !frames[i].WelcomeFrame? && IsSilent(frames[i])
    ensures frames[j].PeerKeyFrame? ==> !IsRelayed(frames[i])
  {
    ReadOn(protected, frames, j);
    PlaceTells(protected, frames[..j], i);
    ReadOn(protected, frames, 0);
    PlaceTells(protected, frames[..j], 0);
  }

  lemma ReadOn(protected: bool, frames: seq<OutgoingMessage>, j: nat)
    requires Reading(protected, frames) != OffGrammar && j < |frames|
    ensures Reading(protected, frames[..j]) != OffGrammar
    ensures Reading(protected, frames[..j + 1]) != OffGrammar
            && Reading(protected, frames[..j + 1]) == Advance(protected, Reading(protected, frames[..j]), frames[j])
  {
    PrefixesAreGrammatical(protected, frames, j);
    PrefixesAreGrammatical(protected, frames, j + 1);
    TakeNext(frames, j);
    ReadingAppend(protected, frames[..j], frames[j]);
  }

  // What the place reached says of a frame on the way to it.
  lemma {:induction false} PlaceTells(protected: bool, frames: seq<OutgoingMessage>, i: nat)
    requires i < |frames| && Reading(protected, frames) != OffGrammar
    ensures var at := Reading(protected, frames);
            && at != AtStart
            && (at != AtEnd ==> !IsFinal(frames[i]))
            && (at == AfterChallenge ==> IsSilent(frames[i]) && !frames[i].WelcomeFrame?)
            && (at == AfterWelcome ==> IsSilent(frames[i]))
            && (at == InKeys ==> !IsRelayed(frames[i]))
            && (at == AfterChallenge ==> protected)
  {
    var n := |frames| - 1;
    var prior := frames[..n];
    TakeNext(frames, n);
    assert frames == prior + [frames[n]];
    ReadingAppend(protected, prior, frames[n]);
    if i < n {
      PlaceTells(protected, prior, i);
    }
  }

  // No session attaches to a protected room unless a password of its was found to match
  // the hash, which is the one the room has for as long as it has a row.
  lemma {:induction false} AttachedWasVerified(cfg: Config, ls: seq<Label>, conn: ConnId)
    requires var w := Run(cfg, ls); conn in w.sessions && w.sessions[conn].attachment.Some?
    ensures var w := Run(cfg, ls);
            var s := w.sessions[conn];
            && (s.room in w.server.rows ==> w.server.rows[s.room].hash == s.hash)
            && (s.hash.Some? ==> s.verified.Some? && cfg.matches(s.verified.value, s.hash.value))
  {
    RunKeeps(cfg, ls);
    SessionHolds(cfg, Run(cfg, ls), conn);
    HashIsKept(cfg, Run(cfg, ls), conn);
  }

  lemma HashIsKept(cfg: Config, w: World, conn: ConnId)
    requires Inv(cfg, w) && conn in w.sessions
    ensures w.sessions[conn].room in w.server.rows ==>
              w.server.rows[w.sessions[conn].room].hash == w.sessions[conn].hash
  {
    assert Holds(OfHashes, cfg, w);
  }
}
