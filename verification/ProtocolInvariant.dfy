/** What every reachable state of the relay satisfies, in seven parts. */
module ProtocolInvariant {
  import opened Wrappers
  import opened RoomEvents
  import opened RoomLog
  import opened RoomTable
  import opened ServerModel
  import opened PendingPool
  import opened Sessions
  import opened Protocol

  // ---------- One session ----------

  ghost predicate LifeFits(cfg: Config, conn: ConnId, s: Session) {
    && (s.phase.IsBeforeAttach() ==> s.attachment.None?)
    && (!s.phase.IsBeforeAttach() && !s.phase.Closed? ==> s.attachment.Some?)
    && s.attaches == (if s.attachment.Some? then 1 else 0)
    && s.detaches == (if s.attachment.Some? && s.phase.Closed? then 1 else 0)
    && (s.phase.Confirming? || s.phase.Seeding? || s.phase.Relaying? ==> s.joined)
    && (s.joined ==>
       s.attachment.Some?
           && (s.phase.Confirming? || s.phase.Seeding? || s.phase.Relaying? || s.phase.Leaving? || s.phase.Closed?))
    && (s.outbox.Some? ==> s.phase.Relaying? && s.outbox.value.Chat? && s.outbox.value.from == conn)
    && (s.phase.IsAuthenticating() ==> s.IsProtected())
    && (s.IsProtected() && (s.phase.Admitted? || s.attachment.Some?) ==>
          s.verified.Some? && cfg.matches(s.verified.value, s.hash.value))
    && (s.phase.Keyed? || s.phase.Joining? || s.joined ==> ValidKeys(cfg, s.keys))
    && InPlace(s)
    && (!s.joined ==> Silent(s.frames))
  }

  // A subscribed session has written its snapshot and then exactly what it received.
  ghost predicate WroteExactly(conn: ConnId, s: Session, log: seq<RoomEvent>) {
    && s.start <= s.cursor <= |log|
    && s.seeded <= |s.snapshot|
    && (s.start < s.cursor ==> s.seeded == |s.snapshot|)
    && s.opening <= |s.frames|
    && Silent(s.frames[..s.opening])
    && s.frames[s.opening..] == KeyFrames(s.snapshot[..s.seeded]) + RelayFrames(conn, log[s.start..s.cursor])
  }

  ghost predicate Subscribed(conn: ConnId, s: Session, log: seq<RoomEvent>) {
    && s.start <= s.cursor <= |log|
    && Lists(s.snapshot, Replay(log[..s.start]).present)
    && conn !in Replay(log[..s.start]).present
  }

  ghost predicate ReadingFits(conn: ConnId, s: Session, channels: seq<ChannelState>) {
    s.attachment.Some? ==>
      && s.attachment.value.tx < |channels|
      && channels[s.attachment.value.tx].owner == s.room
      && var log := channels[s.attachment.value.tx].log;
         && (s.phase.Joining? || s.joined ==> Subscribed(conn, s, log))
         && (s.phase.Joining? ==> s.cursor == s.start && s.seeded == 0)
         && (s.joined ==> WroteExactly(conn, s, log))
         && (s.phase.Confirming? ==> s.cursor == s.start && s.seeded == 0)
         && (s.phase.Seeding? ==> s.cursor == s.start)
         && (s.phase.Relaying? ==> s.seeded == |s.snapshot|)
  }

  ghost predicate SessionFits(cfg: Config, conn: ConnId, s: Session, channels: seq<ChannelState>) {
    LifeFits(cfg, conn, s) && ReadingFits(conn, s, channels)
  }

  ghost predicate SessionsFit(cfg: Config, w: World) {
    forall conn :: conn in w.sessions ==> SessionFits(cfg, conn, w.sessions[conn], w.server.channels)
  }

  // ---------- The shared state ----------

  ghost predicate RoomFits(s: Server, id: RoomId)
    requires id in s.rooms
  {
    && id in s.rows
    && s.rooms[id].tx < |s.channels|
    && s.channels[s.rooms[id].tx].owner == id
    && |s.rooms[id].participants| <= MAX_PARTICIPANTS
  }

  // A channel that has not expired is that of a room in the map, whose participants are
  // what its log says; one that has expired has no row and no room.
  ghost predicate ChannelFits(s: Server, created: set<RoomId>, k: nat)
    requires k < |s.channels|
  {
    var ch := s.channels[k];
    && WellFormed(ch.log)
    && ch.owner in created
    && if Replay(ch.log).expired then ch.owner !in s.rows
       else ch.owner in s.rooms && s.rooms[ch.owner].tx == k && s.rooms[ch.owner].participants == Replay(ch.log).present
  }

  ghost predicate OneChannelPerRoom(channels: seq<ChannelState>) {
    forall i, j :: 0 <= i < j < |channels| ==> channels[i].owner != channels[j].owner
  }

  ghost predicate ServerFits(w: World) {
    && (forall id :: id in w.server.rooms ==> RoomFits(w.server, id))
    && (forall k :: 0 <= k < |w.server.channels| ==> ChannelFits(w.server, w.created, k))
    && OneChannelPerRoom(w.server.channels)
    && (forall id :: id in w.server.rows ==> id in w.created)
    && w.server.rows == RowsAfter(w.history)
  }

  // ---------- Who is in ----------

  ghost predicate JoinedOn(sessions: map<ConnId, Session>, x: ConnId, k: nat) {
    && x in sessions && sessions[x].joined
    && sessions[x].attachment.Some? && sessions[x].attachment.value.tx == k
  }

  // The tally of channel k against the sessions: those present joined on it with the keys
  // it shows, and have not detached unless the room expired first; those gone detached, having shown theirs;
  // and everyone who joined on it and has not detached is present.
  ghost predicate MembersOf(sessions: map<ConnId, Session>, k: nat, t: Tally) {
    && (forall x :: x in t.present ==>
          && JoinedOn(sessions, x, k) && t.present[x] == sessions[x].keys
          && (!t.expired ==> !sessions[x].phase.Closed?))
    && (forall x :: x in t.gone ==>
       JoinedOn(sessions, x, k) && t.gone[x] == sessions[x].keys && sessions[x].phase.Closed?)
    && (forall x :: JoinedOn(sessions, x, k) && !sessions[x].phase.Closed? ==> x in t.present)
  }

  ghost predicate MembersFit(w: World) {
    forall k :: 0 <= k < |w.server.channels| ==> MembersOf(w.sessions, k, Replay(w.server.channels[k].log))
  }

  ghost predicate LockFits(w: World) {
    && (forall conn :: conn in w.sessions ==> (w.sessions[conn].phase.Joining? <==> w.lock == Some(conn)))
    && (w.lock.Some? ==>
          && w.lock.value in w.sessions
          && var s := w.sessions[w.lock.value];
             && s.room in w.server.rooms
             && |w.server.rooms[s.room].participants| < MAX_PARTICIPANTS)
  }

  // ---------- Creators, hashes, guards ----------

  // The creator a room should have by what sessions were told.
  function CreatorBy(notes: seq<CreatorNote>): Option<ConnId> {
    if notes == [] then None
    else
      match notes[|notes| - 1]
      case Reset => None
      case Told(conn, isCreator, _) => if isCreator then Some(conn) else CreatorBy(notes[..|notes| - 1])
  }

  // Each answer fits the creator there was when it was given.
  predicate Truthful(notes: seq<CreatorNote>) {
    notes == [] ||
    (var prior, note := notes[..|notes| - 1], notes[|notes| - 1];
     && Truthful(prior)
     && (note.Told? ==>
           && note.isCreator == CreatorBy(prior).None?
           && note.creatorId == if note.isCreator then Some(note.conn) else CreatorBy(prior)))
  }

  ghost predicate CreatorFits(w: World, id: RoomId)
    requires id in w.server.rooms
  {
    var room := w.server.rooms[id];
    && CreatorBy(Notes(w, id)) == room.creatorId
    && (room.creatorId.Some? ==>
          && room.creatorId.value in w.sessions
          && w.sessions[room.creatorId.value].attachment.Some?
          && w.sessions[room.creatorId.value].room == id
          && (room.participants == map[] ==> !w.sessions[room.creatorId.value].phase.Closed?))
  }

  ghost predicate CreatorsFit(w: World) {
    && (forall id :: id in w.server.rooms ==> CreatorFits(w, id))
    && (forall id :: id in w.notes ==> Truthful(w.notes[id]))
  }

  // The hash a session was upgraded with is the one its room still has.
  ghost predicate HashesFit(w: World) {
    forall conn :: conn in w.sessions ==>
      && w.sessions[conn].room in w.created
      && (w.sessions[conn].room in w.server.rows ==> w.server.rows[w.sessions[conn].room].hash == w.sessions[conn].hash)
  }

  // The sessions of an address that hold a guard.
  ghost function Holders(sessions: map<ConnId, Session>, ip: Ip): set<ConnId> {
    set conn | conn in sessions && sessions[conn].ip == ip && sessions[conn].phase.IsAuthenticating()
  }

  ghost predicate GuardsFit(w: World) {
    && Accounts(w.pool, w.guards)
    && (forall ip :: |Holders(w.sessions, ip)| == w.guards[ip])
  }

  datatype Part = OfSessions | OfServer | OfMembers | OfLock | OfCreators | OfHashes | OfGuards

  ghost predicate Holds(part: Part, cfg: Config, w: World) {
    match part
    case OfSessions => SessionsFit(cfg, w)
    case OfServer => ServerFits(w)
    case OfMembers => MembersFit(w)
    case OfLock => LockFits(w)
    case OfCreators => CreatorsFit(w)
    case OfHashes => HashesFit(w)
    case OfGuards => GuardsFit(w)
  }

  // Part by part, so that a proof that only hands the invariant on need not look inside.
  ghost predicate Inv(cfg: Config, w: World) {
    forall part: Part :: Holds(part, cfg, w)
  }

  lemma InvMeans(cfg: Config, w: World)
    requires Inv(cfg, w)
    ensures SessionsFit(cfg, w) && ServerFits(w) && MembersFit(w) && LockFits(w)
    ensures CreatorsFit(w) && HashesFit(w) && GuardsFit(w)
  {
    assert Holds(OfSessions, cfg, w) && Holds(OfServer, cfg, w) && Holds(OfMembers, cfg, w) && Holds(OfLock, cfg, w);
    assert Holds(OfCreators, cfg, w) && Holds(OfHashes, cfg, w) && Holds(OfGuards, cfg, w);
  }

  lemma SessionsHold(cfg: Config, w: World)
    requires Inv(cfg, w)
    ensures SessionsFit(cfg, w)
  {
    assert Holds(OfSessions, cfg, w);
  }

  lemma SessionHolds(cfg: Config, w: World, conn: ConnId)
    requires Inv(cfg, w) && conn in w.sessions
    ensures SessionFits(cfg, conn, w.sessions[conn], w.server.channels)
  {
    assert Holds(OfSessions, cfg, w);
  }

  lemma ServerHolds(cfg: Config, w: World)
    requires Inv(cfg, w)
    ensures ServerFits(w)
  {
    assert Holds(OfServer, cfg, w);
  }

  lemma InvFrom(cfg: Config, w: World)
    requires SessionsFit(cfg, w) && ServerFits(w) && MembersFit(w) && LockFits(w)
    requires CreatorsFit(w) && HashesFit(w) && GuardsFit(w)
    ensures Inv(cfg, w)
  {
  }

  // ---------- Growing logs disturb no session ----------

  ghost predicate Grown(earlier: seq<ChannelState>, later: seq<ChannelState>) {
    && |earlier| <= |later|
    && forall k :: 0 <= k < |earlier| ==> later[k].owner == earlier[k].owner && earlier[k].log <= later[k].log
  }

  lemma PrefixSlices(a: seq<RoomEvent>, b: seq<RoomEvent>, lo: nat, hi: nat)
    requires a <= b && lo <= hi <= |a|
    ensures a[lo..hi] == b[lo..hi] && a[..lo] == b[..lo]
  {
  }

  lemma FitsAsLogsGrow(cfg: Config, conn: ConnId, s: Session, earlier: seq<ChannelState>, later: seq<ChannelState>)
    requires SessionFits(cfg, conn, s, earlier) && Grown(earlier, later)
    ensures SessionFits(cfg, conn, s, later)
  {
    if s.attachment.Some? && (s.phase.Joining? || s.joined) {
      var k := s.attachment.value.tx;
      PrefixSlices(earlier[k].log, later[k].log, s.start, s.cursor);
    }
  }

  // ---------- Steps that touch one session and nothing else ----------

  // The new record plays the same part towards everything outside the session.
  ghost predicate SameRole(s: Session, s': Session) {
    && s'.room == s.room && s'.ip == s.ip && s'.hash == s.hash
    && s'.attachment == s.attachment && s'.joined == s.joined
    && (s.joined ==> s'.keys == s.keys)
    && s'.phase.Closed? == s.phase.Closed?
    && s'.phase.Joining? == s.phase.Joining?
    && s'.phase.IsAuthenticating() == s.phase.IsAuthenticating()
  }

  ghost predicate SameStanding(s: Session, s': Session) {
    && s'.joined == s.joined && s'.attachment == s.attachment && s'.keys == s.keys
    && s'.phase.Closed? == s.phase.Closed?
  }

  ghost predicate SameMembers(sessions: map<ConnId, Session>, sessions': map<ConnId, Session>) {
    && (forall x :: x in sessions && sessions[x].joined ==> x in sessions' && SameStanding(sessions[x], sessions'[x]))
    && (forall x :: x in sessions' && sessions'[x].joined ==> x in sessions && sessions[x].joined)
  }

  // The logs and the standing of everybody who ever joined are as before.
  lemma MembersCarryOver(w: World, w': World)
    requires MembersFit(w) && w'.server.channels == w.server.channels && SameMembers(w.sessions, w'.sessions)
    ensures MembersFit(w')
  {
    forall k | 0 <= k < |w'.server.channels|
      ensures MembersOf(w'.sessions, k, Replay(w'.server.channels[k].log))
    {
      MembersOfCarryOver(w.sessions, w'.sessions, k, Replay(w.server.channels[k].log));
    }
  }

  lemma MembersOfCarryOver(sessions: map<ConnId, Session>, sessions': map<ConnId, Session>, k: nat, t: Tally)
    requires MembersOf(sessions, k, t) && SameMembers(sessions, sessions')
    ensures MembersOf(sessions', k, t)
  {
    assert forall x :: JoinedOn(sessions', x, k) <==> JoinedOn(sessions, x, k);
  }

  lemma SessionOnlyMembers(w: World, conn: ConnId, s': Session)
    requires MembersFit(w) && conn in w.sessions && SameRole(w.sessions[conn], s')
    ensures MembersFit(Put(w, conn, s'))
  {
    MembersCarryOver(w, Put(w, conn, s'));
  }

  lemma SessionOnlyLock(w: World, conn: ConnId, s': Session)
    requires LockFits(w) && conn in w.sessions && SameRole(w.sessions[conn], s')
    ensures LockFits(Put(w, conn, s'))
  {
  }

  lemma SessionOnlyCreators(w: World, conn: ConnId, s': Session)
    requires CreatorsFit(w) && conn in w.sessions && SameRole(w.sessions[conn], s')
    ensures CreatorsFit(Put(w, conn, s'))
  {
    var w' := Put(w, conn, s');
    forall id | id in w.server.rooms ensures CreatorFits(w', id) {
      assert CreatorFits(w, id);
      assert Notes(w', id) == Notes(w, id);
    }
  }

  lemma SessionOnlyGuards(w: World, conn: ConnId, s': Session)
    requires GuardsFit(w) && conn in w.sessions && SameRole(w.sessions[conn], s')
    ensures GuardsFit(Put(w, conn, s'))
  {
    forall ip ensures Holders(Put(w, conn, s').sessions, ip) == Holders(w.sessions, ip) {
    }
  }

  lemma SessionOnly(cfg: Config, w: World, conn: ConnId, s': Session)
    requires Inv(cfg, w) && conn in w.sessions && SameRole(w.sessions[conn], s')
    requires SessionFits(cfg, conn, s', w.server.channels)
    ensures Inv(cfg, Put(w, conn, s'))
  {
    InvMeans(cfg, w);
    SessionOnlyMembers(w, conn, s');
    SessionOnlyLock(w, conn, s');
    SessionOnlyCreators(w, conn, s');
    SessionOnlyGuards(w, conn, s');
    SessionOnlySessions(cfg, w, conn, s');
    SessionOnlyHashes(w, conn, s');
    SameServerFits(w, Put(w, conn, s'));
    InvFrom(cfg, Put(w, conn, s'));
  }

  lemma SessionOnlySessions(cfg: Config, w: World, conn: ConnId, s': Session)
    requires SessionsFit(cfg, w) && SessionFits(cfg, conn, s', w.server.channels)
    ensures SessionsFit(cfg, Put(w, conn, s'))
  {
  }

  lemma SessionOnlyHashes(w: World, conn: ConnId, s': Session)
    requires HashesFit(w) && conn in w.sessions && SameRole(w.sessions[conn], s')
    ensures HashesFit(Put(w, conn, s'))
  {
  }

  // What is asked of the shared state says nothing of sessions, locks, guards or notes.
  lemma SameServerFits(w: World, w': World)
    requires ServerFits(w) && w'.server == w.server && w'.created == w.created && w'.history == w.history
    ensures ServerFits(w')
  {
  }
}
