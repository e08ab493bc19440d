/** The steps before a session attaches keep the invariant: rows, sockets and guards. */
module AdmissionSteps {
  import opened Wrappers
  import opened RoomEvents
  import opened RoomTable
  import opened ServerModel
  import opened PendingPool
  import opened Sessions
  import opened Protocol
  import opened ProtocolInvariant
  import AdmissionModel

  lemma CreateServerFits(w: World, id: RoomId, hash: Option<string>, now: int)
    requires ServerFits(w) && id !in w.created
    ensures ServerFits(DoInsert(w, id, hash, now, true))
  {
    var w' := DoInsert(w, id, hash, now, true);
    RowsAppend(w.history, Inserted(id, now, hash));
    forall x | x in w'.server.rooms ensures RoomFits(w'.server, x) {
      assert RoomFits(w.server, x);
    }
    forall k | 0 <= k < |w'.server.channels| ensures ChannelFits(w'.server, w'.created, k) {
      assert ChannelFits(w.server, w.created, k);
    }
  }

  // Nothing but the limiter itself depends on what was asked of it.
  lemma ChecksAreApart(cfg: Config, w: World, w': World)
    requires Inv(cfg, w) && w' == w.(checks := w'.checks)
    ensures Inv(cfg, w')
  {
    InvMeans(cfg, w);
    CreatorsCarryOver(w, w');
    MembersCarryOver(w, w');
    SameServerFits(w, w');
    InvFrom(cfg, w');
  }

  lemma CreateKeeps(cfg: Config, w: World, id: RoomId, hash: Option<string>, now: int, up: bool, ip: Ip, at: real)
    requires Inv(cfg, w)
    ensures Inv(cfg, EntryStep(cfg, w, CreateRoom(id, hash, now, up, ip, at)))
  {
    var consulted := Consult(w, AdmissionModel.Creation(ip), at);
    ChecksAreApart(cfg, w, consulted);
    InsertKeeps(cfg, consulted, id, hash, now, up);
  }

  lemma MaintainKeeps(cfg: Config, w: World, at: real)
    requires Inv(cfg, w)
    ensures Inv(cfg, EntryStep(cfg, w, Maintain(at)))
  {
    ChecksAreApart(cfg, w, DoMaintain(w, at));
  }

  lemma InsertKeeps(cfg: Config, w: World, id: RoomId, hash: Option<string>, now: int, up: bool)
    requires Inv(cfg, w)
    ensures Inv(cfg, DoInsert(w, id, hash, now, up))
  {
    InvMeans(cfg, w);
    if up && id !in w.created {
      var w' := DoInsert(w, id, hash, now, up);
      CreateServerFits(w, id, hash, now);
      CreatorsCarryOver(w, w');
      MembersCarryOver(w, w');
      CreateRestFits(cfg, w, id, hash, now);
      InvFrom(cfg, w');
    }
  }

  lemma CreateRestFits(cfg: Config, w: World, id: RoomId, hash: Option<string>, now: int)
    requires SessionsFit(cfg, w) && LockFits(w) && HashesFit(w) && GuardsFit(w) && id !in w.created
    ensures var w' := DoInsert(w, id, hash, now, true);
            SessionsFit(cfg, w') && LockFits(w') && HashesFit(w') && GuardsFit(w')
  {
  }

  // Rooms, sessions and notes as before: so are the creators.
  lemma CreatorsCarryOver(w: World, w': World)
    requires CreatorsFit(w)
    requires w'.server.rooms == w.server.rooms && w'.sessions == w.sessions && w'.notes == w.notes
    ensures CreatorsFit(w')
  {
    forall id | id in w'.server.rooms ensures CreatorFits(w', id) {
      assert CreatorFits(w, id) && Notes(w', id) == Notes(w, id);
    }
  }

  // ---------- A session that is not attached, before and after ----------

  ghost predicate Outside(s: Session) {
    s.attachment.None? && !s.joined && !s.phase.Joining?
  }

  lemma OutsideUpdateCreators(w: World, conn: ConnId, s': Session)
    requires CreatorsFit(w)
    requires conn in w.sessions ==> Outside(w.sessions[conn])
    ensures CreatorsFit(Put(w, conn, s'))
  {
    var w' := Put(w, conn, s');
    forall id | id in w'.server.rooms ensures CreatorFits(w', id) {
      assert CreatorFits(w, id) && Notes(w', id) == Notes(w, id);
    }
  }

  lemma OutsideUpdateMembers(w: World, conn: ConnId, s': Session)
    requires MembersFit(w) && Outside(s')
    requires conn in w.sessions ==> Outside(w.sessions[conn])
    ensures MembersFit(Put(w, conn, s'))
  {
    MembersCarryOver(w, Put(w, conn, s'));
  }

  lemma OutsideUpdate(cfg: Config, w: World, conn: ConnId, s': Session)
    requires Inv(cfg, w) && Outside(s') && SessionFits(cfg, conn, s', w.server.channels)
    requires conn in w.sessions ==>
             Outside(w.sessions[conn]) && s'.room == w.sessions[conn].room && s'.hash == w.sessions[conn].hash
    requires conn !in w.sessions ==> s'.room in w.server.rows && w.server.rows[s'.room].hash == s'.hash
    ensures var w' := Put(w, conn, s');
            SessionsFit(cfg, w') && ServerFits(w') && MembersFit(w') && LockFits(w') && CreatorsFit(w') && HashesFit(w')
  {
    InvMeans(cfg, w);
    OutsideUpdateCreators(w, conn, s');
    OutsideUpdateMembers(w, conn, s');
    OutsideUpdateServer(w, conn, s');
    OutsideUpdateLock(w, conn, s');
    OutsideUpdateHashes(w, conn, s');
  }

  lemma OutsideUpdateServer(w: World, conn: ConnId, s': Session)
    requires ServerFits(w)
    ensures ServerFits(Put(w, conn, s'))
  {
  }

  lemma OutsideUpdateLock(w: World, conn: ConnId, s': Session)
    requires LockFits(w) && Outside(s') && (conn in w.sessions ==> Outside(w.sessions[conn]))
    ensures LockFits(Put(w, conn, s'))
  {
  }

  lemma OutsideUpdateHashes(w: World, conn: ConnId, s': Session)
    requires HashesFit(w) && (forall id :: id in w.server.rows ==> id in w.created)
    requires conn in w.sessions ==> s'.room == w.sessions[conn].room && s'.hash == w.sessions[conn].hash
    requires conn !in w.sessions ==> s'.room in w.server.rows && w.server.rows[s'.room].hash == s'.hash
    ensures HashesFit(Put(w, conn, s'))
  {
  }

  // Guards follow the sessions that hold them.
  lemma GuardsUnheld(w: World, conn: ConnId, s': Session)
    requires GuardsFit(w) && !s'.phase.IsAuthenticating()
    requires conn in w.sessions ==> !w.sessions[conn].phase.IsAuthenticating()
    ensures GuardsFit(Put(w, conn, s'))
  {
    forall ip ensures Holders(Put(w, conn, s').sessions, ip) == Holders(w.sessions, ip) {
    }
  }

  lemma GuardTaken(w: World, conn: ConnId, s': Session)
    requires GuardsFit(w) && conn !in w.sessions && s'.phase.IsAuthenticating()
    requires Acquire(w.pool, s'.ip).Some?
    ensures GuardsFit(Put(w, conn, s').(pool := Acquire(w.pool, s'.ip).value, guards := w.guards + multiset{s'.ip}))
  {
    AcquireAccounts(w.pool, w.guards, s'.ip);
    forall ip ensures |Holders(Put(w, conn, s').sessions, ip)| == (w.guards + multiset{s'.ip})[ip] {
      HolderEnters(w, conn, s', ip);
    }
  }

  lemma HolderEnters(w: World, conn: ConnId, s': Session, ip: Ip)
    requires conn !in w.sessions && s'.phase.IsAuthenticating()
    ensures |Holders(Put(w, conn, s').sessions, ip)| == |Holders(w.sessions, ip)| + if ip == s'.ip then 1 else 0
  {
    assert Holders(Put(w, conn, s').sessions, ip) == Holders(w.sessions, ip) + (if ip == s'.ip then {conn} else {});
  }

  lemma GuardDropped(w: World, conn: ConnId, s': Session)
    requires GuardsFit(w) && conn in w.sessions && w.sessions[conn].phase.IsAuthenticating()
    requires !s'.phase.IsAuthenticating() && s'.ip == w.sessions[conn].ip
    ensures Release(w.pool, s'.ip).Some?
    ensures GuardsFit(DropGuard(Put(w, conn, s'), s'.ip))
  {
    HolderExits(w, conn, s', s'.ip);
    ReleaseAccounts(w.pool, w.guards, s'.ip);
    forall ip ensures |Holders(Put(w, conn, s').sessions, ip)| == (w.guards - multiset{s'.ip})[ip] {
      HolderExits(w, conn, s', ip);
    }
  }

  lemma HolderExits(w: World, conn: ConnId, s': Session, ip: Ip)
    requires conn in w.sessions && w.sessions[conn].phase.IsAuthenticating()
    requires !s'.phase.IsAuthenticating() && s'.ip == w.sessions[conn].ip
    ensures |Holders(w.sessions, ip)| == |Holders(Put(w, conn, s').sessions, ip)| + if ip == s'.ip then 1 else 0
  {
    if ip == s'.ip {
      assert conn in Holders(w.sessions, ip);
    }
    assert Holders(Put(w, conn, s').sessions, ip) == Holders(w.sessions, ip) - (if ip == s'.ip then {conn} else {});
  }

  // ---------- Opening ----------

  lemma FreshFits(cfg: Config, conn: ConnId, room: RoomId, ip: Ip, hash: Option<string>, channels: seq<ChannelState>)
    ensures SessionFits(cfg, conn, Fresh(room, ip, hash), channels) && Outside(Fresh(room, ip, hash))
  {
  }

  lemma OpenKeeps(cfg: Config, w: World, conn: ConnId, id: RoomId, ip: Ip, at: real)
    requires Inv(cfg, w)
    ensures Inv(cfg, EntryStep(cfg, w, Open(conn, id, ip, at)))
  {
    var consulted := Consult(w, AdmissionModel.Connection(ip), at);
    ChecksAreApart(cfg, w, consulted);
    EnterKeeps(cfg, consulted, conn, id, ip);
  }

  lemma EnterKeeps(cfg: Config, w: World, conn: ConnId, id: RoomId, ip: Ip)
    requires Inv(cfg, w)
    ensures Inv(cfg, DoEnter(w, conn, id, ip))
  {
    if conn !in w.sessions && id in w.server.rows {
      if w.server.rows[id].hash.None? {
        OpenRoomEntered(cfg, w, conn, id, ip);
      } else if Acquire(w.pool, ip).Some? {
        ProtectedRoomEntered(cfg, w, conn, id, ip);
      }
    }
  }

  lemma OpenRoomEntered(cfg: Config, w: World, conn: ConnId, id: RoomId, ip: Ip)
    requires Inv(cfg, w) && conn !in w.sessions && id in w.server.rows && w.server.rows[id].hash.None?
    ensures Inv(cfg, Put(w, conn, Fresh(id, ip, None)))
  {
    var s' := Fresh(id, ip, None);
    InvMeans(cfg, w);
    FreshFits(cfg, conn, id, ip, None, w.server.channels);
    OutsideUpdate(cfg, w, conn, s');
    GuardsUnheld(w, conn, s');
    InvFrom(cfg, Put(w, conn, s'));
  }

  lemma ProtectedRoomEntered(cfg: Config, w: World, conn: ConnId, id: RoomId, ip: Ip)
    requires Inv(cfg, w) && conn !in w.sessions && id in w.server.rows && w.server.rows[id].hash.Some?
    requires Acquire(w.pool, ip).Some?
    ensures Inv(cfg, Put(w, conn, Fresh(id, ip, w.server.rows[id].hash))
                       .(pool := Acquire(w.pool, ip).value, guards := w.guards + multiset{ip}))
  {
    var s' := Fresh(id, ip, w.server.rows[id].hash);
    InvMeans(cfg, w);
    FreshFits(cfg, conn, id, ip, s'.hash, w.server.channels);
    OutsideUpdate(cfg, w, conn, s');
    GuardTaken(w, conn, s');
    OnlyGuards(cfg, Put(w, conn, s'),
               Put(w, conn, s').(pool := Acquire(w.pool, ip).value, guards := w.guards + multiset{ip}));
  }

  // The guards are nobody else's business.
  lemma OnlyGuards(cfg: Config, w: World, w': World)
    requires SessionsFit(cfg, w) && ServerFits(w) && MembersFit(w) && LockFits(w) && CreatorsFit(w) && HashesFit(w)
    requires w' == w.(pool := w'.pool, guards := w'.guards) && GuardsFit(w')
    ensures Inv(cfg, w')
  {
    CreatorsCarryOver(w, w');
    MembersCarryOver(w, w');
    SameServerFits(w, w');
    InvFrom(cfg, w');
  }

  // ---------- The ends of authentication ----------

  lemma AuthenticationEnds(cfg: Config, w: World, conn: ConnId, s': Session)
    requires Inv(cfg, w) && conn in w.sessions && w.sessions[conn].phase.IsAuthenticating()
    requires !s'.phase.IsAuthenticating() && Outside(s') && SessionFits(cfg, conn, s', w.server.channels)
    requires s'.room == w.sessions[conn].room && s'.hash == w.sessions[conn].hash && s'.ip == w.sessions[conn].ip
    ensures Inv(cfg, DropGuard(Put(w, conn, s'), s'.ip))
  {
    InvMeans(cfg, w);
    OutsideUpdate(cfg, w, conn, s');
    GuardDropped(w, conn, s');
    OnlyGuards(cfg, Put(w, conn, s'), DropGuard(Put(w, conn, s'), s'.ip));
  }

  lemma ClosingFits(cfg: Config, conn: ConnId, s: Session, channels: seq<ChannelState>)
    requires SessionFits(cfg, conn, s, channels) && s.phase.IsBeforeAttach()
    ensures SessionFits(cfg, conn, s.Enter(Closed), channels) && Outside(s) && Outside(s.Enter(Closed))
  {
  }

  lemma RefusingFits(cfg: Config, conn: ConnId, s: Session, channels: seq<ChannelState>, f: OutgoingMessage,
                     delivered: bool)
    requires SessionFits(cfg, conn, s, channels) && s.phase.IsBeforeAttach()
    requires MayRefuse(s.phase, f) || (s.phase.Admitted? && f == AuthUnavailableFrame)
    ensures SessionFits(cfg, conn, s.Enter(Closed).WriteIf(delivered, f), channels)
            && Outside(s.Enter(Closed).WriteIf(delivered, f))
  {
    RefusingReads(s, f);
    RefusingIsSilent(s.frames, f);
    SilentFits(cfg, conn, s, if delivered then s.frames + [f] else s.frames, channels);
  }

  lemma RefusingReads(s: Session, f: OutgoingMessage)
    requires InPlace(s) && s.phase.IsBeforeAttach()
    requires MayRefuse(s.phase, f) || (s.phase.Admitted? && f == AuthUnavailableFrame)
    ensures Reading(s.IsProtected(), s.frames) != OffGrammar && Reading(s.IsProtected(), s.frames + [f]) != OffGrammar
    ensures f.IsAuthFailure()
  {
    ReadingAppend(s.IsProtected(), s.frames, f);
  }

  lemma RefusingIsSilent(frames: seq<OutgoingMessage>, f: OutgoingMessage)
    requires Silent(frames) && IsSilent(f)
    ensures Silent(frames + [f])
  {
  }

  lemma SilentFits(cfg: Config, conn: ConnId, s: Session, frames: seq<OutgoingMessage>, channels: seq<ChannelState>)
    requires SessionFits(cfg, conn, s, channels) && s.phase.IsBeforeAttach()
    requires Silent(frames) && Reading(s.IsProtected(), frames) != OffGrammar
    ensures var s' := s.(phase := Closed, frames := frames); SessionFits(cfg, conn, s', channels) && Outside(s')
  {
  }

  lemma AdmittingFits(cfg: Config, conn: ConnId, s: Session, channels: seq<ChannelState>)
    requires SessionFits(cfg, conn, s, channels) && s.phase.AuthVerifying? && s.hash.Some?
    requires cfg.matches(s.phase.password, s.hash.value)
    ensures var s' := s.(verified := Some(s.phase.password), phase := Admitted);
            SessionFits(cfg, conn, s', channels) && Outside(s')
  {
  }

  lemma AbandonKeeps(cfg: Config, w: World, conn: ConnId)
    requires Inv(cfg, w)
    ensures Inv(cfg, EntryStep(cfg, w, Abandon(conn)))
  {
    if In(w, conn, AuthStart) {
      SessionHolds(cfg, w, conn);
      ClosingFits(cfg, conn, w.sessions[conn], w.server.channels);
      AuthenticationEnds(cfg, w, conn, w.sessions[conn].Enter(Closed));
    } else if In(w, conn, Admitted) && !w.sessions[conn].IsProtected() {
      SessionHolds(cfg, w, conn);
      ClosingFits(cfg, conn, w.sessions[conn], w.server.channels);
      OutsideCloses(cfg, w, conn, w.sessions[conn].Enter(Closed));
    }
  }

  lemma VerifyKeeps(cfg: Config, w: World, conn: ConnId)
    requires Inv(cfg, w)
    ensures Inv(cfg, AuthenticationStep(cfg, w, Verify(conn)))
  {
    if conn in w.sessions && w.sessions[conn].phase.AuthVerifying? && w.sessions[conn].hash.Some? {
      var s := w.sessions[conn];
      if cfg.matches(s.phase.password, s.hash.value) {
        SessionHolds(cfg, w, conn);
        AdmittingFits(cfg, conn, s, w.server.channels);
        AuthenticationEnds(cfg, w, conn, s.(verified := Some(s.phase.password), phase := Admitted));
      }
    }
  }

  lemma RefuseKeeps(cfg: Config, w: World, conn: ConnId, busy: bool, delivered: bool)
    requires Inv(cfg, w)
    ensures Inv(cfg, AuthenticationStep(cfg, w, Refuse(conn, busy, delivered)))
  {
    if conn in w.sessions && Refusal(w.sessions[conn].phase, busy).Some? {
      var failure := Refusal(w.sessions[conn].phase, busy).value;
      SessionHolds(cfg, w, conn);
      RefusingFits(cfg, conn, w.sessions[conn], w.server.channels, failure, delivered);
      AuthenticationEnds(cfg, w, conn, w.sessions[conn].Enter(Closed).WriteIf(delivered, failure));
    }
  }

  // A session that has not attached and holds no guard goes on unattached.
  lemma OutsideCloses(cfg: Config, w: World, conn: ConnId, s': Session)
    requires Inv(cfg, w) && conn in w.sessions && Outside(w.sessions[conn]) && Outside(s')
    requires !w.sessions[conn].phase.IsAuthenticating() && !s'.phase.IsAuthenticating()
    requires SessionFits(cfg, conn, s', w.server.channels)
    requires s'.room == w.sessions[conn].room && s'.hash == w.sessions[conn].hash
    ensures Inv(cfg, Put(w, conn, s'))
  {
    InvMeans(cfg, w);
    OutsideUpdate(cfg, w, conn, s');
    GuardsUnheld(w, conn, s');
    InvFrom(cfg, Put(w, conn, s'));
  }

  // An attach that finds no row.
  lemma UnavailableKeeps(cfg: Config, w: World, conn: ConnId, delivered: bool)
    requires Inv(cfg, w) && In(w, conn, Admitted)
    ensures Inv(cfg, Put(w, conn, w.sessions[conn].Enter(Closed).WriteIf(delivered, AuthUnavailableFrame)))
  {
    SessionHolds(cfg, w, conn);
    RefusingFits(cfg, conn, w.sessions[conn], w.server.channels, AuthUnavailableFrame, delivered);
    OutsideCloses(cfg, w, conn, w.sessions[conn].Enter(Closed).WriteIf(delivered, AuthUnavailableFrame));
  }
}
