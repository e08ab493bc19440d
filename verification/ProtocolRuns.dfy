/** The invariant holds after every run, and logs are never cut back. */
module ProtocolRuns {
  import opened RoomEvents
  import opened RoomTable
  import opened ServerModel
  import opened Sessions
  import opened Protocol
  import opened StepShapes
  import opened ProtocolInvariant
  import opened AdmissionSteps
  import opened SessionSteps
  import opened RoomSteps

  lemma EntryStepKeeps(cfg: Config, w: World, l: Label)
    requires Inv(cfg, w)
    ensures Inv(cfg, EntryStep(cfg, w, l))
  {
    match l
    case CreateRoom(id, hash, now, up, ip, at) => CreateKeeps(cfg, w, id, hash, now, up, ip, at);
    case Maintain(at) => MaintainKeeps(cfg, w, at);
    case Open(conn, id, ip, at) => OpenKeeps(cfg, w, conn, id, ip, at);
    case Abandon(conn) => AbandonKeeps(cfg, w, conn);
    case _ =>
  }

  lemma AuthenticationStepKeeps(cfg: Config, w: World, l: Label)
    requires Inv(cfg, w)
    ensures Inv(cfg, AuthenticationStep(cfg, w, l))
  {
    match l
    case Verify(conn) => VerifyKeeps(cfg, w, conn);
    case Refuse(conn, busy, delivered) => RefuseKeeps(cfg, w, conn, busy, delivered);
    case _ =>
  }

  lemma HandshakeStepKeeps(cfg: Config, w: World, l: Label)
    requires Inv(cfg, w)
    ensures Inv(cfg, HandshakeStep(cfg, w, l))
  {
    match l
    case Challenge(conn) => ChallengeKeeps(cfg, w, conn);
    case Present(conn, password, at) => PresentKeeps(cfg, w, conn, password, at);
    case Greet(conn) => GreetKeeps(cfg, w, conn);
    case Announce(conn, publicKey, pqPublicKey, sig) => AnnounceKeeps(cfg, w, conn, publicKey, pqPublicKey, sig);
    case Confirm(conn) => ConfirmKeeps(cfg, w, conn);
    case SeedKey(conn) => SeedKeyKeeps(cfg, w, conn);
    case BeginRelay(conn) => BeginRelayKeeps(cfg, w, conn);
    case _ =>
  }

  lemma JoinStepKeeps(cfg: Config, w: World, l: Label)
    requires Inv(cfg, w)
    ensures Inv(cfg, JoinStep(cfg, w, l))
  {
    match l
    case StartJoin(conn, peers, delivered) => StartJoinKeeps(cfg, w, conn, peers, delivered);
    case EndJoin(conn) => EndJoinKeeps(cfg, w, conn);
    case _ =>
  }

  lemma RelayStepKeeps(cfg: Config, w: World, l: Label)
    requires Inv(cfg, w)
    ensures Inv(cfg, RelayStep(cfg, w, l))
  {
    match l
    case Take(conn, delivered) => TakeKeeps(cfg, w, conn, delivered);
    case Activity(conn, payload, epoch, counter, now, up) =>
      ActivityKeeps(cfg, w, conn, payload, epoch, counter, now, up);
    case SendChat(conn) => SendChatKeeps(cfg, w, conn);
    case Say(conn, e) => SayKeeps(cfg, w, conn, e);
    case Break(conn) => BreakKeeps(cfg, w, conn);
    case _ =>
  }

  lemma RoomStepKeeps(cfg: Config, w: World, l: Label)
    requires Inv(cfg, w)
    ensures Inv(cfg, RoomStep(cfg, w, l))
  {
    match l
    case AttachRoom(conn, up, delivered) => AttachKeeps(cfg, w, conn, up, delivered);
    case DetachRoom(conn) => DetachKeeps(cfg, w, conn);
    case ExpireRooms(now, threshold, up) => ExpireKeeps(cfg, w, now, threshold, up);
    case _ =>
  }

  lemma StepKeeps(cfg: Config, w: World, l: Label)
    requires Inv(cfg, w)
    ensures Inv(cfg, Step(cfg, w, l))
  {
    if IsEntry(l) {
      EntryStepKeeps(cfg, w, l);
    } else if IsAuthentication(l) {
      AuthenticationStepKeeps(cfg, w, l);
    } else if IsHandshake(l) {
      HandshakeStepKeeps(cfg, w, l);
    } else if IsJoin(l) {
      JoinStepKeeps(cfg, w, l);
    } else if IsRelay(l) {
      RelayStepKeeps(cfg, w, l);
    } else {
      RoomStepKeeps(cfg, w, l);
    }
  }

  lemma EmptyFits(cfg: Config)
    ensures Inv(cfg, EMPTY)
  {
    forall ip ensures |Holders(EMPTY.sessions, ip)| == 0 {
      assert Holders(EMPTY.sessions, ip) == {};
    }
  }

  lemma {:induction false} RunKeeps(cfg: Config, ls: seq<Label>)
    ensures Inv(cfg, Run(cfg, ls))
  {
    if ls == [] {
      EmptyFits(cfg);
    } else {
      RunKeeps(cfg, ls[..|ls| - 1]);
      StepKeeps(cfg, Run(cfg, ls[..|ls| - 1]), ls[|ls| - 1]);
    }
  }

  // ---------- Channels only grow ----------

  lemma StepGrows(cfg: Config, w: World, l: Label)
    requires ServerFits(w)
    ensures Grown(w.server.channels, Step(cfg, w, l).server.channels)
  {
    if IsPrivate(l) {
      PrivateStep(cfg, w, l);
    } else if IsEntry(l) {
      EntryStepIs(cfg, w, l);
      EntryGrows(cfg, w, l);
    } else if IsJoin(l) {
      JoinStepIs(cfg, w, l);
      JoinGrows(cfg, w, l);
    } else if IsRelay(l) {
      RelayStepIs(cfg, w, l);
      RelayGrows(cfg, w, l);
    } else {
      LockedStepIs(cfg, w, l);
      RoomGrows(cfg, w, l);
    }
  }

  lemma EntryGrows(cfg: Config, w: World, l: Label)
    requires l.CreateRoom? || l.Maintain?
    ensures EntryStep(cfg, w, l).server.channels == w.server.channels
  {
  }

  lemma JoinGrows(cfg: Config, w: World, l: Label)
    ensures Grown(w.server.channels, JoinStep(cfg, w, l).server.channels)
  {
  }

  lemma RelayGrows(cfg: Config, w: World, l: Label)
    ensures Grown(w.server.channels, RelayStep(cfg, w, l).server.channels)
  {
  }

  lemma RoomGrows(cfg: Config, w: World, l: Label)
    requires ServerFits(w)
    ensures Grown(w.server.channels, RoomStep(cfg, w, l).server.channels)
  {
    match l
    case AttachRoom(conn, up, delivered) => AttachGrows(w, conn, up, delivered);
    case DetachRoom(conn) => DetachGrows(w, conn);
    case ExpireRooms(now, threshold, up) => ExpireGrows(w.server, Stale(w.server.rows, now, threshold));
    case _ =>
  }

  lemma AttachGrows(w: World, conn: ConnId, up: bool, delivered: bool)
    ensures Grown(w.server.channels, DoAttach(w, conn, up, delivered).server.channels)
  {
  }

  lemma DetachGrows(w: World, conn: ConnId)
    requires ServerFits(w)
    ensures Grown(w.server.channels, DoDetach(w, conn).server.channels)
  {
    RoomsAreWired(w);
    if conn in w.sessions && w.sessions[conn].room in w.server.rooms {
      DetachRoomsAre(w.server, w.sessions[conn].room, conn);
    }
  }

  lemma ExpireGrows(s: Server, stale: set<RoomId>)
    ensures Grown(s.channels, ExpireChannels(s, stale))
  {
    forall k | 0 <= k < |s.channels|
      ensures ExpireChannels(s, stale)[k].owner == s.channels[k].owner
              && s.channels[k].log <= ExpireChannels(s, stale)[k].log
    {
      ExpireChannelAt(s, stale, k);
    }
  }

  lemma {:induction false} RunGrows(cfg: Config, ls: seq<Label>, more: seq<Label>)
    ensures Grown(Run(cfg, ls).server.channels, Run(cfg, ls + more).server.channels)
  {
    if more == [] {
      assert ls + more == ls;
    } else {
      var n := |more| - 1;
      var prior := ls + more[..n];
      assert ls + more == prior + [more[n]];
      RunGrows(cfg, ls, more[..n]);
      LastGrows(cfg, prior, more[n]);
      GrowthAdds(Run(cfg, ls).server.channels, Run(cfg, prior).server.channels, Run(cfg, ls + more).server.channels);
    }
  }

  lemma {:induction false} LastGrows(cfg: Config, ls: seq<Label>, l: Label)
    ensures Grown(Run(cfg, ls).server.channels, Run(cfg, ls + [l]).server.channels)
  {
    RunKeeps(cfg, ls);
    ServerHolds(cfg, Run(cfg, ls));
    StepGrows(cfg, Run(cfg, ls), l);
    RunOneMore(cfg, ls, l);
  }

  lemma GrowthAdds(a: seq<ChannelState>, b: seq<ChannelState>, c: seq<ChannelState>)
    requires Grown(a, b) && Grown(b, c)
    ensures Grown(a, c)
  {
  }

  // ---------- Continuing a run ----------

  lemma {:induction false} PlayNext(cfg: Config, w: World, l: Label, rest: seq<Label>)
    ensures Play(cfg, w, [l] + rest) == Play(cfg, Step(cfg, w, l), rest)
    ensures Play(cfg, w, [l]) == Step(cfg, w, l)
  {
    assert ([l] + rest)[1..] == rest;
  }

  lemma {:induction false} RunPlays(cfg: Config, ls: seq<Label>, more: seq<Label>)
    ensures Run(cfg, ls + more) == Play(cfg, Run(cfg, ls), more)
    decreases |more|
  {
    if more == [] {
      assert ls + more == ls;
    } else {
      var l, rest := more[0], more[1..];
      assert more == [l] + rest && ls + more == (ls + [l]) + rest;
      RunPlays(cfg, ls + [l], rest);
      RunOneMore(cfg, ls, l);
      PlayNext(cfg, Run(cfg, ls), l, rest);
    }
  }

  lemma {:induction false} RunOneMore(cfg: Config, ls: seq<Label>, l: Label)
    ensures Run(cfg, ls + [l]) == Step(cfg, Run(cfg, ls), l)
  {
    assert (ls + [l])[..|ls|] == ls;
  }
}
