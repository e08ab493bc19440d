/**
 The steps that change one session's record and nothing else keep the invariant: first
 what each does to the record, then the step itself.
 */
module SessionSteps {
  import opened Sequences
  import opened Wrappers
  import opened RoomEvents
  import opened RoomLog
  import opened ServerModel
  import opened Sessions
  import opened Protocol
  import opened ProtocolInvariant
  import opened AdmissionSteps
  import AdmissionModel

  lemma SplitAppend<T>(a: seq<T>, n: nat, b: seq<T>)
    requires n <= |a|
    ensures (a + b)[..n] == a[..n] && (a + b)[n..] == a[n..] + b
  {
  }

  // ---------- Records ----------

  lemma ChallengeFits(cfg: Config, conn: ConnId, s: Session, channels: seq<ChannelState>)
    requires SessionFits(cfg, conn, s, channels) && s.phase.AuthStart?
    ensures var s' := s.Enter(AuthWaiting).Write(AuthRequiredFrame(PROTECTED_PROTOCOL_VERSION));
            SessionFits(cfg, conn, s', channels) && SameRole(s, s')
  {
    ReadingAppend(s.IsProtected(), s.frames, AuthRequiredFrame(PROTECTED_PROTOCOL_VERSION));
  }

  lemma PresentFits(cfg: Config, conn: ConnId, s: Session, channels: seq<ChannelState>, password: string,
                    verdict: AdmissionModel.Answer)
    requires SessionFits(cfg, conn, s, channels) && s.phase.AuthWaiting?
    ensures SessionFits(cfg, conn, s.Enter(PresentedPhase(password, verdict)), channels)
    ensures SameRole(s, s.Enter(PresentedPhase(password, verdict)))
  {
  }

  lemma GreetFits(cfg: Config, conn: ConnId, s: Session, channels: seq<ChannelState>)
    requires SessionFits(cfg, conn, s, channels) && s.phase.Attached?
    ensures s.attachment.Some?
    ensures var s' := s.Enter(Welcomed).Write(WelcomeOf(conn, s));
            SessionFits(cfg, conn, s', channels) && SameRole(s, s')
  {
    ReadingAppend(s.IsProtected(), s.frames, WelcomeOf(conn, s));
  }

  lemma KeysFit(cfg: Config, conn: ConnId, s: Session, channels: seq<ChannelState>, keys: Participant)
    requires SessionFits(cfg, conn, s, channels) && s.phase.Welcomed? && ValidKeys(cfg, keys)
    ensures var s' := s.(keys := keys, phase := Keyed);
            SessionFits(cfg, conn, s', channels) && SameRole(s, s')
  {
  }

  // Leaving the session block, from wherever that is possible.
  lemma LeaveFits(cfg: Config, conn: ConnId, s: Session, channels: seq<ChannelState>)
    requires SessionFits(cfg, conn, s, channels) && s.outbox.None?
    requires s.phase.CanBreak() || s.phase.Keyed?
    ensures var s' := s.Enter(Leaving);
            SessionFits(cfg, conn, s', channels) && SameRole(s, s')
  {
  }

  lemma FullFits(cfg: Config, conn: ConnId, s: Session, channels: seq<ChannelState>)
    requires SessionFits(cfg, conn, s, channels) && s.phase.Keyed?
    ensures var s' := s.Enter(Leaving).Write(RoomFullFrame);
            SessionFits(cfg, conn, s', channels) && SameRole(s, s')
  {
    ReadingAppend(s.IsProtected(), s.frames, RoomFullFrame);
  }

  lemma NothingRelayedYet(conn: ConnId, s: Session, log: seq<RoomEvent>)
    requires WroteExactly(conn, s, log) && s.cursor == s.start
    ensures s.frames[s.opening..] == KeyFrames(s.snapshot[..s.seeded])
  {
    assert log[s.start..s.cursor] == [];
  }

  lemma ConfirmWritesExactly(conn: ConnId, s: Session, log: seq<RoomEvent>)
    requires WroteExactly(conn, s, log) && s.cursor == s.start && s.seeded == 0
    ensures WroteExactly(conn, Confirmed(s), log)
  {
    NothingRelayedYet(conn, s, log);
    assert s.snapshot[..0] == [];
    assert s.frames == s.frames[..s.opening] + s.frames[s.opening..];
    assert log[s.start..s.cursor] == [];
    var s' := Confirmed(s);
    assert s'.frames[..s'.opening] == s'.frames;
  }

  lemma ConfirmFits(cfg: Config, conn: ConnId, s: Session, channels: seq<ChannelState>)
    requires SessionFits(cfg, conn, s, channels) && s.phase.Confirming?
    ensures SessionFits(cfg, conn, Confirmed(s), channels) && SameRole(s, Confirmed(s))
  {
    ConfirmWritesExactly(conn, s, channels[s.attachment.value.tx].log);
    ReadingAppend(s.IsProtected(), s.frames, JoinedFrame);
  }

  lemma SeedingWritesExactly(conn: ConnId, s: Session, log: seq<RoomEvent>)
    requires WroteExactly(conn, s, log) && s.cursor == s.start && s.seeded < |s.snapshot|
    ensures WroteExactly(conn, SeededOne(s), log)
  {
    NothingRelayedYet(conn, s, log);
    KeyFramesNext(s.snapshot, s.seeded);
    SplitAppend(s.frames, s.opening, [KeyFrame(s.snapshot[s.seeded])]);
    assert log[s.start..s.cursor] == [];
  }

  lemma SeedFits(cfg: Config, conn: ConnId, s: Session, channels: seq<ChannelState>)
    requires SessionFits(cfg, conn, s, channels) && s.phase.Seeding? && s.seeded < |s.snapshot|
    ensures SessionFits(cfg, conn, SeededOne(s), channels) && SameRole(s, SeededOne(s))
  {
    SeedingWritesExactly(conn, s, channels[s.attachment.value.tx].log);
    SeedReads(s);
  }

  lemma SeedReads(s: Session)
    requires InPlace(s) && s.phase.Seeding? && s.seeded < |s.snapshot|
    ensures InPlace(SeededOne(s))
  {
    ReadingAppend(s.IsProtected(), s.frames, KeyFrame(s.snapshot[s.seeded]));
  }

  lemma RelayFits(cfg: Config, conn: ConnId, s: Session, channels: seq<ChannelState>)
    requires SessionFits(cfg, conn, s, channels) && s.phase.Seeding? && s.seeded >= |s.snapshot|
    ensures SessionFits(cfg, conn, s.Enter(Relaying), channels) && SameRole(s, s.Enter(Relaying))
  {
  }

  // Receiving one event keeps the session's frames exact, whatever becomes of it.
  lemma ReceiveWritesExactly(conn: ConnId, s: Session, log: seq<RoomEvent>, capacity: nat, delivered: bool)
    requires WroteExactly(conn, s, log) && s.seeded == |s.snapshot| && s.cursor < |log|
    ensures WroteExactly(conn, ReceiveOne(s, conn, log, capacity, delivered), log)
  {
    var s' := ReceiveOne(s, conn, log, capacity, delivered);
    if s'.cursor == s.cursor + 1 {
      assert s'.frames == s.frames + Emit(conn, log[s.cursor]);
      OneMoreWritten(conn, s, log);
    }
  }

  lemma OneMoreWritten(conn: ConnId, s: Session, log: seq<RoomEvent>)
    requires WroteExactly(conn, s, log) && s.seeded == |s.snapshot| && s.cursor < |log|
    ensures var frames := s.frames + Emit(conn, log[s.cursor]);
            && frames[..s.opening] == s.frames[..s.opening]
            && frames[s.opening..] == KeyFrames(s.snapshot[..s.seeded]) + RelayFrames(conn, log[s.start..s.cursor + 1])
  {
    var emitted := Emit(conn, log[s.cursor]);
    SplitAppend(s.frames, s.opening, emitted);
    RelayNext(conn, log, s.start, s.cursor);
    Regroup(KeyFrames(s.snapshot[..s.seeded]), RelayFrames(conn, log[s.start..s.cursor]), emitted);
  }

  lemma ReceiveLives(cfg: Config, conn: ConnId, s: Session, log: seq<RoomEvent>, delivered: bool)
    requires LifeFits(cfg, conn, s) && s.phase.Relaying? && s.outbox.None? && s.cursor < |log|
    ensures var s' := ReceiveOne(s, conn, log, cfg.capacity, delivered);
            LifeFits(cfg, conn, s') && SameRole(s, s') && (s'.phase.Leaving? || s'.phase.Relaying?)
  {
    WrittenLives(cfg, conn, s, log[s.cursor]);
  }

  function HavingRelayed(s: Session, e: RoomEvent): Session {
    s.(cursor := s.cursor + 1, phase := if e.RoomExpired? then Leaving else Relaying).Write(FromEvent(e))
  }

  lemma WrittenLives(cfg: Config, conn: ConnId, s: Session, e: RoomEvent)
    requires LifeFits(cfg, conn, s) && s.phase.Relaying? && s.outbox.None?
    ensures LifeFits(cfg, conn, HavingRelayed(s, e))
  {
    WrittenInPlace(s, e);
  }

  lemma WrittenInPlace(s: Session, e: RoomEvent)
    requires InPlace(s) && s.phase.Relaying?
    ensures InPlace(HavingRelayed(s, e))
  {
    ReadingAppend(s.IsProtected(), s.frames, FromEvent(e));
  }

  lemma ReceiveFits(cfg: Config, conn: ConnId, s: Session, channels: seq<ChannelState>, delivered: bool)
    requires SessionFits(cfg, conn, s, channels) && s.phase.Relaying? && s.outbox.None?
    requires s.cursor < |channels[s.attachment.value.tx].log|
    ensures var s' := ReceiveOne(s, conn, channels[s.attachment.value.tx].log, cfg.capacity, delivered);
            SessionFits(cfg, conn, s', channels) && SameRole(s, s')
  {
    var log := channels[s.attachment.value.tx].log;
    ReceiveWritesExactly(conn, s, log, cfg.capacity, delivered);
    ReceiveLives(cfg, conn, s, log, delivered);
  }

  lemma ComposeFits(cfg: Config, conn: ConnId, s: Session, channels: seq<ChannelState>, e: RoomEvent)
    requires SessionFits(cfg, conn, s, channels) && s.phase.Relaying? && e.Chat? && e.from == conn
    ensures SessionFits(cfg, conn, s.(outbox := Some(e)), channels) && SameRole(s, s.(outbox := Some(e)))
  {
  }

  // ---------- Steps ----------

  lemma ChallengeKeeps(cfg: Config, w: World, conn: ConnId)
    requires Inv(cfg, w)
    ensures Inv(cfg, HandshakeStep(cfg, w, Challenge(conn)))
  {
    if In(w, conn, AuthStart) {
      SessionHolds(cfg, w, conn);
      var s := w.sessions[conn];
      ChallengeFits(cfg, conn, s, w.server.channels);
      SessionOnly(cfg, w, conn, s.Enter(AuthWaiting).Write(AuthRequiredFrame(PROTECTED_PROTOCOL_VERSION)));
    }
  }

  lemma PresentKeeps(cfg: Config, w: World, conn: ConnId, password: string, at: real)
    requires Inv(cfg, w)
    ensures Inv(cfg, HandshakeStep(cfg, w, Present(conn, password, at)))
  {
    if In(w, conn, AuthWaiting) {
      SessionHolds(cfg, w, conn);
      var key := AdmissionModel.Budget.Room(w.sessions[conn].room);
      var consulted := Consult(w, key, at);
      ChecksAreApart(cfg, w, consulted);
      PresentFits(cfg, conn, w.sessions[conn], w.server.channels, password, Verdict(w, key, at));
      SessionOnly(cfg, consulted, conn, w.sessions[conn].Enter(PresentedPhase(password, Verdict(w, key, at))));
    }
  }

  lemma GreetKeeps(cfg: Config, w: World, conn: ConnId)
    requires Inv(cfg, w)
    ensures Inv(cfg, HandshakeStep(cfg, w, Greet(conn)))
  {
    if In(w, conn, Attached) {
      SessionHolds(cfg, w, conn);
      var s := w.sessions[conn];
      GreetFits(cfg, conn, s, w.server.channels);
      SessionOnly(cfg, w, conn, s.Enter(Welcomed).Write(WelcomeOf(conn, s)));
    }
  }

  lemma AnnounceKeeps(cfg: Config, w: World, conn: ConnId, publicKey: Option<string>, pqPublicKey: Option<string>,
                      sig: Option<string>)
    requires Inv(cfg, w)
    ensures Inv(cfg, HandshakeStep(cfg, w, Announce(conn, publicKey, pqPublicKey, sig)))
  {
    if In(w, conn, Welcomed) {
      SessionHolds(cfg, w, conn);
      var s := w.sessions[conn];
      match AcceptKeys(cfg, publicKey, pqPublicKey, sig)
      case None =>
        LeaveFits(cfg, conn, s, w.server.channels);
        SessionOnly(cfg, w, conn, s.Enter(Leaving));
      case Some(keys) =>
        KeysFit(cfg, conn, s, w.server.channels, keys);
        SessionOnly(cfg, w, conn, s.(keys := keys, phase := Keyed));
    }
  }

  // A join that is turned away.
  lemma TurnedAwayKeeps(cfg: Config, w: World, conn: ConnId, delivered: bool)
    requires Inv(cfg, w) && In(w, conn, Keyed)
    ensures Inv(cfg, Put(w, conn, w.sessions[conn].Enter(Leaving)))
    ensures Inv(cfg, Put(w, conn, w.sessions[conn].Enter(Leaving).WriteIf(delivered, RoomFullFrame)))
  {
    SessionHolds(cfg, w, conn);
    var s := w.sessions[conn];
    LeaveFits(cfg, conn, s, w.server.channels);
    FullFits(cfg, conn, s, w.server.channels);
    SessionOnly(cfg, w, conn, s.Enter(Leaving));
    SessionOnly(cfg, w, conn, s.Enter(Leaving).Write(RoomFullFrame));
  }

  lemma ConfirmKeeps(cfg: Config, w: World, conn: ConnId)
    requires Inv(cfg, w)
    ensures Inv(cfg, HandshakeStep(cfg, w, Confirm(conn)))
  {
    if In(w, conn, Confirming) {
      SessionHolds(cfg, w, conn);
      ConfirmFits(cfg, conn, w.sessions[conn], w.server.channels);
      SessionOnly(cfg, w, conn, Confirmed(w.sessions[conn]));
    }
  }

  lemma SeedKeyKeeps(cfg: Config, w: World, conn: ConnId)
    requires Inv(cfg, w)
    ensures Inv(cfg, HandshakeStep(cfg, w, SeedKey(conn)))
  {
    if In(w, conn, Seeding) && w.sessions[conn].seeded < |w.sessions[conn].snapshot| {
      SessionHolds(cfg, w, conn);
      SeedFits(cfg, conn, w.sessions[conn], w.server.channels);
      SessionOnly(cfg, w, conn, SeededOne(w.sessions[conn]));
    }
  }

  lemma BeginRelayKeeps(cfg: Config, w: World, conn: ConnId)
    requires Inv(cfg, w)
    ensures Inv(cfg, HandshakeStep(cfg, w, BeginRelay(conn)))
  {
    if In(w, conn, Seeding) && w.sessions[conn].seeded >= |w.sessions[conn].snapshot| {
      SessionHolds(cfg, w, conn);
      RelayFits(cfg, conn, w.sessions[conn], w.server.channels);
      SessionOnly(cfg, w, conn, w.sessions[conn].Enter(Relaying));
    }
  }

  lemma TakeKeeps(cfg: Config, w: World, conn: ConnId, delivered: bool)
    requires Inv(cfg, w)
    ensures Inv(cfg, RelayStep(cfg, w, Take(conn, delivered)))
  {
    if AtSelect(w, conn) && w.sessions[conn].cursor < |LogOf(w, conn)| {
      SessionHolds(cfg, w, conn);
      ReceiveFits(cfg, conn, w.sessions[conn], w.server.channels, delivered);
      SessionOnly(cfg, w, conn, ReceiveOne(w.sessions[conn], conn, LogOf(w, conn), cfg.capacity, delivered));
    }
  }

  lemma ComposeKeeps(cfg: Config, w: World, conn: ConnId, e: RoomEvent)
    requires Inv(cfg, w) && AtSelect(w, conn) && e.Chat? && e.from == conn
    ensures Inv(cfg, Put(w, conn, w.sessions[conn].(outbox := Some(e))))
  {
    SessionHolds(cfg, w, conn);
    ComposeFits(cfg, conn, w.sessions[conn], w.server.channels, e);
    SessionOnly(cfg, w, conn, w.sessions[conn].(outbox := Some(e)));
  }

  lemma BreakKeeps(cfg: Config, w: World, conn: ConnId)
    requires Inv(cfg, w)
    ensures Inv(cfg, RelayStep(cfg, w, Break(conn)))
  {
    if conn in w.sessions && w.sessions[conn].phase.CanBreak() && w.sessions[conn].outbox.None? {
      SessionHolds(cfg, w, conn);
      LeaveFits(cfg, conn, w.sessions[conn], w.server.channels);
      SessionOnly(cfg, w, conn, w.sessions[conn].Enter(Leaving));
    }
  }
}
