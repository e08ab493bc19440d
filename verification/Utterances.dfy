/** What a session says over a run, and what its room's log holds of it: the same, in order. */
module Utterances {
  import opened Wrappers
  import opened RoomEvents
  import opened RoomLog
  import opened ServerModel
  import opened Sessions
  import opened Protocol
  import opened StepShapes
  import opened ProtocolInvariant
  import opened RoomSteps
  import opened ProtocolRuns
  import opened CreatorClaims
  import opened Provenance
  import SocketSession

  // What one step has a session say: a chat when it is composed, anything else when it is sent.
  function UtteredAt(w: World, l: Label, conn: ConnId): seq<RoomEvent> {
    match l
    case Activity(c, payload, epoch, counter, _, _) =>
      if c == conn && AtSelect(w, c) then [Chat(conn, payload, epoch, counter)] else []
    case Say(c, e) => if c == conn && MaySay(w, c, e) then [e] else []
    case _ => []
  }

  function Uttered(cfg: Config, ls: seq<Label>, conn: ConnId): seq<RoomEvent> {
    if ls == [] then []
    else
      var prior, l := ls[..|ls| - 1], ls[|ls| - 1];
      Uttered(cfg, prior, conn) + UtteredAt(Run(cfg, prior), l, conn)
  }

  function Pending(s: Session): seq<RoomEvent> {
    if s.outbox.Some? then [s.outbox.value] else []
  }

  // The log of its channel holds all a session has said, but for a chat composed and not sent.
  predicate Balances(sessions: map<ConnId, Session>, channels: seq<ChannelState>, conn: ConnId, said: seq<RoomEvent>) {
    if conn !in sessions || sessions[conn].attachment.None? then said == []
    else
      var s, k := sessions[conn], sessions[conn].attachment.value.tx;
      k < |channels| && Own(conn, channels[k].log) + Pending(s) == said
  }

  // ---------- Who has not joined has said nothing ----------

  lemma SpeakerJoined(cfg: Config, w: World, k: nat, j: nat)
    requires Inv(cfg, w) && k < |w.server.channels| && j < |w.server.channels[k].log|
    requires w.server.channels[k].log[j].IsTraffic()
    ensures JoinedOn(w.sessions, w.server.channels[k].log[j].from, k)
  {
    InvMeans(cfg, w);
    var log := w.server.channels[k].log;
    assert ChannelFits(w.server, w.created, k) && MembersOf(w.sessions, k, Replay(log));
    SpeakerWasIn(log, j);
  }

  lemma SpeakerWasIn(log: seq<RoomEvent>, j: nat)
    requires WellFormed(log) && j < |log| && log[j].IsTraffic()
    ensures log[j].from in Replay(log).present || log[j].from in Replay(log).gone
  {
    LegalAt(log, j);
    PresentStays(log, j, log[j].from);
  }

  // Once in, a peer is in or gone.
  lemma {:induction false} PresentStays(log: seq<RoomEvent>, j: nat, x: ConnId)
    requires j <= |log| && (x in Replay(log[..j]).present || x in Replay(log[..j]).gone)
    ensures x in Replay(log).present || x in Replay(log).gone
  {
    if j == |log| {
      assert log[..j] == log;
    } else {
      assert log[..|log| - 1][..j] == log[..j];
      PresentStays(log[..|log| - 1], j, x);
    }
  }

  lemma {:induction false} NobodysOwn(conn: ConnId, log: seq<RoomEvent>)
    requires forall j :: 0 <= j < |log| && log[j].IsTraffic() ==> log[j].from != conn
    ensures Own(conn, log) == []
  {
    if log != [] {
      NobodysOwn(conn, log[..|log| - 1]);
    }
  }

  lemma UnjoinedSaidNothing(cfg: Config, w: World, conn: ConnId, k: nat)
    requires Inv(cfg, w) && k < |w.server.channels| && conn in w.sessions && !w.sessions[conn].joined
    ensures Own(conn, w.server.channels[k].log) == []
  {
    InvMeans(cfg, w);
    var log := w.server.channels[k].log;
    forall j: nat | j < |log| && log[j].IsTraffic() ensures log[j].from != conn {
      SpeakerJoined(cfg, w, k, j);
    }
    NobodysOwn(conn, log);
  }

  // ---------- One step ----------

  lemma AttachBalances(cfg: Config, w: World, l: Label, said: seq<RoomEvent>)
    requires Inv(cfg, w) && l.AttachRoom? && In(w, l.conn, Admitted) && said == []
    ensures var w' := Step(cfg, w, l); Balances(w'.sessions, w'.server.channels, l.conn, said)
  {
    SessionsHold(cfg, w);
    NoOutbox(cfg, w, l.conn);
    AttachStepIs(cfg, w, l.conn, l.up, l.delivered);
    AttachedUnjoined(w, l.conn, l.up, l.delivered);
    StepKeeps(cfg, w, l);
    UnjoinedBalances(cfg, Step(cfg, w, l), l.conn);
  }

  lemma UnjoinedBalances(cfg: Config, w: World, conn: ConnId)
    requires Inv(cfg, w) && conn in w.sessions && !w.sessions[conn].joined && w.sessions[conn].outbox.None?
    ensures Balances(w.sessions, w.server.channels, conn, [])
  {
    if w.sessions[conn].attachment.Some? {
      SessionHolds(cfg, w, conn);
      UnjoinedSaidNothing(cfg, w, conn, w.sessions[conn].attachment.value.tx);
    }
  }

  lemma NoOutbox(cfg: Config, w: World, conn: ConnId)
    requires SessionsFit(cfg, w) && In(w, conn, Admitted)
    ensures w.sessions[conn].outbox.None? && !w.sessions[conn].joined
  {
    assert SessionFits(cfg, conn, w.sessions[conn], w.server.channels);
  }

  lemma AttachedUnjoined(w: World, conn: ConnId, up: bool, delivered: bool)
    requires In(w, conn, Admitted)
    ensures var sessions' := DoAttach(w, conn, up, delivered).sessions;
            && conn in sessions' && sessions'[conn].joined == w.sessions[conn].joined
            && sessions'[conn].outbox == w.sessions[conn].outbox
            && forall x :: x != conn ==>
               (x in sessions' <==> x in w.sessions) && (x in sessions' ==> sessions'[x] == w.sessions[x])
  {
  }

  // A log that gains nothing of the session's own.
  lemma OwnKept(cfg: Config, w: World, channels: seq<ChannelState>, l: Label, k: nat, conn: ConnId)
    requires SessionsFit(cfg, w) && LogsStep(w, channels, l) && k < |w.server.channels|
    requires forall e :: Sends(w, l, k, e) ==> e.from != conn
    ensures k < |channels| && Own(conn, channels[k].log) == Own(conn, w.server.channels[k].log)
  {
    assert LogStep(w, channels, l, k);
    var log, log' := w.server.channels[k].log, channels[k].log;
    if log' != log {
      OwnAppend(conn, log, log'[|log|]);
    }
  }

  lemma SpeakersAreThemselves(cfg: Config, w: World, l: Label, k: nat, e: RoomEvent)
    requires SessionsFit(cfg, w) && Sends(w, l, k, e)
    ensures HasSession(l) && e.IsTraffic() && e.from == l.conn
  {
    match l
    case SendChat(conn) => assert SessionFits(cfg, conn, w.sessions[conn], w.server.channels);
    case Say(_, _) =>
  }

  // A step that is not the session's own saying leaves the balance.
  lemma BalanceKept(cfg: Config, w: World, w': World, l: Label, conn: ConnId, said: seq<RoomEvent>)
    requires SessionsFit(cfg, w) && LogsStep(w, w'.server.channels, l)
    requires forall k: nat, e :: Sends(w, l, k, e) ==> e.from != conn
    requires conn in w'.sessions && w'.sessions[conn].attachment.Some? ==>
               conn in w.sessions && w'.sessions[conn].attachment == w.sessions[conn].attachment
    requires conn in w.sessions && w.sessions[conn].attachment.Some? ==>
               conn in w'.sessions && w'.sessions[conn].attachment == w.sessions[conn].attachment
               && w'.sessions[conn].outbox == w.sessions[conn].outbox
    requires Balances(w.sessions, w.server.channels, conn, said)
    ensures Balances(w'.sessions, w'.server.channels, conn, said)
  {
    if conn in w.sessions && w.sessions[conn].attachment.Some? {
      OwnKept(cfg, w, w'.server.channels, l, w.sessions[conn].attachment.value.tx, conn);
    }
  }

  // Another session's step, or one of the table or the limiter.
  lemma OthersBalance(cfg: Config, w: World, l: Label, conn: ConnId, said: seq<RoomEvent>)
    requires Inv(cfg, w) && (HasSession(l) ==> l.conn != conn)
    requires Balances(w.sessions, w.server.channels, conn, said)
    ensures var w' := Step(cfg, w, l); Balances(w'.sessions, w'.server.channels, conn, said)
  {
    InvMeans(cfg, w);
    forall k: nat, e | Sends(w, l, k, e) ensures e.from != conn {
      SpeakersAreThemselves(cfg, w, l, k, e);
    }
    RoomsAreWired(w);
    StepLogs(cfg, w, l);
    OtherSessionsKept(cfg, w, l, conn);
    BalanceKept(cfg, w, Step(cfg, w, l), l, conn, said);
  }

  lemma OtherSessionsKept(cfg: Config, w: World, l: Label, conn: ConnId)
    requires HasSession(l) ==> l.conn != conn
    ensures conn in Step(cfg, w, l).sessions <==> conn in w.sessions
    ensures conn in w.sessions ==> Step(cfg, w, l).sessions[conn] == w.sessions[conn]
  {
    if !HasSession(l) {
      SessionlessStep(cfg, w, l);
    } else if l.AttachRoom? {
      AttachStepIs(cfg, w, l.conn, l.up, l.delivered);
      if In(w, l.conn, Admitted) {
        AttachedUnjoined(w, l.conn, l.up, l.delivered);
      }
    } else if l.Activity? {
      ActivityStepIs(cfg, w, l);
    } else if l.SendChat? {
      SendChatStepIs(cfg, w, l.conn);
    } else {
      StepChanges(cfg, w, l);
    }
  }

  // The session's own steps that say nothing.
  lemma SilentBalances(cfg: Config, w: World, l: Label, said: seq<RoomEvent>)
    requires Inv(cfg, w) && HasSession(l) && !l.AttachRoom? && !l.Activity? && !l.SendChat? && !l.Say?
    requires Balances(w.sessions, w.server.channels, l.conn, said)
    ensures var w' := Step(cfg, w, l); Balances(w'.sessions, w'.server.channels, l.conn, said)
  {
    InvMeans(cfg, w);
    RoomsAreWired(w);
    StepLogs(cfg, w, l);
    StepChanges(cfg, w, l);
    BalanceKept(cfg, w, Step(cfg, w, l), l, l.conn, said);
  }

  lemma ActivityBalances(cfg: Config, w: World, l: Label, said: seq<RoomEvent>)
    requires l.Activity? && Balances(w.sessions, w.server.channels, l.conn, said)
    ensures var w' := Step(cfg, w, l);
            Balances(w'.sessions, w'.server.channels, l.conn, said + UtteredAt(w, l, l.conn))
  {
    ActivityStepIs(cfg, w, l);
    assert said + [] == said;
    if AtSelect(w, l.conn) {
      ActivityKeepsLogs(cfg, w, l);
    }
  }

  lemma ActivityKeepsLogs(cfg: Config, w: World, l: Label)
    requires l.Activity?
    ensures Step(cfg, w, l).server.channels == w.server.channels
  {
    RelayStepIs(cfg, w, l);
  }

  lemma SendChatBalances(cfg: Config, w: World, conn: ConnId, said: seq<RoomEvent>)
    requires SessionsFit(cfg, w) && Balances(w.sessions, w.server.channels, conn, said)
    ensures var w' := Step(cfg, w, SendChat(conn)); Balances(w'.sessions, w'.server.channels, conn, said)
  {
    SendChatStepIs(cfg, w, conn);
    if HasChat(w, conn) {
      var s := w.sessions[conn];
      SpeakersAreThemselves(cfg, w, SendChat(conn), s.attachment.value.tx, s.outbox.value);
      OwnAppend(conn, w.server.channels[s.attachment.value.tx].log, s.outbox.value);
    }
  }

  lemma SayBalances(cfg: Config, w: World, conn: ConnId, e: RoomEvent, said: seq<RoomEvent>)
    requires Balances(w.sessions, w.server.channels, conn, said)
    ensures var w' := Step(cfg, w, Say(conn, e));
            Balances(w'.sessions, w'.server.channels, conn, said + UtteredAt(w, Say(conn, e), conn))
  {
    SayStepIs(cfg, w, conn, e);
    if MaySay(w, conn, e) {
      SaidBalances(w.sessions, w.server.channels, conn, e, said);
    } else {
      assert said + [] == said;
    }
  }

  lemma SaidBalances(sessions: map<ConnId, Session>, channels: seq<ChannelState>, conn: ConnId, e: RoomEvent,
                     said: seq<RoomEvent>)
    requires Balances(sessions, channels, conn, said) && e.IsTraffic() && e.from == conn
    requires conn in sessions && sessions[conn].attachment.Some? && sessions[conn].outbox.None?
             && sessions[conn].attachment.value.tx < |channels|
    ensures Balances(sessions, Append(channels, sessions[conn].attachment.value.tx, e), conn, said + [e])
  {
    OwnAppend(conn, channels[sessions[conn].attachment.value.tx].log, e);
  }

  lemma StepBalances(cfg: Config, w: World, l: Label, conn: ConnId, said: seq<RoomEvent>)
    requires Inv(cfg, w) && Balances(w.sessions, w.server.channels, conn, said)
    ensures var w' := Step(cfg, w, l);
            Balances(w'.sessions, w'.server.channels, conn, said + UtteredAt(w, l, conn))
  {
    assert said + [] == said;
    if !HasSession(l) || l.conn != conn {
      OthersBalance(cfg, w, l, conn, said);
    } else if l.AttachRoom? {
      OwnAttachBalances(cfg, w, l, said);
    } else if l.Activity? {
      ActivityBalances(cfg, w, l, said);
    } else if l.SendChat? {
      SessionsHold(cfg, w);
      SendChatBalances(cfg, w, conn, said);
    } else if l.Say? {
      SayBalances(cfg, w, conn, l.event, said);
    } else {
      SilentBalances(cfg, w, l, said);
    }
  }

  lemma OwnAttachBalances(cfg: Config, w: World, l: Label, said: seq<RoomEvent>)
    requires Inv(cfg, w) && l.AttachRoom? && Balances(w.sessions, w.server.channels, l.conn, said)
    ensures var w' := Step(cfg, w, l); Balances(w'.sessions, w'.server.channels, l.conn, said)
  {
    InvMeans(cfg, w);
    if In(w, l.conn, Admitted) {
      SessionIsBare(cfg, w, l.conn);
      AttachBalances(cfg, w, l, said);
    } else {
      AttachStepIs(cfg, w, l.conn, l.up, l.delivered);
    }
  }

  // ---------- Runs ----------

  lemma {:induction false} RunBalances(cfg: Config, ls: seq<Label>, conn: ConnId)
    ensures var w := Run(cfg, ls); Balances(w.sessions, w.server.channels, conn, Uttered(cfg, ls, conn))
  {
    if ls != [] {
      var prior, l := ls[..|ls| - 1], ls[|ls| - 1];
      RunBalances(cfg, prior, conn);
      RunKeeps(cfg, prior);
      InvMeans(cfg, Run(cfg, prior));
      StepBalances(cfg, Run(cfg, prior), l, conn, Uttered(cfg, prior, conn));
    }
  }

  // At all times the room's log holds, in order and each once, exactly what the session has
  // said, but for a chat it has composed and is still to send.
  lemma {:induction false} OwnTrafficIsExact(cfg: Config, ls: seq<Label>, conn: ConnId)
    requires conn in Run(cfg, ls).sessions && Run(cfg, ls).sessions[conn].attachment.Some?
    ensures var w := Run(cfg, ls);
            var s := w.sessions[conn];
            && s.attachment.value.tx < |w.server.channels|
            && Own(conn, w.server.channels[s.attachment.value.tx].log) + Pending(s) == Uttered(cfg, ls, conn)
  {
    RunBalances(cfg, ls, conn);
  }

  // ---------- What a client's text becomes ----------

  // The steps by which the state machine has a session say what a text frame asks for.
  function StepsFor(conn: ConnId, f: SocketSession.ClientFrame, now: int, up: bool): seq<Label> {
    match f
    case Message(Some(payload), epoch, counter) => [Activity(conn, payload, epoch, counter, now, up), SendChat(conn)]
    case TreeCommitText(Some(data)) => [Say(conn, TreeCommit(conn, data))]
    case TreeWelcomeText(Some(data), Some(target)) => [Say(conn, TreeWelcome(conn, target, data))]
    case TypingText => [Say(conn, Typing(conn))]
    case _ => []
  }

  // They add to the room's log what the frame adds to it at the socket, field for field, and
  // nothing to any other.
  lemma TextIsItsSteps(cfg: Config, w: World, conn: ConnId, f: SocketSession.ClientFrame, now: int, up: bool)
    requires AtSelect(w, conn)
    ensures var w' := Play(cfg, w, StepsFor(conn, f, now, up));
            && AtSelect(w', conn) && w'.sessions == w.sessions
            && SocketSession.Adds(conn, f, LogOf(w, conn), LogOf(w', conn))
            && SameButOne(w.server.channels, w'.server.channels, w.sessions[conn].attachment.value.tx)
  {
    var labels := StepsFor(conn, f, now, up);
    if f.Message? && f.payload.Some? {
      var refresh := Activity(conn, f.payload.value, f.epoch, f.counter, now, up);
      PlayNext(cfg, w, refresh, [SendChat(conn)]);
      PlayNext(cfg, Step(cfg, w, refresh), SendChat(conn), []);
      ChatIsSaid(cfg, w, refresh);
    } else if labels != [] {
      PlayNext(cfg, w, labels[0], []);
      SayStepIs(cfg, w, conn, labels[0].event);
    }
  }

  predicate SameButOne(channels: seq<ChannelState>, channels': seq<ChannelState>, k: nat) {
    |channels'| == |channels| && forall i :: 0 <= i < |channels| && i != k ==> channels'[i] == channels[i]
  }

  lemma ChatIsSaid(cfg: Config, w: World, l: Label)
    requires l.Activity? && AtSelect(w, l.conn)
    ensures var w' := Step(cfg, Step(cfg, w, l), SendChat(l.conn));
            && w'.sessions == w.sessions && AtSelect(w', l.conn)
            && LogOf(w', l.conn) == LogOf(w, l.conn) + [Chat(l.conn, l.payload, l.epoch, l.counter)]
            && SameButOne(w.server.channels, w'.server.channels, w.sessions[l.conn].attachment.value.tx)
  {
    ActivityStepIs(cfg, w, l);
    ActivityKeepsLogs(cfg, w, l);
    SendChatStepIs(cfg, Step(cfg, w, l), l.conn);
  }

  // A chat composed and still to be sent.
  predicate HoldsChat(w: World, conn: ConnId, e: RoomEvent) {
    HasChat(w, conn) && w.sessions[conn].outbox == Some(e)
  }

  lemma OwnStepsWait(cfg: Config, w: World, l: Label)
    requires HasSession(l) && l != SendChat(l.conn) && HasChat(w, l.conn)
    ensures Step(cfg, w, l) == w
  {
  }

  lemma ChatIsKept(cfg: Config, w: World, l: Label, conn: ConnId, e: RoomEvent)
    requires Inv(cfg, w) && HoldsChat(w, conn, e) && l != SendChat(conn)
    ensures HoldsChat(Step(cfg, w, l), conn, e)
  {
    if HasSession(l) && l.conn == conn {
      OwnStepsWait(cfg, w, l);
    } else {
      OtherSessionsKept(cfg, w, l, conn);
      ServerHolds(cfg, w);
      StepGrows(cfg, w, l);
      ChannelsRemain(w, Step(cfg, w, l), conn, e);
    }
  }

  lemma ChannelsRemain(w: World, w': World, conn: ConnId, e: RoomEvent)
    requires HoldsChat(w, conn, e) && conn in w'.sessions && w'.sessions[conn] == w.sessions[conn]
    requires Grown(w.server.channels, w'.server.channels)
    ensures HoldsChat(w', conn, e)
  {
  }

  lemma {:induction false} ChatIsKeptOver(cfg: Config, ls: seq<Label>, mid: seq<Label>, conn: ConnId, e: RoomEvent)
    requires HoldsChat(Run(cfg, ls), conn, e) && SendChat(conn) !in mid
    ensures HoldsChat(Run(cfg, ls + mid), conn, e)
  {
    if mid == [] {
      assert ls + mid == ls;
    } else {
      var n := |mid| - 1;
      ChatIsKeptOver(cfg, ls, mid[..n], conn, e);
      assert ls + mid == (ls + mid[..n]) + [mid[n]] && mid[n] in mid;
      RunKeeps(cfg, ls + mid[..n]);
      ChatIsKept(cfg, Run(cfg, ls + mid[..n]), mid[n], conn, e);
      RunOneMore(cfg, ls + mid[..n], mid[n]);
    }
  }

  // However much others do between the refresh of its room and its sending, a chat is sent
  // as it was composed, behind all that the log holds by then.
  lemma {:induction false} ChatIsSentAsComposed(cfg: Config, ls: seq<Label>, l: Label, mid: seq<Label>)
    requires l.Activity? && AtSelect(Run(cfg, ls), l.conn) && SendChat(l.conn) !in mid
    ensures var before, after := Run(cfg, ls + [l] + mid), Run(cfg, ls + [l] + mid + [SendChat(l.conn)]);
            && HasChat(before, l.conn) && AtSelect(after, l.conn)
            && LogOf(after, l.conn) == LogOf(before, l.conn) + [Chat(l.conn, l.payload, l.epoch, l.counter)]
  {
    var e := Chat(l.conn, l.payload, l.epoch, l.counter);
    RunOneMore(cfg, ls, l);
    IsComposed(cfg, Run(cfg, ls), l);
    ChatIsKeptOver(cfg, ls + [l], mid, l.conn, e);
    RunOneMore(cfg, ls + [l] + mid, SendChat(l.conn));
    IsSent(cfg, Run(cfg, ls + [l] + mid), l.conn, e);
  }

  lemma IsComposed(cfg: Config, w: World, l: Label)
    requires l.Activity? && AtSelect(w, l.conn)
    ensures HoldsChat(Step(cfg, w, l), l.conn, Chat(l.conn, l.payload, l.epoch, l.counter))
  {
    ActivityStepIs(cfg, w, l);
    ActivityKeepsLogs(cfg, w, l);
  }

  lemma IsSent(cfg: Config, w: World, conn: ConnId, e: RoomEvent)
    requires HoldsChat(w, conn, e)
    ensures var w' := Step(cfg, w, SendChat(conn)); AtSelect(w', conn) && LogOf(w', conn) == LogOf(w, conn) + [e]
  {
    SendChatStepIs(cfg, w, conn);
  }
}
