/** Why clients are told that authentication failed: each failure has the cause it names. */
module Refusals {
  import opened RoomEvents
  import opened Sessions
  import opened Protocol
  import opened StepShapes
  import opened Utterances
  import AdmissionModel
  import AdmissionRuns

  // ---------- Causes ----------

  // At the n-th step the room's budget turned a password of the session away, and this is
  // what the limiter had to say.
  ghost predicate DeniedAt(cfg: Config, ls: seq<Label>, n: nat, conn: ConnId, f: OutgoingMessage)
    requires n < |ls|
  {
    var w, l := Run(cfg, ls[..n]), ls[n];
    && l.Present? && l.conn == conn && In(w, conn, AuthWaiting)
    && match AdmissionRuns.Reply(w.checks, AdmissionModel.Budget.Room(w.sessions[conn].room), l.at)
       case Ok => false
       case Limited(secs) => f == AuthRateLimitedFrame(secs)
       case Unavailable => f == AuthUnavailableFrame
  }

  ghost predicate Denied(cfg: Config, ls: seq<Label>, conn: ConnId, f: OutgoingMessage) {
    exists n: nat :: n < |ls| && DeniedAt(cfg, ls, n, conn, f)
  }

  // At the n-th step the session is turned away, while its password is being verified, or not.
  ghost predicate TurnedAwayAt(cfg: Config, ls: seq<Label>, n: nat, conn: ConnId, verifying: bool, busy: bool)
    requires n < |ls|
  {
    var w := Run(cfg, ls[..n]);
    && ls[n] == Refuse(conn, busy, true) && conn in w.sessions
    && if verifying then w.sessions[conn].phase.AuthVerifying?
       else w.sessions[conn].phase.AuthStart? || w.sessions[conn].phase.AuthWaiting?
  }

  ghost predicate TurnedAway(cfg: Config, ls: seq<Label>, conn: ConnId, verifying: bool, busy: bool) {
    exists n: nat :: n < |ls| && TurnedAwayAt(cfg, ls, n, conn, verifying, busy)
  }

  // At the n-th step the session finds no room to attach to, or no table to look in.
  ghost predicate UnattachedAt(cfg: Config, ls: seq<Label>, n: nat, conn: ConnId)
    requires n < |ls|
  {
    var w := Run(cfg, ls[..n]);
    && ls[n].AttachRoom? && ls[n].conn == conn && In(w, conn, Admitted)
    && (!ls[n].up || w.sessions[conn].room !in w.server.rows)
  }

  ghost predicate Unattached(cfg: Config, ls: seq<Label>, conn: ConnId) {
    exists n: nat :: n < |ls| && UnattachedAt(cfg, ls, n, conn)
  }

  // Being rate-limited is the limiter's doing, with the time it gave; unavailability is the
  // limiter's, the verifier's or the table's; and authentication fails before any password was
  // taken, or over one while the verifier was there.
  ghost predicate Caused(cfg: Config, ls: seq<Label>, conn: ConnId, f: OutgoingMessage) {
    match f
    case AuthRateLimitedFrame(_) => Denied(cfg, ls, conn, f)
    case AuthUnavailableFrame =>
      Denied(cfg, ls, conn, f) || TurnedAway(cfg, ls, conn, true, true) || Unattached(cfg, ls, conn)
    case AuthFailedFrame =>
      || TurnedAway(cfg, ls, conn, false, true) || TurnedAway(cfg, ls, conn, false, false)
      || TurnedAway(cfg, ls, conn, true, false)
    case _ => true
  }

  // ---------- They stay causes ----------

  lemma CausesStay(cfg: Config, ls: seq<Label>, l: Label, n: nat, conn: ConnId)
    requires n < |ls|
    ensures forall f :: DeniedAt(cfg, ls, n, conn, f) ==> DeniedAt(cfg, ls + [l], n, conn, f)
    ensures forall v, b :: TurnedAwayAt(cfg, ls, n, conn, v, b) ==> TurnedAwayAt(cfg, ls + [l], n, conn, v, b)
    ensures UnattachedAt(cfg, ls, n, conn) ==> UnattachedAt(cfg, ls + [l], n, conn)
  {
    assert (ls + [l])[..n] == ls[..n];
  }

  lemma DeniedLater(cfg: Config, ls: seq<Label>, l: Label, conn: ConnId, f: OutgoingMessage)
    requires Denied(cfg, ls, conn, f)
    ensures Denied(cfg, ls + [l], conn, f)
  {
    var n: nat :| n < |ls| && DeniedAt(cfg, ls, n, conn, f);
    CausesStay(cfg, ls, l, n, conn);
  }

  lemma TurnedAwayLater(cfg: Config, ls: seq<Label>, l: Label, conn: ConnId, verifying: bool, busy: bool)
    ensures TurnedAway(cfg, ls, conn, verifying, busy) ==> TurnedAway(cfg, ls + [l], conn, verifying, busy)
  {
    if n: nat :| n < |ls| && TurnedAwayAt(cfg, ls, n, conn, verifying, busy) {
      CausesStay(cfg, ls, l, n, conn);
    }
  }

  lemma UnattachedLater(cfg: Config, ls: seq<Label>, l: Label, conn: ConnId)
    ensures Unattached(cfg, ls, conn) ==> Unattached(cfg, ls + [l], conn)
  {
    if n: nat :| n < |ls| && UnattachedAt(cfg, ls, n, conn) {
      CausesStay(cfg, ls, l, n, conn);
    }
  }

  lemma CausedLater(cfg: Config, ls: seq<Label>, l: Label, conn: ConnId, f: OutgoingMessage)
    requires Caused(cfg, ls, conn, f)
    ensures Caused(cfg, ls + [l], conn, f)
  {
    if Denied(cfg, ls, conn, f) {
      DeniedLater(cfg, ls, l, conn, f);
    }
    TurnedAwayLater(cfg, ls, l, conn, true, true);
    TurnedAwayLater(cfg, ls, l, conn, true, false);
    TurnedAwayLater(cfg, ls, l, conn, false, true);
    TurnedAwayLater(cfg, ls, l, conn, false, false);
    UnattachedLater(cfg, ls, l, conn);
  }

  // ---------- One step ----------

  // What a session was told has causes, and so has what it is still to be told.
  ghost predicate Explained(cfg: Config, ls: seq<Label>, conn: ConnId, s: Session) {
    && (forall f :: f in s.frames ==> Caused(cfg, ls, conn, f))
    && (s.phase.AuthDenied? ==> Denied(cfg, ls, conn, s.phase.failure))
  }

  ghost predicate AllExplained(cfg: Config, ls: seq<Label>, sessions: map<ConnId, Session>) {
    forall conn :: conn in sessions ==> Explained(cfg, ls, conn, sessions[conn])
  }

  lemma ExplainedLater(cfg: Config, ls: seq<Label>, l: Label, conn: ConnId, s: Session)
    requires Explained(cfg, ls, conn, s)
    ensures Explained(cfg, ls + [l], conn, s)
  {
    forall f | f in s.frames ensures Caused(cfg, ls + [l], conn, f) {
      CausedLater(cfg, ls, l, conn, f);
    }
    if s.phase.AuthDenied? {
      DeniedLater(cfg, ls, l, conn, s.phase.failure);
    }
  }

  // A frame more that has its cause.
  lemma ExplainedOneMore(cfg: Config, ls: seq<Label>, conn: ConnId, s: Session, s': Session, f: OutgoingMessage)
    requires Explained(cfg, ls, conn, s) && (s'.frames == s.frames || s'.frames == s.frames + [f])
    requires Caused(cfg, ls, conn, f) || s'.frames == s.frames
    requires s'.phase.AuthDenied? ==> Denied(cfg, ls, conn, s'.phase.failure)
    ensures Explained(cfg, ls, conn, s')
  {
  }

  lemma RefusalIs(cfg: Config, w: World, conn: ConnId, busy: bool, delivered: bool)
    requires conn in w.sessions
    ensures var s, w' := w.sessions[conn], Step(cfg, w, Refuse(conn, busy, delivered));
            && conn in w'.sessions
            && w'.sessions[conn] == match Refusal(s.phase, busy)
                                    case None => s
                                    case Some(f) => s.Enter(Closed).WriteIf(delivered, f)
  {
    AuthenticationStepIs(cfg, w, Refuse(conn, busy, delivered));
  }

  // The session turned away at the last step.
  lemma RefusalIsCaused(cfg: Config, ls: seq<Label>, l: Label, w: World)
    requires w == Run(cfg, ls) && l.Refuse? && l.conn in w.sessions && l.delivered
    requires Refusal(w.sessions[l.conn].phase, l.busy).Some?
    requires w.sessions[l.conn].phase.AuthDenied? ==> Denied(cfg, ls + [l], l.conn, w.sessions[l.conn].phase.failure)
    ensures Caused(cfg, ls + [l], l.conn, Refusal(w.sessions[l.conn].phase, l.busy).value)
  {
    var n := |ls|;
    assert (ls + [l])[..n] == ls;
    if !w.sessions[l.conn].phase.AuthDenied? {
      assert TurnedAwayAt(cfg, ls + [l], n, l.conn, w.sessions[l.conn].phase.AuthVerifying?, l.busy);
    }
  }

  lemma RefuseExplained(cfg: Config, ls: seq<Label>, l: Label, w: World)
    requires w == Run(cfg, ls) && l.Refuse? && l.conn in w.sessions
    requires Explained(cfg, ls + [l], l.conn, w.sessions[l.conn])
    ensures l.conn in Step(cfg, w, l).sessions && Explained(cfg, ls + [l], l.conn, Step(cfg, w, l).sessions[l.conn])
  {
    RefusalIs(cfg, w, l.conn, l.busy, l.delivered);
    var s := w.sessions[l.conn];
    if Refusal(s.phase, l.busy).Some? {
      if l.delivered {
        RefusalIsCaused(cfg, ls, l, w);
      }
      ExplainedOneMore(cfg, ls + [l], l.conn, s, Step(cfg, w, l).sessions[l.conn], Refusal(s.phase, l.busy).value);
    }
  }

  lemma AttachExplained(cfg: Config, ls: seq<Label>, l: Label, w: World)
    requires w == Run(cfg, ls) && l.AttachRoom? && l.conn in w.sessions
    requires Explained(cfg, ls + [l], l.conn, w.sessions[l.conn])
    ensures l.conn in Step(cfg, w, l).sessions && Explained(cfg, ls + [l], l.conn, Step(cfg, w, l).sessions[l.conn])
  {
    AttachStepIs(cfg, w, l.conn, l.up, l.delivered);
    AttachWrites(w, l.conn, l.up, l.delivered);
    var s' := Step(cfg, w, l).sessions[l.conn];
    if s'.frames != w.sessions[l.conn].frames {
      assert (ls + [l])[..|ls|] == ls;
      assert UnattachedAt(cfg, ls + [l], |ls|, l.conn);
    }
    ExplainedOneMore(cfg, ls + [l], l.conn, w.sessions[l.conn], s', AuthUnavailableFrame);
  }

  lemma AttachWrites(w: World, conn: ConnId, up: bool, delivered: bool)
    requires conn in w.sessions
    ensures var s, sessions' := w.sessions[conn], DoAttach(w, conn, up, delivered).sessions;
            && conn in sessions' && (sessions'[conn].phase.AuthDenied? ==> sessions'[conn].phase == s.phase)
            && (sessions'[conn].frames == s.frames ||
                (&& sessions'[conn].frames == s.frames + [AuthUnavailableFrame]
                 && In(w, conn, Admitted) && (!up || s.room !in w.server.rows)))
  {
  }

  // A password presented at the last step and turned away.
  lemma PresentExplained(cfg: Config, ls: seq<Label>, l: Label, w: World)
    requires w == Run(cfg, ls) && l.Present? && l.conn in w.sessions
    requires Explained(cfg, ls + [l], l.conn, w.sessions[l.conn])
    ensures l.conn in Step(cfg, w, l).sessions && Explained(cfg, ls + [l], l.conn, Step(cfg, w, l).sessions[l.conn])
  {
    HandshakeStepIs(cfg, w, l);
    if In(w, l.conn, AuthWaiting) {
      var s' := Step(cfg, w, l).sessions[l.conn];
      if s'.phase.AuthDenied? {
        assert (ls + [l])[..|ls|] == ls;
        assert DeniedAt(cfg, ls + [l], |ls|, l.conn, s'.phase.failure);
      }
      ExplainedOneMore(cfg, ls + [l], l.conn, w.sessions[l.conn], s', JoinedFrame);
    }
  }

  // No other step tells a session that it failed, or has it denied.
  lemma OthersTellNoFailure(cfg: Config, w: World, l: Label)
    requires HasSession(l) && !l.Refuse? && l.conn in w.sessions && w.sessions[l.conn].phase.IsAuthenticating()
    requires !l.Present?
    ensures var s, sessions' := w.sessions[l.conn], Step(cfg, w, l).sessions;
            && l.conn in sessions'
            && (sessions'[l.conn].frames == s.frames
                || sessions'[l.conn].frames == s.frames + [AuthRequiredFrame(PROTECTED_PROTOCOL_VERSION)])
            && (sessions'[l.conn].phase.AuthDenied? ==> sessions'[l.conn].phase == s.phase)
  {
    if IsEntry(l) {
      EntryStepIs(cfg, w, l);
    } else if IsAuthentication(l) {
      AuthenticationStepIs(cfg, w, l);
    } else if IsHandshake(l) {
      HandshakeTellsNoFailure(cfg, w, l);
    } else {
      LaterStepsWait(cfg, w, l);
    }
  }

  lemma HandshakeTellsNoFailure(cfg: Config, w: World, l: Label)
    requires IsHandshake(l) && !l.Present? && l.conn in w.sessions && w.sessions[l.conn].phase.IsAuthenticating()
    ensures var s, sessions' := w.sessions[l.conn], Step(cfg, w, l).sessions;
            && l.conn in sessions'
            && (sessions'[l.conn].frames == s.frames
                || sessions'[l.conn].frames == s.frames + [AuthRequiredFrame(PROTECTED_PROTOCOL_VERSION)])
            && (sessions'[l.conn].phase.AuthDenied? ==> sessions'[l.conn].phase == s.phase)
  {
    HandshakeStepIs(cfg, w, l);
  }

  // Whoever has not authenticated takes no step further on.
  lemma LaterStepsWait(cfg: Config, w: World, l: Label)
    requires IsJoin(l) || IsRelay(l) || l.AttachRoom? || l.DetachRoom?
    requires l.conn in w.sessions && w.sessions[l.conn].phase.IsAuthenticating()
    ensures Step(cfg, w, l) == w
  {
    if IsJoin(l) {
      JoinStepIs(cfg, w, l);
      JoinWaits(cfg, w, l);
    } else if IsRelay(l) {
      RelayStepIs(cfg, w, l);
      RelayWaits(cfg, w, l);
    } else {
      LockedStepIs(cfg, w, l);
    }
  }

  lemma JoinWaits(cfg: Config, w: World, l: Label)
    requires IsJoin(l) && l.conn in w.sessions && w.sessions[l.conn].phase.IsAuthenticating()
    ensures JoinStep(cfg, w, l) == w
  {
  }

  lemma RelayWaits(cfg: Config, w: World, l: Label)
    requires IsRelay(l) && l.conn in w.sessions && w.sessions[l.conn].phase.IsAuthenticating()
    ensures RelayStep(cfg, w, l) == w
  {
  }

  lemma OtherStepExplained(cfg: Config, ls: seq<Label>, l: Label, w: World)
    requires w == Run(cfg, ls) && HasSession(l) && l.conn in w.sessions
    requires !l.Refuse? && !l.Present? && !l.AttachRoom? && !l.Activity? && !l.SendChat?
    requires Explained(cfg, ls + [l], l.conn, w.sessions[l.conn])
    ensures l.conn in Step(cfg, w, l).sessions && Explained(cfg, ls + [l], l.conn, Step(cfg, w, l).sessions[l.conn])
  {
    var s := w.sessions[l.conn];
    StepChanges(cfg, w, l);
    if s.phase.IsAuthenticating() {
      OthersTellNoFailure(cfg, w, l);
      ExplainedOneMore(cfg, ls + [l], l.conn, s, Step(cfg, w, l).sessions[l.conn],
                       AuthRequiredFrame(PROTECTED_PROTOCOL_VERSION));
    } else {
      MovedExplained(cfg, ls + [l], l.conn, s, Step(cfg, w, l).sessions[l.conn]);
    }
  }

  lemma MovedExplained(cfg: Config, ls: seq<Label>, conn: ConnId, s: Session, s': Session)
    requires Explained(cfg, ls, conn, s) && Moved(conn, s, s') && !s.phase.IsAuthenticating()
    ensures Explained(cfg, ls, conn, s')
  {
    var f := if s'.frames == s.frames then JoinedFrame else s'.frames[|s.frames|];
    assert !f.IsAuthFailure();
    ExplainedOneMore(cfg, ls, conn, s, s', f);
  }

  lemma OwnStepExplained(cfg: Config, ls: seq<Label>, l: Label, w: World)
    requires w == Run(cfg, ls) && HasSession(l) && l.conn in w.sessions
    requires Explained(cfg, ls + [l], l.conn, w.sessions[l.conn])
    ensures l.conn in Step(cfg, w, l).sessions && Explained(cfg, ls + [l], l.conn, Step(cfg, w, l).sessions[l.conn])
  {
    if l.Refuse? {
      RefuseExplained(cfg, ls, l, w);
    } else if l.Present? {
      PresentExplained(cfg, ls, l, w);
    } else if l.AttachRoom? {
      AttachExplained(cfg, ls, l, w);
    } else if l.Activity? || l.SendChat? {
      ChatSteps(cfg, w, l);
    } else {
      OtherStepExplained(cfg, ls, l, w);
    }
  }

  // A session that is new has been told nothing.
  lemma NewExplained(cfg: Config, ls: seq<Label>, l: Label, w: World)
    requires HasSession(l) && l.conn !in w.sessions && l.conn in Step(cfg, w, l).sessions
    ensures Explained(cfg, ls + [l], l.conn, Step(cfg, w, l).sessions[l.conn])
  {
    if l.AttachRoom? {
      AttachStepIs(cfg, w, l.conn, l.up, l.delivered);
    } else if l.Activity? || l.SendChat? {
      ChatSteps(cfg, w, l);
    } else {
      StepChanges(cfg, w, l);
    }
  }

  lemma StepExplained(cfg: Config, ls: seq<Label>, l: Label, w: World, x: ConnId)
    requires w == Run(cfg, ls) && AllExplained(cfg, ls, w.sessions) && x in Step(cfg, w, l).sessions
    ensures Explained(cfg, ls + [l], x, Step(cfg, w, l).sessions[x])
  {
    if x in w.sessions {
      ExplainedLater(cfg, ls, l, x, w.sessions[x]);
    }
    if !HasSession(l) || l.conn != x {
      OtherSessionsKept(cfg, w, l, x);
    } else if x in w.sessions {
      OwnStepExplained(cfg, ls, l, w);
    } else {
      NewExplained(cfg, ls, l, w);
    }
  }

  // ---------- Over a run ----------

  lemma {:induction false} RunExplained(cfg: Config, ls: seq<Label>)
    ensures AllExplained(cfg, ls, Run(cfg, ls).sessions)
  {
    if ls != [] {
      var prior, l := ls[..|ls| - 1], ls[|ls| - 1];
      RunExplained(cfg, prior);
      assert ls == prior + [l];
      AllStepExplained(cfg, prior, l, Run(cfg, prior));
    }
  }

  lemma AllStepExplained(cfg: Config, ls: seq<Label>, l: Label, w: World)
    requires w == Run(cfg, ls) && AllExplained(cfg, ls, w.sessions)
    ensures AllExplained(cfg, ls + [l], Step(cfg, w, l).sessions)
  {
    forall x | x in Step(cfg, w, l).sessions ensures Explained(cfg, ls + [l], x, Step(cfg, w, l).sessions[x]) {
      StepExplained(cfg, ls, l, w, x);
    }
  }

  // Every failure any client is ever told has the cause it names.
  lemma {:induction false} FailuresHaveCauses(cfg: Config, ls: seq<Label>, conn: ConnId, f: OutgoingMessage)
    requires conn in Run(cfg, ls).sessions && f in Run(cfg, ls).sessions[conn].frames
    ensures Caused(cfg, ls, conn, f)
  {
    RunExplained(cfg, ls);
  }
}
