/**
 The admission limiter inside the relay: over every run, rooms created and sockets opened by
 one address, and passwords verified for one room, stay within their budgets.
 */
module BudgetTheorems {
  import opened Wrappers
  import opened RoomEvents
  import opened PendingPool
  import opened Sessions
  import opened Protocol
  import opened StepShapes
  import AdmissionModel
  import AdmissionRuns
  import AdmissionTheorems
  import AdmissionControl

  type Budget = AdmissionModel.Budget

  // The step is let through by the limiter, on this key.
  predicate Spends(w: World, l: Label, key: Budget) {
    match l
    case CreateRoom(id, _, _, _, ip, at) =>
      key == AdmissionModel.Creation(ip) && id !in w.created && Verdict(w, key, at).Ok?
    case Open(conn, _, ip, at) =>
      key == AdmissionModel.Connection(ip) && conn !in w.sessions && Verdict(w, key, at).Ok?
    case Present(conn, _, at) =>
      In(w, conn, AuthWaiting) && key == AdmissionModel.Budget.Room(w.sessions[conn].room) && Verdict(w, key, at).Ok?
    case _ => false
  }

  // The steps from the lo-th on of which something holds, by what went before them.
  function Where(ls: seq<Label>, holds: (seq<Label>, Label) -> bool, lo: nat): set<nat> {
    set n: nat | lo <= n < |ls| && holds(ls[..n], ls[n])
  }

  lemma WhereNext(ls: seq<Label>, holds: (seq<Label>, Label) -> bool, lo: nat)
    requires lo < |ls|
    ensures var prior, l := ls[..|ls| - 1], ls[|ls| - 1];
            |Where(ls, holds, lo)| == |Where(prior, holds, lo)| + if holds(prior, l) then 1 else 0
  {
    var last := |ls| - 1;
    var before := Where(ls[..last], holds, lo);
    forall n: nat | n < last ensures ls[..last][..n] == ls[..n] {
    }
    assert Where(ls, holds, lo) == before + if holds(ls[..last], ls[last]) then {last} else {};
  }

  lemma WhereFewer(ls: seq<Label>, some: (seq<Label>, Label) -> bool, all: (seq<Label>, Label) -> bool, lo: nat)
    requires forall prior, l :: some(prior, l) ==> all(prior, l)
    ensures |Where(ls, some, lo)| <= |Where(ls, all, lo)|
  {
    AdmissionControl.FewerKeys(Where(ls, some, lo), Where(ls, all, lo));
  }

  function LetThrough(cfg: Config, key: Budget): (seq<Label>, Label) -> bool {
    (prior, l) => Spends(Run(cfg, prior), l, key)
  }

  // The steps of a run, from the lo-th on, that are let through on a key.
  function SpendingSteps(cfg: Config, ls: seq<Label>, key: Budget, lo: nat): set<nat> {
    Where(ls, LetThrough(cfg, key), lo)
  }

  // ---------- What the limiter is asked ----------

  // Each step asks the limiter one thing at most, and what it lets through it admitted.
  predicate Asks(w: World, checks: seq<AdmissionRuns.Op>, l: Label, key: Budget) {
    if checks == w.checks then !Spends(w, l, key)
    else
      && |checks| == |w.checks| + 1 && checks == w.checks + [checks[|w.checks|]]
      && var op := checks[|w.checks|];
         Spends(w, l, key) <==> op.CheckOp? && op.key == key && AdmissionRuns.Reply(w.checks, key, op.at).Ok?
  }

  lemma ConsultAsks(w: World, asked: Budget, at: real, l: Label, key: Budget)
    requires Spends(w, l, key) <==> key == asked && Verdict(w, key, at).Ok?
    ensures Asks(w, Consult(w, asked, at).checks, l, key)
  {
  }

  lemma DroppingAsksNothing(w: World, ip: Ip)
    ensures DropGuard(w, ip).checks == w.checks
  {
  }

  lemma CreateAsks(w: World, l: Label, key: Budget)
    requires l.CreateRoom?
    ensures Asks(w, DoCreate(w, l.id, l.hash, l.now, l.up, l.ip, l.at).checks, l, key)
  {
    if l.id !in w.created {
      ConsultAsks(w, AdmissionModel.Creation(l.ip), l.at, l, key);
    }
  }

  lemma OpenAsks(w: World, l: Label, key: Budget)
    requires l.Open?
    ensures Asks(w, DoOpen(w, l.conn, l.id, l.ip, l.at).checks, l, key)
  {
    if l.conn !in w.sessions {
      ConsultAsks(w, AdmissionModel.Connection(l.ip), l.at, l, key);
    }
  }

  lemma PresentAsks(w: World, l: Label, key: Budget)
    requires l.Present?
    ensures Asks(w, DoPresent(w, l.conn, l.password, l.at).checks, l, key)
  {
    if In(w, l.conn, AuthWaiting) {
      ConsultAsks(w, AdmissionModel.Budget.Room(w.sessions[l.conn].room), l.at, l, key);
    }
  }

  lemma AbandonAsksNothing(w: World, conn: ConnId)
    ensures DoAbandon(w, conn).checks == w.checks
  {
    if conn in w.sessions {
      DroppingAsksNothing(Put(w, conn, w.sessions[conn].Enter(Closed)), w.sessions[conn].ip);
    }
  }

  lemma AuthenticationAsksNothing(cfg: Config, w: World, l: Label)
    requires IsAuthentication(l)
    ensures AuthenticationStep(cfg, w, l).checks == w.checks
  {
    if l.conn in w.sessions {
      var s := w.sessions[l.conn];
      match l
      case Verify(conn) =>
        if s.phase.AuthVerifying? {
          DroppingAsksNothing(Put(w, conn, s.(verified := Some(s.phase.password), phase := Admitted)), s.ip);
        }
      case Refuse(conn, busy, delivered) =>
        if Refusal(s.phase, busy).Some? {
          DroppingAsksNothing(Put(w, conn, s.Enter(Closed).WriteIf(delivered, Refusal(s.phase, busy).value)), s.ip);
        }
    }
  }

  lemma HandshakeAsksNothing(cfg: Config, w: World, l: Label)
    requires IsHandshake(l) && !l.Present?
    ensures HandshakeStep(cfg, w, l).checks == w.checks
  {
  }

  lemma JoinAsksNothing(cfg: Config, w: World, l: Label)
    ensures JoinStep(cfg, w, l).checks == w.checks
  {
  }

  lemma RelayAsksNothing(cfg: Config, w: World, l: Label)
    ensures RelayStep(cfg, w, l).checks == w.checks
  {
  }

  lemma RoomAsksNothing(cfg: Config, w: World, l: Label)
    ensures RoomStep(cfg, w, l).checks == w.checks
  {
  }

  lemma OthersAskNothing(cfg: Config, w: World, l: Label)
    requires !IsEntry(l) && !l.Present?
    ensures Step(cfg, w, l).checks == w.checks
  {
    if IsAuthentication(l) {
      AuthenticationStepIs(cfg, w, l);
      AuthenticationAsksNothing(cfg, w, l);
    } else if IsHandshake(l) {
      HandshakeStepIs(cfg, w, l);
      HandshakeAsksNothing(cfg, w, l);
    } else if IsJoin(l) {
      JoinStepIs(cfg, w, l);
      JoinAsksNothing(cfg, w, l);
    } else if IsRelay(l) {
      RelayStepIs(cfg, w, l);
      RelayAsksNothing(cfg, w, l);
    } else {
      LockedStepIs(cfg, w, l);
      RoomAsksNothing(cfg, w, l);
    }
  }

  lemma EntryAsks(cfg: Config, w: World, l: Label, key: Budget)
    requires IsEntry(l)
    ensures Asks(w, EntryStep(cfg, w, l).checks, l, key)
  {
    match l
    case CreateRoom(_, _, _, _, _, _) => CreateAsks(w, l, key);
    case Open(_, _, _, _) => OpenAsks(w, l, key);
    case Abandon(conn) => AbandonAsksNothing(w, conn);
    case Maintain(_) =>
  }

  lemma StepAsks(cfg: Config, w: World, l: Label, key: Budget)
    ensures Asks(w, Step(cfg, w, l).checks, l, key)
  {
    if l.Present? {
      HandshakeStepIs(cfg, w, l);
      PresentAsks(w, l, key);
    } else if IsEntry(l) {
      EntryStepIs(cfg, w, l);
      EntryAsks(cfg, w, l, key);
    } else {
      OthersAskNothing(cfg, w, l);
    }
  }

  // ---------- Over a run ----------

  lemma {:induction false} ChecksGrow(cfg: Config, ls: seq<Label>, lo: nat)
    requires lo <= |ls|
    ensures |Run(cfg, ls[..lo]).checks| <= |Run(cfg, ls).checks|
  {
    if lo == |ls| {
      assert ls[..lo] == ls;
    } else {
      var prior, l := ls[..|ls| - 1], ls[|ls| - 1];
      ChecksGrow(cfg, prior, lo);
      assert prior[..lo] == ls[..lo];
      StepAsks(cfg, Run(cfg, prior), l, AdmissionModel.Creation(""));
    }
  }

  // The steps let through on a key are the checks the limiter answered with Ok.
  lemma {:induction false} SpendsAreOks(cfg: Config, ls: seq<Label>, key: Budget, lo: nat)
    requires lo <= |ls|
    ensures |SpendingSteps(cfg, ls, key, lo)| ==
            AdmissionTheorems.Oks(Run(cfg, ls).checks, key, |Run(cfg, ls[..lo]).checks|)
  {
    if lo == |ls| {
      assert ls[..lo] == ls;
      assert SpendingSteps(cfg, ls, key, lo) == {};
    } else {
      var prior, l := ls[..|ls| - 1], ls[|ls| - 1];
      assert prior[..lo] == ls[..lo];
      SpendsAreOks(cfg, prior, key, lo);
      ChecksGrow(cfg, prior, lo);
      OneMoreOk(cfg, Run(cfg, prior), l, key, |Run(cfg, ls[..lo]).checks|);
      WhereNext(ls, LetThrough(cfg, key), lo);
    }
  }

  lemma OneMoreOk(cfg: Config, w: World, l: Label, key: Budget, from: nat)
    requires from <= |w.checks|
    ensures AdmissionTheorems.Oks(Step(cfg, w, l).checks, key, from) ==
            AdmissionTheorems.Oks(w.checks, key, from) + if Spends(w, l, key) then 1 else 0
  {
    StepAsks(cfg, w, l, key);
    var checks := Step(cfg, w, l).checks;
    if checks != w.checks {
      AdmissionTheorems.OksStep(w.checks, checks[|w.checks|], key, from);
    }
  }

  // `since` is no later than what the limiter is asked from the lo-th step on, and its clock
  // does not run backwards.
  predicate Window(cfg: Config, ls: seq<Label>, lo: nat, since: real, now: real) {
    && lo <= |ls| && since <= now && AdmissionRuns.Upto(Run(cfg, ls).checks, now)
    && var checks, from := Run(cfg, ls).checks, |Run(cfg, ls[..lo]).checks|;
       from < |checks| ==> since <= checks[from].at
  }

  // From any step of any run on, whatever else goes on, the steps let through on a key number
  // at most its capacity and a sixtieth of it for each second.
  lemma {:induction false} BudgetsHold(cfg: Config, ls: seq<Label>, key: Budget, lo: nat, since: real, now: real)
    requires Window(cfg, ls, lo, since, now)
    ensures |SpendingSteps(cfg, ls, key, lo)| as real <= AdmissionTheorems.Allowance(key, now - since)
  {
    SpendsAreOks(cfg, ls, key, lo);
    ChecksGrow(cfg, ls, lo);
    AdmissionTheorems.OksAreAllowed(Run(cfg, ls).checks, key, |Run(cfg, ls[..lo]).checks|, since, now);
  }

  // ---------- What is spent on ----------

  // A password of a session of this room starts being verified.
  predicate StartsVerifying(cfg: Config, w: World, l: Label, id: RoomId) {
    && HasSession(l) && l.conn in Step(cfg, w, l).sessions
    && Step(cfg, w, l).sessions[l.conn].phase.AuthVerifying? && Step(cfg, w, l).sessions[l.conn].room == id
    && !(l.conn in w.sessions && w.sessions[l.conn].phase.AuthVerifying?)
  }

  // A session comes into being for this address.
  predicate OpensSession(cfg: Config, w: World, l: Label, ip: Ip) {
    && HasSession(l) && l.conn !in w.sessions && l.conn in Step(cfg, w, l).sessions
    && Step(cfg, w, l).sessions[l.conn].ip == ip
  }

  // An address has a room given an id.
  predicate CreatesRoom(cfg: Config, w: World, l: Label, ip: Ip) {
    l.CreateRoom? && l.ip == ip && w.created < Step(cfg, w, l).created
  }

  // What budgets are for.
  datatype Kind = Guesses(id: RoomId) | Openings(ip: Ip) | Creations(ip: Ip)

  function BudgetOf(kind: Kind): Budget {
    match kind
    case Guesses(id) => AdmissionModel.Budget.Room(id)
    case Openings(ip) => AdmissionModel.Connection(ip)
    case Creations(ip) => AdmissionModel.Creation(ip)
  }

  predicate IsOfKind(cfg: Config, w: World, l: Label, kind: Kind) {
    match kind
    case Guesses(id) => StartsVerifying(cfg, w, l, id)
    case Openings(ip) => OpensSession(cfg, w, l, ip)
    case Creations(ip) => CreatesRoom(cfg, w, l, ip)
  }

  function OfKind(cfg: Config, kind: Kind): (seq<Label>, Label) -> bool {
    (prior, l) => IsOfKind(cfg, Run(cfg, prior), l, kind)
  }

  function StepsOfKind(cfg: Config, ls: seq<Label>, kind: Kind, lo: nat): set<nat> {
    Where(ls, OfKind(cfg, kind), lo)
  }

  // The session stays in its phase or goes on to one that is no verification.
  predicate NoGuess(sessions: map<ConnId, Session>, sessions': map<ConnId, Session>, conn: ConnId) {
    conn in sessions' && sessions'[conn].phase.AuthVerifying? ==>
        conn in sessions && sessions[conn].phase.AuthVerifying?
  }

  lemma EntryIsNoGuess(cfg: Config, w: World, l: Label)
    requires l.Open? || l.Abandon? || IsAuthentication(l)
    ensures NoGuess(w.sessions, Step(cfg, w, l).sessions, l.conn)
  {
    if IsEntry(l) { EntryStepIs(cfg, w, l); } else { AuthenticationStepIs(cfg, w, l); }
  }

  lemma HandshakeIsNoGuess(cfg: Config, w: World, l: Label)
    requires IsHandshake(l) && !l.Present?
    ensures NoGuess(w.sessions, Step(cfg, w, l).sessions, l.conn)
  {
    HandshakeStepIs(cfg, w, l);
  }

  lemma JoinIsNoGuess(cfg: Config, w: World, l: Label)
    requires IsJoin(l)
    ensures NoGuess(w.sessions, Step(cfg, w, l).sessions, l.conn)
  {
    JoinStepIs(cfg, w, l);
  }

  lemma RelayIsNoGuess(cfg: Config, w: World, l: Label)
    requires IsRelay(l)
    ensures NoGuess(w.sessions, Step(cfg, w, l).sessions, l.conn)
  {
    RelayStepIs(cfg, w, l);
  }

  lemma AttachIsNoGuess(w: World, conn: ConnId, up: bool, delivered: bool)
    ensures NoGuess(w.sessions, DoAttach(w, conn, up, delivered).sessions, conn)
  {
  }

  lemma DetachIsNoGuess(w: World, conn: ConnId)
    ensures NoGuess(w.sessions, DoDetach(w, conn).sessions, conn)
  {
  }

  lemma OnlyPresentGuesses(cfg: Config, w: World, l: Label)
    requires HasSession(l) && !l.Present?
    ensures NoGuess(w.sessions, Step(cfg, w, l).sessions, l.conn)
  {
    if l.AttachRoom? {
      AttachStepIs(cfg, w, l.conn, l.up, l.delivered);
      AttachIsNoGuess(w, l.conn, l.up, l.delivered);
    } else if l.DetachRoom? {
      DetachStepIs(cfg, w, l.conn);
      DetachIsNoGuess(w, l.conn);
    } else if IsHandshake(l) {
      HandshakeIsNoGuess(cfg, w, l);
    } else if IsJoin(l) {
      JoinIsNoGuess(cfg, w, l);
    } else if IsRelay(l) {
      RelayIsNoGuess(cfg, w, l);
    } else {
      EntryIsNoGuess(cfg, w, l);
    }
  }

  lemma GuessesSpend(cfg: Config, w: World, l: Label, id: RoomId)
    requires StartsVerifying(cfg, w, l, id)
    ensures Spends(w, l, AdmissionModel.Budget.Room(id))
  {
    if l.Present? {
      HandshakeStepIs(cfg, w, l);
      PresentingSpends(w, l);
    } else {
      OnlyPresentGuesses(cfg, w, l);
    }
  }

  lemma PresentingSpends(w: World, l: Label)
    requires l.Present? && l.conn in DoPresent(w, l.conn, l.password, l.at).sessions
    requires DoPresent(w, l.conn, l.password, l.at).sessions[l.conn].phase.AuthVerifying?
    requires !(l.conn in w.sessions && w.sessions[l.conn].phase.AuthVerifying?)
    ensures Spends(w, l, AdmissionModel.Budget.Room(DoPresent(w, l.conn, l.password, l.at).sessions[l.conn].room))
  {
  }

  lemma OpensSpend(cfg: Config, w: World, l: Label, ip: Ip)
    requires OpensSession(cfg, w, l, ip)
    ensures Spends(w, l, AdmissionModel.Connection(ip))
  {
    if l.Open? {
      EntryStepIs(cfg, w, l);
    } else {
      OnlyOpenOpens(cfg, w, l);
    }
  }

  lemma OnlyOpenOpens(cfg: Config, w: World, l: Label)
    requires HasSession(l) && !l.Open? && l.conn !in w.sessions
    ensures l.conn !in Step(cfg, w, l).sessions
  {
  }

  lemma FoundingSpends(cfg: Config, w: World, l: Label, ip: Ip)
    requires CreatesRoom(cfg, w, l, ip)
    ensures Spends(w, l, AdmissionModel.Creation(ip))
  {
    EntryStepIs(cfg, w, l);
  }

  lemma KindSpends(cfg: Config, w: World, l: Label, kind: Kind)
    requires IsOfKind(cfg, w, l, kind)
    ensures Spends(w, l, BudgetOf(kind))
  {
    match kind
    case Guesses(id) => GuessesSpend(cfg, w, l, id);
    case Openings(ip) => OpensSpend(cfg, w, l, ip);
    case Creations(ip) => FoundingSpends(cfg, w, l, ip);
  }

  // What that comes to: of passwords verified for one room twenty, and one for each
  // three seconds; of sockets opened by one address thirty, and one for each two seconds; of
  // rooms created by one address five, and one for each twelve seconds.
  function Limit(kind: Kind, span: real): real {
    match kind
    case Guesses(_) => 20.0 + span / 3.0
    case Openings(_) => 30.0 + span / 2.0
    case Creations(_) => 5.0 + span / 12.0
  }

  lemma LimitIsAllowance(kind: Kind, span: real)
    ensures AdmissionTheorems.Allowance(BudgetOf(kind), span) == Limit(kind, span)
  {
    match kind
    case Guesses(id) => AdmissionTheorems.RoomAllowance(id, span);
    case Openings(ip) => AdmissionTheorems.ConnectionAllowance(ip, span);
    case Creations(ip) => AdmissionTheorems.CreationAllowance(ip, span);
  }

  lemma {:induction false} KindIsCounted(cfg: Config, ls: seq<Label>, kind: Kind, lo: nat)
    ensures |StepsOfKind(cfg, ls, kind, lo)| <= |SpendingSteps(cfg, ls, BudgetOf(kind), lo)|
  {
    forall prior, l | OfKind(cfg, kind)(prior, l) ensures LetThrough(cfg, BudgetOf(kind))(prior, l) {
      KindSpends(cfg, Run(cfg, prior), l, kind);
    }
    WhereFewer(ls, OfKind(cfg, kind), LetThrough(cfg, BudgetOf(kind)), lo);
  }

  // However often clients reconnect, in any stretch of any run the passwords whose
  // verification starts for a room, the sockets an address opens and the rooms it creates
  // stay within what the time of the stretch allows.
  lemma {:induction false} KindsAreBounded(cfg: Config, ls: seq<Label>, kind: Kind, lo: nat, since: real, now: real)
    requires Window(cfg, ls, lo, since, now)
    ensures |StepsOfKind(cfg, ls, kind, lo)| as real <= AdmissionTheorems.Allowance(BudgetOf(kind), now - since)
  {
    KindIsCounted(cfg, ls, kind, lo);
    BudgetsHold(cfg, ls, BudgetOf(kind), lo, since, now);
  }
}
