/** A room is protected by the hash it was created with, for everybody and for good. */
module Protection {
  import opened Wrappers
  import opened RoomEvents
  import opened ServerModel
  import opened Sessions
  import opened Protocol
  import opened StepShapes
  import opened ProtocolInvariant
  import opened RoomSteps
  import opened ProtocolRuns
  import opened RoomTheorems
  import opened BudgetTheorems
  import opened Utterances
  import AdmissionModel

  // The row of an id has this hash for as long as it is there, and so has whoever came by.
  ghost predicate Bears(w: World, id: RoomId, hash: Option<string>) {
    && id in w.created
    && (id in w.server.rows ==> w.server.rows[id].hash == hash)
    && (forall x :: x in w.sessions && w.sessions[x].room == id ==> w.sessions[x].hash == hash)
  }

  // A session keeps its room and hash from the step that opened it, which took the hash from
  // the row.
  predicate ComesFrom(w: World, l: Label, x: ConnId, s': Session) {
    if x in w.sessions then s'.room == w.sessions[x].room && s'.hash == w.sessions[x].hash
    else l.Open? && s'.room in w.server.rows && s'.hash == w.server.rows[s'.room].hash
  }

  lemma OpeningTakesHash(cfg: Config, w: World, l: Label)
    requires l.Open? && l.conn in Step(cfg, w, l).sessions
    ensures ComesFrom(w, l, l.conn, Step(cfg, w, l).sessions[l.conn])
  {
    EntryStepIs(cfg, w, l);
  }

  lemma SessionsComeFrom(cfg: Config, w: World, l: Label, x: ConnId)
    requires x in Step(cfg, w, l).sessions
    ensures ComesFrom(w, l, x, Step(cfg, w, l).sessions[x])
  {
    if !HasSession(l) || l.conn != x {
      OtherSessionsKept(cfg, w, l, x);
    } else if l.Open? {
      OpeningTakesHash(cfg, w, l);
    } else {
      SessionWasThere(cfg, w, l);
      OwnStepKeepsHash(cfg, w, l);
    }
  }

  lemma SessionWasThere(cfg: Config, w: World, l: Label)
    requires HasSession(l) && !l.Open? && l.conn in Step(cfg, w, l).sessions
    ensures l.conn in w.sessions
  {
    if l.conn !in w.sessions {
      OnlyOpenOpens(cfg, w, l);
    }
  }

  lemma OwnStepKeepsHash(cfg: Config, w: World, l: Label)
    requires HasSession(l) && l.conn in w.sessions && l.conn in Step(cfg, w, l).sessions
    ensures ComesFrom(w, l, l.conn, Step(cfg, w, l).sessions[l.conn])
  {
    if l.AttachRoom? {
      AttachStepIs(cfg, w, l.conn, l.up, l.delivered);
      AttachKeepsHash(w, l.conn, l.up, l.delivered);
    } else if l.Activity? || l.SendChat? {
      ChatSteps(cfg, w, l);
    } else {
      StepChanges(cfg, w, l);
    }
  }

  lemma AttachKeepsHash(w: World, conn: ConnId, up: bool, delivered: bool)
    requires conn in w.sessions
    ensures var sessions' := DoAttach(w, conn, up, delivered).sessions;
            && conn in sessions' && sessions'[conn].room == w.sessions[conn].room
            && sessions'[conn].hash == w.sessions[conn].hash
  {
  }

  // ---------- The table ----------

  // Of an id already given to a room, no step puts a row in or changes its hash.
  predicate HashStays(w: World, w': World, id: RoomId) {
    && w.created <= w'.created
    && (id in w'.server.rows ==> id in w.server.rows && w'.server.rows[id].hash == w.server.rows[id].hash)
  }

  lemma CreateKeepsHash(w: World, other: RoomId, hash: Option<string>, now: int, up: bool, ip: string, at: real,
                        id: RoomId)
    requires id in w.created
    ensures HashStays(w, DoCreate(w, other, hash, now, up, ip, at), id)
  {
  }

  lemma ActivityKeepsHash(cfg: Config, w: World, l: Label, id: RoomId)
    requires l.Activity?
    ensures HashStays(w, RelayStep(cfg, w, l), id)
  {
  }

  lemma LockedStepKeepsHash(cfg: Config, w: World, l: Label, id: RoomId)
    requires Wired(w.server) && (l.AttachRoom? || l.DetachRoom? || l.ExpireRooms?)
    ensures HashStays(w, RoomStep(cfg, w, l), id)
  {
  }

  lemma StepKeepsHash(cfg: Config, w: World, l: Label, id: RoomId)
    requires Inv(cfg, w) && id in w.created
    ensures HashStays(w, Step(cfg, w, l), id)
  {
    if l.CreateRoom? {
      EntryStepIs(cfg, w, l);
      CreateKeepsHash(w, l.id, l.hash, l.now, l.up, l.ip, l.at, id);
    } else if l.Maintain? {
      EntryStepIs(cfg, w, l);
    } else if IsPrivate(l) {
      PrivateStep(cfg, w, l);
    } else if IsJoin(l) {
      JoinStepIs(cfg, w, l);
      JoinKeepsRows(cfg, w, l);
    } else if l.Activity? {
      RelayStepIs(cfg, w, l);
      ActivityKeepsHash(cfg, w, l, id);
    } else if IsRelay(l) {
      RelayStepIs(cfg, w, l);
      RelayKeepsRows(cfg, w, l);
    } else {
      ServerHolds(cfg, w);
      RoomsAreWired(w);
      LockedStepIs(cfg, w, l);
      LockedStepKeepsHash(cfg, w, l, id);
    }
  }

  // ---------- Over a run ----------

  lemma StepBears(cfg: Config, w: World, l: Label, id: RoomId, hash: Option<string>)
    requires Inv(cfg, w) && Bears(w, id, hash)
    ensures Bears(Step(cfg, w, l), id, hash)
  {
    StepKeepsHash(cfg, w, l, id);
    var w' := Step(cfg, w, l);
    forall x | x in w'.sessions && w'.sessions[x].room == id ensures w'.sessions[x].hash == hash {
      SessionsComeFrom(cfg, w, l, x);
    }
  }

  lemma {:induction false} BearsForGood(cfg: Config, ls: seq<Label>, more: seq<Label>, id: RoomId, hash: Option<string>)
    requires Bears(Run(cfg, ls), id, hash)
    ensures Bears(Run(cfg, ls + more), id, hash)
  {
    if more == [] {
      assert ls + more == ls;
    } else {
      var n := |more| - 1;
      var prior := ls + more[..n];
      BearsForGood(cfg, ls, more[..n], id, hash);
      assert ls + more == prior + [more[n]];
      RunKeeps(cfg, prior);
      StepBears(cfg, Run(cfg, prior), more[n], id, hash);
      RunOneMore(cfg, prior, more[n]);
    }
  }

  // The step creates the room.
  predicate Founds(cfg: Config, w: World, l: Label) {
    l.CreateRoom? && l.id !in w.created && l.id in Step(cfg, w, l).created
  }

  // It does exactly if the id is new, the limiter lets its address through and the table works.
  lemma FoundsExactly(cfg: Config, w: World, l: Label)
    requires l.CreateRoom?
    ensures Founds(cfg, w, l) <==>
            l.id !in w.created && l.up && Verdict(w, AdmissionModel.Creation(l.ip), l.at) == AdmissionModel.Ok
  {
    EntryStepIs(cfg, w, l);
  }

  lemma CreationBears(cfg: Config, w: World, l: Label)
    requires Inv(cfg, w) && Founds(cfg, w, l)
    ensures Bears(Step(cfg, w, l), l.id, l.hash)
    ensures l.id in Step(cfg, w, l).server.rows && Step(cfg, w, l).server.rows[l.id].lastActivity == l.now
  {
    NobodyThereYet(cfg, w, l.id);
    EntryStepIs(cfg, w, l);
    InsertBears(w, l);
  }

  lemma NobodyThereYet(cfg: Config, w: World, id: RoomId)
    requires Inv(cfg, w) && id !in w.created
    ensures id !in w.server.rows && forall x :: x in w.sessions ==> w.sessions[x].room != id
  {
    InvMeans(cfg, w);
  }

  lemma InsertBears(w: World, l: Label)
    requires l.CreateRoom? && l.id !in w.created && l.id !in w.server.rows
    requires forall x :: x in w.sessions ==> w.sessions[x].room != l.id
    requires l.id in DoCreate(w, l.id, l.hash, l.now, l.up, l.ip, l.at).created
    ensures var w' := DoCreate(w, l.id, l.hash, l.now, l.up, l.ip, l.at);
            Bears(w', l.id, l.hash) && l.id in w'.server.rows && w'.server.rows[l.id].lastActivity == l.now
  {
  }

  // From the step that creates a room on, whatever happens, its row has the hash it was
  // created with, and nobody is attached to it without having shown a password that matches
  // that hash.
  lemma {:induction false} ProtectedFromCreation(cfg: Config, ls: seq<Label>, l: Label, more: seq<Label>, conn: ConnId)
    requires Founds(cfg, Run(cfg, ls), l)
    ensures var w := Run(cfg, ls + [l] + more);
            && (l.id in w.server.rows ==> w.server.rows[l.id].hash == l.hash)
            && (conn in w.sessions && w.sessions[conn].room == l.id ==> w.sessions[conn].hash == l.hash)
            && (l.hash.Some? && conn in w.sessions && w.sessions[conn].room == l.id && w.sessions[conn].attachment.Some?
                ==> w.sessions[conn].verified.Some? && cfg.matches(w.sessions[conn].verified.value, l.hash.value))
  {
    RunKeeps(cfg, ls);
    CreationBears(cfg, Run(cfg, ls), l);
    RunOneMore(cfg, ls, l);
    BearsForGood(cfg, ls + [l], more, l.id, l.hash);
    RunKeeps(cfg, ls + [l] + more);
    BornIsVerified(cfg, Run(cfg, ls + [l] + more), conn, l.id, l.hash);
  }

  lemma BornIsVerified(cfg: Config, w: World, conn: ConnId, id: RoomId, hash: Option<string>)
    requires Inv(cfg, w) && Bears(w, id, hash)
    ensures hash.Some? && conn in w.sessions && w.sessions[conn].room == id && w.sessions[conn].attachment.Some? ==>
              w.sessions[conn].verified.Some? && cfg.matches(w.sessions[conn].verified.value, hash.value)
  {
    if conn in w.sessions {
      SessionHolds(cfg, w, conn);
    }
  }
}
