/** Creator epochs over runs: what sessions are told from one reset of a room to the next. */
module CreatorEpochs {
  import opened Wrappers
  import opened Sequences
  import opened RoomEvents
  import opened ServerModel
  import opened Sessions
  import opened Protocol
  import opened StepShapes
  import opened ProtocolInvariant
  import opened RoomSteps
  import opened ProtocolRuns
  import opened RoomTheorems
  import opened CreatorClaims

  // The steps that begin an epoch: the attach that builds the room, and any detach that
  // leaves it without participants.
  predicate Resets(w: World, l: Label, id: RoomId) {
    || (Attaches(w, l, id) && id !in w.server.rooms)
    || (l.DetachRoom? && In(w, l.conn, Leaving) && w.lock.None? && w.sessions[l.conn].room == id
        && id in w.server.rooms && w.server.rooms[id].participants - {l.conn} == map[])
  }

  // This creator is on record, or the room is gone for good.
  predicate OnRecord(w: World, id: RoomId, c: Option<ConnId>) {
    (id in w.server.rooms && w.server.rooms[id].creatorId == c) || Gone(w, id)
  }

  // The answer that an attach is given.
  function AnswerTo(cfg: Config, w: World, l: Label): Option<Attachment> {
    if l.AttachRoom? && l.conn in Step(cfg, w, l).sessions then Step(cfg, w, l).sessions[l.conn].attachment else None
  }

  predicate Says(a: Option<Attachment>, isCreator: bool, creatorId: Option<ConnId>) {
    a.Some? && a.value.isCreator == isCreator && a.value.creatorId == creatorId
  }

  lemma AttachStepAnswers(cfg: Config, w: World, l: Label, id: RoomId)
    requires Inv(cfg, w) && Attaches(w, l, id)
    ensures var w' := Step(cfg, w, l);
            && id in w'.server.rooms
            && Says(AnswerTo(cfg, w, l), Unclaimed(w, id), w'.server.rooms[id].creatorId)
            && w'.server.rooms[id].creatorId == if Unclaimed(w, id) then Some(l.conn) else w.server.rooms[id].creatorId
  {
    SessionsHold(cfg, w);
    SessionIsBare(cfg, w, l.conn);
    AttachStepIs(cfg, w, l.conn, l.up, l.delivered);
    AttachTells(w, l.conn, l.delivered);
  }

  lemma AttachTells(w: World, conn: ConnId, delivered: bool)
    requires In(w, conn, Admitted) && w.lock.None? && w.sessions[conn].room in w.server.rows
    ensures var id, w' := w.sessions[conn].room, DoAttach(w, conn, true, delivered);
            && conn in w'.sessions && id in w'.server.rooms && w'.sessions[conn].attachment.Some?
            && var a := w'.sessions[conn].attachment.value;
               && a.isCreator == Unclaimed(w, id) && a.creatorId == w'.server.rooms[id].creatorId
               && a.creatorId == if Unclaimed(w, id) then Some(conn) else w.server.rooms[id].creatorId
  {
  }

  // A room that leaves the map leaves the table with it.
  lemma LostIsGone(cfg: Config, w: World, l: Label, id: RoomId)
    requires Inv(cfg, w) && id in w.server.rooms && id !in Step(cfg, w, l).server.rooms
    ensures Gone(Step(cfg, w, l), id)
  {
    StepKeeps(cfg, w, l);
    ServerHolds(cfg, w);
    ServerHolds(cfg, Step(cfg, w, l));
    StepGrows(cfg, w, l);
    LostChannelIsGone(w, Step(cfg, w, l), id);
  }

  lemma LostChannelIsGone(w: World, w': World, id: RoomId)
    requires ServerFits(w) && ServerFits(w') && Grown(w.server.channels, w'.server.channels)
    requires id in w.server.rooms && id !in w'.server.rooms
    ensures Gone(w', id)
  {
    assert RoomFits(w.server, id);
    assert ChannelFits(w'.server, w'.created, w.server.rooms[id].tx);
  }

  lemma DetachKeepsRecord(w: World, conn: ConnId, id: RoomId)
    requires ServerFits(w) && id in w.server.rooms
    requires w.server.rooms[id].creatorId.Some? ==> !Resets(w, DetachRoom(conn), id)
    ensures SameCreator(w, DoDetach(w, conn), id)
  {
    if In(w, conn, Leaving) && w.lock.None? && w.sessions[conn].room == id {
      RoomsAreWired(w);
      DetachRoomsAre(w.server, id, conn);
      DetachIs(w, conn);
    } else {
      OtherDetachKeepsCreator(w, conn, id);
    }
  }

  lemma AttachKeepsRecord(cfg: Config, w: World, l: Label, id: RoomId)
    requires Inv(cfg, w) && l.AttachRoom? && id in w.server.rooms
    requires w.server.rooms[id].creatorId.None? ==> !Attaches(w, l, id)
    ensures SameCreator(w, Step(cfg, w, l), id)
  {
    SessionsHold(cfg, w);
    AttachStepIs(cfg, w, l.conn, l.up, l.delivered);
    if In(w, l.conn, Admitted) {
      SessionIsBare(cfg, w, l.conn);
      if Attaches(w, l, id) {
        AttachStepAnswers(cfg, w, l, id);
      } else {
        AttachElsewhere(w, l.conn, l.up, l.delivered, id);
      }
    }
  }

  lemma StepKeepsRecord(cfg: Config, w: World, l: Label, id: RoomId, c: Option<ConnId>)
    requires Inv(cfg, w) && OnRecord(w, id, c)
    requires if c.Some? then !Resets(w, l, id) else !Attaches(w, l, id)
    ensures OnRecord(Step(cfg, w, l), id, c)
  {
    InvMeans(cfg, w);
    if Gone(w, id) {
      RoomsAreWired(w);
      StepKeepsGone(cfg, w, l, id);
    } else {
      PresentKeepsRecord(cfg, w, l, id, c);
      if id !in Step(cfg, w, l).server.rooms {
        LostIsGone(cfg, w, l, id);
      }
    }
  }

  lemma PresentKeepsRecord(cfg: Config, w: World, l: Label, id: RoomId, c: Option<ConnId>)
    requires Inv(cfg, w) && id in w.server.rooms && w.server.rooms[id].creatorId == c
    requires if c.Some? then !Resets(w, l, id) else !Attaches(w, l, id)
    ensures SameCreator(w, Step(cfg, w, l), id)
  {
    if l.AttachRoom? {
      AttachKeepsRecord(cfg, w, l, id);
    } else if l.DetachRoom? {
      DetachStepIs(cfg, w, l.conn);
      ServerHolds(cfg, w);
      DetachKeepsRecord(w, l.conn, id);
    } else {
      OthersKeepCreator(cfg, w, l, id);
    }
  }

  // ---------- Over a run ----------

  predicate AttachesAt(cfg: Config, ls: seq<Label>, n: nat, id: RoomId)
    requires n < |ls|
  {
    Attaches(Run(cfg, ls[..n]), ls[n], id)
  }

  predicate ResetsAt(cfg: Config, ls: seq<Label>, n: nat, id: RoomId)
    requires n < |ls|
  {
    Resets(Run(cfg, ls[..n]), ls[n], id)
  }

  function AnswerAt(cfg: Config, ls: seq<Label>, n: nat): Option<Attachment>
    requires n < |ls|
  {
    AnswerTo(cfg, Run(cfg, ls[..n]), ls[n])
  }

  predicate OnRecordAt(cfg: Config, ls: seq<Label>, n: nat, id: RoomId, c: Option<ConnId>)
    requires n <= |ls|
  {
    OnRecord(Run(cfg, ls[..n]), id, c)
  }

  // A step that leaves a creator, or the lack of one, on record.
  predicate Undisturbed(cfg: Config, ls: seq<Label>, n: nat, id: RoomId, c: Option<ConnId>) {
    n < |ls| && if c.Some? then !ResetsAt(cfg, ls, n, id) else !AttachesAt(cfg, ls, n, id)
  }

  lemma RecordNext(cfg: Config, ls: seq<Label>, n: nat, id: RoomId, c: Option<ConnId>)
    requires n < |ls| && OnRecordAt(cfg, ls, n, id, c) && Undisturbed(cfg, ls, n, id, c)
    ensures OnRecordAt(cfg, ls, n + 1, id, c)
  {
    RunKeeps(cfg, ls[..n]);
    StepKeepsRecord(cfg, Run(cfg, ls[..n]), ls[n], id, c);
    RunNext(cfg, ls, n);
  }

  lemma {:induction false} RecordKept(cfg: Config, ls: seq<Label>, from: nat, to: nat, id: RoomId, c: Option<ConnId>)
    requires from <= to <= |ls| && OnRecordAt(cfg, ls, from, id, c)
    requires forall k: nat :: from <= k < to ==> Undisturbed(cfg, ls, k, id, c)
    ensures OnRecordAt(cfg, ls, to, id, c)
  {
    var holds: nat -> bool := (n: nat) => n <= |ls| && OnRecordAt(cfg, ls, n, id, c);
    forall n: nat | from <= n < to && holds(n) ensures holds(n + 1) {
      assert Undisturbed(cfg, ls, n, id, c);
      RecordNext(cfg, ls, n, id, c);
    }
    Throughout(holds, from, to);
  }

  lemma AttachedAt(cfg: Config, ls: seq<Label>, n: nat, id: RoomId)
    requires n < |ls| && AttachesAt(cfg, ls, n, id)
    ensures var w, a := Run(cfg, ls[..n]), AnswerAt(cfg, ls, n);
            && Says(a, Unclaimed(w, id), if Unclaimed(w, id) then Some(ls[n].conn) else w.server.rooms[id].creatorId)
            && a.value.creatorId.Some? && OnRecordAt(cfg, ls, n + 1, id, a.value.creatorId)
  {
    RunKeeps(cfg, ls[..n]);
    AttachStepAnswers(cfg, Run(cfg, ls[..n]), ls[n], id);
    RunNext(cfg, ls, n);
  }

  // Of two attaches to a room with no reset from the one to the other, the later is told it
  // is not the creator, and whatever creator the earlier was told.
  lemma {:induction false} OneCreatorAnEpoch(cfg: Config, ls: seq<Label>, i: nat, j: nat, id: RoomId)
    requires i < j < |ls| && AttachesAt(cfg, ls, i, id) && AttachesAt(cfg, ls, j, id)
    requires forall k: nat :: i < k <= j ==> !ResetsAt(cfg, ls, k, id)
    ensures AnswerAt(cfg, ls, i).Some? && Says(AnswerAt(cfg, ls, j), false, AnswerAt(cfg, ls, i).value.creatorId)
  {
    AttachedAt(cfg, ls, i, id);
    assert forall k: nat :: i < k < j ==> Undisturbed(cfg, ls, k, id, AnswerAt(cfg, ls, i).value.creatorId);
    RecordKept(cfg, ls, i + 1, j, id, AnswerAt(cfg, ls, i).value.creatorId);
    AttachedAt(cfg, ls, j, id);
  }

  lemma ResetLeavesNone(cfg: Config, ls: seq<Label>, m: nat, id: RoomId)
    requires m < |ls| && ResetsAt(cfg, ls, m, id) && !AttachesAt(cfg, ls, m, id)
    ensures OnRecordAt(cfg, ls, m + 1, id, None)
  {
    var w := Run(cfg, ls[..m]);
    RunKeeps(cfg, ls[..m]);
    DetachLeavesNone(cfg, w, ls[m], id);
    RunNext(cfg, ls, m);
  }

  lemma DetachLeavesNone(cfg: Config, w: World, l: Label, id: RoomId)
    requires Inv(cfg, w) && Resets(w, l, id) && !Attaches(w, l, id)
    ensures OnRecord(Step(cfg, w, l), id, None)
  {
    ServerHolds(cfg, w);
    RoomsAreWired(w);
    DetachRoomsAre(w.server, id, l.conn);
    DetachStepIs(cfg, w, l.conn);
    DetachIs(w, l.conn);
  }

  predicate UnclaimedAt(cfg: Config, ls: seq<Label>, n: nat, id: RoomId)
    requires n <= |ls|
  {
    Unclaimed(Run(cfg, ls[..n]), id)
  }

  lemma ResetIsUnclaimed(cfg: Config, ls: seq<Label>, i: nat, id: RoomId)
    requires i < |ls| && ResetsAt(cfg, ls, i, id) && AttachesAt(cfg, ls, i, id)
    ensures UnclaimedAt(cfg, ls, i, id)
  {
  }

  lemma NoneIsUnclaimed(cfg: Config, ls: seq<Label>, i: nat, id: RoomId)
    requires i < |ls| && AttachesAt(cfg, ls, i, id) && OnRecordAt(cfg, ls, i, id, None)
    ensures UnclaimedAt(cfg, ls, i, id)
  {
  }

  lemma UnclaimedIsOwn(cfg: Config, ls: seq<Label>, i: nat, id: RoomId)
    requires i < |ls| && AttachesAt(cfg, ls, i, id) && UnclaimedAt(cfg, ls, i, id)
    ensures Says(AnswerAt(cfg, ls, i), true, Some(ls[i].conn))
  {
    AttachedAt(cfg, ls, i, id);
  }

  // The first attach from a reset on is told that it is the creator.
  lemma {:induction false} FirstIsCreator(cfg: Config, ls: seq<Label>, m: nat, i: nat, id: RoomId)
    requires m <= i < |ls| && ResetsAt(cfg, ls, m, id) && AttachesAt(cfg, ls, i, id)
    requires forall k: nat :: m <= k < i ==> !AttachesAt(cfg, ls, k, id)
    ensures Says(AnswerAt(cfg, ls, i), true, Some(ls[i].conn))
  {
    if m < i {
      ResetLeavesNone(cfg, ls, m, id);
      assert forall k: nat :: m < k < i ==> Undisturbed(cfg, ls, k, id, None);
      RecordKept(cfg, ls, m + 1, i, id, None);
      NoneIsUnclaimed(cfg, ls, i, id);
    } else {
      ResetIsUnclaimed(cfg, ls, i, id);
    }
    UnclaimedIsOwn(cfg, ls, i, id);
  }

  // Every attach has a reset before it, at the latest the one it makes itself.
  lemma {:induction false} EpochsBegin(cfg: Config, ls: seq<Label>, i: nat, id: RoomId)
    requires i < |ls| && AttachesAt(cfg, ls, i, id)
    ensures exists m: nat :: m <= i && ResetsAt(cfg, ls, m, id)
  {
    if InMapAt(cfg, ls, i, id) {
      BuiltBefore(cfg, ls, i, id);
    } else {
      assert ResetsAt(cfg, ls, i, id);
    }
  }

  predicate InMapAt(cfg: Config, ls: seq<Label>, n: nat, id: RoomId)
    requires n <= |ls|
  {
    id in Run(cfg, ls[..n]).server.rooms
  }

  lemma StartsEmpty(cfg: Config, ls: seq<Label>, id: RoomId)
    ensures !InMapAt(cfg, ls, 0, id)
  {
  }

  lemma {:induction false} BuiltBefore(cfg: Config, ls: seq<Label>, n: nat, id: RoomId)
    requires n <= |ls| && InMapAt(cfg, ls, n, id)
    ensures exists m: nat :: m < n && ResetsAt(cfg, ls, m, id)
  {
    StartsEmpty(cfg, ls, id);
    var holds: nat -> bool := (k: nat) => k <= |ls| && InMapAt(cfg, ls, k, id);
    var m := FirstTime(holds, n);
    BuiltAt(cfg, ls, m, id);
  }

  lemma BuiltAt(cfg: Config, ls: seq<Label>, m: nat, id: RoomId)
    requires m < |ls| && !InMapAt(cfg, ls, m, id) && InMapAt(cfg, ls, m + 1, id)
    ensures ResetsAt(cfg, ls, m, id)
  {
    RunNext(cfg, ls, m);
    RunKeeps(cfg, ls[..m]);
    OnlyAttachBuilds(cfg, Run(cfg, ls[..m]), ls[m], id);
  }

  lemma OnlyAttachBuilds(cfg: Config, w: World, l: Label, id: RoomId)
    requires Inv(cfg, w) && id !in w.server.rooms && id in Step(cfg, w, l).server.rooms
    ensures Attaches(w, l, id)
  {
    SessionsHold(cfg, w);
    ServerHolds(cfg, w);
    if l.AttachRoom? {
      AttachStepIs(cfg, w, l.conn, l.up, l.delivered);
      if In(w, l.conn, Admitted) && !Attaches(w, l, id) {
        SessionIsBare(cfg, w, l.conn);
        AttachElsewhere(w, l.conn, l.up, l.delivered, id);
      }
    } else if l.DetachRoom? {
      DetachStepIs(cfg, w, l.conn);
      OtherDetachKeepsCreator(w, l.conn, id);
    } else {
      OthersKeepCreator(cfg, w, l, id);
    }
  }
}
