/** The persistent table of rooms: one row per live room id. */
module RoomTable {
  import opened Wrappers
  import opened RoomEvents

  datatype Row = Row(createdAt: int, lastActivity: int, hash: Option<string>)
  type Rows = map<RoomId, Row>

  datatype DbResult<+T> = Ok(value: T) | DbError

  // ---------- The statements, as functions on the table ----------

  // The id is the primary key: inserting it a second time is an error and changes nothing.
  function Insert(rows: Rows, id: RoomId, now: int, hash: Option<string>): Rows {
    if id in rows then rows else rows[id := Row(now, now, hash)]
  }

  function Touch(rows: Rows, id: RoomId, now: int): Rows {
    if id in rows then rows[id := rows[id].(lastActivity := now)] else rows
  }

  function Stale(rows: Rows, now: int, threshold: int): set<RoomId> {
    set id | id in rows && rows[id].lastActivity < now - threshold
  }

  function Sweep(rows: Rows, now: int, threshold: int): Rows {
    rows - Stale(rows, now, threshold)
  }

  // A sequence lists a set when it holds each element once; the order is the database's.
  predicate Enumerates(ids: seq<RoomId>, s: set<RoomId>) {
    && (forall i, j :: 0 <= i < j < |ids| ==> ids[i] != ids[j])
    && (forall id :: id in ids ==> id in s)
    && (forall id :: id in s ==> id in ids)
  }

  lemma {:induction false} EnumerationExists(s: set<RoomId>)
    ensures exists ids: seq<RoomId> :: Enumerates(ids, s)
  {
    if s == {} {
      assert Enumerates([], s);
    } else {
      var id :| id in s;
      EnumerationExists(s - {id});
      var rest: seq<RoomId> :| Enumerates(rest, s - {id});
      assert Enumerates(rest + [id], s);
    }
  }

  class Table {
    var rows: Rows

    constructor ()
      ensures rows == map[]
    {
      rows := map[];
    }

    // `up` is false when the database fails; the statement then has no effect.
    method CreateRoomWithPassword(id: RoomId, hash: Option<string>, now: int, up: bool) returns (r: DbResult<()>)
      modifies this
      ensures rows == if up then Insert(old(rows), id, now, hash) else old(rows)
      ensures r.Ok? <==> up && id !in old(rows)
      ensures r.Ok? ==> id in rows && rows[id].hash == hash && rows[id].createdAt == rows[id].lastActivity == now
      ensures r.Ok? ==> forall x :: x != id ==>
              (x in rows <==> x in old(rows)) && (x in rows ==> rows[x] == old(rows)[x])
      ensures r.DbError? ==> rows == old(rows)
    {
      if !up || id in rows {
        return DbError;
      }
      rows := rows[id := Row(now, now, hash)];
      return Ok(());
    }

    // The outer option tells a missing room from an open one.
    method RoomPassword(id: RoomId, up: bool) returns (r: DbResult<Option<Option<string>>>)
      ensures r.Ok? <==> up
      ensures up ==> r.value == if id in rows then Some(rows[id].hash) else None
    {
      if !up {
        return DbError;
      }
      r := Ok(if id in rows then Some(rows[id].hash) else None);
    }

    method RoomExists(id: RoomId, up: bool) returns (r: DbResult<bool>)
      ensures r == if up then Ok(id in rows) else DbError
    {
      if !up {
        return DbError;
      }
      r := Ok(id in rows);
    }

    method UpdateActivity(id: RoomId, now: int, up: bool)
      modifies this
      ensures rows == if up then Touch(old(rows), id, now) else old(rows)
      ensures rows.Keys == old(rows).Keys
      ensures forall x :: x in old(rows) && (x != id || !up) ==> rows[x] == old(rows)[x]
      ensures up && id in old(rows) ==>
                rows[id].lastActivity == now && rows[id].hash == old(rows)[id].hash
                && rows[id].createdAt == old(rows)[id].createdAt
    {
      if up && id in rows {
        rows := rows[id := rows[id].(lastActivity := now)];
      }
    }

    method DeleteInactiveRooms(threshold: int, now: int, up: bool) returns (r: DbResult<seq<RoomId>>)
      modifies this
      ensures r.Ok? <==> up
      ensures up ==> Enumerates(r.value, Stale(old(rows), now, threshold)) && rows == Sweep(old(rows), now, threshold)
      ensures up ==> forall x :: x in rows <==> x in old(rows) && old(rows)[x].lastActivity >= now - threshold
      ensures forall x :: x in rows ==> x in old(rows) && rows[x] == old(rows)[x]
      ensures !up ==> rows == old(rows)
    {
      if !up {
        return DbError;
      }
      var stale := Stale(rows, now, threshold);
      EnumerationExists(stale);
      var deleted: seq<RoomId> :| Enumerates(deleted, stale);
      rows := rows - stale;
      r := Ok(deleted);
    }
  }

  // ---------- The table over a whole history ----------

  datatype TableOp =
    | Inserted(id: RoomId, at: int, hash: Option<string>)
    | Touched(id: RoomId, at: int)
    | Swept(at: int, threshold: int)

  function Execute(rows: Rows, op: TableOp): Rows {
    match op
    case Inserted(id, at, hash) => Insert(rows, id, at, hash)
    case Touched(id, at) => Touch(rows, id, at)
    case Swept(at, threshold) => Sweep(rows, at, threshold)
  }

  function RowsAfter(ops: seq<TableOp>): Rows {
    if ops == [] then map[] else Execute(RowsAfter(ops[..|ops| - 1]), ops[|ops| - 1])
  }

  lemma RowsAppend(ops: seq<TableOp>, op: TableOp)
    ensures RowsAfter(ops + [op]) == Execute(RowsAfter(ops), op)
  {
    assert (ops + [op])[..|ops|] == ops;
  }

  ghost predicate ClockMonotone(ops: seq<TableOp>) {
    forall i, j :: 0 <= i < j < |ops| ==> ops[i].at <= ops[j].at
  }

  // The i-th statement really created or refreshed the row.
  ghost predicate Refreshes(ops: seq<TableOp>, i: nat, id: RoomId)
    requires i < |ops|
  {
    match ops[i]
    case Inserted(x, _, _) => x == id && id !in RowsAfter(ops[..i])
    case Touched(x, _) => x == id && id in RowsAfter(ops[..i])
    case Swept(_, _) => false
  }

  lemma RefreshesInPrefix(ops: seq<TableOp>, n: nat, i: nat, id: RoomId)
    requires i < n <= |ops|
    ensures Refreshes(ops, i, id) <==> Refreshes(ops[..n], i, id)
  {
    assert ops[..n][..i] == ops[..i];
  }

  ghost predicate LatestRefresh(ops: seq<TableOp>, id: RoomId, at: int) {
    && (exists i :: 0 <= i < |ops| && Refreshes(ops, i, id) && ops[i].at == at)
    && (forall i :: 0 <= i < |ops| && Refreshes(ops, i, id) ==> ops[i].at <= at)
  }

  lemma {:induction false} LastActivityIsLatest(ops: seq<TableOp>, id: RoomId)
    requires ClockMonotone(ops) && id in RowsAfter(ops)
    ensures LatestRefresh(ops, id, RowsAfter(ops)[id].lastActivity)
  {
    var n := |ops| - 1;
    if Refreshes(ops, n, id) {
      assert RowsAfter(ops)[id].lastActivity == ops[n].at;
    } else {
      assert id in RowsAfter(ops[..n]) && RowsAfter(ops)[id] == RowsAfter(ops[..n])[id];
      LastActivityIsLatest(ops[..n], id);
      LatestCarriesOver(ops, n, id, RowsAfter(ops)[id].lastActivity);
    }
  }

  lemma LatestCarriesOver(ops: seq<TableOp>, n: nat, id: RoomId, at: int)
    requires n + 1 == |ops| && LatestRefresh(ops[..n], id, at) && !Refreshes(ops, n, id)
    ensures LatestRefresh(ops, id, at)
  {
    var i :| 0 <= i < n && Refreshes(ops[..n], i, id) && ops[..n][i].at == at;
    RefreshesInPrefix(ops, n, i, id);
    assert ops[i].at == at;
    forall k | 0 <= k < |ops| && Refreshes(ops, k, id)
      ensures ops[k].at <= at
    {
      RefreshesInPrefix(ops, n, k, id);
      assert ops[..n][k] == ops[k];
    }
  }

  // With a clock that never runs backwards, a sweep removes a room exactly when every
  // creation or refresh of it lies more than the threshold in the past.
  lemma {:induction false} SweepIsJustified(ops: seq<TableOp>, id: RoomId, at: int, threshold: int)
    requires ClockMonotone(ops) && id in RowsAfter(ops)
    ensures id !in RowsAfter(ops + [Swept(at, threshold)]) <==>
            forall i :: 0 <= i < |ops| && Refreshes(ops, i, id) ==> at - ops[i].at > threshold
  {
    RowsAppend(ops, Swept(at, threshold));
    LastActivityIsLatest(ops, id);
  }
}
