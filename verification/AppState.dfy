/**
 The shared state in place: a map of rooms under one write lock, the room table, and the
 channels the rooms send on.

 `Shows(s)` says that the heap holds the `Server` value `s`; it pins `s` down completely.
 Every method turns a heap that shows `before` into one that shows what the function of
 the same name makes of `before`.
 */
module AppState {
  import opened Sequences
  import opened Wrappers
  import opened RoomEvents
  import opened RoomLog
  import opened Broadcast
  import opened RoomTable
  import opened ServerModel

  datatype Room = Room(tx: Channel, creatorId: Option<ConnId>, participants: Roster)

  // `Subscribed` is a join that has passed its checks and still has its announcement to send.
  datatype JoinStart =
    | Refused(check: JoinCheck)
    | Subscribed(receiver: Receiver, peers: seq<(ConnId, Participant)>)

  class State {
    const db: Table
    const capacity: nat
    var rooms: map<RoomId, Room>
    ghost var channels: seq<Channel>

    ghost predicate ShowsChannels(s: seq<ChannelState>)
      reads this, channels
    {
      && 0 < capacity
      && |channels| == |s|
      && (forall k :: 0 <= k < |channels| ==>
            && channels[k].Valid() && channels[k].id == k && channels[k].capacity == capacity
            && s[k] == ChannelState(channels[k].owner, channels[k].log))
    }

    ghost predicate ShowsRooms(s: map<RoomId, RoomState>)
      reads this
    {
      && (forall id :: id in rooms <==> id in s)
      && (forall id :: id in rooms ==>
            && s[id] == RoomState(rooms[id].tx.id, rooms[id].creatorId, rooms[id].participants)
            && s[id].tx < |channels| && channels[s[id].tx] == rooms[id].tx)
    }

    ghost predicate Shows(s: Server)
      reads this, db, channels
    {
      db.rows == s.rows && ShowsRooms(s.rooms) && ShowsChannels(s.channels)
    }

    lemma ShowsPinsDown(a: Server, b: Server)
      requires Shows(a) && Shows(b)
      ensures a == b && Wired(a)
    {
      assert a.rooms.Keys == b.rooms.Keys;
      assert a.rooms == b.rooms;
      assert a.channels == b.channels;
    }

    constructor (db: Table, capacity: nat)
      requires 0 < capacity
      ensures Shows(Server(db.rows, map[], [])) && this.db == db && this.capacity == capacity
    {
      this.db, this.capacity := db, capacity;
      rooms, channels := map[], [];
    }

    // Sending on one channel appends to its log and leaves the others alone. Sessions do
    // this on the sender they were given, without the lock.
    method Publish(tx: Channel, e: RoomEvent, ghost before: seq<ChannelState>)
      requires ShowsChannels(before) && tx in channels
      modifies tx
      ensures tx.id < |before| && ShowsChannels(Append(before, tx.id, e))
    {
      tx.Send(e);
    }

    // The entry of the map, built with a channel of its own when the room has none.
    method EnsureRoom(id: RoomId, ghost before: Server)
      requires Shows(before)
      modifies this
      ensures id in rooms && Shows(WithRoom(before, id))
      ensures old(channels) <= channels && fresh(set ch | ch in channels[|old(channels)|..])
    {
      if id !in rooms {
        var tx := AddChannel(id, before.channels);
        rooms := rooms[id := Room(tx, None, map[])];
        assert ShowsRooms(WithRoom(before, id).rooms);
      }
    }

    method AddChannel(id: RoomId, ghost before: seq<ChannelState>) returns (tx: Channel)
      requires ShowsChannels(before)
      modifies this`channels
      ensures fresh(tx) && tx.id == |old(channels)| && channels == old(channels) + [tx]
      ensures ShowsChannels(before + [ChannelState(id, [])])
    {
      tx := new Channel(capacity, |channels|, id);
      channels := channels + [tx];
    }

    // The row is looked up under the same lock that expiry deletes it under.
    method Attach(id: RoomId, conn: ConnId, up: bool, ghost before: Server)
      returns (r: Option<(Channel, bool, Option<ConnId>)>)
      requires Shows(before)
      modifies this
      ensures Shows(ServerModel.Attach(before, id, conn, up).0)
      ensures old(channels) <= channels && fresh(set ch | ch in channels[|old(channels)|..])
      ensures var answer := ServerModel.Attach(before, id, conn, up).1;
              r.Some? == answer.Some? && (r.Some? ==> Attachment(r.value.0.id, r.value.1, r.value.2) == answer.value)
      ensures r.Some? ==> r.value.0 in channels
      ensures r.Some? <==> up && id in before.rows
      ensures var first := id !in before.rooms || before.rooms[id].creatorId.None?;
              r.Some? ==> r.value.1 == first && r.value.2 == if first then Some(conn) else before.rooms[id].creatorId
    {
      var found := db.RoomExists(id, up);
      if found != Ok(true) {
        return None;
      }
      EnsureRoom(id, before);
      var tx, isCreator, creatorId := ClaimRoom(id, conn, WithRoom(before, id));
      r := Some((tx, isCreator, creatorId));
    }

    // The first to come since the last reset becomes the creator.
    method ClaimRoom(id: RoomId, conn: ConnId, ghost before: Server)
      returns (tx: Channel, isCreator: bool, creatorId: Option<ConnId>)
      requires Shows(before) && id in rooms
      modifies this`rooms
      ensures id in before.rooms && tx in channels && tx.id == before.rooms[id].tx
      ensures isCreator <==> before.rooms[id].creatorId.None?
      ensures creatorId == if isCreator then Some(conn) else before.rooms[id].creatorId
      ensures Shows(if isCreator then before.(rooms := before.rooms[id := before.rooms[id].(creatorId := Some(conn))])
              else before)
    {
      var room := rooms[id];
      isCreator := room.creatorId.None?;
      if isCreator {
        rooms := rooms[id := room.(creatorId := Some(conn))];
      }
      tx, creatorId := room.tx, rooms[id].creatorId;
    }

    // The first half of a join, up to and including `subscribe`: the write lock is held
    // from here to the end of `FinishJoin`, but sessions still publish on cloned senders.
    method BeginJoin(id: RoomId, maxParticipants: nat, ghost before: Server) returns (r: JoinStart)
      requires Shows(before)
      ensures var check := CheckJoin(before, id, maxParticipants);
              if check == Admit then
                && r.Subscribed? && fresh(r.receiver) && r.receiver.channel == rooms[id].tx
                && r.receiver.next == |before.channels[before.rooms[id].tx].log|
                && Lists(r.peers, before.rooms[id].participants)
              else r == Refused(check)
      ensures r.Subscribed? <==> id in rooms && |rooms[id].participants| < maxParticipants
      ensures r == Refused(Full) <==> id in rooms && |rooms[id].participants| >= maxParticipants
      ensures r == Refused(RoomGone) <==> id !in rooms
    {
      if id !in rooms {
        return Refused(RoomGone);
      }
      var room := rooms[id];
      if |room.participants| >= maxParticipants {
        return Refused(Full);
      }
      ListingExists(room.participants);
      var peers: seq<(ConnId, Participant)> :| Lists(peers, room.participants);
      var receiver := room.tx.Subscribe();
      r := Subscribed(receiver, peers);
    }

    method FinishJoin(id: RoomId, conn: ConnId, participant: Participant, ghost before: Server)
      requires Shows(before) && id in rooms
      modifies this, rooms[id].tx
      ensures Wired(before) && Shows(Enrol(before, id, conn, participant))
      ensures channels == old(channels)
    {
      var room := rooms[id];
      rooms := rooms[id := room.(participants := room.participants[conn := participant])];
      Publish(room.tx, Announcement(conn, participant), before.channels);
    }

    method Leave(id: RoomId, conn: ConnId, ghost before: Server)
      requires Shows(before) && id in rooms
      modifies this, rooms[id].tx
      ensures Wired(before) && id in rooms && Shows(ServerModel.Leave(before, id, conn))
      ensures channels == old(channels)
    {
      var room := rooms[id];
      if conn in room.participants {
        rooms := rooms[id := room.(participants := room.participants - {conn})];
        Publish(room.tx, PeerLeft(conn), before.channels);
      }
    }

    method Detach(id: RoomId, conn: ConnId, ghost before: Server)
      requires Shows(before)
      modifies this, if id in rooms then {rooms[id].tx} else {}
      ensures Wired(before) && Shows(ServerModel.Detach(before, id, conn))
      ensures channels == old(channels)
    {
      if id in rooms {
        Leave(id, conn, before);
        ResetIfEmpty(id, ServerModel.Leave(before, id, conn));
      }
    }

    method ResetIfEmpty(id: RoomId, ghost before: Server)
      requires Shows(before) && id in rooms
      modifies this`rooms
      ensures id in before.rooms && Shows(ServerModel.ResetIfEmpty(before, id))
    {
      if rooms[id].participants == map[] {
        Forget(id, before);
      }
    }

    method Forget(id: RoomId, ghost before: Server)
      requires Shows(before) && id in rooms
      modifies this`rooms
      ensures id in before.rooms && before.rooms[id].participants == old(rooms)[id].participants
      ensures Shows(before.(rooms := before.rooms[id := before.rooms[id].(creatorId := None)]))
    {
      rooms := rooms[id := rooms[id].(creatorId := None)];
    }

    // Rows and rooms go together, under one lock.
    method ExpireInactiveRooms(threshold: int, now: int, up: bool, ghost before: Server)
      returns (r: DbResult<seq<RoomId>>)
      requires Shows(before) && OwnChannels(before.rooms)
      modifies this, db, channels
      ensures channels == old(channels)
      ensures Shows(if up then Expire(before, now, threshold) else before)
      ensures r.Ok? <==> up
      ensures up ==> Enumerates(r.value, Stale(before.rows, now, threshold))
    {
      var deletion := db.DeleteInactiveRooms(threshold, now, up);
      if deletion.DbError? {
        return DbError;
      }
      ExpireRooms(deletion.value, before, Stale(before.rows, now, threshold));
      r := Ok(deletion.value);
    }

    method ExpireRooms(deleted: seq<RoomId>, ghost before: Server, ghost stale: set<RoomId>)
      requires ShowsRooms(before.rooms) && ShowsChannels(before.channels) && OwnChannels(before.rooms)
      requires Enumerates(deleted, stale)
      modifies this`rooms, channels
      ensures ShowsRooms(before.rooms - stale) && ShowsChannels(ExpireChannels(before, stale))
    {
      ghost var gone: set<RoomId> := {};
      for i := 0 to |deleted|
        invariant forall id :: id in gone <==> id in deleted[..i]
        invariant ShowsRooms(before.rooms - gone)
        invariant ShowsChannels(ExpireChannels(before, gone))
      {
        ExpireOne(deleted[i], before, gone);
        gone := gone + {deleted[i]};
        TakeNext(deleted, i);
      }
      assert gone == stale;
    }

    method ExpireOne(id: RoomId, ghost before: Server, ghost gone: set<RoomId>)
      requires OwnChannels(before.rooms) && id !in gone
      requires ShowsRooms(before.rooms - gone) && ShowsChannels(ExpireChannels(before, gone))
      modifies this`rooms, if id in rooms then {rooms[id].tx} else {}
      ensures ShowsRooms(before.rooms - (gone + {id})) && ShowsChannels(ExpireChannels(before, gone + {id}))
    {
      ExpireNext(before, gone, id);
      if id in rooms {
        var room := rooms[id];
        rooms := rooms - {id};
        Publish(room.tx, RoomExpired, ExpireChannels(before, gone));
      }
    }
  }
}
