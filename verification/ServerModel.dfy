/**
 The shared state of the relay as a value, and what each locked operation does to it.

 A channel is named by its index in the sequence of all channels ever built, so that a
 cloned sender keeps meaning the same channel after its room is gone.
 */
module ServerModel {
  import opened Wrappers
  import opened RoomEvents
  import opened RoomLog
  import opened RoomTable

  datatype RoomState = RoomState(tx: nat, creatorId: Option<ConnId>, participants: Roster)
  datatype ChannelState = ChannelState(owner: RoomId, log: seq<RoomEvent>)
  datatype Server = Server(rows: Rows, rooms: map<RoomId, RoomState>, channels: seq<ChannelState>)
  datatype Attachment = Attachment(tx: nat, isCreator: bool, creatorId: Option<ConnId>)

  // Every room in the map sends on a channel that exists.
  predicate Wired(s: Server) {
    forall id :: id in s.rooms ==> s.rooms[id].tx < |s.channels|
  }

  // No two rooms of the map send on one channel.
  ghost predicate OwnChannels(rooms: map<RoomId, RoomState>) {
    forall a, b :: a in rooms && b in rooms && rooms[a].tx == rooms[b].tx ==> a == b
  }

  function Append(channels: seq<ChannelState>, k: nat, e: RoomEvent): seq<ChannelState>
    requires k < |channels|
  {
    channels[k := channels[k].(log := channels[k].log + [e])]
  }

  function Publish(s: Server, k: nat, e: RoomEvent): Server
    requires k < |s.channels|
  {
    s.(channels := Append(s.channels, k, e))
  }

  // The map entry, built on first use with a channel of its own.
  function WithRoom(s: Server, id: RoomId): Server {
    if id in s.rooms then s
    else s.(rooms := s.rooms[id := RoomState(|s.channels|, None, map[])],
            channels := s.channels + [ChannelState(id, [])])
  }

  function Attach(s: Server, id: RoomId, conn: ConnId, up: bool): (Server, Option<Attachment>) {
    if !up || id !in s.rows then (s, None)
    else
      var s' := WithRoom(s, id);
      var room := s'.rooms[id];
      if room.creatorId.None? then
        (s'.(rooms := s'.rooms[id := room.(creatorId := Some(conn))]), Some(Attachment(room.tx, true, Some(conn))))
      else
        (s', Some(Attachment(room.tx, false, room.creatorId)))
  }

  // What `join` finds under the lock before it touches anything.
  datatype JoinCheck = RoomGone | Full | Admit

  function CheckJoin(s: Server, id: RoomId, maxParticipants: nat): JoinCheck {
    if id !in s.rooms then RoomGone
    else if |s.rooms[id].participants| >= maxParticipants then Full
    else Admit
  }

  // The end of `join`: the participant goes in and the room is told.
  function Enrol(s: Server, id: RoomId, conn: ConnId, p: Participant): Server
    requires id in s.rooms && s.rooms[id].tx < |s.channels|
  {
    var room := s.rooms[id];
    Publish(s.(rooms := s.rooms[id := room.(participants := room.participants[conn := p])]), room.tx,
        Announcement(conn, p))
  }

  // A departing participant is announced; one that never joined leaves no trace.
  function Leave(s: Server, id: RoomId, conn: ConnId): Server
    requires Wired(s) && id in s.rooms
  {
    var room := s.rooms[id];
    if conn in room.participants then
      Publish(s.(rooms := s.rooms[id := room.(participants := room.participants - {conn})]), room.tx, PeerLeft(conn))
    else s
  }

  function ResetIfEmpty(s: Server, id: RoomId): Server
    requires id in s.rooms
  {
    if s.rooms[id].participants == map[] then s.(rooms := s.rooms[id := s.rooms[id].(creatorId := None)]) else s
  }

  function Detach(s: Server, id: RoomId, conn: ConnId): Server
    requires Wired(s)
  {
    if id in s.rooms then ResetIfEmpty(Leave(s, id, conn), id) else s
  }

  // The channels of the rooms being removed each end with one RoomExpired.
  function ExpireChannels(s: Server, ids: set<RoomId>): seq<ChannelState> {
    seq(|s.channels|, (k: nat) requires k < |s.channels| =>
      var ch := s.channels[k];
      if exists id :: id in ids && id in s.rooms && s.rooms[id].tx == k then ch.(log := ch.log + [RoomExpired]) else ch)
  }

  function Expire(s: Server, now: int, threshold: int): Server {
    var stale := Stale(s.rows, now, threshold);
    Server(s.rows - stale, s.rooms - stale, ExpireChannels(s, stale))
  }

  // Expiring one more room ends its channel, if it has one, and no other.
  lemma ExpireNext(s: Server, gone: set<RoomId>, id: RoomId)
    requires OwnChannels(s.rooms) && id !in gone
    ensures id !in s.rooms ==>
            ExpireChannels(s, gone + {id}) == ExpireChannels(s, gone) && s.rooms - (gone + {id}) == s.rooms - gone
    ensures id in s.rooms && s.rooms[id].tx < |s.channels| ==>
              ExpireChannels(s, gone + {id}) == Append(ExpireChannels(s, gone), s.rooms[id].tx, RoomExpired)
  {
    if id in s.rooms && s.rooms[id].tx < |s.channels| {
      assert forall x :: x in gone && x in s.rooms ==> s.rooms[x].tx != s.rooms[id].tx;
    }
  }

  lemma {:induction false} ListingExists(roster: Roster)
    ensures exists peers: seq<(ConnId, Participant)> :: Lists(peers, roster)
    decreases |roster|
  {
    if roster == map[] {
      assert Lists([], roster);
    } else {
      var x :| x in roster;
      assert (roster - {x}).Keys == roster.Keys - {x};
      ListingExists(roster - {x});
      var peers: seq<(ConnId, Participant)> :| Lists(peers, roster - {x});
      ListingGrows(peers, roster, x);
    }
  }

  lemma ListingGrows(peers: seq<(ConnId, Participant)>, roster: Roster, x: ConnId)
    requires x in roster && Lists(peers, roster - {x})
    ensures Lists(peers + [(x, roster[x])], roster)
  {
    var longer := peers + [(x, roster[x])];
    forall y | y in roster
      ensures exists i :: 0 <= i < |longer| && longer[i].0 == y
    {
      if y == x {
        assert longer[|peers|].0 == y;
      } else {
        assert y in roster - {x};
        var i :| 0 <= i < |peers| && peers[i].0 == y;
        assert longer[i].0 == y;
      }
    }
  }
}
