/**
 The log of everything ever sent on one room's channel, what it says about membership,
 and what a session and its client make of a slice of it.

 All folds take the last element off, so that appending one event is one unfolding.
 */
module RoomLog {
  import opened Sequences
  import opened Wrappers
  import opened RoomEvents

  type Roster = map<ConnId, Participant>

  // ---------- Membership as the log tells it ----------

  // Who is in, who has been and gone, with the keys they showed, and whether the room has expired.
  datatype Tally = Tally(present: Roster, gone: Roster, expired: bool)

  function Count(t: Tally, e: RoomEvent): Tally {
    match e
    case PeerJoined(x, pk, pq, sig) => t.(present := t.present[x := Participant(pk, pq, sig)])
    case PeerLeft(x) => if x in t.present then t.(present := t.present - {x}, gone := t.gone[x := t.present[x]]) else t
    case RoomExpired => t.(expired := true)
    case _ => t
  }

  function Replay(log: seq<RoomEvent>): Tally {
    if log == [] then Tally(map[], map[], false)
    else Count(Replay(log[..|log| - 1]), log[|log| - 1])
  }

  // An event may follow a log: a peer joins once and leaves once, both before expiry,
  // and says everything else while it is in.
  predicate Legal(t: Tally, e: RoomEvent) {
    match e
    case PeerJoined(x, _, _, _) => x !in t.present && x !in t.gone && !t.expired
    case PeerLeft(x) => x in t.present && !t.expired
    case RoomExpired => !t.expired
    case _ => e.from in t.present
  }

  predicate WellFormed(log: seq<RoomEvent>) {
    log == [] || (WellFormed(log[..|log| - 1]) && Legal(Replay(log[..|log| - 1]), log[|log| - 1]))
  }

  lemma ReplayAppend(log: seq<RoomEvent>, e: RoomEvent)
    ensures Replay(log + [e]) == Count(Replay(log), e)
    ensures WellFormed(log + [e]) <==> WellFormed(log) && Legal(Replay(log), e)
  {
    assert (log + [e])[..|log + [e]| - 1] == log;
  }

  lemma {:induction false} PrefixWellFormed(log: seq<RoomEvent>, n: nat)
    requires WellFormed(log) && n <= |log|
    ensures WellFormed(log[..n])
  {
    if n == |log| {
      assert log[..n] == log;
    } else {
      PrefixWellFormed(log[..|log| - 1], n);
      assert log[..|log| - 1][..n] == log[..n];
    }
  }

  // What the log says of one peer between two of its indices.
  predicate Joins(e: RoomEvent, x: ConnId) { e.PeerJoined? && e.from == x }
  predicate Leaves(e: RoomEvent, x: ConnId) { e.PeerLeft? && e.from == x }

  ghost predicate EverJoined(log: seq<RoomEvent>, x: ConnId) {
    exists i :: 0 <= i < |log| && Joins(log[i], x)
  }

  ghost predicate EverLeft(log: seq<RoomEvent>, x: ConnId) {
    exists i :: 0 <= i < |log| && Leaves(log[i], x)
  }

  ghost predicate EverExpired(log: seq<RoomEvent>) {
    exists i :: 0 <= i < |log| && log[i].RoomExpired?
  }

  lemma EverAppend(log: seq<RoomEvent>, e: RoomEvent, x: ConnId)
    ensures EverJoined(log + [e], x) <==> EverJoined(log, x) || Joins(e, x)
    ensures EverLeft(log + [e], x) <==> EverLeft(log, x) || Leaves(e, x)
    ensures EverExpired(log + [e]) <==> EverExpired(log) || e.RoomExpired?
  {
    var more := log + [e];
    assert more[|log|] == e;
    assert forall i :: 0 <= i < |log| ==> more[i] == log[i];
  }

  // A join whose keys the tally still shows.
  predicate Recorded(t: Tally, e: RoomEvent)
    requires e.PeerJoined?
  {
    || (e.from in t.present && e == Announcement(e.from, t.present[e.from]))
    || (e.from in t.gone && e == Announcement(e.from, t.gone[e.from]))
  }

  // The tally can be read off the events: a peer is present exactly when it joined and has
  // not left, with the keys it joined with.
  ghost predicate TallyFits(log: seq<RoomEvent>, t: Tally) {
    && (forall x :: x in t.present <==> EverJoined(log, x) && !EverLeft(log, x))
    && (forall x :: x in t.gone <==> EverLeft(log, x))
    && (forall x :: EverLeft(log, x) ==> EverJoined(log, x))
    && (t.expired <==> EverExpired(log))
    && (forall i :: 0 <= i < |log| && log[i].PeerJoined? ==> Recorded(t, log[i]))
  }

  lemma {:induction false} TallyMeans(log: seq<RoomEvent>)
    requires WellFormed(log)
    ensures TallyFits(log, Replay(log))
  {
    if log != [] {
      var n := |log| - 1;
      TallyMeans(log[..n]);
      TallyFitsNext(log[..n], Replay(log[..n]), log[n]);
      TakeNext(log, n);
      assert log[..n + 1] == log;
    }
  }

  lemma TallyFitsNext(log: seq<RoomEvent>, t: Tally, e: RoomEvent)
    requires TallyFits(log, t) && Legal(t, e)
    ensures TallyFits(log + [e], Count(t, e))
  {
    match e
    case PeerJoined(_, _, _, _) => TallyFitsJoin(log, t, e);
    case PeerLeft(_) => TallyFitsLeave(log, t, e);
    case _ => TallyFitsOther(log, t, e);
  }

  lemma EverNext(log: seq<RoomEvent>, e: RoomEvent)
    ensures forall x :: EverJoined(log + [e], x) <==> EverJoined(log, x) || Joins(e, x)
    ensures forall x :: EverLeft(log + [e], x) <==> EverLeft(log, x) || Leaves(e, x)
    ensures EverExpired(log + [e]) <==> EverExpired(log) || e.RoomExpired?
  {
    forall x
      ensures EverJoined(log + [e], x) <==> EverJoined(log, x) || Joins(e, x)
      ensures EverLeft(log + [e], x) <==> EverLeft(log, x) || Leaves(e, x)
    {
      EverAppend(log, e, x);
    }
    EverAppend(log, e, []);
  }

  // The joins recorded before stay recorded, each peer having joined at most once.
  lemma StaysRecorded(log: seq<RoomEvent>, t: Tally, e: RoomEvent, i: nat)
    requires TallyFits(log, t) && Legal(t, e) && i < |log| && log[i].PeerJoined?
    ensures Recorded(Count(t, e), log[i])
  {
    assert Recorded(t, log[i]) && Joins(log[i], log[i].from);
  }

  lemma TallyFitsJoin(log: seq<RoomEvent>, t: Tally, e: RoomEvent)
    requires TallyFits(log, t) && Legal(t, e) && e.PeerJoined?
    ensures TallyFits(log + [e], Count(t, e))
  {
    EverNext(log, e);
    forall i: nat | i < |log + [e]| && (log + [e])[i].PeerJoined? ensures Recorded(Count(t, e), (log + [e])[i]) {
      if i < |log| {
        StaysRecorded(log, t, e, i);
      }
    }
  }

  lemma TallyFitsLeave(log: seq<RoomEvent>, t: Tally, e: RoomEvent)
    requires TallyFits(log, t) && Legal(t, e) && e.PeerLeft?
    ensures TallyFits(log + [e], Count(t, e))
  {
    EverNext(log, e);
    forall i: nat | i < |log + [e]| && (log + [e])[i].PeerJoined? ensures Recorded(Count(t, e), (log + [e])[i]) {
      StaysRecorded(log, t, e, i);
    }
  }

  lemma TallyFitsOther(log: seq<RoomEvent>, t: Tally, e: RoomEvent)
    requires TallyFits(log, t) && Legal(t, e) && !e.IsMembership()
    ensures TallyFits(log + [e], Count(t, e))
  {
    EverNext(log, e);
    forall i: nat | i < |log + [e]| && (log + [e])[i].PeerJoined? ensures Recorded(Count(t, e), (log + [e])[i]) {
      StaysRecorded(log, t, e, i);
    }
  }

  // Each peer joins at most once and leaves at most once; whatever else it sends lies
  // between; after RoomExpired there is no membership event and no second expiry.
  ghost predicate Orderly(log: seq<RoomEvent>) {
    && (forall i, j :: 0 <= i < j < |log| && log[i].PeerJoined? && log[j].PeerJoined? ==> log[i].from != log[j].from)
    && (forall i, j :: 0 <= i < j < |log| && log[i].PeerLeft? && log[j].PeerLeft? ==> log[i].from != log[j].from)
    && (forall j :: 0 <= j < |log| && !log[j].RoomExpired? && !log[j].PeerJoined? ==>
          EverJoined(log[..j], log[j].from) && !EverLeft(log[..j], log[j].from))
    && (forall i, j :: 0 <= i < j < |log| && log[i].RoomExpired? ==> !log[j].IsMembership() && !log[j].RoomExpired?)
  }

  lemma LegalAt(log: seq<RoomEvent>, j: nat)
    requires WellFormed(log) && j < |log|
    ensures WellFormed(log[..j]) && Legal(Replay(log[..j]), log[j])
  {
    PrefixWellFormed(log, j + 1);
    TakeNext(log, j);
    ReplayAppend(log[..j], log[j]);
  }

  lemma WellFormedIsOrderly(log: seq<RoomEvent>)
    requires WellFormed(log)
    ensures Orderly(log)
  {
    forall j: nat | j < |log|
      ensures !log[j].RoomExpired? && !log[j].PeerJoined? ==>
                EverJoined(log[..j], log[j].from) && !EverLeft(log[..j], log[j].from)
    {
      OrderlyAt(log, j);
    }
    forall i: nat, j: nat | i < j < |log| ensures OrderlyPair(log[i], log[j]) {
      PairIsOrderly(log, i, j);
    }
  }

  predicate OrderlyPair(earlier: RoomEvent, later: RoomEvent) {
    && (earlier.PeerJoined? && later.PeerJoined? ==> earlier.from != later.from)
    && (earlier.PeerLeft? && later.PeerLeft? ==> earlier.from != later.from)
    && (earlier.RoomExpired? ==> !later.IsMembership() && !later.RoomExpired?)
  }

  lemma OrderlyAt(log: seq<RoomEvent>, j: nat)
    requires WellFormed(log) && j < |log|
    ensures !log[j].RoomExpired? && !log[j].PeerJoined? ==>
              EverJoined(log[..j], log[j].from) && !EverLeft(log[..j], log[j].from)
  {
    LegalAt(log, j);
    TallyMeans(log[..j]);
  }

  lemma PairIsOrderly(log: seq<RoomEvent>, i: nat, j: nat)
    requires WellFormed(log) && i < j < |log|
    ensures OrderlyPair(log[i], log[j])
  {
    LegalAt(log, j);
    TallyMeans(log[..j]);
    assert log[..j][i] == log[i];
    if log[i].PeerJoined? {
      assert Joins(log[..j][i], log[i].from);
    } else if log[i].PeerLeft? {
      assert Leaves(log[..j][i], log[i].from);
    }
  }

  // Traffic moves nobody in or out.
  lemma {:induction false} TrafficKeepsTally(log: seq<RoomEvent>, n: nat)
    requires n <= |log|
    requires forall i :: n <= i < |log| ==> log[i].IsTraffic()
    ensures Replay(log) == Replay(log[..n])
  {
    if n == |log| {
      assert log[..n] == log;
    } else {
      TrafficKeepsTally(log[..|log| - 1], n);
      assert log[..|log| - 1][..n] == log[..n];
    }
  }

  // The part of a log one session published itself.
  function Own(conn: ConnId, log: seq<RoomEvent>): seq<RoomEvent> {
    if log == [] then []
    else
      var prior, e := log[..|log| - 1], log[|log| - 1];
      Own(conn, prior) + if e.IsTraffic() && e.from == conn then [e] else []
  }

  lemma OwnAppend(conn: ConnId, log: seq<RoomEvent>, e: RoomEvent)
    ensures Own(conn, log + [e]) == Own(conn, log) + if e.IsTraffic() && e.from == conn then [e] else []
  {
    assert (log + [e])[..|log|] == log;
  }

  lemma {:induction false} OwnConcat(conn: ConnId, a: seq<RoomEvent>, b: seq<RoomEvent>)
    ensures Own(conn, a + b) == Own(conn, a) + Own(conn, b)
  {
    if b == [] {
      assert a + b == a;
    } else {
      var n := |b| - 1;
      OwnConcat(conn, a, b[..n]);
      TakeNext(b, n);
      assert b[..n + 1] == b;
      Regroup(a, b[..n], [b[n]]);
      OwnAppend(conn, a + b[..n], b[n]);
    }
  }

  // ---------- What a session writes for the events it receives ----------

  // A session skips its own events and welcomes meant for somebody else.
  predicate Concerns(conn: ConnId, e: RoomEvent) {
    e.Sender() != Some(conn) && (e.Target().Some? ==> e.Target().value == conn)
  }

  // By kind: the session's own, or a welcome with another target.
  predicate OwnOrForOthers(conn: ConnId, e: RoomEvent) {
    (!e.RoomExpired? && e.from == conn) || (e.TreeWelcome? && e.target != conn)
  }

  lemma ConcernsAre(conn: ConnId, e: RoomEvent)
    ensures Concerns(conn, e) <==> !OwnOrForOthers(conn, e)
  {
  }

  function Emit(conn: ConnId, e: RoomEvent): seq<OutgoingMessage> {
    if Concerns(conn, e) then [FromEvent(e)] else []
  }

  function RelayFrames(conn: ConnId, events: seq<RoomEvent>): seq<OutgoingMessage> {
    if events == [] then []
    else RelayFrames(conn, events[..|events| - 1]) + Emit(conn, events[|events| - 1])
  }

  lemma RelayNext(conn: ConnId, log: seq<RoomEvent>, start: nat, cursor: nat)
    requires start <= cursor < |log|
    ensures RelayFrames(conn, log[start..cursor + 1]) == RelayFrames(conn, log[start..cursor]) + Emit(conn, log[cursor])
  {
    var longer := log[start..cursor + 1];
    assert longer[..|longer| - 1] == log[start..cursor];
  }

  function KeyFrame(peer: (ConnId, Participant)): OutgoingMessage {
    PeerKeyFrame(peer.0, peer.1.publicKey, peer.1.pqPublicKey, peer.1.sig)
  }

  function KeyFrames(peers: seq<(ConnId, Participant)>): seq<OutgoingMessage> {
    if peers == [] then []
    else KeyFrames(peers[..|peers| - 1]) + [KeyFrame(peers[|peers| - 1])]
  }

  lemma KeyFramesNext(peers: seq<(ConnId, Participant)>, n: nat)
    requires n < |peers|
    ensures KeyFrames(peers[..n + 1]) == KeyFrames(peers[..n]) + [KeyFrame(peers[n])]
  {
    assert peers[..n + 1][..n] == peers[..n];
  }

  // A snapshot lists a roster when it holds each member once, in any order.
  predicate Lists(peers: seq<(ConnId, Participant)>, roster: Roster) {
    && (forall i, j :: 0 <= i < j < |peers| ==> peers[i].0 != peers[j].0)
    && (forall i :: 0 <= i < |peers| ==> peers[i].0 in roster && roster[peers[i].0] == peers[i].1)
    && (forall x :: x in roster ==> exists i :: 0 <= i < |peers| && peers[i].0 == x)
  }

  // ---------- What a client knows from the frames it was sent ----------

  function Learn(known: Roster, f: OutgoingMessage): Roster {
    match f
    case PeerKeyFrame(x, pk, pq, sig) => known[x := Participant(pk, pq, sig)]
    case PeerJoinedFrame(x, pk, pq, sig) => known[x := Participant(pk, pq, sig)]
    case PeerLeftFrame(x) => known - {x}
    case _ => known
  }

  function ClientRoster(frames: seq<OutgoingMessage>): Roster {
    if frames == [] then map[]
    else Learn(ClientRoster(frames[..|frames| - 1]), frames[|frames| - 1])
  }

  lemma ClientAppend(frames: seq<OutgoingMessage>, f: OutgoingMessage)
    ensures ClientRoster(frames + [f]) == Learn(ClientRoster(frames), f)
  {
    assert (frames + [f])[..|frames + [f]| - 1] == frames;
  }

  // The keys a listing spells out are the roster it lists.
  function RosterOf(peers: seq<(ConnId, Participant)>): Roster {
    if peers == [] then map[]
    else RosterOf(peers[..|peers| - 1])[peers[|peers| - 1].0 := peers[|peers| - 1].1]
  }

  lemma {:induction false} SeedingTeaches(before: seq<OutgoingMessage>, peers: seq<(ConnId, Participant)>)
    requires ClientRoster(before) == map[]
    ensures ClientRoster(before + KeyFrames(peers)) == RosterOf(peers)
  {
    if peers == [] {
      assert before + [] == before;
    } else {
      var n := |peers| - 1;
      SeedingTeaches(before, peers[..n]);
      assert before + KeyFrames(peers) == (before + KeyFrames(peers[..n])) + [KeyFrame(peers[n])];
      ClientAppend(before + KeyFrames(peers[..n]), KeyFrame(peers[n]));
    }
  }

  lemma {:induction false} RosterOfKeys(peers: seq<(ConnId, Participant)>, x: ConnId)
    ensures x in RosterOf(peers) <==> exists i :: 0 <= i < |peers| && peers[i].0 == x
  {
    if peers != [] {
      var n := |peers| - 1;
      RosterOfKeys(peers[..n], x);
      if i :| 0 <= i < n && peers[i].0 == x {
        assert peers[..n][i].0 == x;
      }
    }
  }

  lemma {:induction false} RosterOfValue(peers: seq<(ConnId, Participant)>, i: nat)
    requires i < |peers| && forall j :: i < j < |peers| ==> peers[j].0 != peers[i].0
    ensures peers[i].0 in RosterOf(peers) && RosterOf(peers)[peers[i].0] == peers[i].1
  {
    if i < |peers| - 1 {
      RosterOfValue(peers[..|peers| - 1], i);
    }
  }

  lemma ListingIsRoster(peers: seq<(ConnId, Participant)>, roster: Roster)
    requires Lists(peers, roster)
    ensures RosterOf(peers) == roster
  {
    forall x ensures x in RosterOf(peers) <==> x in roster {
      RosterOfKeys(peers, x);
    }
    forall i: nat | i < |peers| ensures peers[i].0 in RosterOf(peers) && RosterOf(peers)[peers[i].0] == peers[i].1 {
      RosterOfValue(peers, i);
    }
  }

  // One event moves the client as it moves the roster, the client itself left out.
  lemma LearnFollows(conn: ConnId, t: Tally, e: RoomEvent, known: Roster)
    requires known == t.present - {conn}
    ensures Concerns(conn, e) ==> Learn(known, FromEvent(e)) == Count(t, e).present - {conn}
    ensures !Concerns(conn, e) ==> known == Count(t, e).present - {conn}
  {
    match e
    case PeerJoined(x, pk, pq, sig) =>
    case PeerLeft(x) =>
    case _ =>
  }

  // Reading on from a point where the client agreed with the log, it keeps agreeing.
  lemma {:induction false} ClientFollows(conn: ConnId, log: seq<RoomEvent>, start: nat, cursor: nat,
                                         before: seq<OutgoingMessage>)
    requires start <= cursor <= |log|
    requires ClientRoster(before) == Replay(log[..start]).present - {conn}
    ensures ClientRoster(before + RelayFrames(conn, log[start..cursor])) == Replay(log[..cursor]).present - {conn}
  {
    if cursor == start {
      assert log[start..cursor] == [];
      assert before + [] == before;
    } else {
      var at := cursor - 1;
      ClientFollows(conn, log, start, at, before);
      var sent := RelayFrames(conn, log[start..at]);
      RelayNext(conn, log, start, at);
      TakeNext(log, at);
      ClientStep(conn, log[..at], log[at], before + sent);
      Regroup(before, sent, Emit(conn, log[at]));
    }
  }

  lemma ClientStep(conn: ConnId, prior: seq<RoomEvent>, e: RoomEvent, sent: seq<OutgoingMessage>)
    requires ClientRoster(sent) == Replay(prior).present - {conn}
    ensures ClientRoster(sent + Emit(conn, e)) == Replay(prior + [e]).present - {conn}
  {
    ReplayAppend(prior, e);
    LearnFollows(conn, Replay(prior), e, ClientRoster(sent));
    if Concerns(conn, e) {
      ClientAppend(sent, FromEvent(e));
    } else {
      assert sent + [] == sent;
    }
  }

  // Every join in the log announced the keys on record for that peer.
  ghost predicate Vouched(log: seq<RoomEvent>, keys: Roster) {
    forall j :: 0 <= j < |log| && log[j].PeerJoined? ==>
      log[j].from in keys && log[j] == Announcement(log[j].from, keys[log[j].from])
  }

  lemma {:induction false} PresentAreVouched(log: seq<RoomEvent>, keys: Roster)
    requires Vouched(log, keys)
    ensures forall x :: x in Replay(log).present ==> x in keys && Replay(log).present[x] == keys[x]
  {
    if log != [] {
      PresentAreVouched(log[..|log| - 1], keys);
    }
  }

  // Every frame about a peer's doings finds that peer's own keys in what was sent before it.
  ghost predicate KeysKnown(frames: seq<OutgoingMessage>, keys: Roster) {
    forall i :: 0 <= i < |frames| && frames[i].NeedsKeys() ==> Knows(frames[..i], frames[i].peerId, keys)
  }

  ghost predicate Knows(frames: seq<OutgoingMessage>, x: ConnId, keys: Roster) {
    x in ClientRoster(frames) && x in keys && ClientRoster(frames)[x] == keys[x]
  }

  lemma KeysKnownAppend(frames: seq<OutgoingMessage>, f: OutgoingMessage, keys: Roster)
    requires KeysKnown(frames, keys)
    requires f.NeedsKeys() ==> Knows(frames, f.peerId, keys)
    ensures KeysKnown(frames + [f], keys)
  {
    var more := frames + [f];
    forall i | 0 <= i < |more| && more[i].NeedsKeys()
      ensures Knows(more[..i], more[i].peerId, keys)
    {
      assert more[..i] == frames[..i];
      if i == |frames| { assert frames[..i] == frames; }
    }
  }

  lemma {:induction false} RelayKeepsKeysKnown(conn: ConnId, log: seq<RoomEvent>, start: nat, cursor: nat,
                                               before: seq<OutgoingMessage>, keys: Roster)
    requires start <= cursor <= |log| && WellFormed(log) && Vouched(log, keys)
    requires ClientRoster(before) == Replay(log[..start]).present - {conn}
    requires KeysKnown(before, keys)
    ensures KeysKnown(before + RelayFrames(conn, log[start..cursor]), keys)
  {
    if cursor == start {
      assert log[start..cursor] == [];
      assert before + [] == before;
    } else {
      var at := cursor - 1;
      RelayKeepsKeysKnown(conn, log, start, at, before, keys);
      ClientFollows(conn, log, start, at, before);
      var sent := RelayFrames(conn, log[start..at]);
      RelayNext(conn, log, start, at);
      LegalAt(log, at);
      PresentAreVouched(log[..at], keys);
      EmitKeepsKeysKnown(conn, log[..at], log[at], before + sent, keys);
      Regroup(before, sent, Emit(conn, log[at]));
    }
  }

  lemma EmitKeepsKeysKnown(conn: ConnId, prior: seq<RoomEvent>, e: RoomEvent, sent: seq<OutgoingMessage>, keys: Roster)
    requires Legal(Replay(prior), e)
    requires forall x :: x in Replay(prior).present ==> x in keys && Replay(prior).present[x] == keys[x]
    requires ClientRoster(sent) == Replay(prior).present - {conn}
    requires KeysKnown(sent, keys)
    ensures KeysKnown(sent + Emit(conn, e), keys)
  {
    if Concerns(conn, e) {
      KeysKnownAppend(sent, FromEvent(e), keys);
    } else {
      assert sent + [] == sent;
    }
  }

  // ---------- Where each relayed frame came from ----------

  // The log indices, in order, whose events a session relayed.
  function Sources(conn: ConnId, log: seq<RoomEvent>, start: nat, cursor: nat): seq<nat>
    requires start <= cursor <= |log|
    decreases cursor
  {
    if cursor == start then []
    else Sources(conn, log, start, cursor - 1) + (if Concerns(conn, log[cursor - 1]) then [cursor - 1] else [])
  }

  ghost predicate SourcesFit(conn: ConnId, log: seq<RoomEvent>, start: nat, cursor: nat, src: seq<nat>,
                             frames: seq<OutgoingMessage>) {
    && start <= cursor <= |log|
    && |src| == |frames|
    && (forall i :: 0 <= i < |src| ==> start <= src[i] < cursor)
    && (forall i :: 0 <= i < |src| ==> Concerns(conn, log[src[i]]) && frames[i] == FromEvent(log[src[i]]))
    && (forall i, j :: 0 <= i < j < |src| ==> src[i] < src[j])
    && (forall k :: start <= k < cursor && Concerns(conn, log[k]) ==> k in src)
  }

  // The relayed frames are the events at the source indices; the indices increase, and
  // leave out nothing that concerns the session.
  lemma {:induction false} SourcesExact(conn: ConnId, log: seq<RoomEvent>, start: nat, cursor: nat,
                                        src: seq<nat>, frames: seq<OutgoingMessage>)
    requires start <= cursor <= |log|
    requires src == Sources(conn, log, start, cursor) && frames == RelayFrames(conn, log[start..cursor])
    ensures SourcesFit(conn, log, start, cursor, src, frames)
    decreases cursor
  {
    if cursor == start {
      assert log[start..cursor] == [];
    } else {
      var at := cursor - 1;
      var src', frames' := Sources(conn, log, start, at), RelayFrames(conn, log[start..at]);
      SourcesExact(conn, log, start, at, src', frames');
      RelayNext(conn, log, start, at);
      SourcesGrow(conn, log, start, at, src', frames');
    }
  }

  lemma SourcesGrow(conn: ConnId, log: seq<RoomEvent>, start: nat, at: nat, src: seq<nat>, frames: seq<OutgoingMessage>)
    requires SourcesFit(conn, log, start, at, src, frames) && at < |log|
    ensures SourcesFit(conn, log, start, at + 1,
                       src + (if Concerns(conn, log[at]) then [at] else []), frames + Emit(conn, log[at]))
  {
    if Concerns(conn, log[at]) {
      var longer := src + [at];
      forall k | start <= k < at + 1 && Concerns(conn, log[k])
        ensures k in longer
      {
        if k == at { assert longer[|src|] == at; }
      }
    } else {
      assert src + [] == src && frames + [] == frames;
    }
  }
}
