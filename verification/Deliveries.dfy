/** What a client is sent of what goes on in its room, event by event and field by field. */
module Deliveries {
  import opened RoomEvents
  import opened RoomLog
  import opened Sessions
  import opened Protocol
  import opened ProtocolInvariant
  import opened ProtocolRuns
  import opened ClientTheorems

  // The event has its frame in this place, unless it is the session's own or welcomes
  // somebody else.
  predicate ShownAt(conn: ConnId, e: RoomEvent, frames: seq<OutgoingMessage>, k: nat) {
    match e
    case Chat(from, payload, epoch, counter) =>
      from != conn ==> IsAt(frames, k, MessageFrame(from, payload, epoch, counter))
    case TreeCommit(from, data) => from != conn ==> IsAt(frames, k, TreeCommitFrame(from, data))
    case TreeWelcome(from, target, data) => from != conn && target == conn ==> IsAt(frames, k, TreeWelcomeFrame(data))
    case Typing(from) => from != conn ==> IsAt(frames, k, TypingFrame(from))
    case PeerJoined(from, publicKey, pqPublicKey, sig) =>
      from != conn ==> IsAt(frames, k, PeerJoinedFrame(from, publicKey, pqPublicKey, sig))
    case PeerLeft(from) => from != conn ==> IsAt(frames, k, PeerLeftFrame(from))
    case RoomExpired => IsAt(frames, k, RoomExpiredFrame)
  }

  predicate IsAt(frames: seq<OutgoingMessage>, k: nat, f: OutgoingMessage) {
    k < |frames| && frames[k] == f
  }

  // What has been written of these events: each has its place, in their order, and past the
  // first `first` frames there is nothing else.
  ghost predicate ShownInOrder(conn: ConnId, events: seq<RoomEvent>, frames: seq<OutgoingMessage>, first: nat,
                                 places: seq<nat>) {
    && |places| == |events|
    && (forall i: nat :: i < |events| ==> first <= places[i] && ShownAt(conn, events[i], frames, places[i]))
    && (forall i: nat, j: nat :: i < j < |events| && !OwnOrForOthers(conn, events[i]) ==> places[i] < places[j])
    && (forall k: nat :: first <= k < |frames| ==> HasEvent(conn, events, places, k))
  }

  ghost predicate HasEvent(conn: ConnId, events: seq<RoomEvent>, places: seq<nat>, k: nat)
    requires |places| == |events|
  {
    exists i: nat :: i < |events| && places[i] == k && !OwnOrForOthers(conn, events[i])
  }

  // A session that joined has been sent, behind its opening and the keys of its snapshot,
  // every chat, commit, typing notice, join and leave of the others, every welcome meant for
  // it and the end of the room, from its subscription to its cursor: each once, in the
  // order of the log, and nothing else.
  lemma {:induction false} EveryEventArrives(cfg: Config, ls: seq<Label>, conn: ConnId) returns (places: seq<nat>)
    requires conn in Run(cfg, ls).sessions && Run(cfg, ls).sessions[conn].joined
    ensures var w := Run(cfg, ls);
            && InRoom(w, conn)
            && var s, log := w.sessions[conn], LogOf(w, conn);
               && s.start <= s.cursor <= |log|
               && ShownInOrder(conn, log[s.start..s.cursor], s.frames, s.opening + |s.snapshot|, places)
  {
    RunKeeps(cfg, ls);
    places := WrittenPlaces(cfg, Run(cfg, ls), conn);
  }

  lemma WrittenPlaces(cfg: Config, w: World, conn: ConnId) returns (places: seq<nat>)
    requires Inv(cfg, w) && conn in w.sessions && w.sessions[conn].joined
    ensures InRoom(w, conn)
    ensures var s, log := w.sessions[conn], LogOf(w, conn);
            && s.start <= s.cursor <= |log|
            && ShownInOrder(conn, log[s.start..s.cursor], s.frames, s.opening + |s.snapshot|, places)
  {
    JoinedIsInRoom(cfg, w, conn);
    var s, log := w.sessions[conn], LogOf(w, conn);
    BehindTheKeys(conn, s, log);
    places := ShownBehind(conn, log[s.start..s.cursor], s.frames, s.opening + |s.snapshot|);
  }

  // Where each event has its frame, or would have it.
  function PlacesOf(conn: ConnId, events: seq<RoomEvent>, first: nat): (places: seq<nat>)
    ensures |places| == |events|
  {
    seq(|events|, (i: nat) requires i < |events| => first + |RelayFrames(conn, events[..i])|)
  }

  lemma ShownBehind(conn: ConnId, events: seq<RoomEvent>, frames: seq<OutgoingMessage>, first: nat)
    returns (places: seq<nat>)
    requires if events == [] then |frames| <= first
             else first <= |frames| && frames[first..] == RelayFrames(conn, events)
    ensures ShownInOrder(conn, events, frames, first, places)
  {
    if events == [] {
      places := [];
    } else {
      places := PlacesOf(conn, events, first);
      RelayedShown(conn, events, frames, first);
    }
  }

  lemma BehindTheKeys(conn: ConnId, s: Session, log: seq<RoomEvent>)
    requires WroteExactly(conn, s, log)
    ensures var events, first := log[s.start..s.cursor], s.opening + |s.snapshot|;
            if events == [] then |s.frames| <= first
            else first <= |s.frames| && s.frames[first..] == RelayFrames(conn, events)
  {
    KeyFramesCount(s.snapshot[..s.seeded]);
    RestIsRelayed(s.frames, s.opening, KeyFrames(s.snapshot[..s.seeded]), RelayFrames(conn, log[s.start..s.cursor]));
  }

  lemma {:induction false} KeyFramesCount(peers: seq<(ConnId, Participant)>)
    ensures |KeyFrames(peers)| == |peers|
  {
    if peers != [] {
      KeyFramesCount(peers[..|peers| - 1]);
    }
  }

  lemma RestIsRelayed(frames: seq<OutgoingMessage>, opening: nat, keys: seq<OutgoingMessage>,
                      relayed: seq<OutgoingMessage>)
    requires opening <= |frames| && frames[opening..] == keys + relayed
    ensures opening + |keys| <= |frames| && frames[opening + |keys|..] == relayed
  {
    assert frames[opening + |keys|..] == frames[opening..][|keys|..];
  }

  lemma RelayedShown(conn: ConnId, events: seq<RoomEvent>, frames: seq<OutgoingMessage>, first: nat)
    requires first <= |frames| && frames[first..] == RelayFrames(conn, events)
    ensures ShownInOrder(conn, events, frames, first, PlacesOf(conn, events, first))
  {
    var places := PlacesOf(conn, events, first);
    forall i: nat | i < |events| ensures first <= places[i] && ShownAt(conn, events[i], frames, places[i]) {
      EventShown(conn, events, frames, first, i);
    }
    forall i: nat, j: nat | i < j < |events| && !OwnOrForOthers(conn, events[i]) ensures places[i] < places[j] {
      RelayMovesOn(conn, events, i, j);
    }
    forall k: nat | first <= k < |frames| ensures HasEvent(conn, events, places, k) {
      FrameHasSource(conn, events, frames, first, k);
    }
  }

  lemma RelayOneMore(conn: ConnId, events: seq<RoomEvent>, n: nat)
    requires n < |events|
    ensures RelayFrames(conn, events[..n + 1]) == RelayFrames(conn, events[..n]) + Emit(conn, events[n])
  {
    assert events[..n + 1][..n] == events[..n];
  }

  lemma {:induction false} RelayGrows(conn: ConnId, events: seq<RoomEvent>, n: nat)
    requires n <= |events|
    ensures RelayFrames(conn, events[..n]) <= RelayFrames(conn, events)
  {
    if n == |events| {
      assert events[..n] == events;
    } else {
      var last := |events| - 1;
      RelayGrows(conn, events[..last], n);
      assert events[..last][..n] == events[..n];
    }
  }

  // What comes after an event that was due has a later place.
  lemma RelayMovesOn(conn: ConnId, events: seq<RoomEvent>, i: nat, j: nat)
    requires i < j <= |events| && !OwnOrForOthers(conn, events[i])
    ensures |RelayFrames(conn, events[..i])| < |RelayFrames(conn, events[..j])|
  {
    ConcernsAre(conn, events[i]);
    RelayOneMore(conn, events, i);
    RelayGrows(conn, events[..j], i + 1);
    assert events[..j][..i + 1] == events[..i + 1];
  }

  lemma EventShown(conn: ConnId, events: seq<RoomEvent>, frames: seq<OutgoingMessage>, first: nat, i: nat)
    requires i < |events| && first <= |frames| && frames[first..] == RelayFrames(conn, events)
    ensures ShownAt(conn, events[i], frames, first + |RelayFrames(conn, events[..i])|)
  {
    if Concerns(conn, events[i]) {
      var k := |RelayFrames(conn, events[..i])|;
      RelayOneMore(conn, events, i);
      RelayGrows(conn, events, i + 1);
      assert frames[first..][k] == frames[first + k];
    }
  }

  lemma FrameHasSource(conn: ConnId, events: seq<RoomEvent>, frames: seq<OutgoingMessage>, first: nat, k: nat)
    requires first <= k < |frames| && frames[first..] == RelayFrames(conn, events)
    ensures HasEvent(conn, events, PlacesOf(conn, events, first), k)
  {
    var i := SourceAt(conn, events, k - first);
    ConcernsAre(conn, events[i]);
    assert PlacesOf(conn, events, first)[i] == k;
  }

  // The event behind the n-th frame relayed.
  lemma {:induction false} SourceAt(conn: ConnId, events: seq<RoomEvent>, n: nat) returns (i: nat)
    requires n < |RelayFrames(conn, events)|
    ensures i < |events| && Concerns(conn, events[i]) && |RelayFrames(conn, events[..i])| == n
  {
    var prior := events[..|events| - 1];
    if n < |RelayFrames(conn, prior)| {
      i := SourceAt(conn, prior, n);
      assert prior[..i] == events[..i];
    } else {
      i := |events| - 1;
    }
  }
}
