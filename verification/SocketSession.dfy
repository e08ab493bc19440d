/**
 A session at its socket, in place: the keys of its snapshot, then the loop that hands on
 what the room says and publishes what the client says.

 What the outside does is a script: the turns `select` takes, whether writes get through,
 what the client sends, and what other sessions put on the channel in between.
 */
module SocketSession {
  import opened Sequences
  import opened Wrappers
  import opened RoomEvents
  import opened RoomLog
  import opened Broadcast
  import opened RoomTable
  import opened TokenBucket
  import opened MessageRate
  import opened Sessions

  // A text frame once parsed; fields the client left out are None.
  datatype ClientFrame =
    | KeyAnnounce(publicKey: Option<string>, pqPublicKey: Option<string>, sig: Option<string>)
    | Message(payload: Option<string>, epoch: Option<nat>, counter: Option<nat>)
    | TreeCommitText(treeCommit: Option<string>)
    | TreeWelcomeText(treeWelcome: Option<string>, targetPeerId: Option<ConnId>)
    | TypingText

  // Text that does not parse, or is of an unknown type, carries no frame. `meanwhile` is
  // what other sessions publish while it is dealt with: for a chat, between the refresh of
  // its room and its own publication.
  datatype Text = Text(frame: Option<ClientFrame>, at: real, now: int, up: bool, meanwhile: seq<RoomEvent>)

  datatype Turn =
    | Elsewhere(e: RoomEvent)                                    // another session publishes
    | Receive(delivered: bool, meanwhile: seq<RoomEvent>)        // and others, during the write
    | Read(text: Text)
    | Quiet                                                      // pings, pongs, binary frames
    | Hangup                                                     // close, error, missing pong

  // What a session does to the outside, in order.
  datatype Effect = Refreshed(now: int, up: bool) | Published(e: RoomEvent)

  // What a frame has the session publish.
  function EventOf(conn: ConnId, f: ClientFrame): Option<RoomEvent> {
    match f
    case Message(Some(payload), epoch, counter) => Some(Chat(conn, payload, epoch, counter))
    case TreeCommitText(Some(data)) => Some(TreeCommit(conn, data))
    case TreeWelcomeText(Some(data), Some(target)) => Some(TreeWelcome(conn, target, data))
    case TypingText => Some(Typing(conn))
    case _ => None
  }

  predicate IsChat(f: ClientFrame) {
    f.Message? && f.payload.Some?
  }

  function Said(e: Option<RoomEvent>): seq<RoomEvent> {
    if e.Some? then [e.value] else []
  }

  function Publishes(conn: ConnId, text: Text): seq<RoomEvent> {
    if text.frame.Some? then Said(EventOf(conn, text.frame.value)) else []
  }

  // An admitted chat refreshes its room and only then is published.
  function Effects(conn: ConnId, text: Text): seq<Effect> {
    if text.frame.None? then []
    else
      match EventOf(conn, text.frame.value)
      case None => []
      case Some(e) => if e.Chat? then [Refreshed(text.now, text.up), Published(e)] else [Published(e)]
  }

  lemma EffectsAre(conn: ConnId, text: Text, trail: seq<Effect>)
    requires text.frame.Some?
    ensures var e := EventOf(conn, text.frame.value);
            trail + Effects(conn, text) ==
            (trail + if IsChat(text.frame.value) then [Refreshed(text.now, text.up)] else []) +
            if e.Some? then [Published(e.value)] else []
  {
  }

  // What a frame adds to the log: nothing unless the client completed it, and then the one
  // event, field for field.
  predicate Adds(conn: ConnId, f: ClientFrame, before: seq<RoomEvent>, after: seq<RoomEvent>) {
    match f
    case Message(payload, epoch, counter) =>
      after == if payload.None? then before else before + [Chat(conn, payload.value, epoch, counter)]
    case TreeCommitText(data) => after == if data.None? then before else before + [TreeCommit(conn, data.value)]
    case TreeWelcomeText(data, target) =>
      after == if data.None? || target.None? then before else before + [TreeWelcome(conn, target.value, data.value)]
    case TypingText => after == before + [Typing(conn)]
    case KeyAnnounce(_, _, _) => after == before
  }

  // And what it has the session do, in order: only a chat refreshes the room, and first.
  predicate Does(conn: ConnId, text: Text, before: seq<Effect>, after: seq<Effect>)
    requires text.frame.Some?
  {
    match text.frame.value
    case Message(payload, epoch, counter) =>
      after == if payload.None? then before
               else before + [Refreshed(text.now, text.up), Published(Chat(conn, payload.value, epoch, counter))]
    case TreeCommitText(data) =>
      after == if data.None? then before else before + [Published(TreeCommit(conn, data.value))]
    case TreeWelcomeText(data, target) =>
      after == if data.None? || target.None? then before
               else before + [Published(TreeWelcome(conn, target.value, data.value))]
    case TypingText => after == before + [Published(Typing(conn))]
    case KeyAnnounce(_, _, _) => after == before
  }

  lemma PublishesAdds(conn: ConnId, text: Text, log: seq<RoomEvent>, trail: seq<Effect>)
    requires text.frame.Some?
    ensures Adds(conn, text.frame.value, log, log + Publishes(conn, text))
    ensures Does(conn, text, trail, trail + Effects(conn, text))
  {
    assert log + [] == log && trail + [] == trail;
  }

  // What becomes of an event received: skipped, or written as its frame, field for field,
  // or the end of the session where the write fails; `moved` says whether the session is past it,
  // `on` whether it goes on.
  predicate Dealt(conn: ConnId, e: RoomEvent, delivered: bool, before: seq<OutgoingMessage>,
                  after: seq<OutgoingMessage>, moved: bool, on: bool) {
    match e
    case Chat(from, payload, epoch, counter) =>
      if from == conn then after == before && moved && on
      else WrittenIf(MessageFrame(from, payload, epoch, counter), delivered, before, after, moved, on)
    case TreeCommit(from, data) =>
      if from == conn then after == before && moved && on
      else WrittenIf(TreeCommitFrame(from, data), delivered, before, after, moved, on)
    case TreeWelcome(from, target, data) =>
      if from == conn || target != conn then after == before && moved && on
      else WrittenIf(TreeWelcomeFrame(data), delivered, before, after, moved, on)
    case Typing(from) =>
      if from == conn then after == before && moved && on
      else WrittenIf(TypingFrame(from), delivered, before, after, moved, on)
    case PeerJoined(from, publicKey, pqPublicKey, sig) =>
      if from == conn then after == before && moved && on
      else WrittenIf(PeerJoinedFrame(from, publicKey, pqPublicKey, sig), delivered, before, after, moved, on)
    case PeerLeft(from) =>
      if from == conn then after == before && moved && on
      else WrittenIf(PeerLeftFrame(from), delivered, before, after, moved, on)
    case RoomExpired =>
      !on && moved == delivered && after == if delivered then before + [RoomExpiredFrame] else before
  }

  predicate WrittenIf(f: OutgoingMessage, delivered: bool, before: seq<OutgoingMessage>, after: seq<OutgoingMessage>,
                 moved: bool, on: bool) {
    moved == on == delivered && after == if delivered then before + [f] else before
  }

  predicate OnlyOthers(conn: ConnId, events: seq<RoomEvent>) {
    forall e :: e in events ==> !(e.IsTraffic() && e.from == conn)
  }

  // Of the texts read, those admitted have their events published, in order.
  function Forwarded(conn: ConnId, texts: seq<Text>, admitted: seq<bool>): seq<RoomEvent>
    requires |texts| == |admitted|
  {
    if texts == [] then []
    else
      var n := |texts| - 1;
      Forwarded(conn, texts[..n], admitted[..n]) + if admitted[n] then Publishes(conn, texts[n]) else []
  }

  lemma {:induction false} OthersOwnNothing(conn: ConnId, events: seq<RoomEvent>)
    requires OnlyOthers(conn, events)
    ensures Own(conn, events) == []
  {
    if events != [] {
      OthersOwnNothing(conn, events[..|events| - 1]);
      assert events[|events| - 1] in events;
    }
  }

  function TextTimes(texts: seq<Text>): seq<real> {
    seq(|texts|, i requires 0 <= i < |texts| => texts[i].at)
  }

  lemma {:induction false} ForwardedCount(conn: ConnId, texts: seq<Text>, admitted: seq<bool>, lo: nat, hi: nat)
    requires |texts| == |admitted| && lo <= hi <= |texts|
    ensures |Forwarded(conn, texts[..hi], admitted[..hi])| <= |Forwarded(conn, texts[..lo], admitted[..lo])|
            + CountTrue(admitted[lo..hi])
  {
    if lo < hi {
      var n := hi - 1;
      ForwardedCount(conn, texts, admitted, lo, n);
      ForwardedNext(conn, texts, admitted, n);
      CountAppend(admitted[lo..n], admitted[n]);
      assert admitted[lo..hi] == admitted[lo..n] + [admitted[n]];
    }
  }

  lemma ForwardedNext(conn: ConnId, texts: seq<Text>, admitted: seq<bool>, n: nat)
    requires |texts| == |admitted| && n < |texts|
    ensures |Forwarded(conn, texts[..n + 1], admitted[..n + 1])| <=
            |Forwarded(conn, texts[..n], admitted[..n])| + if admitted[n] then 1 else 0
  {
    assert texts[..n + 1][..n] == texts[..n] && admitted[..n + 1][..n] == admitted[..n];
  }

  // What a limiter that starts full at `start` admits of the texts.
  function AdmittedOf(texts: seq<Text>, start: real): (admitted: seq<bool>)
    ensures |admitted| == |texts|
  {
    TokenBucket.Admitted(MessageBudget(), Bucket(MSG_RATE_CAPACITY, start), TextTimes(texts))
  }

  // Whatever the client sends and however fast, in any stretch its session publishes at
  // most sixty events, and thirty for each second the stretch lasts.
  lemma {:induction false} PublishingIsBounded(conn: ConnId, texts: seq<Text>, start: real, lo: nat, hi: nat)
    requires Timely(TextTimes(texts)) && lo < hi <= |texts| && start <= texts[0].at
    ensures var admitted := AdmittedOf(texts, start);
            (|Forwarded(conn, texts[..hi], admitted[..hi])| - |Forwarded(conn, texts[..lo], admitted[..lo])|) as real <=
            60.0 + 30.0 * (texts[hi - 1].at - texts[lo].at)
  {
    MessageWindow(start, TextTimes(texts), lo, hi);
    ForwardedCount(conn, texts, AdmittedOf(texts, start), lo, hi);
  }

  // Which text published the k-th of the events forwarded.
  function SenderOf(conn: ConnId, texts: seq<Text>, admitted: seq<bool>, k: nat): (n: nat)
    requires |texts| == |admitted| && k < |Forwarded(conn, texts, admitted)|
    ensures n < |texts|
  {
    var last := |texts| - 1;
    if k < |Forwarded(conn, texts[..last], admitted[..last])| then SenderOf(conn, texts[..last], admitted[..last], k)
      else last
  }

  // It was admitted and published that event, and exactly k were forwarded before it.
  lemma {:induction false} SenderMeans(conn: ConnId, texts: seq<Text>, admitted: seq<bool>, k: nat)
    requires |texts| == |admitted| && k < |Forwarded(conn, texts, admitted)|
    ensures var n := SenderOf(conn, texts, admitted, k);
            && admitted[n] && Publishes(conn, texts[n]) == [Forwarded(conn, texts, admitted)[k]]
            && |Forwarded(conn, texts[..n], admitted[..n])| == k
            && |Forwarded(conn, texts[..n + 1], admitted[..n + 1])| == k + 1
  {
    var last := |texts| - 1;
    if k < |Forwarded(conn, texts[..last], admitted[..last])| {
      SenderMeans(conn, texts[..last], admitted[..last], k);
      var n := SenderOf(conn, texts, admitted, k);
      assert texts[..last][..n] == texts[..n] && admitted[..last][..n] == admitted[..n];
      assert texts[..last][..n + 1] == texts[..n + 1] && admitted[..last][..n + 1] == admitted[..n + 1];
    } else {
      assert texts[..last + 1] == texts && admitted[..last + 1] == admitted;
    }
  }

  lemma {:induction false} ForwardedGrows(conn: ConnId, texts: seq<Text>, admitted: seq<bool>, lo: nat, hi: nat)
    requires |texts| == |admitted| && lo <= hi <= |texts|
    ensures |Forwarded(conn, texts[..lo], admitted[..lo])| <= |Forwarded(conn, texts[..hi], admitted[..hi])|
  {
    if lo < hi {
      ForwardedGrows(conn, texts, admitted, lo, hi - 1);
      assert texts[..hi][..hi - 1] == texts[..hi - 1] && admitted[..hi][..hi - 1] == admitted[..hi - 1];
    }
  }

  lemma {:induction false} SendersInOrder(conn: ConnId, texts: seq<Text>, admitted: seq<bool>, lo: nat, hi: nat)
    requires |texts| == |admitted| && lo < hi <= |Forwarded(conn, texts, admitted)|
    ensures var first, last := SenderOf(conn, texts, admitted, lo), SenderOf(conn, texts, admitted, hi - 1);
            && first <= last
            && |Forwarded(conn, texts[..first], admitted[..first])| == lo
            && |Forwarded(conn, texts[..last + 1], admitted[..last + 1])| == hi
  {
    var first, last := SenderOf(conn, texts, admitted, lo), SenderOf(conn, texts, admitted, hi - 1);
    SenderMeans(conn, texts, admitted, lo);
    SenderMeans(conn, texts, admitted, hi - 1);
    if last < first {
      ForwardedGrows(conn, texts, admitted, last + 1, first);
    }
  }

  // Any stretch of what was forwarded is bounded by the time from the text that published
  // its first to the text that published its last.
  lemma {:induction false} StretchIsBounded(conn: ConnId, texts: seq<Text>, start: real, lo: nat, hi: nat)
    requires texts != [] && Timely(TextTimes(texts)) && start <= texts[0].at
    requires lo < hi <= |Forwarded(conn, texts, AdmittedOf(texts, start))|
    ensures var admitted := AdmittedOf(texts, start);
            var first, last := SenderOf(conn, texts, admitted, lo), SenderOf(conn, texts, admitted, hi - 1);
            first <= last && (hi - lo) as real <= 60.0 + 30.0 * (texts[last].at - texts[first].at)
  {
    var admitted := AdmittedOf(texts, start);
    SendersInOrder(conn, texts, admitted, lo, hi);
    PublishingIsBounded(conn, texts, start, SenderOf(conn, texts, admitted, lo), SenderOf(conn, texts, admitted, hi - 1)
        + 1);
  }

  lemma TextTimesAppend(texts: seq<Text>, text: Text)
    ensures TextTimes(texts + [text]) == TextTimes(texts) + [text.at]
  {
  }

  // What a session had published before, and since then what its limiter admitted.
  predicate Accounted(conn: ConnId, own: seq<RoomEvent>, found: seq<RoomEvent>, texts: seq<Text>, admitted: seq<bool>) {
    |texts| == |admitted| && own == found + Forwarded(conn, texts, admitted)
  }

  lemma AccountedNext(conn: ConnId, own: seq<RoomEvent>, found: seq<RoomEvent>, texts: seq<Text>, admitted: seq<bool>,
                      text: Text, ok: bool)
    requires Accounted(conn, own, found, texts, admitted)
    ensures Accounted(conn, own + if ok then Publishes(conn, text) else [], found, texts + [text], admitted + [ok])
  {
    assert (texts + [text])[..|texts|] == texts && (admitted + [ok])[..|texts|] == admitted;
    Regroup(found, Forwarded(conn, texts, admitted), if ok then Publishes(conn, text) else []);
  }

  // The frames for the stretch of a log from one position to another.
  function SliceFrames(conn: ConnId, log: seq<RoomEvent>, from: nat, to: nat): seq<OutgoingMessage>
    requires from <= to <= |log|
  {
    RelayFrames(conn, log[from..to])
  }

  lemma SliceGrows(conn: ConnId, log: seq<RoomEvent>, from: nat, to: nat, more: seq<RoomEvent>)
    requires from <= to <= |log|
    ensures SliceFrames(conn, log + more, from, to) == SliceFrames(conn, log, from, to)
  {
    assert (log + more)[from..to] == log[from..to];
  }

  lemma SliceNext(conn: ConnId, log: seq<RoomEvent>, from: nat, to: nat, opening: seq<OutgoingMessage>)
    requires from <= to < |log|
    ensures opening + SliceFrames(conn, log, from, to + 1) ==
            (opening + SliceFrames(conn, log, from, to)) + Emit(conn, log[to])
  {
    RelayNext(conn, log, from, to);
  }

  // The part of a log that is not the session's own traffic.
  function Heard(conn: ConnId, log: seq<RoomEvent>): seq<RoomEvent> {
    if log == [] then []
    else
      var prior, e := log[..|log| - 1], log[|log| - 1];
      Heard(conn, prior) + if e.IsTraffic() && e.from == conn then [] else [e]
  }

  lemma HeardAppend(conn: ConnId, log: seq<RoomEvent>, e: RoomEvent)
    ensures Heard(conn, log + [e]) == Heard(conn, log) + if e.IsTraffic() && e.from == conn then [] else [e]
  {
    assert (log + [e])[..|log|] == log;
  }

  lemma OwnIsNotHeard(conn: ConnId, log: seq<RoomEvent>, text: Text)
    ensures Heard(conn, log + Publishes(conn, text)) == Heard(conn, log)
  {
    if text.frame.Some? && EventOf(conn, text.frame.value).Some? {
      HeardAppend(conn, log, EventOf(conn, text.frame.value).value);
    } else {
      assert log + [] == log;
    }
  }

  lemma {:induction false} OthersAreHeard(conn: ConnId, log: seq<RoomEvent>, events: seq<RoomEvent>)
    requires OnlyOthers(conn, events)
    ensures Heard(conn, log + events) == Heard(conn, log) + events
  {
    if events == [] {
      assert log + events == log;
    } else {
      var n := |events| - 1;
      OthersAreHeard(conn, log, events[..n]);
      TakeNext(events, n);
      assert events[..n + 1] == events && events[n] in events;
      Regroup(log, events[..n], [events[n]]);
      HeardAppend(conn, log + events[..n], events[n]);
    }
  }

  // ---------- The loop as a function of its turns ----------

  // What the loop works on: the session record, the room's log and the socket's bucket.
  datatype LoopState = LoopState(s: Sessions.Session, log: seq<RoomEvent>, bucket: Bucket)

  // What is received depends on nothing else of a session.
  lemma AlikeReceiveAlike(s: Sessions.Session, t: Sessions.Session, conn: ConnId, log: seq<RoomEvent>, capacity: nat,
                          delivered: bool)
    requires s.phase.Relaying? && t.phase.Relaying? && s.frames == t.frames && s.cursor == t.cursor < |log|
    ensures var s', t' := ReceiveOne(s, conn, log, capacity, delivered), ReceiveOne(t, conn, log, capacity, delivered);
            s'.frames == t'.frames && s'.cursor == t'.cursor && (s'.phase.Relaying? <==> t'.phase.Relaying?)
  {
  }

  // A turn that finds an event waiting takes it; a text is answered as the bucket has it.
  function Turned(conn: ConnId, rate: Rate, capacity: nat, at: LoopState, turn: Turn): LoopState {
    match turn
    case Elsewhere(e) => at.(log := at.log + [e])
    case Receive(delivered, meanwhile) =>
      var s' := if at.s.cursor < |at.log| then ReceiveOne(at.s, conn, at.log, capacity, delivered) else at.s;
      at.(s := s', log := at.log + meanwhile)
    case Read(text) =>
      var (bucket, ok) := Request(rate, at.bucket, text.at);
      at.(log := at.log + text.meanwhile + (if ok then Publishes(conn, text) else []), bucket := bucket)
    case Quiet => at
    case Hangup => at.(s := at.s.Enter(Leaving))
  }

  // Turn by turn, for as long as the session relays.
  function AfterTurns(conn: ConnId, rate: Rate, capacity: nat, start: LoopState, turns: seq<Turn>): LoopState {
    if turns == [] then start
    else
      var prior := AfterTurns(conn, rate, capacity, start, turns[..|turns| - 1]);
      if prior.s.phase.Relaying? then Turned(conn, rate, capacity, prior, turns[|turns| - 1]) else prior
  }

  lemma AfterOneMore(conn: ConnId, rate: Rate, capacity: nat, start: LoopState, turns: seq<Turn>, n: nat)
    requires n < |turns|
    ensures var prior := AfterTurns(conn, rate, capacity, start, turns[..n]);
            AfterTurns(conn, rate, capacity, start, turns[..n + 1]) ==
            if prior.s.phase.Relaying? then Turned(conn, rate, capacity, prior, turns[n]) else prior
  {
    assert turns[..n + 1][..n] == turns[..n];
  }

  // Once it has stopped, no later turn matters.
  lemma {:induction false} StoppedStays(conn: ConnId, rate: Rate, capacity: nat, start: LoopState, turns: seq<Turn>,
                                        n: nat)
    requires n <= |turns|
    requires n < |turns| ==> !AfterTurns(conn, rate, capacity, start, turns[..n]).s.phase.Relaying?
    ensures AfterTurns(conn, rate, capacity, start, turns) == AfterTurns(conn, rate, capacity, start, turns[..n])
  {
    if n == |turns| {
      assert turns[..n] == turns;
    } else {
      var last := |turns| - 1;
      assert turns[..last][..n] == turns[..n];
      StoppedStays(conn, rate, capacity, start, turns[..last], n);
      AfterOneMore(conn, rate, capacity, start, turns, last);
      assert turns[..last + 1] == turns;
    }
  }

  function ReadBy(turn: Turn): seq<Text> {
    if turn.Read? then [turn.text] else []
  }

  function OtherBy(turn: Turn): seq<RoomEvent> {
    match turn
    case Elsewhere(e) => [e]
    case Receive(_, meanwhile) => meanwhile
    case Read(text) => text.meanwhile
    case _ => []
  }

  // How many turns the receive arm is given.
  function Receives(turns: seq<Turn>): nat {
    if turns == [] then 0 else Receives(turns[..|turns| - 1]) + if turns[|turns| - 1].Receive? then 1 else 0
  }

  lemma ReceivesNext(turns: seq<Turn>, n: nat)
    requires n < |turns|
    ensures Receives(turns[..n + 1]) == Receives(turns[..n]) + if turns[n].Receive? then 1 else 0
  {
    assert turns[..n + 1][..n] == turns[..n];
  }

  // A turn that ended the loop: the client hung up; or the receiver had fallen more than a
  // capacity behind; or the write of an event that was due failed; or the room expired and the
  // client was told. The log the turn saw is today's without what others sent meanwhile.
  predicate EndedBy(conn: ConnId, capacity: nat, turn: Turn, today: seq<RoomEvent>, cursor: nat,
                    frames: seq<OutgoingMessage>) {
    || turn.Hangup?
    || (&& turn.Receive? && |turn.meanwhile| <= |today|
        && var log := today[..|today| - |turn.meanwhile|];
           || cursor + capacity < |log|
           || (!turn.delivered && cursor < |log| && !OwnOrForOthers(conn, log[cursor]))
           || (&& turn.delivered && 0 < cursor <= |log| && log[cursor - 1].RoomExpired?
               && frames != [] && frames[|frames| - 1] == RoomExpiredFrame))
  }

  // Only a receive turn moves the session on, by one event at most, and if one is waiting it
  // does so or ends the session.
  predicate MovedBy(turn: Turn, at: nat, waiting: nat, cursor: nat, on: bool) {
    && at <= cursor <= at + (if turn.Receive? then 1 else 0)
    && (turn.Receive? && at < waiting && on ==> cursor == at + 1)
  }

  // What the receive arm does to the session it ends or moves on.
  predicate Taken(conn: ConnId, capacity: nat, delivered: bool, log: seq<RoomEvent>, before: seq<OutgoingMessage>,
                  at: nat, frames: seq<OutgoingMessage>, cursor: nat, on: bool)
    requires at < |log|
  {
    && (cursor == at || cursor == at + 1)
    && if at + capacity < |log| then frames == before && cursor == at && !on
       else Dealt(conn, log[at], delivered, before, frames, cursor == at + 1, on)
  }

  lemma TakenEnds(conn: ConnId, capacity: nat, delivered: bool, meanwhile: seq<RoomEvent>, log: seq<RoomEvent>,
                  before: seq<OutgoingMessage>, at: nat, frames: seq<OutgoingMessage>, cursor: nat, on: bool)
    requires at < |log| && Taken(conn, capacity, delivered, log, before, at, frames, cursor, on)
    ensures on || EndedBy(conn, capacity, Receive(delivered, meanwhile), log + meanwhile, cursor, frames)
    ensures MovedBy(Receive(delivered, meanwhile), at, |log|, cursor, on)
  {
    assert (log + meanwhile)[..|log + meanwhile| - |meanwhile|] == log;
  }

  // How far the receive arm has come in its turns: as far as they can bring it.
  predicate CameOn(turns: seq<Turn>, at: nat, waiting: nat, cursor: nat, on: bool) {
    && at <= cursor <= at + Receives(turns)
    && (on ==> cursor >= if at + Receives(turns) < waiting then at + Receives(turns) else waiting)
  }

  lemma CameOnNext(turns: seq<Turn>, n: nat, at: nat, waiting: nat, cursor: nat, waiting': nat, cursor': nat, on: bool)
    requires n < |turns| && CameOn(turns[..n], at, waiting, cursor, true)
    requires waiting <= waiting' && MovedBy(turns[n], cursor, waiting', cursor', on)
    ensures CameOn(turns[..n + 1], at, waiting, cursor', on)
  {
    ReceivesNext(turns, n);
  }

  // Once hung up, it is over.
  predicate HungUp(turns: seq<Turn>) {
    exists i: nat :: i < |turns| && turns[i].Hangup?
  }

  lemma HungUpNext(turns: seq<Turn>, n: nat)
    requires n < |turns|
    ensures HungUp(turns[..n + 1]) <==> HungUp(turns[..n]) || turns[n].Hangup?
  {
    if HungUp(turns[..n]) {
      var i: nat :| i < n && turns[..n][i].Hangup?;
      assert turns[..n + 1][i].Hangup?;
    }
    assert turns[..n + 1][n] == turns[n];
    if HungUp(turns[..n + 1]) && !turns[n].Hangup? {
      var i: nat :| i < n + 1 && turns[..n + 1][i].Hangup?;
      assert turns[..n][i].Hangup?;
    }
  }

  function Reads(turns: seq<Turn>): seq<Text> {
    if turns == [] then [] else Reads(turns[..|turns| - 1]) + ReadBy(turns[|turns| - 1])
  }

  function Others(turns: seq<Turn>): seq<RoomEvent> {
    if turns == [] then [] else Others(turns[..|turns| - 1]) + OtherBy(turns[|turns| - 1])
  }

  lemma ReadsNext(turns: seq<Turn>, n: nat, texts: seq<Text>, heard: seq<RoomEvent>)
    requires n < |turns|
    ensures texts + Reads(turns[..n + 1]) == (texts + Reads(turns[..n])) + ReadBy(turns[n])
    ensures heard + Others(turns[..n + 1]) == (heard + Others(turns[..n])) + OtherBy(turns[n])
  {
    assert turns[..n + 1][..n] == turns[..n];
    Regroup(texts, Reads(turns[..n]), ReadBy(turns[n]));
    Regroup(heard, Others(turns[..n]), OtherBy(turns[n]));
  }

  // What the socket yields while the session waits for keys; the input ends where the
  // stream does or the handshake times out.
  datatype Inbound = Frame(frame: Option<ClientFrame>) | KeepAlive | Gone

  // The first frame that is not keep-alive traffic announces these keys, both valid.
  ghost predicate Announces(cfg: Config, input: seq<Inbound>, k: nat, keys: Participant) {
    && k < |input| && (forall i :: 0 <= i < k ==> input[i].KeepAlive?)
    && input[k] == Frame(Some(KeyAnnounce(Some(keys.publicKey), Some(keys.pqPublicKey), keys.sig)))
    && ValidKeys(cfg, keys)
  }

  // The handshake succeeds exactly when the client's first word is a valid announcement,
  // and yields the keys announced.
  method ReadKeys(cfg: Config, input: seq<Inbound>) returns (keys: Option<Participant>)
    ensures keys.Some? ==> exists k: nat :: Announces(cfg, input, k, keys.value)
    ensures forall k: nat, p :: Announces(cfg, input, k, p) ==> keys == Some(p)
  {
    var i := 0;
    while i < |input| && input[i].KeepAlive?
      invariant i <= |input| && forall j :: 0 <= j < i ==> input[j].KeepAlive?
    {
      i := i + 1;
    }
    forall k: nat, p | Announces(cfg, input, k, p) ensures k == i {
      assert !input[k].KeepAlive?;
    }
    if i == |input| || !input[i].Frame? || input[i].frame.None? || !input[i].frame.value.KeyAnnounce? {
      return None;
    }
    var announced := input[i].frame.value;
    keys := AcceptKeys(cfg, announced.publicKey, announced.pqPublicKey, announced.sig);
    if keys.Some? {
      assert Announces(cfg, input, i, keys.value);
    }
  }

  // One PeerKey for each member of the snapshot, up to the first that cannot be written; a
  // client that gets them all holds the roster listed.
  method SendPeerKeys(frames: seq<OutgoingMessage>, peers: seq<(ConnId, Participant)>, delivered: seq<bool>)
    returns (n: nat, written: seq<OutgoingMessage>)
    requires |delivered| == |peers|
    ensures n <= |peers| && written == frames + KeyFrames(peers[..n])
    ensures (forall i :: 0 <= i < n ==> delivered[i]) && (n < |peers| ==> !delivered[n])
    ensures forall roster: Roster :: n == |peers| && Lists(peers, roster) && ClientRoster(frames) == map[] ==>
            ClientRoster(written) == roster
  {
    n, written := 0, frames;
    while n < |peers| && delivered[n]
      invariant n <= |peers| && written == frames + KeyFrames(peers[..n])
      invariant forall i :: 0 <= i < n ==> delivered[i]
    {
      KeyFramesNext(peers, n);
      written := written + [KeyFrame(peers[n])];
      n := n + 1;
    }
    if n == |peers| {
      SnapshotTeaches(frames, peers);
      assert peers[..n] == peers;
    }
  }

  lemma SnapshotTeaches(frames: seq<OutgoingMessage>, peers: seq<(ConnId, Participant)>)
    ensures forall roster: Roster :: Lists(peers, roster) && ClientRoster(frames) == map[] ==>
            ClientRoster(frames + KeyFrames(peers)) == roster
  {
    forall roster: Roster | Lists(peers, roster) && ClientRoster(frames) == map[]
      ensures ClientRoster(frames + KeyFrames(peers)) == roster
    {
      SeedingTeaches(frames, peers);
      ListingIsRoster(peers, roster);
    }
  }

  class Session {
    const conn: ConnId
    const room: RoomId
    const tx: Channel
    const rx: Receiver
    const limiter: RateLimiter
    const db: Table
    var frames: seq<OutgoingMessage>
    var relaying: bool
    ghost const opening: seq<OutgoingMessage>   // written before the relay loop
    ghost const start: nat                      // where it subscribed
    ghost const found: seq<RoomEvent>           // what it had published before
    ghost var cursor: nat                       // the first event not dealt with
    ghost var texts: seq<Text>
    ghost var trail: seq<Effect>

    // Frames are exactly those of a contiguous slice of the log.
    ghost predicate Delivers()
      reads this, tx
    {
      start <= cursor <= |tx.log| && frames == opening + SliceFrames(conn, tx.log, start, cursor)
    }

    // What the session put on the log is exactly what its limiter admitted.
    ghost predicate Forwards()
      reads this, tx, limiter
    {
      limiter.times == TextTimes(texts) && Accounted(conn, Own(conn, tx.log), found, texts, limiter.Answers())
    }

    ghost predicate Valid()
      reads this, tx, rx, limiter
    {
      tx.Valid() && limiter.Valid() && rx.channel == tx && (relaying ==> rx.next == cursor) && Delivers() && Forwards()
    }

    // The session as a record, and all the loop works on.
    ghost function Record(): Sessions.Session
      reads this
    {
      Fresh(room, "", None).(phase := if relaying then Relaying else Leaving, frames := frames, cursor := cursor)
    }

    ghost function State(): LoopState
      reads this, tx, limiter
    {
      LoopState(Record(), tx.log, limiter.Held())
    }

    ghost function Next(at: LoopState, turn: Turn): LoopState {
      Turned(conn, limiter.Budget(), tx.capacity, at, turn)
    }

    constructor (conn: ConnId, room: RoomId, tx: Channel, rx: Receiver, db: Table, frames: seq<OutgoingMessage>,
                 now: real)
      requires tx.Valid() && rx.channel == tx && rx.next <= |tx.log|
      ensures Valid() && fresh(limiter) && relaying
      ensures this.conn == conn && this.room == room && this.tx == tx && this.rx == rx && this.db == db
      ensures opening == frames == this.frames && start == cursor == rx.next && found == Own(conn, tx.log)
              && texts == []
      ensures trail == []
      ensures limiter.Budget() == MessageBudget() && limiter.origin == Bucket(MSG_RATE_CAPACITY, now)
    {
      this.conn, this.room, this.tx, this.rx, this.db := conn, room, tx, rx, db;
      this.frames, this.opening, this.relaying := frames, frames, true;
      this.limiter := new RateLimiter(MSG_RATE_CAPACITY, MSG_RATE_REFILL_PER_SEC, now);
      this.start, this.cursor, this.found, this.texts, this.trail := rx.next, rx.next, Own(conn, tx.log), [], [];
      new;
      assert SliceFrames(conn, tx.log, start, cursor) == [];
    }

    // Other sessions' events land on the channel.
    method Hear(events: seq<RoomEvent>)
      requires tx.Valid() && Delivers() && OnlyOthers(conn, events)
      modifies tx
      ensures tx.Valid() && Delivers() && tx.log == old(tx.log) + events && Own(conn, tx.log) == Own(conn, old(tx.log))
    {
      OwnConcat(conn, tx.log, events);
      OthersOwnNothing(conn, events);
      SliceGrows(conn, tx.log, start, cursor, events);
      SendAll(events);
    }

    method SendAll(events: seq<RoomEvent>)
      requires tx.Valid()
      modifies tx
      ensures tx.Valid() && tx.log == old(tx.log) + events
    {
      for i := 0 to |events|
        invariant tx.Valid() && tx.log == old(tx.log) + events[..i]
      {
        TakeNext(events, i);
        tx.Send(events[i]);
      }
    }

    // The receive arm: the relay step of the session record, taken on the real ring.
    method Take(delivered: bool, meanwhile: seq<RoomEvent>)
      requires Valid() && relaying && cursor < |tx.log| && OnlyOthers(conn, meanwhile)
      modifies this`frames, this`relaying, this`cursor, rx, tx
      ensures Valid() && tx.log == old(tx.log) + meanwhile
      ensures Record() == ReceiveOne(old(Record()), conn, old(tx.log), tx.capacity, delivered)
      ensures forall s: Sessions.Session :: s.phase.Relaying? && s.frames == old(frames) && s.cursor == old(cursor) ==>
                var s' := ReceiveOne(s, conn, old(tx.log), tx.capacity, delivered);
                s'.frames == frames && s'.cursor == cursor && (s'.phase.Relaying? <==> relaying)
      ensures Taken(conn, tx.capacity, delivered, old(tx.log), old(frames), old(cursor), frames, cursor, relaying)
    {
      ghost var before, log := Record(), tx.log;
      var received := rx.Recv();
      Hear(meanwhile);
      if received.Event? {
        Handle(received.event, delivered);
      } else {
        relaying := false;
      }
      forall s: Sessions.Session | s.phase.Relaying? && s.frames == before.frames && s.cursor == before.cursor
        ensures var s' := ReceiveOne(s, conn, log, tx.capacity, delivered);
                s'.frames == frames && s'.cursor == cursor && (s'.phase.Relaying? <==> relaying)
      {
        AlikeReceiveAlike(s, before, conn, log, tx.capacity, delivered);
      }
    }

    method Handle(e: RoomEvent, delivered: bool)
      requires Delivers() && relaying && cursor < |tx.log| && e == tx.log[cursor]
      modifies this`frames, this`relaying, this`cursor
      ensures Delivers()
      ensures frames == if delivered then old(frames) + Emit(conn, e) else old(frames)
      ensures cursor == if delivered || !Concerns(conn, e) then old(cursor) + 1 else old(cursor)
      ensures relaying <==> !Concerns(conn, e) || (delivered && !e.RoomExpired?)
      ensures Dealt(conn, e, delivered, old(frames), frames, cursor == old(cursor) + 1, relaying)
      ensures cursor == old(cursor) || cursor == old(cursor) + 1
    {
      SliceNext(conn, tx.log, start, cursor, opening);
      if e.Sender() == Some(conn) || (e.Target().Some? && e.Target() != Some(conn)) {
        cursor := cursor + 1;
      } else if !delivered {
        relaying := false;
      } else {
        frames := frames + [FromEvent(e)];
        cursor := cursor + 1;
        relaying := !e.RoomExpired?;
      }
    }

    // The text arm: what the limiter admits and the client completed is published, a chat
    // after its room has been refreshed.
    method Say(text: Text) returns (ok: bool)
      requires Valid() && OnlyOthers(conn, text.meanwhile)
      modifies this`texts, this`trail, tx, limiter, db
      ensures Valid() && texts == old(texts) + [text] && limiter.times == old(limiter.times) + [text.at]
      ensures limiter.Answers() == old(limiter.Answers()) + [ok]
      ensures (limiter.Held(), ok) == Request(limiter.Budget(), old(limiter.Held()), text.at)
      ensures tx.log == old(tx.log) + text.meanwhile + if ok then Publishes(conn, text) else []
      ensures trail == old(trail) + if ok then Effects(conn, text) else []
      ensures if ok && text.frame.Some? then Adds(conn, text.frame.value, old(tx.log) + text.meanwhile, tx.log)
              else tx.log == old(tx.log) + text.meanwhile
      ensures if ok && text.frame.Some? then Does(conn, text, old(trail), trail) else trail == old(trail)
      ensures db.rows ==
              if ok && text.up && text.frame.Some? && text.frame.value.Message? && text.frame.value.payload.Some?
              then Touch(old(db.rows), room, text.now) else old(db.rows)
    {
      ghost var own, answers := Own(conn, tx.log), limiter.Answers();
      TextTimesAppend(texts, text);
      ok := limiter.Check(text.at);
      AccountedNext(conn, own, found, texts, answers, text, ok);
      Answer(text, ok);
      texts := texts + [text];
      if text.frame.Some? {
        PublishesAdds(conn, text, old(tx.log) + text.meanwhile, old(trail));
      }
      assert Delivers();
      assert Forwards();
    }

    method Answer(text: Text, ok: bool)
      requires tx.Valid() && Delivers() && OnlyOthers(conn, text.meanwhile)
      modifies this`trail, tx, db
      ensures tx.Valid() && Delivers()
      ensures var said := if ok then Publishes(conn, text) else [];
              tx.log == old(tx.log) + text.meanwhile + said && Own(conn, tx.log) == Own(conn, old(tx.log)) + said
      ensures trail == old(trail) + if ok then Effects(conn, text) else []
      ensures db.rows == if ok && text.up && text.frame.Some? && IsChat(text.frame.value)
                         then Touch(old(db.rows), room, text.now) else old(db.rows)
    {
      if ok && text.frame.Some? {
        Act(text);
      } else {
        Hear(text.meanwhile);
      }
    }

    method Act(text: Text)
      requires tx.Valid() && Delivers() && OnlyOthers(conn, text.meanwhile) && text.frame.Some?
      modifies this`trail, tx, db
      ensures tx.Valid() && Delivers()
      ensures var said := Publishes(conn, text);
              tx.log == old(tx.log) + text.meanwhile + said && Own(conn, tx.log) == Own(conn, old(tx.log)) + said
      ensures trail == old(trail) + Effects(conn, text)
      ensures Adds(conn, text.frame.value, old(tx.log) + text.meanwhile, tx.log) && Does(conn, text, old(trail), trail)
      ensures db.rows == if text.up && text.frame.value.Message? && text.frame.value.payload.Some?
                         then Touch(old(db.rows), room, text.now) else old(db.rows)
    {
      RefreshFor(text.frame.value, text.now, text.up);
      Hear(text.meanwhile);
      assert Own(conn, tx.log) == Own(conn, old(tx.log));
      PublishFrame(text.frame.value);
      EffectsAre(conn, text, old(trail));
      PublishesAdds(conn, text, old(tx.log) + text.meanwhile, old(trail));
    }

    method RefreshFor(frame: ClientFrame, now: int, up: bool)
      modifies this`trail, db
      ensures trail == old(trail) + if IsChat(frame) then [Refreshed(now, up)] else []
      ensures db.rows == if up && IsChat(frame) then Touch(old(db.rows), room, now) else old(db.rows)
    {
      if frame.Message? && frame.payload.Some? {
        Refresh(now, up);
      }
    }

    method PublishFrame(frame: ClientFrame)
      requires tx.Valid() && Delivers()
      modifies this`trail, tx
      ensures tx.Valid() && Delivers()
      ensures var said := Said(EventOf(conn, frame));
              tx.log == old(tx.log) + said && Own(conn, tx.log) == Own(conn, old(tx.log)) + said
      ensures trail == old(trail) + if EventOf(conn, frame).Some? then [Published(EventOf(conn, frame).value)] else []
    {
      match frame {
        case Message(Some(payload), epoch, counter) => Publish(Chat(conn, payload, epoch, counter));
        case TreeCommitText(Some(data)) => Publish(TreeCommit(conn, data));
        case TreeWelcomeText(Some(data), Some(target)) => Publish(TreeWelcome(conn, target, data));
        case TypingText => Publish(Typing(conn));
        case _ =>
      }
    }

    method Refresh(now: int, up: bool)
      modifies this`trail, db
      ensures trail == old(trail) + [Refreshed(now, up)]
      ensures db.rows == if up then Touch(old(db.rows), room, now) else old(db.rows)
    {
      db.UpdateActivity(room, now, up);
      trail := trail + [Refreshed(now, up)];
    }

    method Publish(e: RoomEvent)
      requires tx.Valid() && Delivers() && e.IsTraffic() && e.from == conn
      modifies this`trail, tx
      ensures tx.Valid() && Delivers() && tx.log == old(tx.log) + [e]
              && Own(conn, tx.log) == Own(conn, old(tx.log)) + [e]
      ensures trail == old(trail) + [Published(e)]
    {
      OwnAppend(conn, tx.log, e);
      SliceGrows(conn, tx.log, start, cursor, [e]);
      tx.Send(e);
      trail := trail + [Published(e)];
    }

    // How far the loop has come: the fold of the turns taken, the texts they read, and what
    // others sent in them.
    ghost predicate Came(turns: seq<Turn>, n: nat, start: LoopState, read: seq<Text>, heard: seq<RoomEvent>)
      reads this, tx, limiter
      requires n <= |turns|
    {
      && State() == AfterTurns(conn, limiter.Budget(), tx.capacity, start, turns[..n])
      && texts == read + Reads(turns[..n])
      && Heard(conn, tx.log) == heard + Others(turns[..n])
    }

    // The loop, for as long as the script and the session last: what it makes of its turns is
    // what the fold of the single turns makes of them.
    method Relay(turns: seq<Turn>) returns (n: nat)
      requires Valid() && relaying
      requires forall i :: 0 <= i < |turns| ==> OnlyOthers(conn, OtherBy(turns[i]))
      modifies this`frames, this`relaying, this`cursor, this`texts, this`trail, tx, rx, limiter, db
      ensures Valid() && n <= |turns| && (n < |turns| ==> !relaying)
      ensures State() == AfterTurns(conn, limiter.Budget(), tx.capacity, old(State()), turns)
      ensures texts == old(texts) + Reads(turns[..n])
      ensures Heard(conn, tx.log) == Heard(conn, old(tx.log)) + Others(turns[..n])
      ensures HungUp(turns) ==> !relaying
      ensures !relaying ==> n > 0 && EndedBy(conn, tx.capacity, turns[n - 1], tx.log, cursor, frames)
      ensures CameOn(turns[..n], old(cursor), |old(tx.log)|, cursor, relaying)
    {
      ghost var start, read, heard, at, waiting := State(), texts, Heard(conn, tx.log), cursor, |tx.log|;
      assert read + Reads(turns[..0]) == read && heard + Others(turns[..0]) == heard;
      n := 0;
      while n < |turns| && relaying
        invariant n <= |turns| && Valid() && Came(turns, n, start, read, heard) && Went(turns, n, at, waiting)
      {
        TakeNextTurn(turns, n, start, read, heard, at, waiting);
        n := n + 1;
      }
      assert turns[..|turns|] == turns;
      StoppedStays(conn, limiter.Budget(), tx.capacity, start, turns, n);
    }

    // Whether it has ended and how, and how far the receive arm has come.
    ghost predicate Went(turns: seq<Turn>, n: nat, at: nat, waiting: nat)
      reads this, tx
      requires n <= |turns|
    {
      && waiting <= |tx.log| && (HungUp(turns[..n]) ==> !relaying)
      && (!relaying ==> n > 0 && EndedBy(conn, tx.capacity, turns[n - 1], tx.log, cursor, frames))
      && CameOn(turns[..n], at, waiting, cursor, relaying)
    }

    method TakeNextTurn(turns: seq<Turn>, n: nat, ghost start: LoopState, ghost read: seq<Text>,
                        ghost heard: seq<RoomEvent>, ghost at: nat, ghost waiting: nat)
      requires Valid() && relaying && n < |turns| && OnlyOthers(conn, OtherBy(turns[n]))
      requires Came(turns, n, start, read, heard) && Went(turns, n, at, waiting)
      modifies this`frames, this`relaying, this`cursor, this`texts, this`trail, tx, rx, limiter, db
      ensures Valid() && Came(turns, n + 1, start, read, heard) && Went(turns, n + 1, at, waiting)
    {
      ghost var cursorBefore, logBefore := cursor, tx.log;
      ReadsNext(turns, n, read, heard);
      AfterOneMore(conn, limiter.Budget(), tx.capacity, start, turns, n);
      TakeTurn(turns[n]);
      HungUpNext(turns, n);
      CameOnNext(turns, n, at, waiting, cursorBefore, |logBefore|, cursor, relaying);
    }

    method SayOnly(text: Text)
      requires Valid() && OnlyOthers(conn, text.meanwhile)
      modifies this`texts, this`trail, tx, limiter, db
      ensures Valid() && texts == old(texts) + [text] && State() == Next(old(State()), Read(text))
      ensures Heard(conn, tx.log) == Heard(conn, old(tx.log)) + text.meanwhile
    {
      OthersAreHeard(conn, tx.log, text.meanwhile);
      OwnIsNotHeard(conn, tx.log + text.meanwhile, text);
      ghost var log := tx.log + text.meanwhile;
      var ok := Say(text);
      assert log + [] == log;
    }

    method HearOnly(events: seq<RoomEvent>)
      requires Valid() && OnlyOthers(conn, events)
      modifies tx
      ensures Valid() && tx.log == old(tx.log) + events
      ensures Heard(conn, tx.log) == Heard(conn, old(tx.log)) + events
    {
      OthersAreHeard(conn, tx.log, events);
      Hear(events);
    }

    // The receive arm runs exactly when an event is waiting.
    method TakeOnly(delivered: bool, meanwhile: seq<RoomEvent>)
      requires Valid() && relaying && OnlyOthers(conn, meanwhile)
      modifies this`frames, this`relaying, this`cursor, rx, tx
      ensures Valid() && State() == Next(old(State()), Receive(delivered, meanwhile))
      ensures Heard(conn, tx.log) == Heard(conn, old(tx.log)) + meanwhile
      ensures var turn := Receive(delivered, meanwhile);
              && (relaying || EndedBy(conn, tx.capacity, turn, tx.log, cursor, frames))
              && MovedBy(turn, old(cursor), |old(tx.log)|, cursor, relaying) && |old(tx.log)| <= |tx.log|
      ensures old(cursor) == |old(tx.log)| ==> frames == old(frames) && cursor == old(cursor) && relaying
    {
      if rx.next < tx.tail {
        ghost var log, at, before := tx.log, cursor, frames;
        OthersAreHeard(conn, tx.log, meanwhile);
        Take(delivered, meanwhile);
        TakenEnds(conn, tx.capacity, delivered, meanwhile, log, before, at, frames, cursor, relaying);
      } else {
        HearOnly(meanwhile);
      }
    }

    method TakeTurn(turn: Turn)
      requires Valid() && relaying && OnlyOthers(conn, OtherBy(turn))
      modifies this`frames, this`relaying, this`cursor, this`texts, this`trail, tx, rx, limiter, db
      ensures Valid() && State() == Next(old(State()), turn)
      ensures texts == old(texts) + ReadBy(turn)
      ensures Heard(conn, tx.log) == Heard(conn, old(tx.log)) + OtherBy(turn)
      ensures !turn.Receive? ==> frames == old(frames) && cursor == old(cursor) && (relaying <==> !turn.Hangup?)
      ensures relaying || EndedBy(conn, tx.capacity, turn, tx.log, cursor, frames)
      ensures MovedBy(turn, old(cursor), |old(tx.log)|, cursor, relaying) && |old(tx.log)| <= |tx.log|
    {
      match turn {
        case Elsewhere(e) => HearOnly([e]);
        case Receive(delivered, meanwhile) => TakeOnly(delivered, meanwhile);
        case Read(text) => SayOnly(text);
        case Quiet =>
        case Hangup => HangUp();
      }
    }

    method HangUp()
      requires Valid()
      modifies this`relaying
      ensures !relaying && Valid()
    {
      relaying := false;
    }
  }

  // At every turn of the loop, a client that was taught the roster at the subscription
  // holds the roster as it was at the first event not yet dealt with.
  lemma ClientKeepsUp(session: Session)
    requires session.Valid()
    requires ClientRoster(session.opening) == Replay(session.tx.log[..session.start]).present - {session.conn}
    ensures ClientRoster(session.frames) == Replay(session.tx.log[..session.cursor]).present - {session.conn}
  {
    ClientFollows(session.conn, session.tx.log, session.start, session.cursor, session.opening);
  }

  // When the k-th event the session published in the loop was read from its client.
  ghost function SentAt(session: Session, k: nat): real
    reads session, session.limiter
    requires |session.texts| == |session.limiter.Answers()|
    requires k < |Forwarded(session.conn, session.texts, session.limiter.Answers())|
  {
    session.texts[SenderOf(session.conn, session.texts, session.limiter.Answers(), k)].at
  }

  // In any stretch of the room's log since it entered the loop, a session's own events number
  // at most sixty, and thirty for each second from the first of them to the last.
  lemma OwnTrafficIsBounded(session: Session, start: real, lo: nat, hi: nat)
    requires session.Valid() && session.limiter.Budget() == MessageBudget()
             && session.limiter.origin == Bucket(MSG_RATE_CAPACITY, start)
    requires session.texts != [] && Timely(TextTimes(session.texts)) && start <= session.texts[0].at
    requires lo <= hi <= |session.tx.log| && |session.found| <= |Own(session.conn, session.tx.log[..lo])|
    requires Own(session.conn, session.tx.log[lo..hi]) != []
    ensures var before := |Own(session.conn, session.tx.log[..lo])| - |session.found|;
            var within := |Own(session.conn, session.tx.log[lo..hi])|;
            && before + within <= |Forwarded(session.conn, session.texts, session.limiter.Answers())|
            && within as real <= 60.0 + 30.0 * (SentAt(session, before + within - 1) - SentAt(session, before))
  {
    AccountHolds(session, start);
    var log := session.tx.log;
    OwnIsForwarded(session.conn, log, session.found, session.texts, session.limiter.Answers(), lo, hi);
    var before, within := |Own(session.conn, log[..lo])| - |session.found|, |Own(session.conn, log[lo..hi])|;
    SpanIsBounded(session.conn, session.texts, session.limiter.Answers(), start, before, within);
  }

  lemma AccountHolds(session: Session, start: real)
    requires session.Valid() && session.limiter.Budget() == MessageBudget()
             && session.limiter.origin == Bucket(MSG_RATE_CAPACITY, start)
    ensures session.limiter.Answers() == AdmittedOf(session.texts, start)
    ensures Accounted(session.conn, Own(session.conn, session.tx.log), session.found, session.texts,
                      session.limiter.Answers())
  {
  }

  lemma SpanIsBounded(conn: ConnId, texts: seq<Text>, admitted: seq<bool>, start: real, before: nat, within: nat)
    requires texts != [] && Timely(TextTimes(texts)) && start <= texts[0].at && admitted == AdmittedOf(texts, start)
    requires 0 < within && before + within <= |Forwarded(conn, texts, admitted)|
    ensures within as real <=
            60.0 + 30.0 * (texts[SenderOf(conn, texts, admitted, before + within - 1)].at
                           - texts[SenderOf(conn, texts, admitted, before)].at)
  {
    StretchIsBounded(conn, texts, start, before, before + within);
  }

  lemma OwnIsForwarded(conn: ConnId, log: seq<RoomEvent>, found: seq<RoomEvent>, texts: seq<Text>, admitted: seq<bool>,
                       lo: nat, hi: nat)
    requires Accounted(conn, Own(conn, log), found, texts, admitted) && lo <= hi <= |log|
    ensures |Own(conn, log[..lo])| - |found| + |Own(conn, log[lo..hi])| <= |Forwarded(conn, texts, admitted)|
  {
    OwnStretch(conn, log, lo, hi);
  }

  lemma {:induction false} OwnStretch(conn: ConnId, log: seq<RoomEvent>, lo: nat, hi: nat)
    requires lo <= hi <= |log|
    ensures |Own(conn, log[..lo])| + |Own(conn, log[lo..hi])| <= |Own(conn, log)|
  {
    OwnSplit(conn, log, hi);
    OwnSplit(conn, log[..hi], lo);
    assert log[..hi][..lo] == log[..lo] && log[..hi][lo..] == log[lo..hi];
  }

  lemma {:induction false} OwnSplit(conn: ConnId, log: seq<RoomEvent>, n: nat)
    requires n <= |log|
    ensures Own(conn, log) == Own(conn, log[..n]) + Own(conn, log[n..])
  {
    OwnConcat(conn, log[..n], log[n..]);
    assert log[..n] + log[n..] == log;
  }
}
