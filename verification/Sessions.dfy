/** One WebSocket session: its phases, and the grammar of the frames it may write. */
module Sessions {
  import opened Wrappers
  import opened RoomEvents
  import opened RoomLog
  import opened ServerModel
  import opened PendingPool

  const PROTOCOL_VERSION := 1
  const PROTECTED_PROTOCOL_VERSION := 2
  const MAX_PARTICIPANTS := 16
  const MLDSA65_KEY_BYTES := 1952
  const MLKEM768_KEY_BYTES := 1184

  // What the libraries contribute: the length a base64 text decodes to, if it is valid,
  // and whether a password matches a stored hash; and the ring capacity of a channel.
  datatype Config = Config(decodedLength: string -> Option<nat>, matches: (string, string) -> bool, capacity: nat)

  predicate ValidKeys(cfg: Config, p: Participant) {
    cfg.decodedLength(p.publicKey) == Some(MLDSA65_KEY_BYTES)
        && cfg.decodedLength(p.pqPublicKey) == Some(MLKEM768_KEY_BYTES)
  }

  // The keys a key_announce carries; None when one is missing or invalid.
  function AcceptKeys(cfg: Config, publicKey: Option<string>, pqPublicKey: Option<string>,
                      sig: Option<string>): Option<Participant> {
    if publicKey.None? || cfg.decodedLength(publicKey.value) != Some(MLDSA65_KEY_BYTES) then None
    else if pqPublicKey.Some? && cfg.decodedLength(pqPublicKey.value) == Some(MLKEM768_KEY_BYTES)
    then Some(Participant(publicKey.value, pqPublicKey.value, sig))
    else None
  }

  datatype Phase =
    | AuthStart                        // upgraded; AuthRequired not sent yet
    | AuthWaiting                      // waiting for the password frame
    | AuthVerifying(password: string)  // budget spent, verification under way
    | AuthDenied(failure: OutgoingMessage)  // turned away by the room's budget; not told yet
    | Admitted                         // nothing left to prove; not attached
    | Attached                         // Welcome not sent yet
    | Welcomed                         // waiting for key_announce
    | Keyed                            // keys accepted, waiting for the room lock
    | Joining                          // subscribed, holding the room lock
    | Confirming                       // in the room; Joined frame not sent yet
    | Seeding                          // writing one PeerKey per snapshot member
    | Relaying
    | Leaving                          // out of the session block; detach outstanding
    | Closed
  {
    predicate IsAuthenticating() {
      AuthStart? || AuthWaiting? || AuthVerifying? || AuthDenied?
    }

    predicate IsBeforeAttach() {
      IsAuthenticating() || Admitted?
    }

    // The session block can be left here: by the client, a timeout, or a failed send.
    predicate CanBreak() {
      Attached? || Welcomed? || Confirming? || Seeding? || Relaying?
    }
  }

  datatype Session = Session(
    room: RoomId,
    ip: Ip,
    hash: Option<string>,               // of a protected room, as looked up at the upgrade
    phase: Phase,
    verified: Option<string>,           // the password that passed
    attachment: Option<Attachment>,
    keys: Participant,
    snapshot: seq<(ConnId, Participant)>,
    seeded: nat,                        // PeerKey frames written
    start: nat,                         // position subscribed at
    cursor: nat,                        // next position to receive
    outbox: Option<RoomEvent>,          // a chat whose activity update has been issued
    joined: bool,
    attaches: nat,
    detaches: nat,
    opening: nat,                       // frames written before the first PeerKey
    frames: seq<OutgoingMessage>)
  {
    predicate IsProtected() { hash.Some? }

    function Write(f: OutgoingMessage): Session {
      this.(frames := frames + [f])
    }

    function WriteIf(delivered: bool, f: OutgoingMessage): Session {
      if delivered then Write(f) else this
    }

    function Enter(p: Phase): Session {
      this.(phase := p)
    }
  }

  function Fresh(room: RoomId, ip: Ip, hash: Option<string>): Session {
    Session(room, ip, hash, if hash.Some? then AuthStart else Admitted, None, None, Participant("", "", None),
            [], 0, 0, 0, None, false, 0, 0, 0, [])
  }

  function WelcomeOf(conn: ConnId, s: Session): OutgoingMessage
    requires s.attachment.Some?
  {
    WelcomeFrame(if s.IsProtected() then PROTECTED_PROTOCOL_VERSION else PROTOCOL_VERSION,
                 conn, s.attachment.value.isCreator, s.attachment.value.creatorId)
  }

  // The Joined frame opens a protected session's stay in the room.
  function Confirmed(s: Session): Session {
    var s' := s.Enter(Seeding).Write(JoinedFrame);
    s'.(opening := |s'.frames|)
  }

  // One more PeerKey of the snapshot is written.
  function SeededOne(s: Session): Session
    requires s.seeded < |s.snapshot|
  {
    s.(seeded := s.seeded + 1).Write(KeyFrame(s.snapshot[s.seeded]))
  }

  // The receive arm of the relay loop. A receiver that fell more than a capacity behind,
  // a failed write and the end of the room all end the session.
  function ReceiveOne(s: Session, conn: ConnId, log: seq<RoomEvent>, capacity: nat, delivered: bool): Session
    requires s.cursor < |log|
  {
    var e := log[s.cursor];
    if s.cursor + capacity < |log| then s.Enter(Leaving)
    else if !Concerns(conn, e) then s.(cursor := s.cursor + 1)
    else if !delivered then s.Enter(Leaving)
    else s.(cursor := s.cursor + 1, phase := if e.RoomExpired? then Leaving else Relaying).Write(FromEvent(e))
  }

  // ---------- The grammar of a session's frames ----------

  datatype Place =
    | AtStart | AfterChallenge | AfterWelcome | InKeys | InEvents | AtEnd | OffGrammar

  predicate IsRelayed(f: OutgoingMessage) {
    f.PeerJoinedFrame? || f.PeerLeftFrame? || f.MessageFrame? || f.TreeCommitFrame? || f.TypingFrame?
        || f.TreeWelcomeFrame?
  }

  function RelayPlace(f: OutgoingMessage): Place {
    if IsRelayed(f) then InEvents else if f.RoomExpiredFrame? then AtEnd else OffGrammar
  }

  // AuthRequired opens a protected session, and one failure or Welcome answers it; after
  // Welcome comes RoomFull and the end, or (Joined, if protected) PeerKeys, then relayed
  // events, with RoomExpired last. A challenge that could not be sent may fail directly.
  function Advance(protected: bool, at: Place, f: OutgoingMessage): Place {
    match at
    case AtStart =>
      if protected && f == AuthRequiredFrame(PROTECTED_PROTOCOL_VERSION) then AfterChallenge
      else if protected && f == AuthFailedFrame then AtEnd
      else if !protected && f.WelcomeFrame? && f.protocolVersion == PROTOCOL_VERSION then AfterWelcome
      else if !protected && f == AuthUnavailableFrame then AtEnd
      else OffGrammar
    case AfterChallenge =>
      if f.IsAuthFailure() then AtEnd
      else if f.WelcomeFrame? && f.protocolVersion == PROTECTED_PROTOCOL_VERSION then AfterWelcome
      else OffGrammar
    case AfterWelcome =>
      if f.RoomFullFrame? then AtEnd
      else if protected then (if f.JoinedFrame? then InKeys else OffGrammar)
      else if f.PeerKeyFrame? then InKeys
      else RelayPlace(f)
    case InKeys => if f.PeerKeyFrame? then InKeys else RelayPlace(f)
    case InEvents => RelayPlace(f)
    case AtEnd => OffGrammar
    case OffGrammar => OffGrammar
  }

  function Reading(protected: bool, frames: seq<OutgoingMessage>): Place {
    if frames == [] then AtStart
    else Advance(protected, Reading(protected, frames[..|frames| - 1]), frames[|frames| - 1])
  }

  lemma ReadingAppend(protected: bool, frames: seq<OutgoingMessage>, f: OutgoingMessage)
    ensures Reading(protected, frames + [f]) == Advance(protected, Reading(protected, frames), f)
  {
    assert (frames + [f])[..|frames|] == frames;
  }

  // Where the grammar stands in each phase.
  predicate InPlace(s: Session) {
    var at := Reading(s.IsProtected(), s.frames);
    match s.phase
    case AuthStart => s.IsProtected() && at == AtStart
    case AuthWaiting => s.IsProtected() && at == AfterChallenge
    case AuthVerifying(_) => s.IsProtected() && at == AfterChallenge
    case AuthDenied(failure) => s.IsProtected() && at == AfterChallenge && failure.IsAuthFailure()
    case Admitted => at == if s.IsProtected() then AfterChallenge else AtStart
    case Attached => at == if s.IsProtected() then AfterChallenge else AtStart
    case Welcomed => at == AfterWelcome
    case Keyed => at == AfterWelcome
    case Joining => at == AfterWelcome
    case Confirming => at == AfterWelcome && s.IsProtected()
    case Seeding => at == InKeys || (at == AfterWelcome && !s.IsProtected())
    case Relaying => at == InKeys || at == InEvents || (at == AfterWelcome && !s.IsProtected())
    case Leaving => at != OffGrammar
    case Closed => at != OffGrammar
  }

  // Frames that say nothing of any peer.
  predicate IsSilent(f: OutgoingMessage) {
    f.AuthRequiredFrame? || f.IsAuthFailure() || f.WelcomeFrame? || f.RoomFullFrame? || f.JoinedFrame?
  }

  predicate Silent(frames: seq<OutgoingMessage>) {
    forall f :: f in frames ==> IsSilent(f)
  }

  lemma {:induction false} SilenceTeachesNothing(frames: seq<OutgoingMessage>)
    requires Silent(frames)
    ensures ClientRoster(frames) == map[]
  {
    if frames != [] {
      SilenceTeachesNothing(frames[..|frames| - 1]);
      assert IsSilent(frames[|frames| - 1]);
    }
  }
}
