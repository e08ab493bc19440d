/** The events a room broadcasts and the frames a session writes to its socket. */
module RoomEvents {
  import opened Wrappers

  // Connection and room ids are v4 UUIDs rendered as strings.
  type ConnId = string
  type RoomId = string

  datatype Participant = Participant(publicKey: string, pqPublicKey: string, sig: Option<string>)

  datatype RoomEvent =
    | PeerJoined(from: ConnId, publicKey: string, pqPublicKey: string, sig: Option<string>)
    | Chat(from: ConnId, payload: string, epoch: Option<nat>, counter: Option<nat>)
    | TreeCommit(from: ConnId, treeData: string)
    | TreeWelcome(from: ConnId, target: ConnId, treeData: string)
    | Typing(from: ConnId)
    | PeerLeft(from: ConnId)
    | RoomExpired
  {
    function Sender(): Option<ConnId> {
      match this
      case RoomExpired => None
      case _ => Some(from)
    }

    function Target(): Option<ConnId> {
      match this
      case TreeWelcome(_, target, _) => Some(target)
      case _ => None
    }

    // What a session publishes on its cloned sender, without the room lock.
    predicate IsTraffic() {
      Chat? || TreeCommit? || TreeWelcome? || Typing?
    }

    predicate IsMembership() {
      PeerJoined? || PeerLeft?
    }
  }

  function Announcement(conn: ConnId, p: Participant): RoomEvent {
    PeerJoined(conn, p.publicKey, p.pqPublicKey, p.sig)
  }

  datatype OutgoingMessage =
    | AuthRequiredFrame(protocolVersion: nat)
    | AuthFailedFrame
    | AuthRateLimitedFrame(retryAfterSecs: int)
    | AuthUnavailableFrame
    | JoinedFrame
    | WelcomeFrame(protocolVersion: nat, peerId: ConnId, isCreator: bool, creatorId: Option<ConnId>)
    | PeerKeyFrame(peerId: ConnId, publicKey: string, pqPublicKey: string, sig: Option<string>)
    | PeerJoinedFrame(peerId: ConnId, publicKey: string, pqPublicKey: string, sig: Option<string>)
    | PeerLeftFrame(peerId: ConnId)
    | MessageFrame(peerId: ConnId, payload: string, epoch: Option<nat>, counter: Option<nat>)
    | TreeCommitFrame(peerId: ConnId, treeCommit: string)
    | TypingFrame(peerId: ConnId)
    | RoomExpiredFrame
    | TreeWelcomeFrame(treeWelcome: string)
    | RoomFullFrame
  {
    // Frames a client can only make sense of when it holds the peer's keys.
    predicate NeedsKeys() {
      MessageFrame? || TreeCommitFrame? || TypingFrame?
    }

    predicate IsAuthFailure() {
      AuthFailedFrame? || AuthRateLimitedFrame? || AuthUnavailableFrame?
    }
  }

  function FromEvent(e: RoomEvent): OutgoingMessage {
    match e
    case Chat(from, payload, epoch, counter) => MessageFrame(from, payload, epoch, counter)
    case TreeCommit(from, treeData) => TreeCommitFrame(from, treeData)
    case TreeWelcome(_, _, treeData) => TreeWelcomeFrame(treeData)
    case PeerJoined(from, publicKey, pqPublicKey, sig) => PeerJoinedFrame(from, publicKey, pqPublicKey, sig)
    case PeerLeft(from) => PeerLeftFrame(from)
    case Typing(from) => TypingFrame(from)
    case RoomExpired => RoomExpiredFrame
  }
}
