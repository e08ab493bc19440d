/**
 Password authentication of one socket, in place: challenge, first text frame, the room's
 budget, verification, and one failure frame if any of them goes wrong.
 */
module Authentication {
  import opened Wrappers
  import opened RoomEvents
  import opened AdmissionModel
  import opened AdmissionRuns
  import opened AdmissionControl
  import opened Sessions
  import opened Protocol
  import opened ProtocolRuns

  const MAX_PASSWORD_FRAME := 4096

  // What the socket yields. Text that is not an Authenticate message carries no password; a
  // ping is answered, or the socket is found broken. Where the input ends, the stream did
  // or the handshake timed out.
  datatype SocketFrame = Text(length: nat, password: Option<string>) | Ping(answered: bool) | Pong | Other

  // How the wait for the verifier ends: with its verdict, with a complaint about the
  // password's form, with the verifier unavailable, or cut short by another frame, a
  // disconnect or the timeout.
  datatype Wait = Finished | Invalid | Busy | Interrupted

  predicate IsSkipped(f: SocketFrame) {
    f.Pong? || (f.Ping? && f.answered)
  }

  // The first frame that is not keep-alive traffic is a password of acceptable size.
  predicate Submits(input: seq<SocketFrame>, k: nat) {
    && k < |input| && input[k].Text? && input[k].length <= MAX_PASSWORD_FRAME && input[k].password.Some?
    && forall i :: 0 <= i < k ==> IsSkipped(input[i])
  }

  method ReadPassword(input: seq<SocketFrame>) returns (password: Option<string>)
    ensures password.Some? ==> exists k: nat :: Submits(input, k) && password == input[k].password
    ensures password.None? ==> forall k: nat :: !Submits(input, k)
  {
    var i := 0;
    while i < |input| && IsSkipped(input[i])
      invariant i <= |input| && forall j :: 0 <= j < i ==> IsSkipped(input[j])
    {
      i := i + 1;
    }
    if i < |input| && input[i].Text? && input[i].length <= MAX_PASSWORD_FRAME && input[i].password.Some? {
      assert Submits(input, i);
      return input[i].password;
    }
    forall k: nat ensures !Submits(input, k) {
      assert k < i ==> IsSkipped(input[k]);
    }
    password := None;
  }

  lemma OneSubmission(input: seq<SocketFrame>, k: nat, m: nat)
    requires Submits(input, k) && Submits(input, m)
    ensures k == m
  {
    assert !IsSkipped(input[k]) && !IsSkipped(input[m]);
  }

  // Which failure a client is told, given how far it got.
  function Failure(submitted: Option<string>, reply: Answer, wait: Wait): OutgoingMessage {
    if submitted.None? then AuthFailedFrame
    else
      match reply
      case Limited(n) => AuthRateLimitedFrame(n)
      case Unavailable => AuthUnavailableFrame
      case Ok => if wait.Busy? then AuthUnavailableFrame else AuthFailedFrame
  }

  // By outcome: no submission, a password of bad form, one that is wrong, or a wait cut short
  // is a failed authentication; a verifier or a limiter that has no room is unavailability;
  // and a spent budget comes with the limiter's own waiting time.
  predicate IsTold(submitted: Option<string>, reply: Answer, wait: Wait, f: OutgoingMessage) {
    && (submitted.None? ==> f == AuthFailedFrame)
    && (submitted.Some? && reply == Ok && (wait.Finished? || wait.Invalid? || wait.Interrupted?) ==>
          f == AuthFailedFrame)
    && (submitted.Some? && reply == Ok && wait.Busy? ==> f == AuthUnavailableFrame)
    && (submitted.Some? && reply == Unavailable ==> f == AuthUnavailableFrame)
    && (submitted.Some? && reply.Limited? ==> f == AuthRateLimitedFrame(reply.retryAfterSecs))
  }

  // It succeeds exactly when a submitted password met the room's budget and was verified
  // against the hash. The budget is spent by every submission and by nothing else, and the
  // verifier is asked exactly if it admits the submission. A failure is told in one frame,
  // after the challenge.
  method Authenticate(cfg: Config, limits: Limits, room: RoomId, hash: string, now: real,
                      challenged: bool, input: seq<SocketFrame>, wait: Wait, told: bool)
    returns (ok: bool, frames: seq<OutgoingMessage>, ghost submitted: Option<string>, ghost verifying: bool)
    requires limits.Valid()
    modifies limits`buckets
    ensures limits.Valid()
    ensures submitted.Some? <==> challenged && exists k: nat :: Submits(input, k)
    ensures forall k: nat :: submitted.Some? && Submits(input, k) ==> submitted == input[k].password
    ensures limits.buckets == if submitted.Some? then Check(old(limits.buckets), Room(room), now).0
            else old(limits.buckets)
    ensures var reply := Check(old(limits.buckets), Room(room), now).1;
            && (verifying <==> submitted.Some? && reply == Ok)
            && (ok <==> verifying && wait.Finished? && cfg.matches(submitted.value, hash))
            && frames == (if challenged then [AuthRequiredFrame(PROTECTED_PROTOCOL_VERSION)] else []) +
                         (if !ok && told then [Failure(submitted, reply, wait)] else [])
            && (!ok && told ==> |frames| > 0 && IsTold(submitted, reply, wait, frames[|frames| - 1]))
  {
    ok, frames, submitted, verifying := false, [], None, false;
    var failure := AuthFailedFrame;
    if challenged {
      frames := [AuthRequiredFrame(PROTECTED_PROTOCOL_VERSION)];
      var password := ReadPassword(input);
      submitted := password;
      if password.Some? {
        ghost var k: nat :| Submits(input, k) && password == input[k].password;
        forall m: nat | Submits(input, m) ensures m == k { OneSubmission(input, k, m); }
        ok, failure, verifying := Prove(cfg, limits, room, hash, now, password.value, wait);
      }
    }
    if !ok && told {
      frames := frames + [failure];
    }
  }

  method Prove(cfg: Config, limits: Limits, room: RoomId, hash: string, now: real, password: string, wait: Wait)
    returns (ok: bool, failure: OutgoingMessage, ghost verifying: bool)
    requires limits.Valid()
    modifies limits`buckets
    ensures limits.Valid()
    ensures limits.buckets == Check(old(limits.buckets), Room(room), now).0
    ensures var reply := Check(old(limits.buckets), Room(room), now).1;
            && (verifying <==> reply == Ok)
            && (ok <==> verifying && wait.Finished? && cfg.matches(password, hash))
            && (!ok ==> failure == Failure(Some(password), reply, wait))
  {
    ok, failure, verifying := false, AuthFailedFrame, false;
    var reply := limits.CheckAt(Room(room), now);
    match reply {
      case Limited(n) => failure := AuthRateLimitedFrame(n);
      case Unavailable => failure := AuthUnavailableFrame;
      case Ok =>
        verifying := true;
        match wait {
          case Finished => ok := cfg.matches(password, hash);
          case Invalid =>
          case Interrupted =>
          case Busy => failure := AuthUnavailableFrame;
        }
    }
  }

  // ---------- The same in the protocol ----------

  // The steps of the state machine that an authentication amounts to.
  function Course(conn: ConnId, challenged: bool, submitted: Option<string>, at: real, ok: bool, busy: bool,
                  told: bool): seq<Label> {
    var last := if ok then Verify(conn) else Refuse(conn, busy, told);
    if !challenged then [last]
    else if submitted.None? then [Challenge(conn), last]
    else [Challenge(conn), Present(conn, submitted.value, at), last]
  }

  // Where a protected session stands while it authenticates, and what the limiter was asked.
  datatype Stand = Stand(room: RoomId, hash: string, phase: Phase, frames: seq<OutgoingMessage>, checks: seq<Op>)

  predicate Stands(w: World, conn: ConnId, at: Stand) {
    && In(w, conn, at.phase) && w.sessions[conn].room == at.room && w.sessions[conn].hash == Some(at.hash)
    && w.sessions[conn].frames == at.frames && w.checks == at.checks
  }

  lemma ChallengeStands(cfg: Config, w: World, conn: ConnId, s: Stand)
    requires Stands(w, conn, s) && s.phase.AuthStart?
    ensures Stands(Step(cfg, w, Challenge(conn)), conn,
                   s.(phase := AuthWaiting, frames := s.frames + [AuthRequiredFrame(PROTECTED_PROTOCOL_VERSION)]))
  {
  }

  lemma PresentStands(cfg: Config, w: World, conn: ConnId, s: Stand, password: string, at: real)
    requires Stands(w, conn, s) && s.phase.AuthWaiting?
    ensures Stands(Step(cfg, w, Present(conn, password, at)), conn,
                   s.(phase := PresentedPhase(password, Reply(s.checks, Room(s.room), at)),
                      checks := s.checks + [CheckOp(Room(s.room), at)]))
  {
  }

  lemma VerifyStands(cfg: Config, w: World, conn: ConnId, s: Stand)
    requires Stands(w, conn, s) && s.phase.AuthVerifying? && cfg.matches(s.phase.password, s.hash)
    ensures Stands(Step(cfg, w, Verify(conn)), conn, s.(phase := Phase.Admitted))
  {
  }

  lemma RefuseStands(cfg: Config, w: World, conn: ConnId, s: Stand, busy: bool, told: bool)
    requires Stands(w, conn, s) && Refusal(s.phase, busy).Some?
    ensures Stands(Step(cfg, w, Refuse(conn, busy, told)), conn,
                   s.(phase := Closed, frames := s.frames + if told then [Refusal(s.phase, busy).value] else []))
  {
  }

  // Those steps ask the limiter what `Authenticate` asks it, write the frames that
  // `Authenticate` writes, and let the session on or close it as `Authenticate` does.
  lemma AuthenticateIsItsCourse(cfg: Config, w: World, conn: ConnId, s: Stand, challenged: bool,
                                submitted: Option<string>, at: real, wait: Wait, told: bool)
    requires Stands(w, conn, s) && s.phase.AuthStart? && s.frames == [] && (submitted.Some? ==> challenged)
    ensures var reply := Reply(s.checks, Room(s.room), at);
            var ok := submitted.Some? && reply == Ok && wait.Finished? && cfg.matches(submitted.value, s.hash);
            var failure := Failure(submitted, reply, wait);
            Stands(Play(cfg, w, Course(conn, challenged, submitted, at, ok, wait.Busy?, told)), conn,
                   Stand(s.room, s.hash, if ok then Phase.Admitted else Closed,
                         (if challenged then [AuthRequiredFrame(PROTECTED_PROTOCOL_VERSION)] else []) +
                         (if !ok && told then [failure] else []),
                         s.checks + if submitted.Some? then [CheckOp(Room(s.room), at)] else []))
  {
    var refuse := Refuse(conn, wait.Busy?, told);
    assert s.checks + [] == s.checks;
    if !challenged {
      PlayNext(cfg, w, refuse, []);
      RefuseStands(cfg, w, conn, s, wait.Busy?, told);
    } else {
      var w1 := Step(cfg, w, Challenge(conn));
      var s1 := s.(phase := AuthWaiting, frames := [AuthRequiredFrame(PROTECTED_PROTOCOL_VERSION)]);
      ChallengeStands(cfg, w, conn, s);
      if submitted.None? {
        PlayNext(cfg, w, Challenge(conn), [refuse]);
        PlayNext(cfg, w1, refuse, []);
        RefuseStands(cfg, w1, conn, s1, wait.Busy?, told);
      } else {
        SubmittedCourse(cfg, w1, conn, s1, submitted.value, at, wait, told);
        var ok := Reply(s.checks, Room(s.room), at) == Ok && wait.Finished? && cfg.matches(submitted.value, s.hash);
        PlayNext(cfg, w, Challenge(conn), [Present(conn, submitted.value, at), if ok then Verify(conn) else refuse]);
      }
    }
  }

  // From the password on.
  lemma SubmittedCourse(cfg: Config, w: World, conn: ConnId, s: Stand, password: string, at: real, wait: Wait,
                        told: bool)
    requires Stands(w, conn, s) && s.phase.AuthWaiting?
    ensures var reply := Reply(s.checks, Room(s.room), at);
            var ok := reply == Ok && wait.Finished? && cfg.matches(password, s.hash);
            var failure := Failure(Some(password), reply, wait);
            var last := if ok then Verify(conn) else Refuse(conn, wait.Busy?, told);
            Stands(Play(cfg, w, [Present(conn, password, at), last]), conn,
                   Stand(s.room, s.hash, if ok then Phase.Admitted else Closed,
                         s.frames + (if !ok && told then [failure] else []), s.checks + [CheckOp(Room(s.room), at)]))
  {
    var reply := Reply(s.checks, Room(s.room), at);
    var ok := reply == Ok && wait.Finished? && cfg.matches(password, s.hash);
    var last := if ok then Verify(conn) else Refuse(conn, wait.Busy?, told);
    var w', s' := Step(cfg, w, Present(conn, password, at)),
                  s.(phase := PresentedPhase(password, reply), checks := s.checks + [CheckOp(Room(s.room), at)]);
    PresentStands(cfg, w, conn, s, password, at);
    PlayNext(cfg, w, Present(conn, password, at), [last]);
    PlayNext(cfg, w', last, []);
    LastStands(cfg, w', conn, s', password, reply, wait, told);
  }

  lemma LastStands(cfg: Config, w: World, conn: ConnId, s: Stand, password: string, reply: Answer, wait: Wait,
                   told: bool)
    requires Stands(w, conn, s) && s.phase == PresentedPhase(password, reply)
    ensures var ok := reply == Ok && wait.Finished? && cfg.matches(password, s.hash);
            Stands(Step(cfg, w, if ok then Verify(conn) else Refuse(conn, wait.Busy?, told)), conn,
                   s.(phase := if ok then Phase.Admitted else Closed,
                      frames := s.frames + if !ok && told then [Failure(Some(password), reply, wait)] else []))
  {
    if reply == Ok && wait.Finished? && cfg.matches(password, s.hash) {
      VerifyStands(cfg, w, conn, s);
      assert s.frames + [] == s.frames;
    } else {
      RefuseStands(cfg, w, conn, s, wait.Busy?, told);
    }
  }
}
