# Parrhesia relay: a verified model

The relay lets clients share end-to-end encrypted chat rooms. It keeps no messages: a room is
a row in a table, an entry in a map, and a bounded broadcast channel. This project models two
parts of it and proves what they promise.

**The room relay protocol** (`src/state.rs`, `src/routes/ws.rs`, the room table in
`src/db.rs`). Sessions authenticate, attach to a room, announce keys, join, publish, receive,
lag, leave and see their room expire, in any interleaving.

- `RoomEvents`, `RoomLog` - events, frames, and what a log of events says about membership
  and about what a client knows. `Wrappers` and `Sequences` are shared helpers.
- `Broadcast` - the bounded channel as a ring, with the unbounded log it is a window of.
- `RoomTable`, `AppState` - the table and the shared state, in place, each method tied to the
  function of the same name in `RoomTable` or `ServerModel`.
- `Sessions`, `Protocol` - a session's record and the state machine: one step for each
  stretch of code between two points where other code can run. `join` is two steps that
  keep the write lock between them, because Chat, TreeCommit, TreeWelcome and Typing are sent
  on cloned senders without that lock. `Step` is total, so every sequence of labels is a run.
  What the limiter was asked is part of the world, and upgrades, creations and passwords go
  through it.
- `StepShapes` - how each step changes the world, told once for the results that need it.
- `ProtocolInvariant`, `AdmissionSteps`, `SessionSteps`, `RoomSteps`, `ProtocolRuns` - the
  invariant and its preservation by every step.
- `ClientTheorems`, `Deliveries`, `Provenance`, `Utterances`, `RoomTheorems`, `Protection`,
  `CreatorEpochs`, `CreatorClaims`, `SessionBeginnings`, `SessionEndings`, `Refusals`,
  `BudgetTheorems` - the results, each over every run.
- `Authentication`, `SocketSession` - the loops of one session at its socket, in place.

**The admission limiter** (`src/admission.rs`, and `RateLimiter` in `src/routes/ws.rs`). A
token bucket for each key in a bounded table that throws idle buckets away, and a pool of
sockets waiting for authentication that is counted by guards.

- `TokenBucket` - the bucket over schedules of requests: optimality, windows, rejections.
- `AdmissionModel`, `Admission` (module `AdmissionControl`), `PendingPool`, `MessageRate` - the
  table of buckets, the pool and the per-socket limiter, as functions and in place.
- `AdmissionRuns`, `AdmissionTheorems`, `AdmissionTrace` - whole runs of checks and
  maintenance against a limiter that never evicts.

Four expectations turn out not to hold of the code, and each has its exact condition here.

- Two live sessions can both have been told that they created a room (`TwoCreators`). This is
  ruled out exactly in the runs where no attach finds the record of the creator empty while a
  session that was told so is still there (`OneBelieverExactly`).
- A live session told that it created the room need not be the one on record, as the same
  run shows. Being alone in that belief and on record is ensured exactly in the runs where no
  detach leaves a room without participants while another session that was told so is still
  attached (`BeliefsHoldExactly`).
- A room can have participants and no creator (`CreatorlessRoom`). This is ruled out exactly
  in the runs where everybody who joins finds a creator on record (`CreatorsThereExactly`).
- Putting an extra check that is rejected into a run of the bounded limiter can change later
  answers: it can make a new key `Unavailable` by keeping its own bucket recent
  (`ExtraCheckLeavesTrace`), and what was answered differently once can turn a later `Limited`
  into `Ok` (`ExtraCheckChangesAnswer`). All later answers stay what they were exactly if no
  later check is that of a new key finding the last place in the table taken by the extra
  check (`NoTraceExactly`). In a limiter that never evicts they always do, and an extra check
  that is turned away as `Unavailable` never changes any (`UnansweredLeavesNoTrace`).

Verify everything with `dafny verify dfyconfig.toml`.

## Model

| member | source | states |
|---|---|---|
| ClientTheorems.RosterAgreement | src/state.rs:153-188 | For every session of a room still in the map, in every reachable state, the frames written plus those still queued leave its client with exactly the room's participants other than itself, keys included; with the queue drained the client holds the true roster |
| ClientTheorems.KeysBeforeMessages | src/routes/ws.rs:515-580 | Whenever a client has been sent a Message, TreeCommit or Typing frame of a peer, it knew that peer's keys from the frames before it, and they are the validated keys that peer announced, whatever was published without the lock meanwhile |
| ClientTheorems.KnowingIsHavingBeenTaught | src/routes/ws.rs:515-570 | Knowing a peer's keys is exactly having been sent them by PeerKey or PeerJoined with no later PeerKey, PeerJoined or PeerLeft of that peer |
| ClientTheorems.DeliveryIsExact | src/routes/ws.rs:511-580 | A joined session's frames are its opening, PeerKeys of the roster at its subscription, and then the filtered, mapped events of one gap-free slice of the room's unbounded log starting at its subscription |
| Deliveries.EveryEventArrives | src/routes/ws.rs:552-578 | In every reachable state a joined session has been sent, between its subscription and its cursor, each chat, commit, typing notice, join and leave of the others, each welcome meant for it and the end of the room, with every field in its place, once, in the order of the log, and nothing else behind the keys |
| RoomLog.ConcernsAre | src/routes/ws.rs:553-563 | What a session skips is exactly its own events and welcomes with another target |
| Broadcast.Receiver.Recv | src/routes/ws.rs:552-578 | The bounded ring answers as the unbounded log would, with the very event wanted, or says that the receiver fell more than a capacity behind |
| SocketSession.Session.Take | src/routes/ws.rs:552-580 | On the real ring the receive arm does to frames, position and liveness what the state machine's step does, whatever others publish during the write; one more than a capacity behind ends the session with nothing written, and any other event is dealt with kind by kind |
| ClientTheorems.RingNeverSkips | src/routes/ws.rs:552-580 | In every reachable state the state machine's receive step follows what such a ring answers: one event on, its frame written if it concerns the session, or the end |
| ClientTheorems.CommonOrder | src/routes/ws.rs:553-563 | Two sessions of a room relay the events both relay in one order, that of publication; each relays every event that concerns it, none of its own, and a TreeWelcome only as its target |
| ClientTheorems.FramesAreGrammatical | src/routes/ws.rs:383-666 | In every state every session's frames are a reading of the grammar: challenge, one failure or Welcome, RoomFull or keys, relayed events, RoomExpired |
| ClientTheorems.PrefixesAreGrammatical | src/routes/ws.rs:383-666 | Every prefix of a reading of the grammar is a reading |
| ClientTheorems.GrammarMeans | src/routes/ws.rs:383-666 | Nothing follows a failure, RoomFull or RoomExpired; a protected session opens with AuthRequired; there is one Welcome at most and nothing of any peer before it; no PeerKey follows a relayed event |
| ClientTheorems.AttachedWasVerified | src/routes/ws.rs:395-403 | No session is attached to a protected room without a password verified against the hash its room has for as long as it has a row |
| Provenance.NothingIsForged | src/routes/ws.rs:553-640 | No client is ever sent a message, commit, tree welcome or typing notice that another session of its room did not say, word for word, while relaying there |
| Provenance.TrafficHasOrigin | src/routes/ws.rs:598-640 | Every such event a room's log ever carries goes back to the step in which its sender said it; a chat's room is refreshed in that step, before the chat is sent |
| Utterances.OwnTrafficIsExact | src/routes/ws.rs:598-640 | In every reachable state a room's log holds, in order and each once, exactly what a session has said over the run - nothing lost, doubled or swapped - but for a chat it has composed and is still to send |
| Utterances.TextIsItsSteps | src/routes/ws.rs:598-642 | The state machine's steps for a text add to the room's log the event the frame asks for, field for field, nothing if it is incomplete or announces keys, and nothing to any other log |
| Utterances.ChatIsSentAsComposed | src/routes/ws.rs:599-613 | However much others do between the refresh of its room and the sending, a chat is appended just as it was composed, behind all that the log holds by then |
| Provenance.WelcomeIsTruthful | src/routes/ws.rs:415-428 | Every Welcome ever written bears the session's own id, the version its room calls for, and the answer its attach got |
| Protection.ProtectedFromCreation | src/db.rs:53-69 | From the step that creates a room with a hash on, in every run, its row has that hash, whoever comes by is measured by it, and nobody is attached without a password that matched it |
| Protection.FoundsExactly | src/routes/rooms.rs:83-85 | A room is created exactly if its id is new, the limiter lets its address through and the table works |
| Refusals.FailuresHaveCauses | src/routes/ws.rs:290-405 | In every run a client told AuthRateLimited was turned away by its room's budget with that waiting time; one told AuthUnavailable by the limiter, a verifier that was unavailable, or a room it could not attach to; one told AuthFailed before presenting a password or over one, while the verifier was there |
| SessionBeginnings.OpeningIsDecided | src/routes/ws.rs:259-284 | In every reachable state, a socket the limiter lets through to a room with a row begins at its challenge if the room is protected, unless 100 are waiting or 10 of its address, and with nothing to prove if it is open; any other begins no session |
| SessionBeginnings.WaitingCanEnd | src/routes/ws.rs:290-371 | In every reachable state a session still to authenticate, however far it is, can be turned away; that ends it and gives back its guard and no other |
| SessionBeginnings.AnnouncementIsDecided | src/routes/ws.rs:430-475 | Keys decoding to 1952 and 1184 bytes are accepted as announced; any other announcement ends the session |
| SessionBeginnings.AttachIsDecided | src/routes/ws.rs:402-412 | With a row to be found a session is attached and told the creator on record, itself if there is none; without one it is told AuthUnavailable and is over |
| SessionBeginnings.JoinIsDecided | src/state.rs:146-175 | In every reachable state, with fewer than sixteen in, a join starts; the seventeenth is written RoomFull; a vanished room just ends the session |
| SessionBeginnings.EverySessionCanJoin | src/routes/ws.rs:402-530 | From every reachable state with the lock free, an admitted session whose room has a row and fewer than sixteen in can go on into the relay loop with whatever valid keys it announces, beside the participants it finds |
| RoomTheorems.OneRoomPerId | src/state.rs:123-136 | Over a whole run at most one channel is ever built for an id, every room in the map has a row, and all sessions of an id hold the same channel |
| RoomTheorems.NoResurrection | src/state.rs:123-136 | Once an id given to a room has no row any more, attached to or not and whoever is still on the way to it, it is never again in the table or the map, however the run goes on |
| RoomTheorems.ExpiredIsGone | src/state.rs:195-200 | A channel that has carried RoomExpired has lost its row |
| RoomTheorems.RoomsOwnChannels | src/state.rs:129 | In every reachable state no two rooms send on one channel, which expiry relies on |
| RoomTheorems.LogDeterminesMembership | src/state.rs:139-203 | Every log has at most one join and one leave a peer, its other events in between, and no membership event after RoomExpired; participants are exactly those joined and not left, with the keys announced |
| RoomTheorems.DetachIsIdempotent | src/state.rs:177-189 | Detaching a second time changes nothing |
| RoomTheorems.StaleCreatorOnlyWhileOccupied | src/state.rs:129-187 | A creator that has detached is on record only while the room has participants; an empty room's creator is a live attached session that has not joined |
| RoomTheorems.CreatorIsAsTold | src/state.rs:130-136 | The creator on record is what the answers given since the last reset amount to, and there is one exactly when somebody has attached since |
| CreatorEpochs.OneCreatorAnEpoch | src/state.rs:130-136 | Of two attaches in a run with no reset between them - no attach that builds the room, no detach that leaves it without participants - the later is told it is not the creator, and whatever creator the earlier was told |
| CreatorEpochs.FirstIsCreator | src/state.rs:130-136 | The first attach of a run from such a reset on is told that it is the creator |
| CreatorEpochs.EpochsBegin | src/state.rs:129 | Every attach has such a reset before it or is one |
| RoomTheorems.EpochHasOneCreator | src/state.rs:130-136 | The same of any truthful record of answers; `CreatorIsAsTold` says that every room's record is one |
| RoomTheorems.CreatorNeverHandedOver | src/state.rs:185-187 | No step takes the record from one creator to another; it is cleared only by a detach that leaves no participant |
| RoomTheorems.ParticipantsAreLiveSessions | src/state.rs:150-187 | Participants are exactly the sessions joined and not yet detached, at most sixteen, each with its own validated keys |
| RoomTheorems.LifecycleBalance | src/routes/ws.rs:402-668 | A session attaches at most once, and has detached exactly as often as it attached once it is over, never before |
| SessionEndings.EverySessionCanEnd | src/routes/ws.rs:414-668 | From every reachable state, whoever holds the lock, the run can go on so that a given attached session ends with exactly one detach |
| RoomTheorems.LockIsReleased | src/state.rs:146-175 | A join that holds the lock can always complete, and lets go of it |
| RoomTheorems.QuietRelayIsEmpty | src/state.rs:177-189 | When every session is over, every room has no participants and no creator |
| RoomTheorems.PendingConservation | src/admission.rs:89-144 | The pool counts exactly the sessions still authenticating, per address at most 10 and in all at most 100, with no zero entries, and its total is the sum of its map |
| RoomTheorems.GuardsDropCleanly | src/admission.rs:131-144 | Dropping the guard of any session that holds one finds its slot, underflows nothing, and changes no other address |
| RoomTheorems.ExpiryIsExact | src/state.rs:191-203 | An expiry run removes exactly the rows idle beyond the threshold and exactly their rooms, and adds one RoomExpired to each such room's log and nothing to any other; if the database fails it changes nothing |
| RoomTheorems.ExpiryIsJustified | src/db.rs:92-114 | Under a clock that never runs back a row is removed exactly when more than the threshold has passed since its creation and since every chat that refreshed it |
| CreatorClaims.OneBelieverExactly | src/state.rs:130-136 | In a run, at no time were two live sessions told they created the room, exactly when no attach of the run finds no creator on record while such a session is still there |
| CreatorClaims.BeliefsHoldExactly | src/state.rs:130-187 | In a run, a live session told it is the creator is always the only one and the one on record, exactly when no detach of the run leaves the room without participants under another such session |
| CreatorClaims.TwoCreators | src/state.rs:130-187 | A run in which two live sessions were both told they created the room |
| CreatorClaims.CreatorsThereExactly | src/state.rs:139-187 | In a run, a room with participants always has a creator exactly when everybody who joins it joins while there is one |
| CreatorClaims.CreatorlessRoom | src/state.rs:139-187 | A run that ends with a participant in a room without a creator |
| ProtocolRuns.RunKeeps | src/routes/ws.rs:383-671 | Every run of any sessions in any interleaving keeps the invariant on sessions, rooms, logs, members, lock, creators, hashes and guards |
| ProtocolRuns.RunGrows | src/state.rs:173-199 | Over a run logs are only ever extended and channels only ever added |
| RoomLog.WellFormedIsOrderly | src/state.rs:139-203 | In a log built from legal events a peer joins once and leaves once, says everything else in between, and no membership event follows expiry |
| RoomLog.TallyMeans | src/state.rs:172-184 | Replaying a log yields as present exactly the peers with a join and no leave, with their announced keys |
| RoomLog.ClientFollows | src/routes/ws.rs:553-570 | A client that agrees with the log where it starts agrees with it wherever it has read to |
| RoomLog.RelayKeepsKeysKnown | src/routes/ws.rs:553-570 | Relaying a slice of a well-formed log never shows a client a peer whose keys it lacks |
| RoomLog.SourcesExact | src/routes/ws.rs:553-570 | The relayed frames stem from strictly increasing positions of the log that leave out nothing concerning the session |
| Broadcast.Channel.Send | src/state.rs:78 | A send appends one event to the log, and the ring goes on holding the latest `capacity` events |
| Broadcast.Channel.Subscribe | src/state.rs:165 | A new receiver starts at the end of the log |
| RoomTable.Table.CreateRoomWithPassword | src/db.rs:53-69 | A new id gets a row created and last active now, with just the hash given, and no other row changes; an id already there, or a failing database, is an error and changes nothing |
| RoomTable.Table.RoomPassword | src/db.rs:72-82 | A missing room, an open one and a protected one are told apart |
| RoomTable.Table.RoomExists | src/db.rs:84-90 | Whether the id has a row |
| RoomTable.Table.UpdateActivity | src/db.rs:92-100 | Only the last activity of an existing row changes, to now; its hash and creation stay; a missing row is not created |
| RoomTable.Table.DeleteInactiveRooms | src/db.rs:102-114 | Exactly the rows idle beyond the threshold go, and each is returned once |
| RoomTable.LastActivityIsLatest | src/db.rs:53-100 | Under a monotone clock a row's last activity is the latest time it was created or refreshed in the whole history |
| RoomTable.SweepIsJustified | src/db.rs:102-114 | A sweep removes a row exactly when every creation and refresh of it is more than the threshold old |
| AppState.State.Publish | src/routes/ws.rs:608-640 | A send on a cloned sender appends to that channel's log and leaves every other and the map alone |
| AppState.State.EnsureRoom | src/state.rs:129 | The entry is built with a new channel if absent and left alone otherwise |
| AppState.State.ClaimRoom | src/state.rs:130-136 | The session becomes creator exactly if there is none, and is told the creator on record |
| AppState.State.Attach | src/state.rs:118-137 | The heap goes from one showing `before` to one showing the attach of it, with the same answer; it is let through exactly with a row and a working table, and is the creator exactly if there is none on record |
| AppState.State.BeginJoin | src/state.rs:146-165 | A missing room is refused as gone and one with the maximum in as full, with no change; otherwise, and only then, the snapshot lists each participant once and the receiver starts at the end of the log |
| AppState.State.FinishJoin | src/state.rs:166-174 | The participant is put in and announced on its own room's channel only |
| AppState.State.Leave | src/state.rs:179-184 | A participant is removed and its departure published; anybody else leaves no trace |
| AppState.State.ResetIfEmpty | src/state.rs:185-187 | The creator is cleared exactly if the room has no participants |
| AppState.State.Detach | src/state.rs:177-189 | The heap goes from one showing `before` to one showing the detach of it |
| AppState.State.ExpireInactiveRooms | src/state.rs:191-203 | Rows and rooms go together and each room's channel ends with RoomExpired, or the database fails and nothing changes |
| AppState.State.ExpireRooms | src/state.rs:197-201 | The loop over the deleted ids removes exactly those rooms and ends exactly their channels |
| AppState.State.ShowsPinsDown | src/state.rs:70-105 | A heap shows at most one value, so the methods above leave nothing open |
| ServerModel.ListingExists | src/state.rs:153-164 | Every participant map has a snapshot that lists each member once |
| Authentication.Authenticate | src/routes/ws.rs:290-371 | Succeeds exactly when a submitted password met the room's budget and was verified; the verifier is asked exactly if the budget admits a submission, and nothing else spends it; the one failure frame is AuthFailed with no submission, a bad form, a wrong password or an interruption, AuthUnavailable with the limiter or the verifier unavailable, and AuthRateLimited with the limiter's time if the budget is spent |
| Authentication.ReadPassword | src/routes/ws.rs:308-320 | The first frame that is not an answered ping or a pong is a password of at most 4096 bytes, or there is none |
| Authentication.AuthenticateIsItsCourse | src/routes/ws.rs:290-371 | The steps of the state machine that an authentication amounts to ask the limiter the same, write the same frames and admit or close the session alike |
| SocketSession.ReadKeys | src/routes/ws.rs:430-475 | The handshake yields keys exactly when the first frame that is not a ping or pong announces two valid keys, and yields those |
| SocketSession.SendPeerKeys | src/routes/ws.rs:515-530 | One PeerKey for each snapshot member up to the first failed write; a client that gets them all holds the roster listed |
| SocketSession.Session.constructor | src/routes/ws.rs:532-537 | The loop starts with a full budget of 60 refilled at 30 a second, at the receiver's position |
| SocketSession.Session.Handle | src/routes/ws.rs:554-577 | Kind by kind: own events and welcomes for others are skipped; any other is written as its frame, field for field, or ends the session if it cannot be; RoomExpired ends it after being written |
| SocketSession.Session.Say | src/routes/ws.rs:582-643 | A text publishes exactly if the limiter admits it and it is complete, after whatever others publish meanwhile: the event of its kind with the client's fields in their places; a chat's room is refreshed first, and no other text refreshes |
| SocketSession.Session.Act | src/routes/ws.rs:598-642 | For each kind of frame the event appended, field for field, nothing for an incomplete one or for keys, and in what order the room is refreshed and the event published |
| SocketSession.Session.Relay | src/routes/ws.rs:537-665 | Over any turns, with others publishing between and within them: a hangup ends the loop, and nothing ends it but a hangup, a lag, a failed write of an event that is due, or RoomExpired written; only receive turns move it, one event each while any wait; and frames, position, log and budget are the fold of its turns, the session's own part of the log is exactly what its limiter admitted, and the rest is exactly what others sent |
| SocketSession.PublishingIsBounded | src/routes/ws.rs:585-643 | In any stretch of its texts a session publishes at most 60 events and 30 for each second |
| SocketSession.StretchIsBounded | src/routes/ws.rs:585-643 | Any stretch of the events a session publishes numbers at most 60 and 30 for each second from the text behind its first to the text behind its last |
| SocketSession.OwnTrafficIsBounded | src/routes/ws.rs:585-643 | In any stretch of the room's log since it entered the loop, a session's own events are so bounded |
| SocketSession.ClientKeepsUp | src/routes/ws.rs:552-570 | At every turn of the loop the client holds the roster as of the first event not yet dealt with |
| MessageRate.RateLimiter.Check | src/routes/ws.rs:89-101 | Each check is answered as the token bucket run over all checks so far answers it, and leaves that bucket behind |
| MessageRate.MessageWindow | src/routes/ws.rs:64-101 | Any stretch of checks is admitted at most 60 and 30 for each second it lasts |
| TokenBucket.GreedyIsOptimal | src/admission.rs:74-86 | For every schedule and every prefix of it, no policy that keeps the same refilling bucket non-negative has admitted more |
| TokenBucket.GreedyIsSolvent | src/admission.rs:74-86 | The bucket's own choices are such a policy |
| TokenBucket.RejectedLeavesNoTrace | src/admission.rs:74-86 | Putting a rejected request anywhere into a schedule changes no other answer |
| TokenBucket.SpendingBound | src/admission.rs:74-86 | What is admitted from any moment on, and what is left, is covered by the level then and the refill since |
| TokenBucket.WindowBound | src/admission.rs:74-86 | Any stretch of a schedule admits at most the capacity plus the refill over the stretch |
| AdmissionTheorems.EvictionIsUnobservable | src/admission.rs:54-87 | For every run of checks and maintenance at non-decreasing times, with `Unavailable` steps erased, the bounded evicting limiter answers as one that never evicts, retry times included |
| AdmissionTheorems.TableIsBounded | src/admission.rs:61-69 | The table never holds more than 10,000 buckets |
| AdmissionTheorems.UnavailableExactly | src/admission.rs:61-69 | A check is `Unavailable` exactly when its own key was not answered within 600 seconds and 10,000 others were |
| AdmissionTheorems.RetainedAreRecent | src/admission.rs:103-109 | What a sweep keeps is exactly the keys answered within the last 600 seconds of the run |
| AdmissionTheorems.KeysAreIndependent | src/admission.rs:70-86 | Through evictions, maintenance and traffic on other keys a key is answered as its own token bucket over its own checks |
| AdmissionTheorems.LimiterIsGreedy | src/admission.rs:74-86 | Over every run no solvent policy admits more of a key's answered checks, after any prefix |
| AdmissionTheorems.LimiterWindow | src/admission.rs:54-86 | In any stretch of a run a key is admitted at most its capacity and a sixtieth of it for each second |
| BudgetTheorems.KindsAreBounded | src/routes/ws.rs:323-332 | In every run of the relay, from any step on and however often clients reconnect, the steps in which a password for a room starts being verified, an address has a socket let in, or an address has a room created number at most what that budget allows for the time gone by |
| BudgetTheorems.LimitIsAllowance | src/admission.rs:55-86 | That is 20 and one for each 3 seconds for a room's passwords, 30 and one for each 2 seconds for sockets, 5 and one for each 12 seconds for rooms |
| BudgetTheorems.BudgetsHold | src/admission.rs:54-86 | In every run, from any step on, the upgrades, creations and passwords let through on a key, whatever becomes of them, number at most its capacity and a sixtieth of it for each second |
| AdmissionTheorems.RejectedCheckLeavesNoTrace | src/admission.rs:74-84 | In the ideal limiter, which never evicts, a rejected check put anywhere into a run changes no later answer to any key |
| AdmissionTheorems.RetryTimeIsExact | src/admission.rs:79-84 | After `Limited(n)`, with anything going on for other keys, the key is limited again up to n-1 seconds later and not from n seconds on; it is not `Unavailable` within 600 seconds; n is between 1 and the rounded-up 60/capacity, at most 12 |
| AdmissionTrace.NoTraceExactly | src/admission.rs:61-86 | In the bounded limiter, with a rejected check put anywhere into a run, every later answer stays what it was exactly if no later check is that of a new key finding the last place taken by it |
| AdmissionTrace.UnansweredLeavesNoTrace | src/admission.rs:54-109 | In the bounded limiter, a check turned away as `Unavailable`, or maintenance, put anywhere into a run changes no later answer at all |
| AdmissionTrace.FirstDifference | src/admission.rs:61-86 | The first answer that changes is that check's, and it becomes `Unavailable` |
| AdmissionTrace.ExtraCheckLeavesTrace | src/admission.rs:61-86 | A run with 9,999 other keys in which an extra rejected check has a new key turned away |
| AdmissionTrace.ExtraCheckChangesAnswer | src/admission.rs:61-86 | A run in which one has a later check admitted that would have been limited |
| AdmissionRuns.RunTracks | src/admission.rs:54-109 | At every moment each bucket kept is the ideal one and each ideal one not kept has been idle for 600 seconds |
| AdmissionRuns.IdealProjects | src/admission.rs:70-86 | The never-evicting limiter keeps for each key the token bucket of that key's own checks |
| AdmissionModel.RetryAfter | src/admission.rs:79-84 | The least whole number of seconds after which one token is back |
| AdmissionControl.Limits.CheckAt | src/admission.rs:54-87 | The table in place ends as the function says, with the same answer, and stays bounded |
| AdmissionControl.Limits.SpendAt | src/admission.rs:70-86 | The key's entry, created full if absent, is refilled and charged or refused; no other entry changes |
| AdmissionControl.Limits.Maintain | src/admission.rs:103-109 | Exactly the buckets idle for 600 seconds go |
| AdmissionControl.Limits.Pending | src/admission.rs:89-101 | A guard is handed out exactly while fewer than 100 are out and fewer than 10 for the address; a refusal changes nothing |
| AdmissionControl.Limits.Drop | src/admission.rs:131-144 | Dropping a guard that is out finds its slot and gives back exactly that guard |
| PendingPool.AcquireAccounts | src/admission.rs:89-101 | Taking a guard is refused exactly at the bounds and otherwise keeps the account of live guards |
| PendingPool.ReleaseAccounts | src/admission.rs:131-144 | Releasing a live guard never fails and keeps the account |
| PendingPool.TotalIsSum | src/admission.rs:36-37 | The total is the sum of the per-address counts |

## Left out

- Argon2, Unicode normalization, base64, UUID generation and serde: a verification outcome, decoded lengths and parsed frames are parameters, serialization always succeeds, and connection and room ids are assumed fresh.
- `src/passwords.rs`: beyond the libraries it is length checks and a two-permit semaphore.
- HTTP routing, CORS, security headers, origin and proxy parsing, configuration, logging, and the deployment files: plumbing.
- SQL text, migrations and connection pooling: a statement acts on the whole table at once or fails and leaves it as it was.
- Scheduling, real clocks, panics and socket writes: steps are nondeterministic, and timeouts and failed sends are steps that end the session. The channel's capacity is a parameter, since tokio may round 100 up; a send with no receivers still extends the log, which nobody can observe.
- Expiry deletes rows and removes rooms in one step. A chat that falls between the two in the source is a step before it whose refresh fails.
- The lookup of a room at the upgrade and the taking of its guard are one step; the hash of a row never changes.
- The ping and pong timer: the session may end at any turn instead.
- Floating-point rounding: tokens and seconds are reals. The limiter results over runs take the times of operations to be non-decreasing in lock order, though `check` reads the clock before it takes the lock.
- The admission counters: telemetry.
- A receiver's position after a failed write stays at the event in the model; the session is over then and never reads again.
- A challenge that cannot be written may be followed by a failure frame that can; the grammar allows AuthFailed as the first frame for that reason.
