# Chatbox: a verified model

Chatbox is a terminal chat server and client. This project models its protocol and its state, and
proves what they promise, in Dafny. `dafny verify dfyconfig.toml` checks all of it.

## What is modelled

- **The wire** (`Octets`, `Base64`, `Messages`, `ClientGrammar`, `ServerGrammar`, `Frames`,
  `CleanFrames`): strict Base64 lines (sections 3.5 and 4 of RFC 4648) around payloads whose fields are
  separated by bars, 13 client and 18 server messages. Printer and parser undo each other exactly on
  the well-formed messages, which are defined by the parser's own checks. `WireForms` says which payloads
  are taken for which message, and `Sextets` which octets a frame consists of, bit by bit.
- **The session** (`RateLimit`, `Outgoing`): the sliding-window quota of each room, and the write queue
  with its deferred close.
- **The server** (`ServerModel`): sessions, rooms with members and bounded recent texts, bans,
  nickname bindings and the host, as a state machine whose steps are completed handlers and host or
  administrator calls. `ServerActions` and `ServerPlans` take every step apart into a few kinds of
  action; `ServerStructure`, `ServerSafety` and `ServerReach` prove the invariants of every reachable
  state; `RoomCensus` and `Admission` what follows for room lists and for who gets in;
  `ServerEffects` and `Authority` who may move whom, set a topic, read a private message, and how
  often a session is heard; `Readmission` when a session that was kicked sits in a room again.
  `ChatService` is the server as an object whose methods do exactly those steps.
- **What each request comes to** (`Rosters`, `Deliveries`, `Departures`, `Entrance`, `Gates`, `Moves`, `Talk`,
  `Moderation`): for every input, in any state that satisfies the invariants, exactly when it takes effect,
  what is different then and what is not, and what each session is sent, message by message, with the texts
  written out. These are stated about `Step` alone, in terms of who is registered, who is in which room and
  who has which nickname.
- **The client's view** (`ClientView`, `ClientAgreement`, `ClientSafety`, `EndToEnd`): what a client
  makes of the octets it reads agrees with the server, through codec and queue.
- **Storage** (`Tables`, `WriteWorker`, `History`, `Persistence`, `Speech`, `PersistenceSafety`, `Restart`,
  `PlainTexts`, `RestartRuns`, `StartUp`, `Timestamps`): tables as maps, the queue and its worker, pages,
  and the proof that a restart recovers the server, as often as it is restarted.
- **Trust and connecting** (`TrustFile`, `TrustStore`, `Connect`): the store of trusted fingerprints
  under interleaved calls, and connection attempts whose handlers run in any order.
- **The terminal** (`LineWrap`, `Transcript`): line wrapping, the message ring and the scroll anchor.

## What is assumed

- One step is one completed handler, or one whole call from the host or an administrator.
- Signature verification is an arbitrary predicate, time an arbitrary reading for each stored message,
  and message ids are fresh (`GoodIds`).
- The codec is the one modelled here, and the host has no nickname or a valid one (`UsesCodec`).
- A server starts without connections, from tables with valid, unique room names, at most 32 rooms, the
  lobby included, recent texts and banned names that can be read back, timestamps before its clock and ids
  it will not use (`GoodDatabase`). Its own runs leave such tables (`RestartRuns.TablesStayGood`).
- Messages of sessions are as decoding leaves them where that matters (`PlainInput`).
- `<cctype>` is the C locale's. A glyph is at most two cells wide, and one glyph is the space.

## Where a promise holds only on a condition

- Encoding succeeds for some messages that do not survive it (`Frames.EncodableIsNotEnough`); they survive
  exactly when well formed.
- A restart recovers the server exactly when no room has more than 500 recent texts, the size of a history
  page, and no recent text or banned name holds a NUL (`Restart.RestartAfterAnyRun`). The server program
  refuses a history limit above 500 (`src/app/dedicated_server.cpp:610-621`), so only a direct use of the
  server's constructor exceeds a page (`RestartRuns.CutHistory`). A NUL can only come from the host or the
  administrator (`RestartRuns.CutBan`): if none of their texts, kick reasons and banned names holds one,
  every restart recovers, once all is stored (`RestartRuns.RestartRecoversAll`, `RestartRuns.EveryRestartRecovers`).
- The trust file gives back what was written exactly when the addresses have no bar or line feed and the
  fingerprints are in normal form (`TrustFile.ReadBack`, `TrustFile.BarIsLost`).
- A forgotten certificate stays forgotten exactly until a call merges a legacy file that still has the
  address, or an approved call for the address saves it, even one approved before the removal
  (`TrustStore.ForgottenUntilStored`, `TrustStore.LegacyPutsBack`, `TrustStore.ApprovedPutsBack`).
- The members of rooms are registered, and none has a banned nickname, exactly until a session that was
  kicked or banned but can still be read takes a seat again (`Readmission.OrderlyUntilSeatTaken`,
  `Readmission.BannedSitsAgain`). Registered sessions never have a banned nickname (`ServerReach.RunSound`).
- A wrapped line followed by a space that just overflows is broken before the space, so two adjacent lines
  are compared with the spaces dropped after them. Compared so, no line is broken early, except on a single
  cell where zero-width glyphs come before a double-width one (`LineWrap.NoEarlyBreak`, `LineWrap.EarlyBreak`).

## Model

| member | source | states |
|---|---|---|
| Octets.SplitJoin | src/protocol/protocol.cpp:38-53 | splitting the join of pieces without the delimiter gives the pieces back |
| Octets.RestIsJoin | src/protocol/protocol.cpp:86-97 | the rest after the n-th delimiter is the join of the pieces from the n-th on |
| Octets.DecimalRoundTrip | src/protocol/protocol.cpp:77-84 | a printed number is non-empty, all digits, and parses to itself |
| Octets.LettersMatch | src/chat/chat_server.h:967-972 | each capital has its small letter and the other way round, and nothing else changes case |
| Base64.EncodeFrameLoop | src/protocol/protocol.cpp:176-210 | the group-by-group loop computes the encoding function, errors included |
| Base64.DecodeFrameLoop | src/protocol/protocol.cpp:212-267 | the strict decoding loop computes the decoding function, errors included |
| Base64.FrameRoundTrip | src/protocol/protocol.cpp:176-267 | encoding succeeds exactly for 1 to 3069 octets, has the exact length, fits 4096 octets, and decodes to the payload |
| Base64.FrameCanonical | src/protocol/protocol.cpp:212-267 | what a line decodes to encodes to that line, stripped of one CR and LF, plus a line feed (pad bits must be zero, RFC 4648 section 3.5) |
| Base64.DecodeInjective | src/protocol/protocol.cpp:212-267 | lines that differ after stripping never decode alike |
| Sextets.EncodedBits | src/protocol/protocol.cpp:176-210 | every octet of an encoded payload is the letter, in the alphabet written out, of the six bits of the payload that it stands for, or padding where the payload has none of them |
| Sextets.FrameIsBits | src/protocol/protocol.cpp:176-210 | so a frame is the bits of its payload, six at a time, and a line feed |
| ClientGrammar.SplitFields | src/protocol/protocol.cpp:38-53 | the field-splitting loop gives the pieces between delimiters, always at least one |
| ClientGrammar.ParseIsWellFormed | src/protocol/protocol.cpp:347-484 | whatever parses as a client message is well formed |
| ClientGrammar.ParseSerialize | src/protocol/protocol.cpp:269-294 | a well-formed client message survives printing and parsing |
| ClientGrammar.RoundTripExactly | src/protocol/protocol.cpp:269-484 | a client message survives printing and parsing if and only if it is well formed |
| ClientGrammar.SerializeInjective | src/protocol/protocol.cpp:269-294 | no two well-formed client messages print alike |
| ClientGrammar.SerializeLength | src/protocol/protocol.cpp:269-294 | every well-formed client message fits a frame payload |
| ServerGrammar.PrintUsersLoop | src/protocol/protocol.cpp:312-320 | the loop joins the names with commas |
| ServerGrammar.PrintRoomsLoop | src/protocol/protocol.cpp:321-331 | the loop joins the printed entries with semicolons |
| ServerGrammar.ParseUsersLoop | src/protocol/protocol.cpp:544-560 | the loop accepts exactly the comma-separated lists of valid nicknames, and the empty one |
| ServerGrammar.ParseRoomsLoop | src/protocol/protocol.cpp:563-598 | the loop accepts exactly the lists of at most 32 well-formed entries, one trailing semicolon allowed |
| ServerGrammar.ParseIsWellFormed | src/protocol/protocol.cpp:487-675 | whatever parses as a server message is well formed |
| ServerGrammar.ParseSerialize | src/protocol/protocol.cpp:296-345 | a well-formed server message survives printing and parsing |
| ServerGrammar.RoundTripExactly | src/protocol/protocol.cpp:296-675 | a server message survives printing and parsing if and only if it is well formed |
| ServerGrammar.SerializeInjective | src/protocol/protocol.cpp:296-345 | no two well-formed server messages print alike |
| ServerGrammar.ReprintIsNoLonger | src/protocol/protocol.cpp:487-675 | printing what a payload parsed to is no longer than the payload |
| ServerGrammar.RoomListLength | src/protocol/protocol.cpp:321-331 | a well-formed room list prints in at most 2405 octets |
| WireForms.NumberReadExactly | src/protocol/protocol.cpp:77-84 | a number is read exactly from its decimal forms within the bound, zeros before it or not, by the place values of its digits |
| WireForms.NumberPrintedExactly | src/protocol/protocol.cpp:296-345 | a number is printed as the one of those that does not begin with a zero |
| WireForms.ClientParsesExactly | src/protocol/protocol.cpp:347-484 | a payload is taken for a client message if and only if the message is well formed and the payload is its command word, written out, and its fields in order with bars between them; a kick may lack an empty reason |
| WireForms.EntryExactly | src/protocol/protocol.cpp:563-598 | an entry of the room list is taken for a room if and only if it is well formed and is its id, its name and its count with commas between them |
| WireForms.ServerParsesExactly | src/protocol/protocol.cpp:487-675 | the same for every server message, lists included |
| Frames.ClientFrameRoundTrip | src/protocol/protocol.cpp:677-703 | a client message survives its frame if and only if it is well formed |
| Frames.ServerFrameRoundTrip | src/protocol/protocol.cpp:686-703 | a server message survives its frame if and only if it is well formed and its payload fits |
| Frames.EncodableIsNotEnough | src/protocol/protocol.cpp:677-684 | a whisper to a target with a bar in it is encoded and arrives as a different whisper |
| Frames.ClientReencodes | src/protocol/protocol.cpp:695-698 | a decoded client message encodes again and decodes to itself |
| Frames.ServerReencodes | src/protocol/protocol.cpp:700-703 | a decoded server message encodes again and decodes to itself |
| Frames.EncodedIsFrame | src/protocol/protocol.cpp:686-693 | an encoded frame is at most 4096 octets with its only line feed at the end |
| Frames.CutLinesOfPrefix | src/chat/chat_client.h:232-257 | cutting any initial part of a stream of frames at line feeds gives an initial run of exactly those frames |
| Frames.CutLinesOfAll | src/chat/chat_client.h:232-257 | cutting a whole stream of frames gives exactly the frames |
| CleanFrames.CleanIsWellFormed | src/protocol/protocol.cpp:686-693 | a message whose names hold no separators and that has a frame is well formed, and its frame decodes to it |
| RateLimit.MessageQuota.ConsumeMessageQuota | src/chat/client_session.cpp:412-426 | popping the expired times and then counting computes the quota function of the room queues |
| RateLimit.QuotaMeetsSpec | src/chat/client_session.cpp:412-426 | for non-decreasing time a message is accepted if and only if fewer than 20 were accepted in the room in the closed last 60 seconds, and the queue is exactly those acceptances |
| RateLimit.AtMostTwentyPerWindow | src/chat/client_session.cpp:412-426 | no closed interval of 60 seconds holds more than 20 acceptances of a room |
| Outgoing.SessionWriter.DeliverMessage | src/chat/client_session.cpp:428-447 | posts one push of the encoded frame, or nothing when there is none |
| Outgoing.SessionWriter.PostClose | src/chat/client_session.cpp:482-498 | posts the closing task behind everything posted before |
| Outgoing.SessionWriter.PostAbort | src/chat/client_session.cpp:500-507 | posts the aborting task |
| Outgoing.SessionWriter.RunNextTask | src/chat/client_session.cpp:428-507 | a push starts a write only on an empty queue; a close with a non-empty queue is deferred |
| Outgoing.SessionWriter.WriteNext | src/chat/client_session.cpp:454-460 | starts one write of the front of the queue |
| Outgoing.SessionWriter.OnWriteDone | src/chat/client_session.cpp:454-480 | pops the front, then writes the next, or performs a deferred close |
| Outgoing.EveryRunGood | src/chat/client_session.cpp:428-507 | in every error-free run the posted wires are those written, then the queue, then the pushes still waiting; a write is outstanding exactly when the queue is not empty |
| Outgoing.SentInOrder | src/chat/client_session.cpp:428-498 | the octets sent are an initial part of the posted frames in order, and the stream is shut only after everything posted before the first close is sent |
| Outgoing.CloseTakesEffect | src/chat/client_session.cpp:482-498 | once the first close has run and the queue is empty the stream is shut |
| Outgoing.ReceiverGetsPosted | src/chat/client_session.cpp:428-498 | cutting what has been sent at line feeds and decoding gives back exactly the posted messages, in order |
| ServerPlans.PlanRuns | src/chat/client_session.cpp:21-410 | every step of the server is the sequence of actions its plan names |
| ServerReach.PlanLegal | src/chat/client_session.cpp:54-239 | every action of a step happens only under its condition: a claim or an admission only after the gates before it, a move only to another existing room, and so on |
| ServerSafety.ActionSound | src/chat/chat_server.h:279-385 | each action keeps members and active rooms in agreement, nicknames distinct and unbanned, and the room table sound |
| ServerReach.StepSound | src/chat/chat_server.h:120-1160 | every completed handler and every host or administrator call keeps those invariants |
| ServerReach.RunSound | src/chat/chat_server.h:120-1160 | they hold in every reachable state: the lobby exists, at most 32 rooms, names unique ignoring case, ids below the next one, nicknames distinct, not the host's and not banned |
| RoomCensus.MemberExactlyWhereActive | src/chat/chat_server.h:992-1036 | in every reachable state a session is a member of a room if and only if the room is its active one, and so of at most one |
| RoomCensus.CensusIsExact | src/chat/chat_server.h:407-419 | the user counts of the room list add up to the sessions in rooms plus one for a placed host |
| RoomCensus.MovePreservesTotal | src/chat/chat_server.h:992-1036 | moving a seated session leaves the set of seated sessions as it was |
| RoomCensus.RoomListAlwaysFits | src/chat/chat_server.h:407-419 | the room list prints in at most 2405 octets, always has a frame, and the frame decodes to it |
| RoomCensus.EveryRoomListFits | src/chat/chat_server.h:392-419 | the census and the frame bound hold in every reachable state |
| Rosters.UserListIs | src/chat/chat_server.h:667-691 | the user list of a room is sorted and names exactly those who are in it, as often as there are sessions there under the name, and a host placed there; its length is their number |
| Rosters.OnlyOneUserList | src/chat/chat_server.h:667-691 | there is only one list like that |
| Rosters.RoomListIs | src/chat/chat_server.h:407-419 | the room list has one entry a room in ascending order of ids, with its name and how many are there |
| Deliveries.MoveGets | src/chat/chat_server.h:992-1036 | what each session is sent when one moves, written out: the notice and the new list in the room left, the room and its recent texts for the mover, the notice and the new list in the room entered, the room list for the others |
| Deliveries.HostMoveGets | src/chat/chat_server.h:1038-1075 | the same when the host moves |
| Deliveries.DepartGets | src/chat/chat_server.h:279-306 | what each session is sent when one leaves the server |
| Deliveries.ExpelGets | src/chat/chat_server.h:820-831 | what each session is sent when one is expelled |
| Deliveries.DropGets | src/chat/client_session.cpp:80-87 | what each session is sent when one is dropped |
| Deliveries.LeadsRemembers | src/chat/chat_server.h:616-653 | what rooms remember of the texts broadcast in them |
| Departures.DropExactly | src/chat/client_session.cpp:80-87 | a dropped session is told why, closed, out of the registry and of its room; nobody else is elsewhere |
| Departures.LostExactly | src/chat/client_session.cpp:29-33 | the same for a connection that fails, and the room hears of it unless the server closed it |
| Departures.DisconnectExactly | src/chat/client_session.cpp:248-261 | the same for a goodbye |
| Moves.JoinExactly | src/chat/chat_server.h:313-336 | a member that asks for a room is in the room whose name matches ignoring case, and everyone is told; it stays and gets the error if there is none or it is there already |
| Moves.CreateExactly | src/chat/chat_server.h:349-385 | a member that makes a room is in a new one, under the next id, of that name and its own making; or gets the error of the first obstacle |
| Moves.LeaveExactly | src/chat/chat_server.h:338-347 | a member that leaves is in the lobby, or gets the error if it is there |
| Moves.HostJoinExactly | src/chat/chat_server.h:569-589 | the same for the host |
| Moves.HostCreateExactly | src/chat/chat_server.h:433-469 | the same for the host |
| Moves.HostLeaveExactly | src/chat/chat_server.h:591-606 | the same for the host |
| Gates.PlaceHostExactly | src/chat/chat_server.h:256-271 | a host with a nickname is placed in the lobby, and everyone is shown it |
| Gates.AdminCreateExactly | src/chat/chat_server.h:471-525 | a room made by the administrator belongs to nobody and is empty, and everyone is shown it; nothing happens if there is an obstacle |
| Gates.RegisterExactly | src/chat/chat_server.h:248-254 | the host's identity is bound exactly when nickname and key are valid and the nickname is bound to nothing else |
| Gates.ListRoomsExactly | src/chat/client_session.cpp:263-274 | a member that asks for the rooms is sent exactly that list |
| Gates.AskTopicExactly | src/chat/client_session.cpp:305-325 | a member that asks for the topic is sent that of its room |
| Admission.IdentifyTakenOrStopped | src/chat/client_session.cpp:119-165 | a claim of a session that may command and has no nickname is taken up with that challenge, or ends the session |
| Admission.NamesAndBindingsStay | src/chat/chat_server.h:136-178 | a nickname never changes once set, and a binding never changes |
| Admission.OnlyTheProvenEnter | src/chat/client_session.cpp:54-239 | a session is in a room only if it negotiated version 3, gave the password when one is set, and then proved the key of its latest claim against that claim's challenge; the key is the nickname's binding |
| Admission.BindingsNeverChange | src/chat/chat_server.h:162-178 | over every run bindings are only added |
| Admission.OneKeyPerNickname | src/chat/chat_server.h:162-178 | any two admissions of one nickname, at any two moments, proved the same key |
| Entrance.IdentifyExactly | src/chat/chat_server.h:120-160 | a claim of a session that may command and has no nickname is taken up, and answered with the challenge, if and only if the nickname is valid, the key is 64 hexadecimal digits, any binding of the nickname is that key, it is not banned, not the host's and no registered session's; nothing else changes; otherwise the session is told the first reason and ended |
| Entrance.ProofExactly | src/chat/client_session.cpp:167-239 | a proof leads to the lobby, under the nickname, bound to the key, if and only if a claim is pending, the signature verifies and the nickname is still free in that sense; who is then sent what, and otherwise the reason and the end |
| Entrance.HandshakeRun | src/chat/client_session.cpp:54-118 | a new connection that says hello with version 3, and gives the password when one is set, is let through to the commands, and nothing else changes |
| Entrance.NewcomerGetsIn | src/chat/client_session.cpp:54-239 | from any reachable state a newcomer that then claims a free nickname and proves its key is in the lobby under it, registered and bound; so whoever left may come back |
| Gates.AcceptExactly | src/chat/chat_server.h:273-277 | a new connection is registered, and nothing else happens |
| Gates.GreetExactly | src/chat/client_session.cpp:8-18 | once the TLS handshake is done it is greeted with version 3 and read |
| Gates.HelloExactly | src/chat/client_session.cpp:55-78 | the first hello is answered by what comes next and negotiates on version 3 only; another is an error |
| Gates.UnnegotiatedExactly | src/chat/client_session.cpp:80-87 | anything else before that ends the session, with the reason |
| Gates.PasswordExactly | src/chat/client_session.cpp:89-108 | the right password lets a session through, a wrong one ends it |
| Gates.UnauthenticatedExactly | src/chat/client_session.cpp:110-117 | anything else before that is answered by asking for the password |
| Gates.BadFrameExactly | src/chat/client_session.cpp:38-52 | a frame that cannot be read is answered with the reason, and one of another version ends the session |
| Gates.BeforeJoining | src/chat/client_session.cpp:241-395 | a command that needs a nickname does nothing without one but get its answer; no quota is counted |
| Gates.AfterJoining | src/chat/client_session.cpp:119-176 | after joining another claim or proof is refused, and the session stays |
| ServerEffects.StepSteady | src/chat/chat_server.h:279-1160 | a step whose plan does not reach a seat, topic or quota leaves it alone, and all rooms' names and creators |
| ServerEffects.PlanEntitled | src/chat/chat_server.h:279-1160 | a step reaches a seat, a topic or a quota only on an input entitled to it |
| Authority.OnlyTheEntitledMove | src/chat/chat_server.h:754-831 | a session stays in its room unless the step is its own or it is kicked by the creator of its room, by the host or administrator, or by a ban |
| Authority.OnlyTheEntitledRetitle | src/chat/chat_server.h:1119-1160 | a topic changes only at the request of the room's creator in it, of the host in it, or of the administrator, and to the topic asked for |
| Authority.RoomsStay | src/chat/chat_server.h:349-385 | rooms are never removed, renamed or given another creator |
| Authority.PrivateIsPrivate | src/chat/chat_server.h:1077-1117 | a private message reaches only members of the room with the sender's or the target's nickname |
| Authority.WhisperIsPrivate | src/chat/client_session.cpp:356-385 | a whisper changes no session but the whisperer's and those of its two nicknames in the room |
| Authority.QuotaIsHistory | src/chat/client_session.cpp:326-385 | over every run a session's quota queues are what its chats and whispers so far leave, and nothing else consumes them |
| Authority.JoinedMayCommand | src/chat/client_session.cpp:54-118 | in every reachable state a session with a nickname has negotiated the protocol and given the password when one is set |
| Authority.HeardOnlyIfAccepted | src/chat/client_session.cpp:326-385 | a chat is stored and broadcast, or a whisper sent to anyone, only if the quota accepts it for the room the session is in |
| Authority.NoFlooding | src/chat/client_session.cpp:412-426 | over every run with a steady clock, in any closed 60 seconds at most 20 chats and whispers of a session are heard in a room |
| Talk.BroadcastExactly | src/chat/chat_server.h:616-653 | a broadcast reaches everyone in the room and no one else, is the last of its recent texts, and is stored once |
| Talk.ChatExactly | src/chat/client_session.cpp:326-355 | a member's chat is heard by everyone in its room as time of day, nickname and text if and only if the quota accepts it and the text is valid; otherwise it is told why |
| Talk.WhisperExactly | src/chat/client_session.cpp:356-385 | a member's whisper reaches a member of its room called so and the whisperer, each once, as the time of day, the whisperer, the target and the text, and no one else; or the whisperer is told that nobody there is called so, or why it was refused |
| Talk.HostBroadcastExactly | src/chat/chat_server.h:608-614 | the host's text is heard where the host is, or in the lobby |
| Talk.AnnounceExactly | src/chat/chat_server.h:655-665 | the administrator's text is heard once in every room |
| Talk.HostPrivateExactly | src/chat/chat_server.h:1077-1117 | the host's private message, the same as a whisper; while the host is in no room nothing happens |
| Moderation.TopicExactly | src/chat/chat_server.h:1119-1160 | a member's topic for its room is set, stored, sent and remarked upon if and only if it made the room and the topic is valid; otherwise it is told why |
| Moderation.HostTopicExactly | src/chat/chat_server.h:748-752 | the host's if and only if it is valid |
| Moderation.AdminTopicExactly | src/chat/chat_server.h:527-543 | the administrator's for the room of a name, likewise |
| Moderation.KickExactly | src/chat/chat_server.h:754-781 | a member's kick expels a member of its room called so if and only if the kicker made the room, does not name itself, and there is one; what everyone is sent, and otherwise the reason |
| Moderation.AdminKickExactly | src/chat/chat_server.h:545-567 | the administrator's for the room of a name |
| Moderation.HostKickExactly | src/chat/chat_server.h:783-799 | the host's, from its room, or while it is in none from that of the registered session with the nickname |
| Moderation.BanExactly | src/chat/chat_server.h:833-875 | a ban is recorded and stored, and the session registered under the nickname, if any, is expelled |
| Moderation.UnbanExactly | src/chat/chat_server.h:877-894 | lifting a ban does that and nothing else |
| Readmission.StepRegistered | src/chat/chat_server.h:992-1036 | while everyone in a room is registered, a step keeps it so if and only if it does not seat an unregistered session again: a leave, a join of an existing room, a creation that is not refused, or an accepted proof, from a session let through to the commands |
| Readmission.OrderlyUntilSeatTaken | src/chat/chat_server.h:801-875 | over every run, all members of rooms are registered under nicknames that are not banned up to a point if and only if no step before it has seated an unregistered session again |
| Readmission.BannedSitsAgain | src/chat/chat_server.h:833-875 | from any reachable state, a member that can still be read is banned, sends a leave, and is in the lobby: unregistered, under a banned nickname |
| ClientSafety.StepInView | src/chat/chat_server.h:992-1036 | every step leaves every client, once it has consumed what it was sent, in agreement with the server |
| ClientSafety.RunInView | src/chat/chat_server.h:616-696 | in every reachable state a client that has consumed everything has its session's room, name and topic, shows exactly those who are in it if their list has a frame, and has discarded no room text |
| EndToEnd.CodecIsGood | src/protocol/protocol.cpp:686-693 | room announcements always have frames, and a kick of a nameless session has none |
| EndToEnd.NothingDiscarded | src/chat/chat_client.h:397-402 | a client that has discarded nothing by now had discarded nothing earlier |
| EndToEnd.ClientAgrees | src/chat/chat_client.h:232-414 | through codec, write queue and line cutting: whatever part of the octets has arrived the client discarded no room text, and when all has arrived its room, name and topic are the server's and its users, when framable, are exactly those in the room |
| ChatService.ChatServer.DeliverEach | src/chat/chat_server.h:638-640 | delivering to members one by one appends the message once to each of them and to no one else |
| ChatService.ChatServer.StoreText | src/chat/chat_server.h:643-652 | stores a text under a fresh id with the next stamp |
| ChatService.ChatServer.BroadcastText | src/chat/chat_server.h:616-653 | recent texts bounded, delivery to every member, one stored message |
| ChatService.ChatServer.NicknamesOf | src/chat/chat_server.h:679-683 | the non-empty nicknames of the members, in walking order |
| ChatService.ChatServer.UsersInRoom | src/chat/chat_server.h:667-691 | the sorted nicknames of the members and of a host placed there |
| ChatService.ChatServer.BroadcastUserList | src/chat/chat_server.h:667-696 | the user list goes to every member |
| ChatService.ChatServer.ListRooms | src/chat/chat_server.h:407-419 | one summary a room in id order, the host counted |
| ChatService.ChatServer.BroadcastLists | src/chat/chat_server.h:392-405 | the room list goes to every registered session with a nickname |
| ChatService.ChatServer.EraseMember | src/chat/chat_server.h:290-296 | only that session leaves only that room |
| ChatService.ChatServer.TakeSeat | src/chat/chat_server.h:1004-1010 | out of the old room, into the new one, and the active room id |
| ChatService.ChatServer.SendHistory | src/chat/chat_server.h:1024-1030 | a heading and then the recent texts in order, to the mover alone |
| ChatService.ChatServer.Farewell | src/chat/chat_server.h:1016-1021 | the leave notice and then the users of the old room |
| ChatService.ChatServer.Welcome | src/chat/chat_server.h:1031-1035 | the join notice, the users of the room, and the room lists |
| ChatService.ChatServer.MoveSessionToRoom | src/chat/chat_server.h:992-1036 | the whole move, as in the state machine |
| ChatService.ChatServer.MoveLocalToRoom | src/chat/chat_server.h:1038-1075 | the host's move, as in the state machine |
| ChatService.ChatServer.Disconnect | src/chat/chat_server.h:279-306 | out of the registry and of the room, with notices only if a member was removed |
| ChatService.ChatServer.DropSession | src/chat/client_session.cpp:80-87 | the reason, the close, the departure, and no further read |
| ChatService.ChatServer.FindRoomByName | src/chat/chat_server.h:967-990 | finds the first room in id order whose name matches ignoring case, exactly when there is one |
| ChatService.ChatServer.CheckCreation | src/chat/chat_server.h:349-372 | the error of the first failing check: name, room limit, existing name |
| ChatService.ChatServer.AppendRoom | src/chat/chat_server.h:373-381 | the room under the next id, the next id advanced, and the room stored |
| ChatService.ChatServer.CreateRoom | src/chat/chat_server.h:349-385 | refused with its error and no effect, or created and entered |
| ChatService.ChatServer.JoinRoom | src/chat/chat_server.h:313-336 | refused with its error and no effect, or moved |
| ChatService.ChatServer.LeaveRoom | src/chat/chat_server.h:338-347 | refused in the lobby, or moved to it |
| ChatService.ChatServer.SetTopicForRoom | src/chat/chat_server.h:1119-1160 | refused with its error and no effect, or stored, sent to the members and announced |
| ChatService.ChatServer.SetLocalTopic | src/chat/chat_server.h:748-752 | of the host's room, as the host; its error if refused |
| ChatService.ChatServer.SetAdminTopic | src/chat/chat_server.h:527-543 | of the named room, as the administrator; its error if there is none or if refused |
| ChatService.ChatServer.FindFirst | src/chat/chat_server.h:811-818 | the first of the sessions with the nickname, if any |
| ChatService.ChatServer.FindLast | src/chat/chat_server.h:1090-1094 | the last of the sessions with the nickname, if any |
| ChatService.ChatServer.ExpelSession | src/chat/chat_server.h:823-826 | the kick, the close and the departure, in that order |
| ChatService.ChatServer.KickUserInRoom | src/chat/chat_server.h:801-831 | false with no effect when no member has the nickname; else expelled and announced |
| ChatService.ChatServer.KickUserInNamedRoom | src/chat/chat_server.h:545-567 | by room name: the error of the failing check and no effect, or the kick |
| ChatService.ChatServer.KickFrom | src/chat/chat_server.h:754-781 | refused with its error and no effect unless the requester created the room and names another member |
| ChatService.ChatServer.BanUser | src/chat/chat_server.h:833-875 | the ban, its storage, and the expulsion of the first registered session with the nickname |
| ChatService.ChatServer.UnbanUser | src/chat/chat_server.h:877-894 | lifts and stores a ban, and says whether there was one |
| ChatService.ChatServer.IdentityAvailableFor | src/chat/chat_server.h:136-160 | the error of the first failing check: nickname, key, other binding |
| ChatService.ChatServer.IsNicknameTaken | src/chat/chat_server.h:126-134 | true exactly for the host's nickname and those of registered sessions |
| ChatService.ChatServer.BindIdentity | src/chat/chat_server.h:162-178 | binds an unbound nickname and stores it; never changes a binding; true exactly if the binding is then this key |
| ChatService.ChatServer.SendPrivateInRoom | src/chat/chat_server.h:1077-1117 | the line to the target and to another sender, or the refusal to the sender |
| ChatService.ChatServer.Report | src/chat/client_session.cpp:250-254 | an error goes to the requester, success sends nothing |
| ChatService.ChatServer.HandleHello | src/chat/client_session.cpp:55-78 | negotiates on version 3 and asks for the password if one is set |
| ChatService.ChatServer.HandleAuthenticate | src/chat/client_session.cpp:89-108 | the right password authenticates, a wrong one ends the session |
| ChatService.ChatServer.HandleIdentify | src/chat/client_session.cpp:119-165 | the claim is refused, ends the session, or is recorded and challenged |
| ChatService.ChatServer.HandleProof | src/chat/client_session.cpp:166-239 | the six refusals in order, or the binding, the nickname and the lobby |
| ChatService.ChatServer.ConsumeMessageQuota | src/chat/client_session.cpp:412-426 | the quota of the session's active room |
| ChatService.ChatServer.HandleChat | src/chat/client_session.cpp:326-355 | refused before joining, over quota or with invalid text; else broadcast to the active room |
| ChatService.ChatServer.HandleWhisper | src/chat/client_session.cpp:356-385 | refused before joining, over quota or with invalid fields; else sent in the active room |
| ChatService.ChatServer.HandleTopic | src/chat/client_session.cpp:305-325 | shows or sets the topic of the active room |
| ChatService.ChatServer.HandleLeave | src/chat/client_session.cpp:240-254 | refused before joining; else leaves for the lobby or reports |
| ChatService.ChatServer.HandleListRooms | src/chat/client_session.cpp:262-274 | refused before joining; else sends the room list |
| ChatService.ChatServer.HandleCreateRoom | src/chat/client_session.cpp:275-289 | refused before joining; else creates or reports |
| ChatService.ChatServer.HandleJoinRoom | src/chat/client_session.cpp:290-304 | refused before joining; else joins or reports |
| ChatService.ChatServer.HandleKick | src/chat/client_session.cpp:386-402 | refused before joining; else kicks or reports |
| ChatService.ChatServer.HandleCommand | src/chat/client_session.cpp:119-408 | every command of an authenticated session does its state machine step |
| ChatService.ChatServer.HandleMessage | src/chat/client_session.cpp:54-408 | the gates in order: hello, negotiation, password, then the commands |
| ChatService.ChatServer.HandleBadFrame | src/chat/client_session.cpp:39-52 | the error is reported, and an unsupported version ends the session |
| ChatService.ChatServer.HandleReadFailure | src/chat/client_session.cpp:29-33 | the session departs, announced unless it was closed |
| ChatService.ChatServer.Join | src/chat/chat_server.h:273-277 | a new session is registered, with nothing sent and nothing shown |
| ChatService.ChatServer.HandleHandshake | src/chat/client_session.cpp:3-19 | the greeting on success, departure on failure |
| ChatService.ChatServer.StartLocalUser | src/chat/chat_server.h:256-271 | places the host in the lobby and shows it |
| ChatService.ChatServer.CreateLocalRoom | src/chat/chat_server.h:433-469 | as the host: checked, created, entered |
| ChatService.ChatServer.CreateAdminRoom | src/chat/chat_server.h:471-506 | as the administrator: checked, created, listed |
| ChatService.ChatServer.JoinLocalRoom | src/chat/chat_server.h:569-589 | the host moves to an existing other room |
| ChatService.ChatServer.LeaveLocalRoom | src/chat/chat_server.h:591-600 | the host moves back to the lobby |
| ChatService.ChatServer.Broadcast | src/chat/chat_server.h:608-614 | the text to the host's room, or to the lobby while the host is in none |
| ChatService.ChatServer.BroadcastToAll | src/chat/chat_server.h:655-665 | the text to every room in id order |
| ChatService.ChatServer.SendLocalPrivate | src/chat/chat_server.h:698-717 | the host's private message, in its room or that of the first session with its nickname |
| ChatService.ChatServer.RoomOfUser | src/chat/chat_server.h:785-797 | the host's room, or that of the first registered session with the nickname |
| ChatService.ChatServer.KickUser | src/chat/chat_server.h:783-799 | kicks in that room, if any, and says whether anyone was kicked |
| ChatService.ChatServer.RegisterLocalIdentity | src/chat/chat_server.h:248-254 | binds only a checked identity, and says whether it is bound |
| ChatService.ChatServer.Perform | src/chat/chat_server.h:120-1160 | whatever input comes, the object does exactly the step of the state machine |
| Ordering.Walk | src/chat/chat_server.h:407-419 | walks a set in ascending order |
| Ordering.SortSorts | src/chat/chat_server.h:690-691 | sorting gives a sorted list of the same names |
| Ordering.SortedUnique | src/chat/chat_server.h:690-691 | there is only one sorted list of the same names |
| Octets.LexLessExactly | src/chat/chat_server.h:690-691 | the order is that of the first octet that differs, and a proper initial part comes first |
| WriteWorker.WriteQueue.EnqueueWrite | src/storage/storage.cpp:360-371 | accepted at the end of the queue exactly when not stopping and fewer than 4096 wait; refused otherwise with an error set |
| WriteWorker.WriteQueue.FormBatch | src/storage/storage.cpp:396-408 | the first 64 writes, or all, move in order from the queue to the batch |
| WriteWorker.WriteQueue.ExecuteBatch | src/storage/storage.cpp:411-422 | the whole batch applied in order, or nothing and an error set |
| WriteWorker.WriteQueue.ReportSettled | src/storage/storage.cpp:424-430 | the worker is no longer writing |
| WriteWorker.WriteQueue.Stop | src/storage/storage.cpp:346-353 | the worker is asked to stop |
| WriteWorker.EveryRunAccounted | src/storage/storage.cpp:346-431 | in every interleaving accepted writes are processed ones, then those in flight, then the queue; the database is the fold of the committed batches; at most 4096 wait; the worker exits only with nothing left |
| WriteWorker.FlushSeesAll | src/storage/storage.cpp:373-377 | a flush returns only when everything accepted before it was called has been processed |
| WriteWorker.ExitLeavesNothing | src/storage/storage.cpp:391-400 | after the worker has exited, everything ever accepted has been processed |
| WriteWorker.NothingLost | src/storage/storage.cpp:411-422 | if no batch failed, what was kept is all that was processed |
| History.ReadBackExactly | src/storage/storage.cpp:106-110 | a text column is read back as stored exactly when it holds no NUL |
| History.LoadHistory | src/storage/storage.cpp:508-555 | the row loop, the dropped extra row and the cursor compute the page |
| History.OlderThan | src/storage/storage.cpp:514-520 | the rows older than the n-th of a listing are the rest of the listing |
| History.PageIsNext | src/storage/storage.cpp:508-555 | a page is the next part of the listing; its cursor is present exactly when something older remains, and leads to it |
| History.WalkVisitsAll | src/storage/storage.cpp:508-555 | following cursors visits every message present at the start once, in strictly descending order, in no more pages than messages, whatever is added above the cursors |
| Persistence.RecentGrows | src/chat/chat_server.h:627-629 | storing a newer text appends it to the recent texts and drops the first beyond the limit |
| Persistence.SaidMirrors | src/chat/chat_server.h:616-653 | the stored message of a broadcast violates no constraint and keeps the tables a mirror of the server |
| Speech.ActionLeads | src/chat/chat_server.h:616-653 | whatever is stored by an action is one change of rooms, topics, bindings or bans, and then the broadcasts it names, in order |
| PersistenceSafety.StepMirror | src/storage/storage.cpp:250-323 | every step's writes apply, and leave tables with the same rooms, bindings, bans and recent texts as the server |
| PersistenceSafety.RunMirror | src/storage/storage.cpp:250-323 | so in every reachable state |
| Restart.RecentSurvives | src/chat/chat_server.h:1224-1228 | a room's recent texts load as they were if and only if there are at most 500 and none holds a NUL |
| Restart.LongHistoryIsCut | src/storage/storage.cpp:512-512 | with more than 500 recent texts exactly 500 are loaded |
| Restart.RestartRecovers | src/chat/chat_server.h:1214-1249 | when the tables mirror the server, loading them recovers rooms, next id, bindings, bans and recent texts if and only if histories and texts survive |
| Restart.StartIsSound | src/chat/chat_server.h:1214-1249 | starting from good tables establishes every invariant used here |
| Restart.EmptyTablesAreGood | src/chat/chat_server.h:1238-1247 | any server may start from empty tables |
| Restart.RestartAfterAnyRun | src/chat/chat_server.h:1214-1249 | start, run, store everything, start again: recovered if and only if histories and texts survive |
| Restart.RestartThroughTheQueue | src/storage/storage.cpp:346-431 | the same when the writes went through the queue, none was refused, no batch failed, and a flush returned |
| PlainTexts.StepPlain | src/chat/chat_server.h:616-653 | a step on which the host, the administrator and the clock bring no NUL keeps stored texts and banned names free of NULs: what sessions say has been checked |
| PlainTexts.RunPlain | src/chat/client_session.cpp:326-402 | so no reachable state holds a NUL, if no input brings one |
| RestartRuns.RestartRecoversAll | src/app/dedicated_server.cpp:610-621 | with a history limit of at most 500, as the server program demands, and no NUL from host, administrator or clock, a restart after any run recovers the server once every write is stored |
| RestartRuns.CutBan | src/chat/chat_server.h:833-875 | for any server: one ban of a name with a NUL, and a restart bans another name instead |
| RestartRuns.CutHistory | src/chat/chat_server.h:1224-1228 | for any server with a limit above 500: 501 broadcasts, and a restart has lost the first |
| RestartRuns.TablesStayGood | src/chat/chat_server.h:1214-1249 | the tables a run leaves are tables a server may start from, when histories and texts survive |
| RestartRuns.EveryRestartRecovers | src/chat/chat_server.h:1214-1249 | over any number of restarts in a row each process starts with exactly the rooms, next id, bindings, bans and recent texts with which the one before it stopped |
| StartUp.RecentOf | src/chat/chat_server.h:1225-1228 | reverses the page's texts |
| StartUp.LoadRoom | src/chat/chat_server.h:1219-1228 | one room with its newest history |
| StartUp.LoadRooms | src/chat/chat_server.h:1218-1231 | all rooms and the next id |
| StartUp.LoadPersistentState | src/chat/chat_server.h:1214-1249 | the server object in the loaded state, the lobby added and stored if absent |
| Timestamps.Atomic.CompareExchange | src/chat/chat_server.h:1207-1209 | swaps exactly when the value is the one observed and the exchange does not fail spuriously |
| Timestamps.Atomic.NextTimestamp | src/chat/chat_server.h:1199-1212 | whatever other threads store between the exchanges and however often one fails, the loop ends with the later of the clock and one more than the stamp it replaces |
| Timestamps.StampsIncrease | src/chat/chat_server.h:1199-1212 | over every interleaving of threads the stamps given out strictly increase |
| Timestamps.NotBehind | src/chat/chat_server.h:1199-1212 | a stamp is neither behind its thread's clock reading nor ahead of both that and the next free value |
| TrustFile.NormalizeFingerprint | src/network/tls.cpp:236-250 | the character loop computes the normal form, or nothing |
| TrustFile.NormalForms | src/network/tls.cpp:236-250 | a normal form is 64 upper-case digits or nothing, and is its own normal form |
| TrustFile.NormalizesExactly | src/network/tls.cpp:236-250 | a text normalizes to a fingerprint if and only if it spells its 64 digits in order, in either case, with colons, dashes and blanks anywhere |
| TrustFile.ReadExactly | src/network/tls.cpp:45-62 | a file has a fingerprint for an address if and only if the last of its lines that gives that address any gives this one |
| TrustFile.ReadTrustStore | src/network/tls.cpp:45-62 | the line loop computes the entries, later lines winning |
| TrustFile.WriteTrustStore | src/network/tls.cpp:64-96 | one line an entry, each once; the file reads back as the entries exactly when they are plain |
| TrustFile.ReadBack | src/network/tls.cpp:45-96 | a written file reads back as the entries if and only if the addresses are non-empty without bar or line feed and the fingerprints are normal |
| TrustFile.BarIsLost | src/network/tls.cpp:45-62 | an address with a bar in it is read back as nothing |
| TrustStore.Trust.MergeLegacy | src/network/tls.cpp:329-331 | only absent addresses are filled from the legacy file |
| TrustStore.Trust.LookUp | src/network/tls.cpp:321-335 | the first critical section, as in the state machine |
| TrustStore.Trust.Review | src/network/tls.cpp:336-363 | the decision between the two sections, as in the state machine |
| TrustStore.Trust.Commit | src/network/tls.cpp:364-377 | the second critical section: recheck, then write |
| TrustStore.Trust.ForgetCertificate | src/network/tls.cpp:114-121 | only that address is removed |
| TrustStore.StepEntries | src/network/tls.cpp:321-377 | what each step does to the stored entries, read back from the file: a call with a fingerprint that can write merges the legacy entries, an approved one that is not interfered with and can write stores its fingerprint, a removal that can write removes |
| TrustStore.EveryApprovalConfirmed | src/network/tls.cpp:344-363 | in every interleaving a call approved to replace a fingerprint has asked to confirm exactly that, and was told yes |
| TrustStore.TrustedExactly | src/network/tls.cpp:315-377 | in every interleaving a call ends with its peer trusted if and only if it has a fingerprint that any pinned one agrees with, and nothing different was stored and it was stored, pinned or vouched for by the chain, or it saved the fingerprint after a yes or on an allowed first use with nobody to ask |
| TrustStore.NeverTrusted | src/network/tls.cpp:336-363 | never after a no, against the pinned fingerprint, or with a different one stored and nobody to ask |
| TrustStore.ReplacedOnlyIfConfirmed | src/network/tls.cpp:321-377 | a stored fingerprint is replaced by a different one only by a call that asked to confirm exactly (address, new, old) and was told yes, and nothing else changes in that step |
| TrustStore.OthersUntouched | src/network/tls.cpp:321-377 | no step alters another address, except that merging adds absent legacy ones |
| TrustStore.StepStores | src/network/tls.cpp:114-121 | after a step an address is stored if and only if the step stored it in one of the two ways, or it was stored and the step did not remove it |
| TrustStore.ForgottenUntilStored | src/network/tls.cpp:114-121 | in every interleaving a removed address is in the file again if and only if a call has stored it since, merging the legacy file or saving after its approval, and it was not removed after that |
| TrustStore.LegacyPutsBack | src/network/tls.cpp:327-333 | a run in which merging the legacy file puts a removed address back |
| TrustStore.ApprovedPutsBack | src/network/tls.cpp:366-375 | a run without legacy entries in which a call approved before the removal puts the address back |
| Connect.Connector.ArmDeadline | src/chat/chat_client.h:174-183 | a new generation, a timer for it, and the stage |
| Connect.Connector.FinishConnect | src/chat/chat_client.h:185-204 | nothing unless connecting; else the attempt ends with one callback |
| Connect.Connector.AsyncConnect | src/chat/chat_client.h:31-44 | a new attempt replaces any other, and resolution begins |
| Connect.Connector.CancelConnect | src/chat/chat_client.h:89-92 | a live attempt ends as cancelled |
| Connect.Connector.OnResolved | src/chat/chat_client.h:44-50 | ignored unless live; else a failure, or the TCP stage |
| Connect.Connector.OnTcpDone | src/chat/chat_client.h:51-64 | ignored unless live; else refused, failed, done without TLS, or the TLS stage |
| Connect.Connector.OnTlsDone | src/chat/chat_client.h:65-75 | ignored unless live; else done exactly if handshake and verification succeeded |
| Connect.Connector.OnTimer | src/chat/chat_client.h:179-182 | ends the attempt only if live, not aborted, and of the present generation |
| Connect.StepCompletes | src/chat/chat_client.h:31-92 | a step completes something exactly when an attempt is live and the event ends it, with that outcome |
| Connect.CompletesAtMostOnce | src/chat/chat_client.h:185-204 | no attempt's callback is made twice |
| Connect.LiveUntilEnded | src/chat/chat_client.h:31-92 | an attempt that is not superseded is live and not completed until an event ends it |
| Connect.EndedByFirst | src/chat/chat_client.h:185-204 | its first ending event completes it with that event's outcome, for good |
| Connect.CompletesOnFirstEnding | src/chat/chat_client.h:31-92 | unless superseded an attempt has completed if and only if an event has ended it |
| Connect.StaleHandlersDoNothing | src/chat/chat_client.h:44-75 | a handler of a finished or superseded attempt changes nothing |
| Connect.TimesOutItsOwnStage | src/chat/chat_client.h:174-183 | only the timer armed for the present stage of the live attempt times it out |
| Connect.SuccessIsEarned | src/chat/chat_client.h:44-75 | success implies that resolution and TCP succeeded, and with TLS the handshake and verification |
| LineWrap.BreakLine | src/ui/terminal_model.cpp:103-116 | breaks at the last space when at least half the width comes before it, or else at the end |
| LineWrap.WrapText | src/ui/terminal_model.cpp:93-123 | the glyph loop computes the wrapped lines |
| LineWrap.CarriedLeavesRoom | src/ui/terminal_model.cpp:104-110 | what a space break carries over leaves room for any glyph |
| LineWrap.LinesFit | src/ui/terminal_model.cpp:93-123 | no line is wider than the width |
| LineWrap.NothingLost | src/ui/terminal_model.cpp:93-123 | putting back the dropped spaces gives the input glyphs in order, over-wide ones as question marks |
| LineWrap.NoEarlyBreak | src/ui/terminal_model.cpp:101-117 | no two adjacent lines, with the spaces dropped after them, would fit on one: exactly unless the first visible glyph is too wide for any line and comes after zero-width ones, which takes a width of one cell |
| LineWrap.EarlyBreak | src/ui/terminal_model.cpp:101-117 | such a text: a zero-width glyph and then a double-width one, on one cell |
| LineWrap.EveryBreakIsRight | src/ui/terminal_model.cpp:101-117 | a break is at a space with at least half the width before it, and what follows up to the next space would not have fitted; or no space of the line has as much before it |
| LineWrap.WrapIsRight | src/ui/terminal_model.cpp:93-123 | the four together |
| Transcript.AppState.TakeSnapshot | src/app/app_state.cpp:26-31 | a copy of the whole state |
| Transcript.AppState.PushMessage | src/app/app_state.cpp:57-64 | appends, counts, and evicts the first beyond 200 |
| Transcript.AppState.ClearMessages | src/app/app_state.cpp:33-37 | empties the ring and keeps the count |
| Transcript.AppState.ResetChatState | src/app/app_state.cpp:78-88 | resets everything but the count |
| Transcript.AppState.ActivateRoom | src/app/app_state.cpp:90-100 | the new room, with no messages and no users |
| Transcript.AppState.UpdateRoomTopic | src/app/app_state.cpp:102-107 | only of the active room |
| Transcript.AppState.UpdateRoomUsers | src/app/app_state.cpp:39-45 | only of the active room |
| Transcript.AppState.UpdateRoomList | src/app/app_state.cpp:109-113 | replaces the room list |
| Transcript.AppState.Dispatch | src/chat/chat_client.h:363-411 | keeps the shown room, name, topic and users those of the client's view, and what it adds to the transcript |
| Transcript.NumbersAreStable | src/app/app_state.cpp:57-100 | a message's number never changes while it is retained, across pushes, evictions, clears and room changes |
| Transcript.RetainsNewest | src/app/app_state.cpp:57-64 | exactly the newest 200 texts since the last clear are retained, in order, and every text pushed is counted |
| Transcript.BuildLines | src/ui/curses_ui.cpp:172-181 | the lines of the retained messages, each under its number and part |
| Transcript.LayoutExactly | src/ui/curses_ui.cpp:172-181 | a line is among them if and only if it is a wrapped part of a message, under its number and the part's |
| Transcript.LowerBound | src/ui/terminal_model.cpp:174-178 | binary search finds how many lines come before the anchor |
| Transcript.Scrollback.StartLine | src/ui/terminal_model.cpp:169-179 | the last page when following, else the anchored line unless clamped |
| Transcript.Scrollback.MoveBy | src/ui/terminal_model.cpp:180-188 | moves by that many lines, as far as there are any, anchors the line reached, and follows exactly at the last page |
| Transcript.Scrollback.Latest | src/ui/terminal_model.cpp:189-189 | follows again |
| Transcript.MoveThenStart | src/ui/terminal_model.cpp:169-188 | after a move the start is where the move went |
| Transcript.PushKeepsAnchor | src/ui/terminal_model.cpp:169-179 | a push, with or without eviction, keeps the same line first while its message is retained |
| Transcript.AnchorIsStable | src/ui/terminal_model.cpp:169-179 | so over any pushes |

## Left out

- Races between the administrator's thread and handlers inside one server call; a call is one step.
- Session objects are held by id in a map, so sharing of pointers is not captured; the order of a set of
  pointers is that of the ids, which matters only where two members of a room have the same nickname.
- The host's own screen, the chat log and every display string outside the messages sent.
- `stop()` and the accept loop's end; a server without storage, which keeps bans and bindings in text files.
- Legacy file import, schema migration, SQL text and SQLite error codes: a statement fails in the model only
  by violating a constraint, and a commit may fail for no reason.
- `created_at` of rooms, reasons and times of bans, expiring bans (nothing creates one), message signatures.
- TLS, sockets, OpenSSL, libsodium and UPnP: only the outcomes of their operations.
- Exceptions thrown by a completion callback, and a callback that starts another attempt from inside.
- Decoding UTF-8 and measuring characters: lines are sequences of glyphs with widths.
- `fit_text`, the line editor, the input history, invitations, the server browser, preferences, commands.
- ServerReach.RunSound: the host is placed at most once, as the program does.
- RoomCensus.RoomListAlwaysFits: assumes fewer than 2 to the 64th session objects, as counts are 64 bits wide.
- Restart.RestartThroughTheQueue: assumes that the queue refused nothing and no batch failed, since the server
  does not look at the result of storing.
- Restart.RestartRecovers: assumes that stored nicknames of bindings are as validated before storing, so their
  column is not cut at a NUL.
- History.WalkVisitsAll: assumes message ids without NULs, as random hexadecimal ids are.
- TrustStore.ForgottenUntilStored: about addresses that the file can hold, as the next one.
- TrustStore.ReplacedOnlyIfConfirmed: about addresses that the file can hold, without bar or line feed; a host
  name has neither.
- Transcript.AnchorIsStable: about appends and the evictions they cause; clearing the ring removes the anchor.
