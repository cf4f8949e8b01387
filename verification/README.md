# Verified model of the IRC relay server

A single-threaded IRC relay, modelled in three layers over one shared state and proved correct for every
input, every socket behaviour and every run.

* **Connection lifetime.** A send may end a connection; ending a connection announces its client's QUIT to
  its peers; those sends may end more connections, from inside any handler or broadcast loop. `Relay.dfy`
  holds the running relay as a class whose methods call each other the way `Server` and `IrcApplication`
  do, with an arbitrary oracle for failing interest updates and a limit on each outbound queue. The
  recursion is shown to terminate (live connections, then call rank, then recipients left), and the whole
  effect of any cascade on the application is *restriction to the survivors*. `Worlds.dfy` states, on plain
  values, what holds in the middle of a cascade and how each elementary change keeps it; `Events.dfy` says
  what serving an event is, `Replies.dfy` what the lines sent are, and `Services.dfy`, command by command,
  which reply its issuer has, which lines the others have, and that nobody else is sent anything.
* **Transport.** `Framing.dfy`, `Transport.dfy` and `Sockets.dfy` model `Connection`: the outbound queue
  with its offset, lazy compaction and limit against any script of sends, and the inbound framer against
  any chunking of the stream. `EventManagers.dfy` models the kqueue and epoll registrations.
* **Protocol.** `Messages.dfy` has the parser and both printers (sections 2.3 and 2.3.1 of RFC 1459),
  `Commands.dfy` what each command does to the application state, `Effects.dfy` what that means for members,
  operators, invitations, flags, topics and records, and `Runs.dfy` whole runs of connects, lines, ticks and
  losses. `Authority.dfy`, `Admission.dfy`, `Records.dfy` and `Timers.dfy` prove what holds
  over every run about operators and invitations, about registration, about client records, and about
  heartbeats and the rate limit. `RuntimeConfigs.dfy` has the numeric options.

How the layers meet: between two events the relay satisfies `Relay.Valid`, which says among other things
that its application state is exactly what its ghost history of steps yields (`Events.Traced`), and that
every client a tick found expired and that is still connected has been asked to close. Everything proved
about runs in `Authority`, `Admission`, `Records` and `Timers` therefore holds of the running relay.

Vocabulary used in the contracts:

* `World` is the relay's whole state as one value; `Good` is what holds wherever a line may be sent, however
  deep in a cascade; `closing` are the descriptors whose disconnect is under way; `loose` are those whose
  interest is to be recomputed before the event loop sees them again.
* `Cascade(w, w')`: the application state is `Survive` of the old one, queues of surviving connections only
  grew, and the attempts added are QUIT notices of the departed: exactly one to each co-member that is still
  there, at most one to the others, none to anybody else; a co-member still there and not closing has had the
  QUIT accepted. `Asked(w, batch)` adds the given attempts first.
* An attempt records what the line is, and the line's own command word decides that (`Suits`): a welcome is a
  001, a farewell a QUIT, a rename a NICK, and nothing else is.
* `Reached(w, w', targets, line)`: each target still connected and not being closed has had the line accepted
  into its queue since. Accepted lines are exactly what is on the wire or pending, and each is one line
  (`WiresOk` and `SpokenOk` inside `Good`).

* `Took(w, w', fd, line)`: the line was accepted for `fd` even if it is closing, unless it is gone or its queue
  has no room. `GoneFor(w, w', fd, reason)`: `fd` is gone and every co-member reached has its QUIT with this reason.
* `Sends(w, w', free, once)`: beyond QUIT notices of clients that went, only those in `free` were sent anything,
  and each in `once` at most one line. Every case of `Services.MessageServed` states it.
* `Members`, `Operators`, `Invitations`, `InviteOnly`, `TopicGuarded` and `TopicOf` are what a state shows of a
  channel, a channel that is not there having no members; the laws in `Effects.dfy` speak of nothing else.

## Model

| member | source | states |
|---|---|---|
| Relaying.Relay.SendTo | src/Server.cpp:256-268 | every send cascade terminates and is a restriction to survivors plus QUIT notices; a true answer means nothing changed except that descriptor's queue and interest, and the line is queued; a false answer means gone or closing |
| Relaying.Relay.RefreshInterest | src/Server.cpp:582-607 | afterwards the connection is settled or gone: closing only with output pending, watched for writing exactly while output is pending; true exactly if it is still there, and then watched for reading exactly unless closing; one that was closing without output is gone and its surviving co-members have its QUIT with its own close reason, one whose update failed with that reason; the update asked for is one whose failure leaves nothing behind |
| Relaying.Relay.Disconnect | src/Server.cpp:289-315 | the connection is gone, the effect is a cascade, and each co-member was sent the QUIT with this reason exactly once and has it queued unless it went too |
| Relaying.Relay.RemoveClientState | src/ApplicationSupport.cpp:297-337 | the client is gone from registry, index and channels, the rest is restricted to survivors of the nested sends, and the QUIT went to every co-member once and to nobody else |
| Relaying.Relay.CollectPeers | src/ApplicationSupport.cpp:303-321 | the peers collected channel by channel are exactly the distinct co-members, and nobody for an unregistered client |
| Relaying.Relay.SendEach | src/ApplicationSupport.cpp:201-213 | a whole set is served exactly once each although recipients may disappear part-way, and each survivor not closing has the line |
| Relaying.Relay.LeaveRooms | src/ApplicationSupport.cpp:323-334 | leaving every channel and then dropping the emptied ones equals restricting all channels to the others |
| Relaying.Relay.EraseClient | src/ClientRegistry.cpp:64-73 | record and index entry go together and nothing else does |
| Relaying.Relay.SendRaw | src/ApplicationSupport.cpp:280-282 | a true answer leaves the application state and every other connection unchanged; the line reaches the client unless it is gone or closing, and even a closing one unless its queue is full |
| Relaying.Relay.SendNumeric | src/ApplicationSupport.cpp:269-278 | the same for a numeric reply with its code and leading parameters |
| Relaying.Relay.BroadcastToChannel | src/ApplicationSupport.cpp:201-213 | each member but the exempt one is attempted exactly once, nobody else is, and the survivors have the line |
| Relaying.Relay.BroadcastToCommon | src/ApplicationSupport.cpp:218-233 | each distinct member of a shared channel is attempted exactly once however many channels are shared |
| Relaying.Relay.CollectCircle | src/ApplicationSupport.cpp:218-233 | the loop over channels collects exactly the members of the client's channels |
| Relaying.Relay.RequestClose | src/ApplicationSupport.cpp:284-289 | exactly this connection is closing, with exactly this reason, and a close is only asked for where the event loop will come back to the connection |
| Relaying.Relay.HandlePass | src/RegistrationCommands.cpp:33-50 | opens the password gate and registers when it was the last gate, with the whole greeting; 462 on a repeat, 461 without parameter; a wrong password is told 464 and closes with that reason |
| Relaying.Relay.HandleUser | src/RegistrationCommands.cpp:94-108 | opens the user gate and registers when it was the last gate, with the whole greeting; 462 when registered, 461 with too few parameters |
| Relaying.Relay.MaybeRegister | src/RegistrationCommands.cpp:144-164 | registration completes exactly when all three gates are open, and the 001 attempt is made exactly then |
| Relaying.Relay.WelcomeClient | src/RegistrationCommands.cpp:149-159 | the 001 that is owed is attempted once, whatever its cascade does, and the two lines after it follow while the client is there |
| Relaying.Relay.HandleNick | src/RegistrationCommands.cpp:52-92 | a valid free nickname is taken and registers when it was the last gate; 431, 432 or 433 otherwise; a registered client's rename is told exactly once to each distinct co-member and itself, with the old prefix |
| Relaying.Relay.TakeNickname | src/RegistrationCommands.cpp:72-91 | the accepted branch: index and record change together before anybody is told |
| Relaying.Relay.SetNickname | src/ClientRegistry.cpp:51-60 | the index loses the old entry before it gains the new one, so a case-only rename keeps exactly one entry |
| Relaying.Relay.FindFdByNickname | src/ClientRegistry.cpp:41-45 | while the index agrees with the records, finds the one client a scan of all records for the folded nickname finds, and nothing exactly if the scan finds nothing |
| Relaying.Relay.HandlePing | src/RegistrationCommands.cpp:110-119 | the PONG with the client's own token is queued for it, 409 without one, and nothing else changes beyond a cascade |
| Relaying.Relay.HandlePong | src/RegistrationCommands.cpp:124-134 | ends the wait only on the pending token, and sends nothing |
| Relaying.Relay.HandleQuit | src/RegistrationCommands.cpp:136-139 | only asks for a close, storing the given parameter as the reason; the state is otherwise untouched |
| Relaying.Relay.FindChannelForCommand | src/ApplicationSupport.cpp:107-118 | found exactly if the channel exists and has the client where membership is asked for; then nothing happened at all; otherwise the client is told 403 or 442 |
| Relaying.Relay.SendTopicReply | src/ApplicationSupport.cpp:120-126 | the reply with the topic, or without one, is queued unless the client is gone or closing |
| Relaying.Relay.CallRoll | src/ApplicationSupport.cpp:128-139 | every member's nickname once, operators marked |
| Relaying.Relay.SendNames | src/ApplicationSupport.cpp:128-147 | the reply with all members and the end of the list are queued unless the client is gone or closing |
| Relaying.Relay.HandleTopic | src/ChannelCommands.cpp:88-114 | the topic changes exactly for a member, an operator where protected, and every member is told the new text; a query is answered with the topic; each refusal has its own code |
| Relaying.Relay.ChangeTopic | src/ChannelCommands.cpp:109-113 | the accepted branch: the topic is changed before anybody is told |
| Relaying.Relay.HandleKick | src/ChannelCommands.cpp:116-155 | everyone including the target is told first, with the comment; then the target leaves the channel if the channel survived the telling; each refusal has its own code |
| Relaying.Relay.HandleInvite | src/ChannelCommands.cpp:157-197 | the invitation is stored before any send, acknowledged, and reaches the invited client; each refusal has its own code |
| Relaying.Relay.GiveInvitation | src/ChannelCommands.cpp:184-196 | the accepted branch: what was stored survives the two sends exactly for the survivors |
| Relaying.Relay.HandleJoin | src/ChannelCommands.cpp:15-73 | names are joined in order, each in the state the cascades before it left and each served as stated for one name; the list is cut short only when the client is gone or closing; JOIN 0 leaves all channels |
| Relaying.Relay.JoinChannel | src/ChannelCommands.cpp:27-71 | one name: refused with 403 or 473, repeated with the roll alone, or entered with the invitation consumed; the JOIN reaches every member including the new one |
| Relaying.Relay.AnnounceJoin | src/ChannelCommands.cpp:60-71 | the channel used after the broadcast is still the live one whenever it is used; the joiner has the topic reply and the roll of the members left then |
| Relaying.Relay.EnsureChannel | src/ApplicationSupport.cpp:92-102 | an existing channel is left as it is |
| Relaying.Relay.PartChannel | src/ApplicationSupport.cpp:161-184 | all members are told, with the reason, then the client is taken out of what is left, and an emptied channel vanishes; 403 or 442 otherwise |
| Relaying.Relay.HandlePart | src/ChannelCommands.cpp:75-86 | leaving a list one by one, with cascades between, equals leaving the set of names at the end; each name is served in turn with the given reason |
| Relaying.Relay.PartAllChannels | src/ApplicationSupport.cpp:149-159 | the same for every channel the client was in at the start |
| Relaying.Relay.RemoveFromChannel | src/ApplicationSupport.cpp:235-240 | one member leaves and the channel goes exactly if that empties it |
| Relaying.Relay.BroadcastMode | src/ApplicationSupport.cpp:189-199 | true exactly if the client and the channel are both still there; members have the MODE line |
| Relaying.Relay.ModeChar | src/ChannelCommands.cpp:310-359 | one mode character changes the channel, the sign or the argument index as its specification says, on a channel proved live; the members have the MODE line with the sign in force, and an unknown character is answered 472 |
| Relaying.Relay.ModeOperator | src/ChannelCommands.cpp:330-355 | a member named by the next argument becomes or ceases to be operator and the members have the MODE line with the sign in force and its nickname; otherwise nothing changes and the client is told 461 or 441 |
| Relaying.Relay.HandleChannelMode | src/ChannelCommands.cpp:277-361 | the loop over the mode string equals the specification's run, with authority checked once at the start, each character served with the sign and argument the string gives it, and stops early only when the client is gone or closing |
| Relaying.Relay.HandleMode | src/ChannelCommands.cpp:199-225 | channel modes for channel targets; a user target changes nothing; every query and refusal has its own code |
| Relaying.Relay.HandleList | src/ChannelCommands.cpp:227-250 | a reply with member count and topic for every requested channel, all if none was named, unless the client is gone or closing; every name used during the walk still denotes a live channel |
| Relaying.Relay.ListChannels | src/ChannelCommands.cpp:237-249 | the walk over the channels between the first and the last reply |
| Relaying.Relay.ListChannel | src/ChannelCommands.cpp:242-247 | one channel's reply |
| Relaying.Relay.HandleNames | src/ChannelCommands.cpp:252-275 | a reply with all members for every channel named, for every channel if none was, unless the client is gone or closing |
| Relaying.Relay.NameAllChannels | src/ChannelCommands.cpp:253-261 | the walk over all channels |
| Relaying.Relay.NameChannel | src/ChannelCommands.cpp:265-273 | one name: the members, or the end of a list if there is no such channel |
| Relaying.Relay.HandlePrivmsg | src/MessagingCommands.cpp:11-48 | every target is served in order, 401 or 404 for one that cannot be: while the sender is there, each recipient still connected and not closing has the message; after that, nicknames have it in the server's name and channels nothing |
| Relaying.Relay.RelayTo | src/MessagingCommands.cpp:22-47 | one target: exactly the other members, or the one nickname, are attempted once |
| Relaying.Relay.RecordCommand | src/IrcApplication.cpp:194-213 | the command is counted in the popped window and accepted exactly within the limit; otherwise the client is told 439 and is gone or closing for that reason |
| Relaying.PopFront | src/IrcApplication.cpp:196-200 | the front-popping loop |
| Relaying.Relay.HandleMessage | src/IrcApplication.cpp:103-141 | dispatch refines the one-command specification for every command, registered or not, and everybody concerned has what that command brings (`Services.MessageServed`) while nobody else is sent anything but farewells: 451 before registration, 421 for an unknown command |
| Relaying.Relay.HandleRest | src/IrcApplication.cpp:118-140 | the same for the commands of registered clients other than JOIN, PART and MODE |
| Relaying.Relay.HandleMetrics | src/ApplicationSupport.cpp:75-90 | a NOTICE in the server's name is queued for the client and nothing else changes beyond a cascade |
| Relaying.Relay.OnLine | src/IrcApplication.cpp:35-54 | one line refines the one-line specification: touch, parse, count, dispatch; a rejected line is answered 417 with the parser's error, one past the limit 439 and a close, any other as its message is |
| Relaying.Relay.TakeCommand | src/IrcApplication.cpp:44-54 | the part of that after a successful parse |
| Relaying.Relay.MaintainClient | src/IrcApplication.cpp:149-186 | one not registered in time is told 451 and closes for that reason, one that owes a PONG too long is told ERROR and closes for that, an idle one is sent the PING with its fresh token, others are untouched |
| Relaying.Relay.SendProbe | src/IrcApplication.cpp:174-185 | the token remembered is the token sent |
| Relaying.Relay.SayGoodbye | src/IrcApplication.cpp:155-168 | the last line is accepted unless the client is gone or its queue is full, and the close has the given reason |
| Relaying.Relay.MaintainAll | src/IrcApplication.cpp:64-70 | each client visited once with the record it had when the tick began, each seen to as stated for one, and every overdue one is gone or closing at the end |
| Relaying.Relay.OnTick | src/IrcApplication.cpp:64-70 | one tick is one step of the run, in which each client is seen to in turn, and every client that had overstayed when it began is gone or closing when it ends |
| Relaying.Relay.Shutdown | src/IrcApplication.cpp:72-79 | every connection left is closing, has output pending and is watched for writing, and had the ERROR line accepted unless its queue is full |
| Relaying.Relay.OnConnect | src/IrcApplication.cpp:17-30 | a new record replaces whatever the descriptor had |
| Relaying.Relay.AcceptClient | src/Server.cpp:417-476 | refused at the limit, on a duplicate or when watching fails, without any change; otherwise entered with the configured limits, counted and settled |
| Relaying.Relay.EnterClient | src/Server.cpp:446-476 | an arrival let in is one Connect of the run, its connection has the configured limits, and it stays unless watching it fails at once |
| Relaying.Relay.AcceptReadyClients | src/Server.cpp:397-478 | each waiting socket in turn, each in the state the one before left |
| Relaying.Relay.ServeLine | src/Server.cpp:516-530 | one line is one step of the run at the next reading of the clock, served as `OnLine` serves it |
| Relaying.Relay.DispatchLines | src/Server.cpp:515-540 | lines are handled in order, each exactly once and each served in the state the one before left, until the client is gone or closing; a client already closing gets only the first |
| Relaying.Relay.ServeRead | src/Server.cpp:508-545 | a failed read drops the client with the reason of that failure and no line is handled; otherwise the framed lines are served in order; after a peer close only the first, and then the client is asked to close for that |
| Relaying.Relay.ServeWrite | src/Server.cpp:552-562 | a failed flush drops the client with the reason of that failure; otherwise exactly what the socket took leaves the queue |
| Relaying.Relay.FinishEvent | src/Server.cpp:564-573 | the connection served goes with its own close reason if it is closing without output, with that of a failed update, and otherwise stays as it is |
| Relaying.Relay.ServeHangup | src/Server.cpp:564-573 | a hangup drops a client without output for that reason; otherwise it is settled |
| Relaying.Relay.ServeRest | src/Server.cpp:547-573 | the write, hangup and settling part, in whatever state the read left |
| Relaying.Relay.HandleClientEvent | src/Server.cpp:492-573 | the whole event from a stable point to a stable point: unknown and error cases; what each line read brought; what the flush did to the state the read left; hangup; with which reason a client that went was announced; no close request is ever withdrawn |
| Relaying.Relay.PollOnce | src/Server.cpp:167-194 | any batch in order, each item in the state the ones before left; stable afterwards |
| Relaying.Relay.CloseAllConnections | src/Server.cpp:629-643 | nobody is left and closed equals accepted, although each disconnect may take others along |
| Relaying.Relay.Run | src/Server.cpp:148-162 | over any batches, everything accepted is closed in the end |
| Relaying.Relay.Serve | src/main.cpp:76-86 | over any batches and ticks the state stays stable, and after the graceful stop every connection left is winding down if nobody new arrived |
| Relaying.Listing | src/ClientRegistry.cpp:33-39 | each client exactly once |
| Relaying.Relay.AtRest | src/Server.cpp:492-607 | at every stable point: clients, connections and interests have the same keys; accepted minus closed is the live count; closing implies pending implies write interest; buffers within bounds; registered exactly when all gates are open; 001 attempted exactly once per registered connection and accepted at most once, never otherwise |
| Relaying.Relay.SilentAreClosing | src/IrcApplication.cpp:149-186 | a registered client that goes silent while ticks keep coming was gone since or is closing, asked by a tick no later than idle timeout, ping timeout and two gaps after its last line |
| Relaying.Relay.LateAreClosing | src/IrcApplication.cpp:155-162 | a client that stays unregistered while ticks keep coming is closing, asked by a tick no later than the registration timeout and one gap after it connected |
| Events.DismissedStep | src/IrcApplication.cpp:163-173 | no step of a run leaves a client that overstayed connected without a close request |
| Events.TracedStep | src/IrcApplication.cpp:35-70 | the running state keeps being what its history yields |
| Events.QuitIsPassedOn | src/Server.cpp:508-591 | when the last line an event serves is a QUIT within the rate limit and nothing stays unwritten, the client is gone and every co-member neither gone nor closing has its QUIT with its own parameter, or the peer's close or hangup if there was one |
| Events.ClosingGoes | src/Server.cpp:552-591 | a closing client for which everything is written goes, and its co-members have the reason it was closed with |
| Replies.MessagedStep | src/MessagingCommands.cpp:22-47 | what was delivered before stays delivered through the cascades of later targets |
| Replies.ProperMessage | src/Replies.cpp:20-41 | a printed message with a word as prefix and command and parameters without line feed is one line whose command word is its command |
| Replies.NumericIsProper | src/Replies.cpp:43-53 | no numeric but the welcome is a 001, whatever its parameters |
| Replies.CodeIsWord | src/Replies.cpp:14-18 | a code is all digits, and 001 exactly for one |
| Replies.MaskIsReadable | src/Replies.cpp:59-63 | a reader of a prefix has the nickname before the first exclamation mark, then the user, and the host at its end |
| Worlds.PeerSeesAcceptedLines | src/Connection.cpp:257-272 | for every live connection and however its peer reads, the peer has a prefix of the accepted lines, one frame each; all of them when nothing is pending and each fits its limit, and an overflow only if one does not |
| Worlds.CascadeThen | src/ApplicationSupport.cpp:297-337 | nested or successive cascades in any order are one cascade |
| Worlds.AskedThen | src/ApplicationSupport.cpp:201-233 | sends one after another, each with its own cascade, are one batch with one cascade |
| Worlds.ErasureEndsCascade | src/ApplicationSupport.cpp:297-337 | telling the peers and then erasing the client is a cascade in which it went |
| Worlds.SendIsCascade | src/Server.cpp:256-268 | queueing followed by a refresh is a cascade |
| Worlds.DisconnectIsCascade | src/Server.cpp:289-315 | unlinking followed by the callback is a cascade |
| Worlds.CopiesConfine | src/ApplicationSupport.cpp:201-213 | a broadcast with all its cascades sends nobody but its targets anything other than QUIT notices, and each of them at most one line |
| Worlds.NoticesThen | src/ApplicationSupport.cpp:303-321 | over two stretches of a cascade each surviving co-member of each departed client is told exactly once |
| Worlds.MournedThen | src/ApplicationSupport.cpp:303-321 | and keeps the QUIT it was told, unless it is closing |
| Worlds.RefreshIsSafe | src/Server.cpp:594-605 | no interest update the relay asks for can leave a kqueue filter behind when it fails and the connection is dropped |
| Worlds.OpeningIsSafe | src/Server.cpp:446-453 | nor can the registration of an accepted connection |
| State.SurviveTwice | src/ApplicationSupport.cpp:323-336 | restricting twice is restricting to the smaller set, so the order of nested removals does not matter |
| State.SurviveWF | src/ApplicationSupport.cpp:323-336 | restriction keeps the state well formed |
| State.NicknamesFold | src/Channel.cpp:149-155 | two nicknames fold alike exactly if they differ in the case of letters only |
| State.NicknamesAreUnique | src/ClientRegistry.cpp:41-73 | no two live clients share a folded nickname |
| Commands.NicknamedKeepsIndex | src/ClientRegistry.cpp:51-60 | setting a nickname keeps the index in agreement with the records exactly when the folded name is free or the client's own |
| CommandLaws.LeaveOneMore | src/ApplicationSupport.cpp:161-184 | one more departure, after one more cascade, is leaving one more name |
| CommandLaws.JoinZeroLeavesAll | src/ChannelCommands.cpp:20-23 | JOIN 0 leaves its issuer in no channel |
| CommandLaws.JoinOneWF | src/ChannelCommands.cpp:27-59 | joining keeps the state well formed, and no empty channel is left behind by a refusal |
| CommandLaws.HandledWF | src/IrcApplication.cpp:103-141 | every command keeps the state well formed whatever the cascades inside it |
| CommandLaws.LineHandledWF | src/IrcApplication.cpp:35-54 | every line keeps the state well formed |
| CommandLaws.PeersAreCircle | src/ApplicationSupport.cpp:303-321 | skipping unregistered clients loses no notice, since only registered clients have co-members |
| Runs.RunsKeepState | src/IrcApplication.cpp:17-79 | over every run: three gates decide registration, index agrees with a scan of the records, channels are non-empty, validly named, stored under their own names, with operators among members among registered clients; nothing stored for a message carries a line feed |
| Effects.SurvivorsSee | src/ApplicationSupport.cpp:323-336 | a restriction to survivors takes the departed out of every channel and changes nothing else anybody sees |
| Effects.KickTakesTheTarget | src/ChannelCommands.cpp:116-155 | KICK by an operator takes the member with that nickname out of that channel; every other survivor keeps its membership and status there, and every other channel is only restricted to survivors |
| Effects.PartLeavesTheNamed | src/ChannelCommands.cpp:75-86 | PART takes its issuer out of exactly the channels named and nobody else out of any |
| Effects.JoinZeroLeavesTheRest | src/ChannelCommands.cpp:20-23 | JOIN 0 takes its issuer out of every channel and nobody else out of any |
| Effects.JoinLetsIn | src/ChannelCommands.cpp:27-59 | one name of a JOIN: the issuer enters exactly if the name is valid and the channel not closed to it, becomes operator exactly if nobody was there, its invitation is used up, a new channel is open with its topic guarded; nothing else changes |
| Effects.JoinedStays | src/ChannelCommands.cpp:15-73 | after a JOIN list its issuer, if still there, is in every channel that let it in at its turn |
| Effects.TopicIsSet | src/ChannelCommands.cpp:88-114 | TOPIC with a text stores that text exactly for a member, an operator where guarded, and changes nothing else |
| Effects.InvitationIsStored | src/ChannelCommands.cpp:157-197 | INVITE stores the folded nickname exactly if its issuer may ask, and changes nothing else |
| Effects.ModeCharacterActs | src/ChannelCommands.cpp:310-359 | one mode character: after `o` under plus the named member is operator, under minus it is not, nobody else's status changes beyond losses; after `i` or `t` the flag is the sign |
| Effects.RunFollowsString | src/ChannelCommands.cpp:306-338 | the sign and the argument in force at each character are those the string gives it |
| Effects.FlagsAfterRun | src/ChannelCommands.cpp:310-329 | after a mode string each flag has the sign of its last mention, and is as before without one |
| Effects.StatusAfterRun | src/ChannelCommands.cpp:330-355 | after a mode string a member is operator by the sign of the last character that named it, and as before if none did |
| Effects.ModeNeedsOperator | src/ChannelCommands.cpp:277-298 | MODE with a mode string runs it exactly for an operator of the channel, and otherwise changes nothing |
| Effects.PassOpensGate | src/RegistrationCommands.cpp:33-50 | PASS opens a closed gate exactly with the password, or with anything where there is none, and registers its sender exactly if the other gates are open |
| Effects.UserOpensGate | src/RegistrationCommands.cpp:94-108 | USER with four parameters stores the first and the fourth for an unregistered client, and registers it exactly if the other gates are open |
| Effects.NickIsTaken | src/RegistrationCommands.cpp:52-92 | NICK with a valid name that no other client has makes it its sender's name, and registers it exactly if the other gates are open; otherwise nothing changes |
| Effects.PongEndsWait | src/RegistrationCommands.cpp:124-134 | PONG ends its sender's wait exactly with the pending token as the only parameter |
| Effects.OtherCommandsChangeNothing | src/IrcApplication.cpp:103-141 | every other command word, and any but the six open to all from an unregistered client, changes nothing |
| Effects.ConnectingStartsAnew | src/IrcApplication.cpp:17-30 | a new client has given nothing yet, and its password gate is open exactly if there is no password |
| Effects.NamesAreAddressable | src/ChannelCommands.cpp:205-209 | every valid channel name is one item of a list and taken for a channel, every valid nickname one item and not taken for a channel, so either can be named in any command |
| Services.RefusedChangesNothing | src/ChannelCommands.cpp:88-197 | KICK, INVITE, TOPIC and NICK are answered with an error code exactly when they change nothing |
| Services.ModeActsUnlessAnswered | src/ChannelCommands.cpp:199-298 | MODE is answered with a reply exactly when it is not an operator's mode string for its channel |
| Authority.JoinRunGains | src/ChannelCommands.cpp:15-73 | a JOIN makes an operator only of its issuer and only of a channel that did not exist when its name came up; it enters an invite-only channel only on a stored invitation, gone afterwards |
| Authority.ModeRunGains | src/ChannelCommands.cpp:277-361 | a mode string adds no member or invitation, and makes an operator only of a member of the named channel that an `o` under a plus sign names |
| Authority.StepGains | src/ChannelCommands.cpp:15-361 | one step of any kind: who can become operator, member or invited, and by which command of a registered client within its rate limit |
| Authority.OperatorsHaveAnOrigin | src/ChannelCommands.cpp:15-361 | in every run each operator founded the channel or was named in a +o of a client that was operator when that MODE began, and has been operator since |
| Authority.OperatorsDescendFromFounder | src/ChannelCommands.cpp:277-361 | in every run each operator's grants, each a +o naming the next, trace back, ever earlier, to a founder |
| Authority.InvitationsHaveAnOrigin | src/ChannelCommands.cpp:157-184 | in every run each stored invitation came from an INVITE by a member, an operator if the channel was invite-only, and has been stored ever since |
| Authority.EntryIsByInvitation | src/ChannelCommands.cpp:42-59 | in every run a client enters a channel only by its own JOIN, an invite-only one only on a stored invitation, which that join consumes |
| Admission.StepOpens | src/RegistrationCommands.cpp:33-50 | a gate of a client is open after a step exactly if it was open before or the step opens it: a PASS with the password where there is one, a NICK with a valid free name, a USER with four parameters, each within the rate limit |
| Admission.HandledGates | src/RegistrationCommands.cpp:33-164 | the same for one command of a client, whatever cascades it starts |
| Admission.GatesAreOpened | src/RegistrationCommands.cpp:33-164 | in every run a gate of a connected client is open exactly if some step since it connected opened it |
| Admission.RegistrationIsByThreeGates | src/RegistrationCommands.cpp:144-164 | in every run a connected client is registered exactly if since it connected, in any order and within the rate limit, it gave the password, took a free valid nickname and described its user |
| Admission.RegisteredClientsGavePassword | src/RegistrationCommands.cpp:33-50 | in every run of such a relay each registered client sent a PASS with that password on the connection it is registered on |
| Records.LineRecords | src/IrcApplication.cpp:35-54 | a line changes only its sender's record; its window, activity time and wait change exactly as stated |
| Records.TickRecords | src/IrcApplication.cpp:64-70 | a tick changes each visited record at most by one probe |
| Timers.WaitsEndByAnswer | src/RegistrationCommands.cpp:124-134 | in every run a wait ends only by a PONG of that client carrying the pending token |
| Timers.TokensNeverRepeat | src/IrcApplication.cpp:174-185 | in every run no token is issued twice, not even when the client it went to did not survive the tick |
| Timers.TokenIsInjective | src/IrcApplication.cpp:174-185 | tokens of different clients or counts differ as text |
| Timers.SilentClientsExpire | src/IrcApplication.cpp:149-186 | in every run a registered client that goes silent is found overdue within idle timeout, ping timeout and two tick gaps |
| Timers.SilenceIsOverdue | src/IrcApplication.cpp:149-186 | the same on the timer fields alone, for any tick times no further apart than the gap |
| Timers.LateClientsExpire | src/IrcApplication.cpp:155-162 | in every run a client that stays unregistered is found expired within the registration timeout and one tick gap of its connection |
| Timers.ExpiryInRun | src/IrcApplication.cpp:149-173 | in every run a tick finds a client expired exactly if it is unregistered past the registration timeout since it connected or, heartbeats on, owes a PONG past the ping timeout |
| Timers.OpeningIsRemembered | src/IrcApplication.cpp:17-30 | while a connection lasts its record has the time it was opened, and a registration is never undone |
| Timers.WindowIsRecent | src/IrcApplication.cpp:194-201 | popping from the front equals filtering the whole history to the trailing window |
| Timers.NoWindowIsOverfull | src/IrcApplication.cpp:194-213 | no trailing window holds more accepted commands than the limit |
| Timers.RunWindow | src/IrcApplication.cpp:194-213 | in every run the stored window is the one computed from the client's command times since it connected |
| Timers.AcceptedByWindow | src/IrcApplication.cpp:194-213 | the limiter lets a command of a run through exactly if the window computed from the client's commands since it connected is within the limit |
| Timers.AcceptedCommandsAreSparse | src/IrcApplication.cpp:194-213 | in every run, between two commands of one connection that the limiter let through less than a window apart, it let through at most the limit |
| Framing.Frame | src/Connection.cpp:307-338 | what is retained is newline-free and within the limit, and every line is newline-free and shorter than the limit |
| Framing.ChunkingIsInvisible | src/Connection.cpp:139-175 | any chunking yields the lines, rest and overflow of one pass over the whole stream |
| Framing.FrameInTwoReads | src/Connection.cpp:307-338 | framing in two reads is framing at once |
| Framing.FramingInvertsWire | src/Connection.cpp:257-272 | the reader recovers the written lines if and only if each fits its limit, and otherwise the ones before the first that does not |
| Transport.CanAppendPending | src/ConnectionLimits.hpp:15-20 | the wrapped subtraction decides exactly the unbounded comparison |
| Transport.QueueRaw | src/Connection.cpp:242-250 | accepted exactly when it fits the limit; a refusal leaves the queue and asks for a close |
| Transport.QueueLine | src/Connection.cpp:257-272 | accepted exactly when the trimmed line and CRLF fit |
| Transport.Drain | src/Connection.cpp:183-219 | the offset only moves forward inside the buffer, and a close is asked for exactly on an error |
| Transport.DrainMovesOn | src/Connection.cpp:183-209 | outcomes that take octets or interrupt move the loop on by exactly the octets they take |
| Transport.DrainStops | src/Connection.cpp:188-219 | the first other outcome ends the loop and decides its verdict, taking nothing |
| Transport.Compact | src/Connection.cpp:221-234 | forgetting sent bytes keeps what is pending and bounds the offset |
| Transport.SentBy | src/Connection.cpp:179-237 | what was sent followed by what is left is what was pending |
| Transport.ReceiveIsOneFramingPass | src/Connection.cpp:139-175 | a whole read is one framing pass over what was retained and everything that arrived; the verdict is an error exactly on an overlong line or a failed receive, and otherwise that of the outcome that ended the loop |
| Transport.ReadCloses | src/Connection.cpp:139-175 | the reason a read leaves for a close is that of an overlong line, a failed receive or the end of the stream, whichever ended it, and otherwise the one there was; the peer's end is noted exactly at the end of the stream |
| Transport.BytesAreConserved | src/Connection.cpp:179-272 | for every sequence of calls and every script: sent followed by pending equals everything accepted; pending within the limit; the buffer within the limit plus 16384 |
| Transport.LineChannel | src/Connection.cpp:257-338 | end to end: queued lines, any sends, any chunks, the same lines with trailing CR and LF stripped, up to the first that does not fit |
| Transport.ReaderSeesPrefix | src/Connection.cpp:307-338 | at every moment the reader has a prefix of the lines |
| Sockets.Connection.constructor | src/Connection.cpp:42-58 | zero limits stand for the defaults |
| Sockets.Connection.QueueRaw | src/Connection.cpp:242-250 | the object does what the value function says |
| Sockets.Connection.QueueLine | src/Connection.cpp:257-272 | the two-step limit test equals one test of the whole line |
| Sockets.Connection.FlushPending | src/Connection.cpp:179-237 | the send loop over the fields equals the value function for every script |
| Sockets.Connection.ExtractLines | src/Connection.cpp:307-338 | the in-place loop equals one framing pass |
| Sockets.Connection.ReadAvailable | src/Connection.cpp:139-175 | the receive loop equals the value function for every script |
| Sockets.Connection.RequestClose | src/Connection.cpp:274-278 | only the close flag and reason change |
| Messages.ParseUndoesFormat | src/Replies.cpp:20-41 | parsing undoes printing, up to upper-casing the command, if and only if the message is printable |
| Messages.ReprintIsStable | src/IrcMessage.cpp:61-130 | reprinting never lengthens the frame, and re-parsing returns the same message if and only if no colon follows leading spaces and no CR or LF stands before trailing spaces outside a trailing parameter |
| Messages.CleanFramesAreStable | src/IrcMessage.cpp:61-130 | frames without CR, LF and leading space are stable under parse and print |
| Messages.LeadingSpaceIsNotStable | src/IrcMessage.cpp:95-109 | a concrete frame whose reprint is rejected |
| Messages.CarriageReturnIsNotStable | src/IrcMessage.cpp:175-181 | a concrete line with a CR before a trailing space, whose reprint reads back differently |
| Messages.ParsedIsDecent | src/IrcMessage.cpp:61-130 | a line without line feed parses to parameters without one, and all but the last are plain words |
| Messages.FormatSaysCommand | src/Replies.cpp:20-41 | the command word of a printed message is its command |
| Messages.PrintersAgree | src/IrcMessage.cpp:35-52 | the two printers agree if and only if no parameter but the last needs the marker |
| Messages.ParsedShape | src/IrcMessage.cpp:61-130 | what the parser can return |
| Messages.ParamsRoundTrip | src/Replies.cpp:31-38 | parsing undoes printing on parameter lists |
| Messages.ParseLine | src/IrcMessage.cpp:61-130 | the position-advancing parser equals the recursive one, error cases included |
| Messages.ParseRest | src/IrcMessage.cpp:111-127 | the parameter loop |
| Messages.ParamsByShape | src/IrcMessage.cpp:111-127 | any blanks, a token and more parse to the token before what the rest parses to, and any blanks and a colon to everything behind it |
| Messages.FrameByShape | src/IrcMessage.cpp:61-110 | a frame made of a prefix, blanks, a command word and more parses to that prefix, that command in upper case and what the rest parses to |
| Messages.RejectedFrames | src/IrcMessage.cpp:61-110 | a frame is rejected exactly if it is empty, too long, only a prefix, or has no command, and with the error of that case |
| Messages.TrimFrame | src/IrcMessage.cpp:175-181 | the trimming loop |
| Messages.FormatMessage | src/Replies.cpp:20-41 | the printing loop of `formatMessage` |
| Messages.PrintLine | src/IrcMessage.cpp:35-52 | the printing loop of `toLine` |
| Text.SplitComma | src/ApplicationSupport.cpp:46-61 | for every list of texts without comma, splitting their comma-join returns exactly the non-empty ones, in order; every value is such a join |
| Text.SplitUndoesJoin | src/ApplicationSupport.cpp:46-61 | splitting undoes joining, up to the empty items |
| Text.EveryTextIsJoined | src/ApplicationSupport.cpp:46-61 | every text is the comma-join of some texts without comma |
| Text.PiecesAreNonEmptyAndCommaFree | src/ApplicationSupport.cpp:46-61 | no empty piece and no comma comes out |
| Text.CasesAgree | src/Channel.cpp:149-155 | two characters fold to the same lower-case one exactly if they fold to the same upper-case one, for letters and everything else |
| EventManagers.DiffRefines | src/KqueueEventManager.cpp:142-166 | a successful per-filter diff leaves the kernel holding exactly the filters of the new mask |
| EventManagers.ForgetRefines | src/KqueueEventManager.cpp:73-83 | a removal leaves none of the descriptor's filters and touches no other |
| EventManagers.FailedDiffIsUndone | src/KqueueEventManager.cpp:142-173 | whatever the kernel does, a failed update followed by a removal leaves it in step, if and only if the update does not add the read filter while changing the write filter |
| EventManagers.OutcomeIsUndone | src/KqueueEventManager.cpp:142-173 | the same for one outcome: something stays behind exactly if the read filter had just been added |
| EventManagers.LeakedFilter | src/KqueueEventManager.cpp:142-173 | the concrete case: a fresh descriptor whose write filter is refused keeps its read filter after the removal |
| EventManagers.LatestCallDecides | src/KqueueEventManager.cpp:42-83 | after any sequence of calls the interest kept for a descriptor is the one of the last call about it, an addition without interest not counting |
| EventManagers.KqueueEventManager.AddFd | src/KqueueEventManager.cpp:42-53 | a successful call refines the common meaning; a failed one leaves the cache |
| EventManagers.KqueueEventManager.UpdateFd | src/KqueueEventManager.cpp:58-71 | the same for updates, an empty interest meaning removal |
| EventManagers.KqueueEventManager.RemoveFd | src/KqueueEventManager.cpp:73-83 | cache and kernel stay in step |
| EventManagers.KqueueEventManager.Replay | src/KqueueEventManager.cpp:42-83 | any sequence of successful calls refines the common map, kernel equal to cache |
| EventManagers.EpollEventManager.AddFd | src/EpollEventManager.cpp:73-85 | mutual recursion with UpdateFd terminates; kernel equals cache after success and failure |
| EventManagers.EpollEventManager.UpdateFd | src/EpollEventManager.cpp:87-102 | the same |
| EventManagers.EpollEventManager.RemoveFd | src/EpollEventManager.cpp:104-122 | cache and kernel lose the descriptor together |
| EventManagers.EpollEventManager.Replay | src/EpollEventManager.cpp:73-122 | any sequence of successful calls refines the same map as kqueue |
| RuntimeConfigs.ParseUnsigned | src/RuntimeConfig.cpp:15-37 | accepted exactly when the text is a number within the maximum, with that value; no wrap |
| RuntimeConfigs.ParsePort | src/RuntimeConfig.cpp:56-66 | exactly 1 to 65535 |
| RuntimeConfigs.ParsePositiveInt | src/RuntimeConfig.cpp:105-114 | exactly 1 to 86400 |

## Left out

- Values instead of objects in the relay: connections, client records and channels are values in map fields of `Relay`; aliasing between a held reference and a map entry is therefore expressed as "the entry is still there and unchanged", not as pointer validity. `Sockets.Connection` is the object form of a connection.
- Iteration order: loops over sets and maps take any order, so the contracts hold for every order, the one the containers use included.
- Reply wording: the closing words of numerics, the figures of METRICS, logging, counters other than accepted and closed connections, and the idle-timeout counter, which may count one client on several ticks.
- Relaying.Relay.SendNumeric: states code and leading parameters of a reply without its closing words, because they are only text.
- Relaying.Relay.HandleMetrics: does not state the figures in the NOTICE, most of which are counters the model does not keep.
- Relaying.Relay.HandleList: does not state the closing words of the last reply, which are only text.
- Relaying.Relay.HandleNames: does not state the closing words of the last reply, which are only text.
- Lines read together with a peer close or before an oversized line: the code hands on only the first, or none; the model follows the code and proves no more.
- Clock: readings are integers in the clock's own unit and never run backwards. The timer theorems ask for positive timeouts and a positive rate window, which the option parser guarantees; tokens are counted without bound.
- Outside world: descriptions of socket errors come without line feed and peer addresses without line feed or space (types `Words` and `Address`). A script of outcomes that runs out stands for a socket that would block, so an endless stream of interrupted calls is not modelled. A descriptor being removed from the event manager does not fail. Binding, listening, address formatting and descriptor flags are not part of the model.
- Kernel side of the event managers: waiting, conversion of native flags, and the kernel's own clean-up when a descriptor is closed. The one case in which a failed update followed by a removal leaves a filter behind is never asked for by the relay (Worlds.RefreshIsSafe).
- Exceptions thrown by callbacks or by allocation, and the branch of `onLine` that would create a missing record, which `Relay.Valid` shows is never needed.
- Byte counters wrap nowhere but in the limit arithmetic, where the wrap is modelled.
- `queueRawTo`, `consumeBuffer`, `clearTopic` and the parsing of option names: not called by the modelled paths, or easy.
- Nickname folding follows the code, which lower-cases letters only; section 2.2 of RFC 1459 also equates some punctuation.
- Teardown in the main program: the callbacks are cleared before the server object closes what is left, so there the application state is not updated any more; Relaying.Relay.Run models the closing with callbacks in place, as `Server::run` does.
