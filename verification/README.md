# Tulpje, verified

A Dafny model of the parts of Tulpje that carry state or have to agree with each other, and proofs of what they
keep. `dafny verify dfyconfig.toml` checks everything.

Where the program changes things in place, the model does too: a class has the program's fields, and each of its
methods is proved to do what a specification function says of that step. What the program promises is then proved of
the specification, over all inputs and all runs, and so holds of the class.

| files | part of the program |
|---|---|
| `Amqp`, `AmqpStart`, `AmqpShutdown`, `AmqpLedger`, `AmqpTraffic`, `AmqpRecovery`, `AmqpResources`, `AmqpConnection` | the reconnecting AMQP connection: eleven states, a one-shot for the start, two queues, one connection and one channel at a time |
| `CacheTables`, `CachePeople`, `CacheOwned`, `CacheMessages`, `CacheGuilds`, `CacheEvents`, `CacheRuns`, `CacheWindows`, `CacheEffects`, `CacheArrivals`, `Cache` | the guild cache: primary tables with index sets, changed by gateway events |
| `Releases` | the release tool: propagating releases through dependents in one pass |
| `FrontPolling` | the front update service: five stalest systems per tick |
| `RoleSync` | member roles: diff, limit gate, application, assignment |
| `FronterChannels` | fronter channels: delete, create and move until the category is as wanted |
| `Emoji` | parsing, printing and counting emojis |
| `Routing` | command names built by the module builder against names extracted from interactions |
| `Base` | options, results and facts about collections |

## What the proofs found

Where a promise holds only under a condition, the condition is stated as an equivalence; for several of them a
concrete input that fails it is exhibited as well.

* AMQP: a shutdown request is looked at only before the start and while connected (`ShutdownUnnoticed`), so a machine
  that has lost its connection or channel ends exactly if it can get connected again (`ShutdownEndsIff`). Runs from the
  start get there and never end (`NeverEndsReconnecting`, `NeverEndsReopening`).
* Cache: the emptiness test of a set answers whether the set exists (`repository.rs:132-138`), the opposite of its name;
  its only caller negates it, so the behaviour is right. A deleted guild stays listed with its members, so their users
  stay cached even when they leave their last other guild (`DeletedGuildKeepsUsers`). A channel can outlive its guild (`LostGuildChannelsIff`,
  `ForgottenChannelRun`), and voice states always do (`LostGuildIsGone`). An emoji or sticker that is cached under
  another guild with an equal value is not listed with the guild whose update names it (`EmojiUpdateExact`,
  `StickerUpdateExact`, `SharedEmojiMissesIndex`). A message created twice is in its window twice (`WindowsAgreeIff` says
  exactly which runs keep windows and messages in agreement).
* Releases: the single pass finds exactly what rising paths lead to, and is complete exactly on orders where these go
  everywhere (`PassFindsIff`, `PassCompleteIff`); the assumption noted in `__init__.py:42`, that nothing depends on a
  group, makes the tool's order one of them (`PlanReleases`). Without it the sorter can yield one that is not
  (`SorterCanMiss`), and a plan is right for every marking exactly if it did not (`PlanCompleteIff`).
* Polling: a system can starve exactly if five systems at least as stale keep failing without a stamp (`StarvationIff`);
  five such systems starve all that are less stale (`StarvedByFailures`, `StarvationHappens`).
* Roles and channels: both reconciliations converge exactly if existing names are distinct (`ConvergesIff`,
  `UpdateFronterChannels`). Repeating them clears up names that are not wanted one by one, but never two of a wanted name
  (`RepeatedRunsIff`, `RepeatedUpdatesIff`). The limit gate bounds the final number of roles, not the number on the way (`PeakIff`,
  `GatePassesPeakExceeds`).
* Routing: names with spaces can make a later leaf shadow an earlier one (`RegistryIsLast`, `CollisionShadows`).
* Emojis: an id of zero, or one that does not fit 64 bits, panics (`ConvertFailsIff`).

## Model

| member | source | states |
|---|---|---|
| `AmqpLedger.LedgerAlways` | crates/reconnecting-amqp/src/connection.rs:468-532 | after every run, whatever the broker, the callbacks and the user do: payloads handed in = send queue + published and not returned + returns waiting in the event queue + dropped |
| `AmqpLedger.DropsExactly` | crates/reconnecting-amqp/src/connection.rs:492-528 | at every point of every run an action drops exactly what `Lost` says: a payload whose publish fails, a return with another code than 312, a return nobody listens to, the waiting returns when the connection is torn down, the send queue at the end; nothing else, and nothing dropped comes back |
| `AmqpLedger.NothingLost` | crates/reconnecting-amqp/src/connection.rs:492-528 | a run none of whose actions is one of these has dropped nothing |
| `AmqpLedger.FifoAlways` | crates/reconnecting-amqp/src/connection.rs:510-528 | payloads are attempted in the order in which they entered the queue, each entry once, and the rest still waits in that order |
| `AmqpLedger.ReopeningKeepsPayloads` | crates/reconnecting-amqp/src/connection.rs:381-394 | opening, reopening and closing only the channel keeps the connection, both queues and all books; no payload is dropped |
| `AmqpLedger.UnroutableGetsChannel` | crates/reconnecting-amqp/src/connection.rs:492-500 | a return with code 312 costs the channel alone, if closing and opening one succeed: four steps later the machine has a new channel on the same connection, the payload is last in the send queue, both queues otherwise wait as they were, and nothing was dropped |
| `AmqpTraffic.TrafficAlways` | crates/reconnecting-amqp/src/connection.rs:468-532 | after every run, told from the actions and the guards they met: payloads entered the send queue exactly when accepted from the user or unroutable, and were attempted exactly when a connected machine took them; messages delivered into the event queue were dealt with in that order, each once: forwarded to the user exactly if a consumer was wanted and the receiver alive, or discarded with a connection; the rest still waits, and nothing else was forwarded |
| `AmqpTraffic.NoneUnwanted` | crates/reconnecting-amqp/src/connection.rs:501-506 | with a consumer wanted and the receiver kept, every message dealt with was forwarded or discarded with a connection |
| `AmqpTraffic.AllForwarded` | crates/reconnecting-amqp/src/connection.rs:501-506 | and without a teardown the messages delivered are exactly those forwarded followed by those still waiting |
| `AmqpTraffic.HearsAlways` | crates/reconnecting-amqp/src/connection.rs:330-341 | as long as no callback is dropped a machine with an open channel has a callback that puts events into its queue |
| `AmqpTraffic.HandlersCounted` | crates/reconnecting-amqp/src/connection.rs:224-232 | the callbacks that hold a sender of the event queue: one when the connection is opened, one more for each channel opened and each consumer asked for, less those dropped |
| `AmqpTraffic.OutstandingStep` | crates/reconnecting-amqp/src/connection.rs:510-528 | at every point of every run the broker holds one more payload exactly by a publish that succeeds and one less exactly by a return |
| `AmqpTraffic.OnlyUserChangesSide` | crates/reconnecting-amqp/src/lib.rs:101-135 | the start gate, the shutdown request, the receivers and the number of senders change by the actions of the user alone, each by its own |
| `AmqpRecovery.LeavesConnectedIff` | crates/reconnecting-amqp/src/connection.rs:468-532 | after every run a connected machine stays connected, on the same connection and channel, exactly unless it notices a shutdown request or handles a closed connection, a closed channel or an unroutable payload |
| `AmqpRecovery.LostConnectionIsReplaced` | crates/reconnecting-amqp/src/connection.rs:486-488 | a closed connection costs one call to close the channel and one to close the connection, whatever they answer, and the next attempt to connect that succeeds gives a new connection |
| `AmqpRecovery.LostChannelIsReplaced` | crates/reconnecting-amqp/src/connection.rs:489-500 | a closed channel or an unroutable payload costs one call to close the channel and three to open, register and declare another one on the same connection; if closing fails, the connection is closed as well |
| `AmqpRecovery.ShutdownCloses` | crates/reconnecting-amqp/src/connection.rs:474-480 | a noticed shutdown closes channel and connection once each and finishes for that reason |
| `AmqpRecovery.StartFailureReachesUser` | crates/reconnecting-amqp/src/connection.rs:196-232 | while starting, as long as somebody waits, a call that fails at any stage ends the machine within four further steps, and waiting returns the error of that very call |
| `AmqpRecovery.LaterFailureRetries` | crates/reconnecting-amqp/src/connection.rs:314-372 | after the first success a failing call closes what was opened and the machine tries again: reconnecting, or reopening if only the channel could not be opened |
| `AmqpStart.ControlAlways` | crates/reconnecting-amqp/src/connection.rs:140-182 | after every run: while the one-shot is held the machine is in a starting state and every start error carries its text; afterwards it is in a started or a failed state; the machine holds a sender of both of its queues and the handles it is about to close |
| `AmqpStart.FinishReasons` | crates/reconnecting-amqp/src/connection.rs:644-679 | a run that finishes took the one-shot exactly once; after the first success the reason is Shutdown and nothing else, before it one of the two failures that report a start error; all other fatal causes are dead, the reason can be displayed, and nothing panics |
| `AmqpStart.ConnectedControl` | crates/reconnecting-amqp/src/connection.rs:468-485 | the branches for a closed event queue and a closed send queue are dead, and the one-shot is gone after the first turn |
| `AmqpStart.NoRetryBeforeStart` | crates/reconnecting-amqp/src/connection.rs:214-221 | before the first success the machine is never reconnecting nor reopening a channel |
| `AmqpStart.WaitStartIff` | crates/reconnecting-amqp/src/lib.rs:105-119 | while somebody waits, waiting for the start succeeds exactly if the machine was connected; an error means it never was |
| `AmqpStart.StartSettles` | crates/reconnecting-amqp/src/connection.rs:196-372 | from any starting state seven steps of the machine reach Connected or an end, whatever the broker answers and the user does in between |
| `AmqpStart.StepsAreAllowed` | crates/reconnecting-amqp/src/connection.rs:159-182 | every step of every run is one of the transitions the machine declares |
| `AmqpShutdown.ShutdownUnnoticed` | crates/reconnecting-amqp/src/connection.rs:474-480 | a shutdown request has no effect on a step, except before the start and in a connected state |
| `AmqpShutdown.ReconnectsForever` | crates/reconnecting-amqp/src/connection.rs:196-222 | while connecting keeps failing, a started machine alternates between connecting and reconnecting for ever, shutdown requested or not |
| `AmqpShutdown.ReopensForever` | crates/reconnecting-amqp/src/connection.rs:314-327 | while opening a channel keeps failing, a started machine keeps its connection for ever, even with the request to close it waiting in the event queue |
| `AmqpShutdown.ShutdownEndsIff` | crates/reconnecting-amqp/src/connection.rs:474-480 | from every reachable state of a machine that was started and asked to shut down, when one outcome repeats and the user and the broker act freely in between: it is over after twelve steps if it is still starting, is connected, closes for good, declares a consumer and that succeeds, or all calls to connect succeed; otherwise it is never over |
| `AmqpShutdown.ShutsDown` | crates/reconnecting-amqp/src/connection.rs:474-480 | with outcomes that differ, twelve steps that look at the request and whose calls to connect succeed (the consumer's only if one is wanted) end the machine from every reachable state, whatever closing answers |
| `AmqpShutdown.NeverEndsReconnecting` | crates/reconnecting-amqp/src/connection.rs:196-222 | a run from the start that reconnects with shutdown requested, and is never over while the broker cannot be reached |
| `AmqpShutdown.NeverEndsReopening` | crates/reconnecting-amqp/src/connection.rs:314-327 | a run from the start that reopens its channel with shutdown requested and the request to close the connection waiting, and is never over while no channel can be opened |
| `AmqpResources.DisciplineAlways` | crates/reconnecting-amqp/src/connection.rs:559-624 | in every run no connection or channel is opened while another is open, none is used or closed that is not open, and what is open is exactly what the state holds |
| `AmqpResources.ConnectedIsSetUp` | crates/reconnecting-amqp/src/connection.rs:330-371 | a connected state owns a channel with callback, declared queue and, if messages are wanted, a consumer on that channel; an ended machine owns nothing |
| `AmqpResources.ConnectionClosedOnce` | crates/reconnecting-amqp/src/connection.rs:610-624 | of two successive connections the first is closed by exactly one call, the one right before the second is opened |
| `AmqpResources.ChannelClosedOnce` | crates/reconnecting-amqp/src/connection.rs:574-584 | of two successive channels the first is closed by exactly one call before the second is opened |
| `AmqpConnections.AmqpConnection.constructor` | crates/reconnecting-amqp/src/lib.rs:57-85 | a new connection is not started, holds the one-shot and a sender of its queue |
| `AmqpConnections.AmqpConnection.RunConnecting` | crates/reconnecting-amqp/src/connection.rs:196-250 | one step from Connecting: which state follows, and that a failed start is reported as such only while the one-shot is held |
| `AmqpConnections.AmqpConnection.RunOpeningChannel` | crates/reconnecting-amqp/src/connection.rs:314-372 | one step from OpeningChannel, over its three calls and six exits |
| `AmqpConnections.AmqpConnection.RunDeclaringConsumer` | crates/reconnecting-amqp/src/connection.rs:424-447 | one step from DeclaringConsumer |
| `AmqpConnections.AmqpConnection.ReportStarted` | crates/reconnecting-amqp/src/connection.rs:468-473 | success is reported at most once |
| `AmqpConnections.AmqpConnection.HandleEvent` | crates/reconnecting-amqp/src/connection.rs:486-508 | one event of a connected state |
| `AmqpConnections.AmqpConnection.PublishNext` | crates/reconnecting-amqp/src/connection.rs:510-528 | one outgoing payload of a connected state |
| `AmqpConnections.AmqpConnection.RunConnected` | crates/reconnecting-amqp/src/connection.rs:468-531 | one turn of the select loop, for any ready branch |
| `AmqpConnections.AmqpConnection.RunClosingChannel` | crates/reconnecting-amqp/src/connection.rs:574-594 | one step from ClosingChannel; only a closed channel or a missing route lead back to opening a channel |
| `AmqpConnections.AmqpConnection.RunClosingConnection` | crates/reconnecting-amqp/src/connection.rs:610-624 | one step from ClosingConnection, whatever closing answers |
| `AmqpConnections.AmqpConnection.ReportError` | crates/reconnecting-amqp/src/connection.rs:651-678 | what becomes of the one-shot and of the final reason when a start failed |
| `AmqpConnections.AmqpConnection.RunClosedConnection` | crates/reconnecting-amqp/src/connection.rs:644-679 | one step from ClosedConnection |
| `AmqpConnections.AmqpConnection.Exit` | crates/reconnecting-amqp/src/connection.rs:88-99 | the end of the spawned task drops what it owned |
| `AmqpConnections.AmqpConnection.Run` | crates/reconnecting-amqp/src/connection.rs:140-156 | one step of the machine equals the specified step in every state |
| `AmqpConnections.AmqpConnection.RunLoop` | crates/reconnecting-amqp/src/connection.rs:88-98 | the loop over the states, run on a script of outcomes, does what the specified run does and stops early only at its end |
| `AmqpConnections.AmqpConnection.RunScript` | crates/reconnecting-amqp/src/connection.rs:88-98 | a run of steps and of any moves of the broker, the callbacks and the user in between: the object ends in the specified world, with handshake, ledger, queue order and call discipline kept |
| `AmqpConnections.AmqpConnection.Perform` | crates/reconnecting-amqp/src/connection.rs:140-156 | one action, of the machine or of its surroundings, does what the specified action does |
| `AmqpConnections.AmqpConnection.Receive` | crates/reconnecting-amqp/src/connection.rs:510-514 | a payload from a user's sender enters the queue exactly while the machine lives |
| `AmqpConnections.AmqpConnection.Return` | crates/reconnecting-amqp/src/connection.rs:492-500 | a payload returned by the broker is either in the event queue or dropped |
| `AmqpConnections.AmqpConnection.Deliver` | crates/reconnecting-amqp/src/connection.rs:481-486 | a callback's event enters the queue exactly while the callback and the queue are there |
| `AmqpConnections.AmqpHandle.Start` | crates/reconnecting-amqp/src/lib.rs:101-103 | opens the start gate and changes nothing else |
| `AmqpConnections.AmqpHandle.WaitStart` | crates/reconnecting-amqp/src/lib.rs:105-119 | the first call answers by the one-shot, every later call fails at once; both open the start gate |
| `AmqpConnections.AmqpHandle.Shutdown` | crates/reconnecting-amqp/src/lib.rs:121-123 | requests the shutdown and changes nothing else |
| `AmqpConnections.AmqpHandle.Join` | crates/reconnecting-amqp/src/lib.rs:125-131 | the first call answers by how the spawned task ended, every later one fails |
| `AmqpConnections.AmqpHandle.Sender` | crates/reconnecting-amqp/src/lib.rs:133-135 | hands out one more sender of the same queue, so the queue cannot close while it is held, and changes nothing else |
| `CacheRuns.InvAlways` | crates/tulpje-cache/src/lib.rs:236-317 | for every configuration and every sequence of events all index and primary tables agree as the rows below say |
| `CacheEffects.MemberAdded` | crates/tulpje-cache/src/event/member.rs:7-20 | after every run a joining member is cached and listed as its payload says in every compared field, its user is cached and listed with the guild, as far as wanted; the known count of a cached guild is one higher, up to 64 bits; no other entry of any table changes |
| `CacheEffects.MemberRemoved` | crates/tulpje-cache/src/event/member.rs:34-59 | a leaving member is gone from all four tables, its user exactly if no other guild lists it; the count is one lower; nothing else changes |
| `CacheEffects.MemberUpdated` | crates/tulpje-cache/src/event/member.rs:61-72 | a cached member takes over the update field by field and keeps the rest, its user is replaced; an uncached one changes nothing |
| `CacheEffects.MembersArrived` | crates/tulpje-cache/src/event/member.rs:22-32 | everybody in a chunk is cached as the last payload for them says; nobody else changes |
| `CacheEffects.InteractionArrived` | crates/tulpje-cache/src/event/interaction.rs:7-55 | stores the invoker, then the user, then every resolved user with its member, each as its payload says, and the resolved roles; nothing else |
| `CacheEffects.RoleChanged` | crates/tulpje-cache/src/event/role.rs:5-24 | a created or updated role is cached for its guild with the payload as its value, and listed; no other role changes |
| `CacheEffects.RoleForgotten` | crates/tulpje-cache/src/models/role.rs:45-54 | a deleted role is neither cached nor listed with that guild; no other role changes |
| `CacheEffects.ChannelChanged` | crates/tulpje-cache/src/event/channel.rs:7-34 | a created or updated channel or thread is cached as the payload and listed with its guild; nothing else changes |
| `CacheEffects.ChannelForgotten` | crates/tulpje-cache/src/event/channel.rs:13-17 | a deleted channel or thread is forgotten and unlisted from the guild it was cached with; nothing else changes |
| `CacheEffects.PinsUpdated` | crates/tulpje-cache/src/event/channel.rs:19-28 | only the last pin of a cached channel changes |
| `CacheEffects.ThreadsSynced` | crates/tulpje-cache/src/event/thread.rs:21-26 | every thread of the list is stored as its payload, in order |
| `CacheEffects.PresenceUpdated` | crates/tulpje-cache/src/event/presence.rs:5-9 | the presence is cached as the payload and listed; nobody else's changes |
| `CacheEffects.GuildUpdated` | crates/tulpje-cache/src/models/guild.rs:328-337 | the settings of a cached guild are replaced, its other fields and all other guilds stay |
| `CacheEffects.GuildLeft` | crates/tulpje-cache/src/models/guild.rs:224-229 | a deleted guild is no longer cached; one that becomes unavailable is listed so and marked if cached; other guilds, messages and the current user stay |
| `CacheEffects.LosingLeavesOthers` | crates/tulpje-cache/src/models/guild.rs:269-326 | losing a guild alone leaves the members, presences and voice listings of others, and every channel, emoji, sticker and role that its indexes do not list |
| `CacheEffects.CurrentUserUpdated` | crates/tulpje-cache/src/event/mod.rs:21-39 | the current user, if wanted, is the one last told of, and a user update changes nothing else |
| `CacheEffects.LosingClears` | crates/tulpje-cache/src/models/guild.rs:290-326 | losing a guild, alone or with others, clears its entries in the indexes of members, presences and voice states, and leaves the indexes of channels, emojis, stickers and roles as they were |
| `CacheEffects.ReadyLeavesOthers` | crates/tulpje-cache/src/event/mod.rs:21-31 | the start of a session leaves all users, all messages, and the members and presences of guilds it does not name |
| `CacheEffects.ReadyMarks` | crates/tulpje-cache/src/event/mod.rs:21-31 | at the start of a session every guild of the list is listed as unavailable, and marked if cached |
| `CacheEffects.VoiceUpdated` | crates/tulpje-cache/src/models/voice_state.rs:104-137 | a voice state is cached field by field, or forgotten without a channel; the user is listed in its channel and in no other; the member it brings is stored; nobody else changes |
| `CacheEffects.NothingElsewhere` | crates/tulpje-cache/src/lib.rs:236-317 | an event the model leaves out changes none of its tables |
| `CacheArrivals.EmojisUpdated` | crates/tulpje-cache/src/models/emoji.rs:64-107 | every emoji is cached with its last entry, for the guild or as it was; what the guild listed and the payload lacks is gone; the creators are cached one after the other; nothing else changes |
| `CacheArrivals.StickersUpdated` | crates/tulpje-cache/src/models/sticker.rs:81-125 | the same for stickers, whose creators are cached exactly unless the sticker is cached as it is when its turn comes |
| `CacheArrivals.EntriesSay` | crates/tulpje-cache/src/models/emoji.rs:28-61 | the entries say of every emoji and sticker, field by field, what its payload says |
| `CacheArrivals.GuildCreated` | crates/tulpje-cache/src/models/guild.rs:231-267 | everything an arriving guild brings is in its table afterwards: the guild itself, available; its channels and threads under its id and no others in its index; its emojis, members, presences, roles, stickers, voice states and creators; messages and the current user stay |
| `CacheArrivals.MessageCreated` | crates/tulpje-cache/src/event/message.rs:7-41 | the message is cached as the payload and comes first in its window, from which the oldest id falls out with its message exactly if the window was full; the author and its membership are cached; nothing else changes |
| `CacheArrivals.MessageUpdated` | crates/tulpje-cache/src/event/message.rs:92-132 | a cached message is replaced in place, another one stored like a new one; the author is cached |
| `CacheArrivals.MessageDeleted` | crates/tulpje-cache/src/event/message.rs:43-90 | the messages are forgotten and their first occurrences taken out of the window one by one; nothing else changes |
| `CacheArrivals.ReactionArrived` | crates/tulpje-cache/src/event/reaction.rs:10-122 | of a cached message only the reactions change: one more or one less on the first reaction with the emoji, a new one at the end, all of that emoji gone with the last, or none left; the own mark is set and cleared by the current user only; an uncached message changes nothing |
| `CacheRuns.MemberChain` | crates/tulpje-cache/src/models/member.rs:238-307 | after every run: (g, u) is a member exactly if u is listed with g; then, if users are wanted, g is listed with u; and whoever is listed with a guild is a cached user |
| `CacheRuns.LeavingDropsUserIff` | crates/tulpje-cache/src/event/member.rs:34-59 | after every run a member's removal drops the cached user exactly if no other guild is listed with it; the emptiness test of the sets answers whether the set exists, and its caller negates it |
| `CachePeople.RemoveMemberDropsIff` | crates/tulpje-cache/src/repository.rs:132-138 | the same from any tables that agree, and no other user is dropped |
| `CachePeople.DeletedGuildKeepsUsers` | crates/tulpje-cache/src/models/guild.rs:303-311 | a deleted guild stays listed with its former members, so such a user outlives all its memberships |
| `CachePeople.MemberFastPathIff` | crates/tulpje-cache/src/models/member.rs:189-202 | caching a full member stores exactly what overwriting would, unless the stored member is equal in the compared fields and differs in one of the skipped ones |
| `CachePeople.MemberTwice` | crates/tulpje-cache/src/models/member.rs:238-257 | each conversion is accepted by its own equality, so caching a member a second time changes nothing |
| `CachePeople.PartialMemberTwice` | crates/tulpje-cache/src/models/member.rs:259-278 | the same for the member part of a message |
| `CachePeople.InteractionMemberTwice` | crates/tulpje-cache/src/models/member.rs:280-307 | the same for the member part of an interaction |
| `CachePeople.UpdateThenMemberIff` | crates/tulpje-cache/src/models/member.rs:55-64 | caching a full member after an update that says the same stores it exactly if its premium date, which updates do not touch, differs, or there was nothing uncompared to store |
| `CachePeople.DeleteGuildChained` | crates/tulpje-cache/src/models/guild.rs:303-311 | deleting a guild leaves no member of it, in the table or in the index, and keeps the chain |
| `CachePeople.AuthorChained` | crates/tulpje-cache/src/event/message.rs:7-16 | caching a message's author and its membership keeps the chain, for every guild and member the message may lack |
| `CachePeople.ResolvedUsersChained` | crates/tulpje-cache/src/event/interaction.rs:30-44 | caching the resolved users and members of an interaction, in any order, keeps the chain |
| `CacheRuns.LostGuildIsGone` | crates/tulpje-cache/src/models/guild.rs:269-326 | after every run, losing a guild (deleted, unavailable, or listed at the start of a session) leaves no emoji, sticker, role, member or presence of it, and leaves users, their guilds and voice states as they were |
| `CacheRuns.LostGuildChannelsIff` | crates/tulpje-cache/src/models/guild.rs:296-296 | losing a guild, alone or at the start of a session with others, leaves no channel of it exactly if every cached channel of it was in the index of one of the guilds lost |
| `CacheRuns.ForgottenChannelRun` | crates/tulpje-cache/src/models/guild.rs:231-244 | a run of three events in which it is not: a guild that arrives a second time without a channel clears the index but not the channel, which outlives the deleted guild |
| `CacheOwned.DeleteGuildListed` | crates/tulpje-cache/src/models/guild.rs:274-299 | removing what the index of a guild lists removes everything stored for that guild, because whatever is stored is listed |
| `CacheRuns.EmojiUpdateExact` | crates/tulpje-cache/src/models/emoji.rs:64-124 | after every run an emoji update leaves the last payload value under every id; an id ends up in the guild's index exactly if it is in the payload, unless it was new to the index and is cached under another guild with all its entries equal to what is cached |
| `CacheRuns.SharedEmojiMissesIndex` | crates/tulpje-cache/src/models/emoji.rs:102-107 | a run of two updates in which an id misses the index of the second guild |
| `CacheRuns.StickerUpdateExact` | crates/tulpje-cache/src/models/sticker.rs:81-137 | the same for stickers |
| `CacheOwned.SyncExact` | crates/tulpje-cache/src/models/emoji.rs:64-91 | if no id of the payload is cached under another guild, the guild's index is exactly the payload's ids, each stored for the guild with its last value |
| `CacheOwned.SyncIndexIff` | crates/tulpje-cache/src/models/emoji.rs:98-107 | exactly which ids of a payload miss the index |
| `CacheOwned.SyncValues` | crates/tulpje-cache/src/models/sticker.rs:81-108 | what synchronising does to every id: payload, listed before, or neither; other guilds' indexes stay |
| `CacheOwned.SkippingRefines` | crates/tulpje-cache/src/models/emoji.rs:102-107 | skipping equal values gives the same tables as overwriting, if no id is cached under another guild |
| `CacheOwned.EqualitiesExact` | crates/tulpje-cache/src/models/emoji.rs:50-61 | the equalities of emojis and stickers with their payloads, eight and eleven fields compared one by one, forget none: they hold exactly if overwriting would change nothing |
| `CacheRuns.StaleRoleListing` | crates/tulpje-cache/src/models/role.rs:26-54 | stored implies listed, but not the converse: after any run a role created for two guilds and deleted for the second stays listed for the first and is cached for neither |
| `CacheRuns.RoleRoundTripIff` | crates/tulpje-cache/src/models/role.rs:26-54 | after every run creating a role and deleting it restores both role tables exactly if it was neither cached nor listed |
| `CacheRuns.UnavailableGuildsSaySo` | crates/tulpje-cache/src/models/guild.rs:224-229 | after every run a guild is cached under its own id, and one that is both cached and listed as unavailable is marked unavailable |
| `CacheGuilds.JoinLeaveIff` | crates/tulpje-cache/src/event/member.rs:9-12 | a member that joins and leaves restores the guild exactly unless its count had reached the largest 64-bit number |
| `CacheRuns.PresencesAndVoicesAgree` | crates/tulpje-cache/src/models/voice_state.rs:104-137 | after every run: presences and their index agree both ways; a user is listed in a voice channel exactly if its voice state is in that channel; who is listed with a guild has a voice state |
| `CacheRuns.VoiceUpdateMoves` | crates/tulpje-cache/src/models/voice_state.rs:112-135 | after every run a voice state update leaves the user in the update's channel of that guild and in no other, in none if it has no channel |
| `CacheGuilds.OneVoiceChannel` | crates/tulpje-cache/src/models/voice_state.rs:112-117 | no user is listed in two voice channels of one guild |
| `CacheGuilds.DeleteGuildVoiceAgrees` | crates/tulpje-cache/src/models/guild.rs:301-301 | deleting a guild clears its voice index only and leaves every voice state |
| `CacheGuilds.DeleteGuildPresencesAgree` | crates/tulpje-cache/src/models/guild.rs:313-323 | deleting a guild leaves no presence of it and keeps both directions of the index |
| `CacheWindows.WindowsAgreeIff` | crates/tulpje-cache/src/event/message.rs:7-132 | windows and cached messages agree throughout a run exactly if every event is proper at its moment: a new id is not cached or is the very one pushed out, and updates and deletions name the channel the message is cached in |
| `CacheWindows.MessageWindows` | crates/tulpje-cache/src/event/message.rs:7-132 | after every run of such events: every window is free of duplicates, at most max(1, size) long, and holds exactly the cached messages of its channel |
| `CacheWindows.OrderlyIsProper` | crates/tulpje-cache/src/event/message.rs:7-132 | told from the events alone: a run in which a message keeps its channel and is created once, before it is updated, has only such events |
| `CacheWindows.WindowKeptIff` | crates/tulpje-cache/src/event/reaction.rs:10-122 | one event, of messages or reactions, keeps this exactly if it is proper |
| `CacheMessages.CreateWindowedIff` | crates/tulpje-cache/src/event/message.rs:18-38 | creating a message keeps it exactly if the id is not cached or is the very one pushed out |
| `CacheMessages.ReusedIdBreaksWindow` | crates/tulpje-cache/src/event/message.rs:18-38 | creating the same message twice puts it into its window twice |
| `CacheMessages.UpdateIsCreate` | crates/tulpje-cache/src/event/message.rs:103-128 | an update of a message that is not cached does what creating it would |
| `CacheMessages.BulkWindowed` | crates/tulpje-cache/src/event/message.rs:65-90 | deleting many messages of a channel at once keeps window and table in agreement |
| `CacheMessages.AddRemoveReaction` | crates/tulpje-cache/src/event/reaction.rs:18-82 | adding a reaction and removing it again restores the reactions exactly unless the current user's mark was set before |
| `CacheMessages.AddKeepsDistinct` | crates/tulpje-cache/src/event/reaction.rs:18-50 | adding a reaction keeps one reaction per emoji |
| `CacheMessages.RemoveKeepsDistinct` | crates/tulpje-cache/src/event/reaction.rs:63-82 | removing a reaction keeps one reaction per emoji |
| `CacheMessages.RemoveEmojiTakesAll` | crates/tulpje-cache/src/event/reaction.rs:108-118 | with one reaction per emoji, removing the first of an emoji removes all of it and no other |
| `GuildCache.Cache.CacheUser` | crates/tulpje-cache/src/models/user.rs:12-33 | refines the plain overwrite of the user and the listing of the guild, fast path included |
| `GuildCache.Cache.CacheMember` | crates/tulpje-cache/src/models/member.rs:238-257 | refines the specified step, early return included |
| `GuildCache.Cache.CacheMembers` | crates/tulpje-cache/src/models/member.rs:226-236 | the loop refines the fold of the step |
| `GuildCache.Cache.CachePartialMember` | crates/tulpje-cache/src/models/member.rs:259-278 | refines the specified step; users and their guilds stay |
| `GuildCache.Cache.CacheInteractionMember` | crates/tulpje-cache/src/models/member.rs:280-307 | refines the specified step, keeping what the payload does not say |
| `GuildCache.Cache.OnMemberRemove` | crates/tulpje-cache/src/event/member.rs:34-59 | changes guild, members, indexes and users as specified |
| `GuildCache.Cache.CountGuildMember` | crates/tulpje-cache/src/event/member.rs:9-12 | saturating count of the cached guild |
| `GuildCache.Cache.OnMemberUpdate` | crates/tulpje-cache/src/event/member.rs:61-72 | updates a cached member and its user, and nothing for others |
| `GuildCache.Cache.CacheEmoji` | crates/tulpje-cache/src/models/emoji.rs:93-124 | refines the skip-if-equal step; the creator is cached either way |
| `GuildCache.Cache.CacheEmojis` | crates/tulpje-cache/src/models/emoji.rs:64-91 | the in-place removal and loop refine the specified synchronisation |
| `GuildCache.Cache.CacheSticker` | crates/tulpje-cache/src/models/sticker.rs:110-137 | refines the skip-if-equal step; the creator is cached only if the sticker changes |
| `GuildCache.Cache.CacheStickers` | crates/tulpje-cache/src/models/sticker.rs:81-108 | the in-place removal and loop refine the specified synchronisation |
| `GuildCache.Cache.CacheRole` | crates/tulpje-cache/src/models/role.rs:26-43 | lists and stores the role |
| `GuildCache.Cache.DeleteRole` | crates/tulpje-cache/src/models/role.rs:45-54 | removes the role from both tables |
| `GuildCache.Cache.CacheChannel` | crates/tulpje-cache/src/models/channel.rs:22-29 | lists and stores the channel |
| `GuildCache.Cache.DeleteChannel` | crates/tulpje-cache/src/models/channel.rs:31-40 | removes the channel, and from the index of the guild it was cached for |
| `GuildCache.Cache.OnPinsUpdate` | crates/tulpje-cache/src/event/channel.rs:19-28 | changes the last pin of a cached channel only |
| `GuildCache.Cache.CachePresence` | crates/tulpje-cache/src/models/presence.rs:64-81 | lists and stores the presence |
| `GuildCache.Cache.CacheVoiceState` | crates/tulpje-cache/src/models/voice_state.rs:104-137 | refines the specified step over three tables |
| `GuildCache.Cache.PushMessage` | crates/tulpje-cache/src/event/message.rs:18-33 | pops the oldest id if the window is full and pushes the new one |
| `GuildCache.Cache.OnMessageCreate` | crates/tulpje-cache/src/event/message.rs:7-41 | refines the specified step for users, members and window |
| `GuildCache.Cache.OnMessageUpdate` | crates/tulpje-cache/src/event/message.rs:92-132 | the same, touching the window only if the message was not cached |
| `GuildCache.Cache.OnMessageDelete` | crates/tulpje-cache/src/event/message.rs:43-63 | removes the message and its id |
| `GuildCache.Cache.OnMessageDeleteBulk` | crates/tulpje-cache/src/event/message.rs:65-90 | the loop removes each id from the window |
| `GuildCache.Cache.FindReaction` | crates/tulpje-cache/src/event/reaction.rs:18-22 | the first reaction with the emoji, or the end |
| `GuildCache.Cache.OnReactionAdd` | crates/tulpje-cache/src/event/reaction.rs:10-55 | refines the specified change of one message |
| `GuildCache.Cache.OnReactionRemove` | crates/tulpje-cache/src/event/reaction.rs:57-88 | refines the specified change of one message |
| `GuildCache.Cache.OnReactionRemoveAll` | crates/tulpje-cache/src/event/reaction.rs:90-101 | clears the reactions of a cached message |
| `GuildCache.Cache.OnReactionRemoveEmoji` | crates/tulpje-cache/src/event/reaction.rs:103-122 | removes the first reaction with the emoji |
| `GuildCache.Cache.CacheGuild` | crates/tulpje-cache/src/models/guild.rs:231-267 | a guild that arrives changes every table as specified, in the order of the helpers |
| `GuildCache.Cache.DeleteGuild` | crates/tulpje-cache/src/models/guild.rs:269-326 | works through the indexes as specified |
| `GuildCache.Cache.LoseGuild` | crates/tulpje-cache/src/models/guild.rs:224-229 | lists the guild as unavailable and deletes what it owns |
| `GuildCache.Cache.OnGuildUpdate` | crates/tulpje-cache/src/models/guild.rs:328-337 | changes the settings of a cached guild only |
| `GuildCache.Cache.OnReady` | crates/tulpje-cache/src/event/mod.rs:21-31 | sets the current user and loses every guild in turn |
| `GuildCache.Cache.OnInteraction` | crates/tulpje-cache/src/event/interaction.rs:7-55 | caches invoker, user, resolved users with members, and roles, as specified |
| `GuildCache.Cache.Update` | crates/tulpje-cache/src/lib.rs:236-317 | one event changes all tables exactly as the specified step says |
| `GuildCache.Cache.Run` | crates/tulpje-cache/src/lib.rs:231-233 | a run of events from an empty cache ends in the specified tables, with every agreement of indexes and tables, and with windows that agree if all events are proper |
| `Releases.PassCompleteIff` | tools/release-tulpje/src/release_tulpje/releases.py:137-147 | one forward pass over an order computes the closure for every initial marking exactly if whatever lies beyond a dependency that points backwards is also one edge away from a path of rising positions from its source |
| `Releases.PassFindsIff` | tools/release-tulpje/src/release_tulpje/releases.py:137-147 | the pass marks exactly the marked releases and those one edge away from the end of a path of rising positions from a marked one |
| `Releases.ClosureIsLeast` | tools/release-tulpje/src/release_tulpje/releases.py:120-147 | what a run should make is the least set that holds the marked releases and every release that uses a crate, by name, of one in it |
| `Releases.PlanCompleteIff` | tools/release-tulpje/src/release_tulpje/releases.py:137-147 | over the order the tool sorts into, the releases found in the workspace are exactly those reachable through dependents, from every marking of the workspace, if and only if that order is bridged |
| `Releases.PlanReleases` | tools/release-tulpje/src/release_tulpje/__init__.py:207-208 | sorting and propagating together, for any workspace: a lookup error exactly if the order names an unknown crate; otherwise, in sorted order, a new record of exactly the releases that rising paths lead to from the marked ones, the version moved, to the first release above it, exactly where one leads over an edge to a release that had not changed; on a bridged order these are exactly the releases reachable through dependents; and if nothing else uses a group the order is bridged and exactly what uses a release of the plan has moved or had changed |
| `Releases.SortedPassIsClosure` | tools/release-tulpje/src/release_tulpje/releases.py:303-326 | on the order the tool sorts into, with no release but itself using a group, the pass returns exactly what is reachable through dependents, for every linear extension, every iteration order and every marking |
| `Releases.SortedIsForwardOrSink` | tools/release-tulpje/src/release_tulpje/releases.py:320-326 | sorting by first crates puts dependencies first, but for groups nothing depends on |
| `Releases.ForwardOrSinkBridged` | tools/release-tulpje/src/release_tulpje/releases.py:137-146 | such an order bridges every dependency |
| `Releases.SorterCanMiss` | tools/release-tulpje/src/release_tulpje/releases.py:303-326 | without that restriction there is a workspace of three releases whose dependency order sorts to an order on which the pass misses a dependent |
| `Releases.PassMissesDependent` | tools/release-tulpje/src/release_tulpje/releases.py:137-146 | that order, and the dependent it misses |
| `Releases.TouchedIff` | tools/release-tulpje/src/release_tulpje/releases.py:138-146 | the pass touches exactly the releases that use a release of the closure |
| `Releases.NextPatch` | tools/release-tulpje/src/release_tulpje/releases.py:144-146 | the first release above the version: above it, no prerelease, with the same major and minor number, and no other release lies between |
| `Releases.ReleaseInfo.Propagate` | tools/release-tulpje/src/release_tulpje/releases.py:141-146 | a release that is reached is to be released and has changed; its version moves exactly if it had not, and then to the first release above |
| `Releases.IndexByCrate` | tools/release-tulpje/src/release_tulpje/releases.py:123-127 | the index leads from each crate to its release |
| `Releases.IndexUsers` | tools/release-tulpje/src/release_tulpje/releases.py:129-134 | the reverse lookup holds exactly the crates that use a crate |
| `Releases.MarkOwners` | tools/release-tulpje/src/release_tulpje/releases.py:140-146 | marks and bumps exactly the owners of a set of crates, in whatever order the set yields them |
| `Releases.MarkDependents` | tools/release-tulpje/src/release_tulpje/releases.py:139-146 | marks and bumps exactly the dependents of a release |
| `Releases.CopyReleases` | tools/release-tulpje/src/release_tulpje/releases.py:121-121 | fresh records equal to the given ones |
| `Releases.RunPass` | tools/release-tulpje/src/release_tulpje/releases.py:137-146 | the loop over the mutable records marks exactly the releases of the specified pass and bumps exactly those it touches |
| `Releases.CollectMarked` | tools/release-tulpje/src/release_tulpje/releases.py:147-147 | the marked records, in order, and no other |
| `Releases.ProcessDependencies` | tools/release-tulpje/src/release_tulpje/releases.py:120-147 | returns new records of exactly the releases of the pass in order, with the version each must have; the given records stay |
| `Releases.SortReleasesByDeps` | tools/release-tulpje/src/release_tulpje/releases.py:303-326 | releases by the first of their crates in the dependency order; a lookup error exactly if the order names an unknown crate |
| `FrontPolling.BoundedWait` | crates/tulpje-mod-pluralkit/src/front_update_service.rs:10-28 | no starvation: a due, tracked system with k others at least as stale is attempted within k / (5 - f) + 1 ticks if at most f < 5 of those ahead keep failing without a stamp; k / 5 + 1 if none does |
| `FrontPolling.StarvationIff` | crates/tulpje-mod-pluralkit/src/front_update_service.rs:10-28 | a due, tracked system can be passed over for ever, in some run of every length in which the tracked systems stay the same and only given ones fail without a stamp, if and only if at least five of those are at least as stale as it, ties included; otherwise it is attempted within the bounded wait |
| `FrontPolling.StarvedByFailures` | crates/tulpje-mod-pluralkit/src/fronters/shared.rs:310-320 | if five of them are strictly staler and keep failing, that happens in every run: the system is never attempted |
| `FrontPolling.StarvationHappens` | crates/tulpje-mod-pluralkit/src/front_update_service.rs:10-28 | for every length such a run, of five systems without a row that always fail and one that is due |
| `FrontPolling.PassedOver` | crates/tulpje-mod-pluralkit/src/fronters/db.rs:228-288 | a due system is passed over only if five systems at least as stale are selected |
| `FrontPolling.AheadShrinks` | crates/tulpje-mod-pluralkit/src/fronters/shared.rs:310-340 | every attempted system that gets a stamp falls behind, and nobody overtakes |
| `FrontPolling.FrontTable.DidFrontersChange` | crates/tulpje-mod-pluralkit/src/fronters/db.rs:154-167 | changed exactly if the stored list is missing or differs |
| `FrontPolling.FrontTable.UpdateFrontersTimestamp` | crates/tulpje-mod-pluralkit/src/fronters/db.rs:182-197 | moves the stamp and keeps the list, or inserts an empty row |
| `FrontPolling.FrontTable.UpdateSystemFronters` | crates/tulpje-mod-pluralkit/src/fronters/shared.rs:305-340 | an answer is stored and stamped whether or not it differs, and reported as a change exactly if it does; private and deleted systems are stamped only; other errors change nothing |
| `FrontPolling.FrontTable.GetSystemsToUpdate` | crates/tulpje-mod-pluralkit/src/fronters/db.rs:228-288 | at most five different tracked systems that were never attempted or not for sixty seconds, never attempted ones first and then by the time of the last attempt; no such system is left out unless there are five that are no less stale |
| `FrontPolling.FrontTable.DoTick` | crates/tulpje-mod-pluralkit/src/front_update_service.rs:10-28 | one tick attempts the selected systems in order and leaves the stamps that the run theorems assume |
| `RoleSync.ConvergesIff` | crates/tulpje-mod-pluralkit/src/roles/update.rs:411-481 | applying the diff in any order turns the guild's alter roles into exactly the desired ones if and only if no two of them shared a name; other roles are left alone |
| `RoleSync.RepeatedRunsIff` | crates/tulpje-mod-pluralkit/src/roles/update.rs:411-481 | complete runs repeated with the same desired roles converge in the end if and only if no two roles share a desired name, and then after more runs than there are undesired alter roles; otherwise no run of them converges |
| `RoleSync.DiffEmptyIff` | crates/tulpje-mod-pluralkit/src/roles/update.rs:447-481 | the diff is empty exactly on converged guilds, so a second run does nothing |
| `RoleSync.InterruptedRunRecovers` | crates/tulpje-mod-pluralkit/src/roles/update.rs:178-243 | wherever a run stops, the next complete run converges, to whatever is desired by then, for any listing of the guild it left and any order |
| `RoleSync.InterruptedAnywhere` | crates/tulpje-mod-pluralkit/src/roles/update.rs:178-243 | wherever a run stops, other roles are untouched and distinct names stay distinct |
| `RoleSync.DiffIsAddressable` | crates/tulpje-mod-pluralkit/src/roles/update.rs:180-234 | every update and delete of the diff names a role that exists at that moment |
| `RoleSync.RolesWithMembers` | crates/tulpje-mod-pluralkit/src/roles/update.rs:98-102 | the subtraction in the gate never underflows, and what it compares is the number of members and of roles, less the number of different alter names |
| `RoleSync.FinalRoleCount` | crates/tulpje-mod-pluralkit/src/roles/update.rs:447-481 | the final number of roles: the current names are traded for the desired ones |
| `RoleSync.GateBoundsRoles` | crates/tulpje-mod-pluralkit/src/roles/update.rs:104-112 | once the gate lets a run through it ends with at most 250 roles |
| `RoleSync.PeakIff` | crates/tulpje-mod-pluralkit/src/roles/update.rs:104-112 | on the way it stays within 250 in every order exactly if there is room for all creations first |
| `RoleSync.GatePassesPeakExceeds` | crates/tulpje-mod-pluralkit/src/roles/update.rs:104-112 | a guild and a system that pass the gate at the limit and hold 251 roles on the way |
| `RoleSync.StatisticsFit` | crates/tulpje-mod-pluralkit/src/roles/update_stats.rs:28-30 | with at most 250 roles the 16-bit sum of operations and assignments does not overflow |
| `RoleSync.DesiredIff` | crates/tulpje-mod-pluralkit/src/roles/update.rs:411-429 | a name is desired exactly if it is what is shown of some member, up to its first ' (', followed by ' (Alter)'; the role has the colour and the id of the last such member and can be mentioned |
| `RoleSync.MatchesIff` | crates/tulpje-mod-pluralkit/src/roles/update.rs:411-481 | a guild has converged exactly if, told from the members, its alter names differ, each alter role has the name and the colour of the last member of that name, and there is one for every member |
| `RoleSync.AlterIff` | crates/tulpje-mod-pluralkit/src/roles/update.rs:431-436 | alter roles are those whose name is something followed by ' (Alter)' |
| `RoleSync.CreatedForMember` | crates/tulpje-mod-pluralkit/src/roles/update.rs:464-469 | a role is created for the last member of its name, with its id and colour, and only if no role has that name |
| `RoleSync.GetCurrentRoles` | crates/tulpje-mod-pluralkit/src/roles/update.rs:431-445 | no more alter names than roles |
| `RoleSync.CurrentIsLast` | crates/tulpje-mod-pluralkit/src/roles/update.rs:431-445 | of alter roles with the same name the last one listed is the one compared, updated or deleted |
| `RoleSync.Guild.ApplyOperations` | crates/tulpje-mod-pluralkit/src/roles/update.rs:178-243 | the loop does exactly the specified operations up to the first failing call and knows the id of every created role |
| `RoleSync.Guild.AssignRoles` | crates/tulpje-mod-pluralkit/src/roles/update.rs:245-270 | gives the user the role of every missing name |
| `RoleSync.Guild.Execute` | crates/tulpje-mod-pluralkit/src/roles/update.rs:166-270 | both loops: every missing name has an id, so none is skipped; they are one complete run, converged exactly if names were distinct; recoverable if a call fails |
| `RoleSync.Guild.UpdateMemberRoles` | crates/tulpje-mod-pluralkit/src/roles/update.rs:65-276 | the command: refused exactly above 250, counting the members and every role but one of each alter name; cancelled exactly by either prompt; up to date, among guilds with distinct alter names, exactly if it matches the members and the user lacks none of their roles; afterwards it matches the members exactly if alter names were distinct, and the user has gained live roles of exactly the names they lacked |
| `FronterChannels.Category.UpdateFronterChannels` | crates/tulpje-mod-pluralkit/src/fronters/shared.rs:79-197 | panics exactly above 65536 fronters; otherwise makes exactly one call per old, new and misplaced name, and ends with the wanted channels if and only if existing names were distinct |
| `FronterChannels.RepeatedUpdatesIff` | crates/tulpje-mod-pluralkit/src/fronters/shared.rs:79-197 | complete updates repeated with the same fronters converge in the end if and only if no two channels share the name of a fronter, and then after more updates than there are channels of other names; otherwise none of them converges |
| `FronterChannels.NoCallsIff` | crates/tulpje-mod-pluralkit/src/fronters/shared.rs:120-194 | a category with distinct names needs no call exactly if it is as wanted, so running again issues none |
| `FronterChannels.TrackedConverges` | crates/tulpje-mod-pluralkit/src/fronters/shared.rs:93-102 | the map of names tracks the category through all loops exactly if names were distinct |
| `FronterChannels.Positions` | crates/tulpje-mod-pluralkit/src/fronters/shared.rs:104-109 | every fronter's position is its last index in the list |
| `FronterChannels.ByNameIsLast` | crates/tulpje-mod-pluralkit/src/fronters/shared.rs:93-102 | of channels with the same name the last one listed is the one kept, moved or deleted |
| `FronterChannels.Category.DeleteOld` | crates/tulpje-mod-pluralkit/src/fronters/shared.rs:125-141 | deletes exactly the channels of names that no longer front, never missing a key |
| `FronterChannels.Category.CreateNew` | crates/tulpje-mod-pluralkit/src/fronters/shared.rs:143-171 | creates exactly the channels of new names, never missing a position |
| `FronterChannels.Category.MoveAll` | crates/tulpje-mod-pluralkit/src/fronters/shared.rs:173-194 | moves exactly the misplaced channels, never missing a channel |
| `FronterChannels.Category.Reconcile` | crates/tulpje-mod-pluralkit/src/fronters/shared.rs:125-194 | the three loops in a row; how many calls they take, and what a failed call leaves |
| `EmojiText.ParsePrintedEmojis` | crates/tulpje-mod-emoji/src/shared.rs:67-80 | parsing the printed forms of any emojis with word names and non-zero ids, with '<'-free text around and between, returns them in order |
| `EmojiText.PrintParsedToken` | crates/tulpje-mod-emoji/src/db.rs:64-74 | printing a parsed emoji gives its text back exactly if its id had no leading zero |
| `EmojiText.PrintedForm` | crates/tulpje-mod-emoji/src/db.rs:64-74 | what a printed emoji looks like, character by character |
| `EmojiText.Characters` | crates/tulpje-mod-emoji/src/shared.rs:68-68 | the characters of names and ids, by their codes |
| `EmojiText.TokensAreLeftmost` | crates/tulpje-mod-emoji/src/shared.rs:67-69 | the scanner finds the leftmost, non-overlapping matches of the pattern, and nothing else does |
| `EmojiText.MatchComplete` | crates/tulpje-mod-emoji/src/shared.rs:68-68 | at a position where the pattern matches the scanner finds that match |
| `EmojiText.ConvertFailsIff` | crates/tulpje-mod-emoji/src/shared.rs:70-79 | parsing panics exactly if some match has an id that is zero or above the largest 64-bit number, and otherwise converts every match |
| `EmojiText.ZeroIdPanics` | crates/tulpje-mod-emoji/src/shared.rs:73-73 | for instance on an id of zero |
| `EmojiText.SixCharactersEach` | crates/tulpje-mod-emoji/src/shared.rs:67-69 | six times the number of matches is at most the length of the text |
| `EmojiText.CountEmojis` | crates/tulpje-mod-emoji/src/shared.rs:84-95 | every id is counted with its multiplicity, modulo 65536, under the first emoji seen of that id |
| `EmojiText.Wrap16Wraps` | crates/tulpje-mod-emoji/src/shared.rs:82-84 | a 16-bit counter holds the number of increments modulo 65536, as a signed number |
| `EmojiText.TotalIsLength` | crates/tulpje-mod-emoji/src/shared.rs:84-95 | the counts add up to the number of emojis |
| `EmojiText.MessageCountsAreExact` | crates/tulpje-mod-emoji/src/shared.rs:82-83 | for a message of at most 2000 characters every 16-bit count is the true one, and they add up to the number parsed |
| `Routing.RouteIff` | crates/tulpje-framework/src/module/registry.rs:61-63 | with space-free and sibling-unique names the registry finds a handler for an interaction exactly if it handles the very leaf the interaction's names lead to; `RoutedToLast` covers every other naming |
| `Routing.LeafIsRouted` | crates/tulpje-framework/src/module/builder.rs:72-124 | invoking a registered leaf finds exactly its own handler, with exactly its own options |
| `Routing.ExtractIsChain` | crates/tulpje-framework/src/interaction.rs:48-64 | the extracted name joins the names on the way down, and no nested level is left |
| `Routing.FirstIsFirst` | crates/tulpje-framework/src/interaction.rs:48-64 | the way leads through the first nested option |
| `Routing.InvocationRoundTrip` | crates/tulpje-framework/src/interaction.rs:48-64 | an invocation built from a path is extracted to that path and its own options, at any depth |
| `Routing.JoinInjective` | crates/tulpje-framework/src/interaction.rs:62-63 | joined names determine the path, if the names have no spaces |
| `Routing.BuildLookup` | crates/tulpje-framework/src/module/builder.rs:72-124 | what a module's built table holds for a path is exactly the handler of that leaf |
| `Routing.RegisterLookup` | crates/tulpje-framework/src/module/registry.rs:38-47 | what the registry holds for a path is exactly the handler of the module that handles it |
| `Routing.ModuleBuilder.Command` | crates/tulpje-framework/src/module/builder.rs:72-124 | panics exactly if something that can be invoked has no handler; otherwise, with space-free and sibling-unique names, every subcommand, in a group or not, is found under its full name with its own handler, and the command itself if it has none; keys of other names are untouched |
| `Routing.Registry.Register` | crates/tulpje-framework/src/module/registry.rs:38-47 | adds the module's table to the registry |
| `Routing.RegistryIsLast` | crates/tulpje-framework/src/module/registry.rs:38-47 | whatever the names: under every key the registry holds the handler of the last leaf registered whose joined path is that key, and nothing if there is none |
| `Routing.RoutedToLast` | crates/tulpje-framework/src/module/registry.rs:61-63 | so any interaction at all runs the handler of a leaf whose joined path is the joined names it leads to, with no such leaf registered after it, and none only if there is no such leaf |
| `Routing.CollisionShadows` | crates/tulpje-framework/src/module/builder.rs:75-106 | a command whose group member is shadowed by a subcommand with a space in its name: invoking the first runs the second |
| `Routing.RegisterModules` | crates/tulpje-framework/src/module/registry.rs:38-47 | building and registering modules in turn fails exactly if something that can be invoked has no handler; otherwise looking up any key finds the last leaf registered under it; no key is found but the full name of a command or subcommand; and if names are space-free and unique, each of those finds its own function and module, and a command's own name is found exactly if it has no subcommands |
| `Routing.RegisteredServes` | crates/tulpje-framework/src/module/registry.rs:38-47 | told from the builders: every subcommand and every group member is found under its full name, with its own function and the name of its module; a command without either is found under its name |
| `Routing.RegisteredOnly` | crates/tulpje-framework/src/module/registry.rs:38-47 | whatever the names, nothing is found under any other key |
| `Routing.OwnNameIff` | crates/tulpje-framework/src/module/builder.rs:108-121 | a command's own name is found exactly if it has neither groups nor subcommands |
| `Routing.CommandAdded` | crates/tulpje-framework/src/module/builder.rs:72-124 | adding a command succeeds exactly if everything that can be invoked has a handler, and changes only the keys of its own names |
| `Routing.ExtractedKeys` | crates/tulpje-framework/src/interaction.rs:48-64 | the key of a command, of a subcommand and of a group member is its names joined by spaces, and its options are the innermost ones |

## Left out

Assumptions the model makes:

* Identifiers are natural numbers, message bodies, timestamps and most payload fields are opaque values. Of a long list
  of copied fields the model keeps the keys, what is compared or branched on, and one value for the rest.
* Redis keys are the keys themselves, not their 64-bit hashes. `users` is created under the Redis name of the emojis
  (`crates/tulpje-cache/src/lib.rs:204`); the model has two tables, which is what the code does as long as user and emoji
  ids are disjoint. Redis calls succeed: an event that fails half way is not modelled.
* Tables that share a `wanted` flag share it in the model. The tables start empty.
* Reaction counts do not overflow; guild member counts saturate as in the program.
* The broker, Discord and PluralKit answer arbitrarily but obey their own data: a returned payload was published before,
  a created role or channel gets a fresh id, a request that succeeds does what it asks. Moving a channel does not change
  the position of others.
* Topological sorting yields some linear extension; versions are three numbers and a prerelease, without build
  metadata, and two prereleases of one version are left unordered;
  cyclic dependencies, which the sorter rejects, are not modelled.
* The stamps and the query that compares them have clocks of their own, which differ by less than a minute, and the
  query's does not run backwards; which of equally stale systems comes first is left open.

What a contract states less of:

- AmqpConnections.AmqpConnection.RunLoop: runs on a finite script of outcomes, because the loop of the program has no end;
  what happens between steps is in `RunScript`, not in this method.
- AmqpConnections.AmqpHandle.WaitStart: answers None where the program would still be waiting.
- AmqpConnections.AmqpHandle.Join: answers None where the program would still be waiting.
- AmqpShutdown.ShutdownEndsIff: says nothing of steps in which a connected state takes another ready branch than the
  shutdown branch; the select of the program may do so any number of times.
- FrontPolling.FrontTable.DoTick: the answers are a function from systems given before the tick. Every selected system is
  attempted once, so any sequence of answers is such a function, but which one may not depend on what the tick writes.

Not modelled:

* Stage instances, scheduled events and integrations of the cache: plain inserts and removes in tables of their own that
  nothing else reads. Their events are `Elsewhere`.
* Settings of the current user beyond its id; the order of a channel's threads; permission overwrites.
* Saving emoji uses, statistics and clean-up queries; the category table of the fronters; tracking of systems.
* Prompts and replies of the role command: the user's answers are parameters, progress messages are left out.
* The recursion of `Display` on a reason that cannot be shown is a panic; it is proved unreachable.
* Changelogs, commits, tags and version bumps other than the propagated patch release.
* Components, modals, events, tasks and services of a module; the gateway, scheduler, dispatcher and all transport.
