# Skyffla, modelled and proved in Dafny

Skyffla is a peer-to-peer room system: one member hosts a room, the others join it, chat, open channels, and send
files, folders and pipes to each other. This project models the parts of it whose correctness lies in how several
functions, or several processes, work together, and proves what they are for.

`dafny verify dfyconfig.toml` checks everything. Each file is one module, except `bytes.dfy`, which has two small
ones.

| area | files |
|---|---|
| room authority and joiner replicas | `room_protocol`, `room_authority`, `room_answers`, `room_engine`, `replica`, `join_state`, `room_refinement` |
| received files | `file_receive`, `finalisation`, `accepted_files` |
| the host's links and the mesh of joiners | `host_links`, `host_runtime`, `mesh`, `link_states`, `dialling`, `runtime_refinement`, `lossy_runs` |
| transfers under credit | `credit_transfer`, `pipe_broadcast`, `framing`, `stream_pairing`, `worker_pool` |
| directories | `directory_entries`, `directory_tree`, `directory_manifest` |
| the command line | `shell_words`, `completion` |
| the rendezvous server | `lease_registry`, `rate_limiter` |
| shared | `wrappers`, `text`, `ordering`, `bytes`, `paths` |

## How it is put together

Code that changes state in place is a class or a method with loops (`RoomEngine`, `JoinState`, `HostSession`,
`Connection`, `Broadcaster`, `ByteStream`, `DirectoryReceiver`, `RoomRegistry`, `SqliteRoomStore`, `IpRateLimiter`, the
tokenizers). Each of its methods is proved to compute a specification function on values, written with sets, maps and
sequences instead of loops. The results over whole runs are lemmas about those functions.

Concurrency is interleaving. A protocol is a `State`, a `Step` datatype, a predicate `Enabled` that says when a step may
happen, and a function `Do`. An invariant is kept by every step, a measure goes down with every step, and a state that
is not final has a step to take; the lemma about runs then speaks of every sequence of steps. Streams are queues, a
`select!` is a choice between the enabled steps, and reading one credit message is one step.

What the repository's description promises and the code does not keep is stated as it is, with an input at which it
fails and a condition for when it holds:

- The host starts a receive of its own between carrying out a command and telling the other members, and it stops telling
  them at the first one whose link turns out to be broken. Then the room has changed and some members do not hear of it.
  `NoEventIsLost` holds for a joiner if and only if nothing for it was dropped; `WhenEventsAreDropped` says at which
  commands something is, and `WhoIsNotTold` for whom. `AcceptanceReachesNobody` and `OneBrokenLinkSilencesOthers` are
  runs where it happens.
- A joiner makes the local effect of a command without waiting for the host. After a refusal its view is right if and only
  if the command was `Harmless`; `RefusedOpenCanDiverge` gives a room in which it is not.
- Together: a turn of the host's loop leads from right views to right views if and only if it is `Sound`, that is, nobody
  misses what its view needs, a refused command was harmless, and a joiner is linked to members only (`StepIsFaithful`;
  `StepIsNearlyFaithful` for all but sizes and transfers). Over whole runs all views are always right if and only if every
  turn is sound (`EveryRuntimeRun`). `SizeIsNeverTold` and `RefusedOpeningMisleads` are runs with an unsound last turn.
- At a joiner a fault of a receive, while it handles an event, ends its session (`WhenTheSessionEnds`). A file is
  finalised if and only if digest and bytes come before that (`JoinerFinalisesOnce`); `FaultLosesAnotherFile` is a run
  where one file's fault loses another file. At the host such a fault, or a broken link, only fails the command; its
  digest stays in the room unused, the one case where the order of digest and bytes matters (`HostFinalisesOnce`).
- The host's session ends when it cannot tell of an arrival or a departure, or when the room refuses the host's own
  closing of a channel that it could not prepare a transfer for: `WhenTheRunEnds` and
  `WhenAFailedPreparationEndsTheSession` say exactly when.
- A joiner refuses inline data on file channels only, the host also on pipe channels. `DataReachesTheSameMembers` holds
  if and only if the joiner does not take part in such a pipe channel; `PipeDataIsAddressed` is a room where it does.
- Names with a backslash do not survive a directory transfer: `DirectoryRoundTrip` is an if and only if,
  `BackslashIsLost` a tree.
- Completing a bare `/send` whose quote or escape is still open puts the path inside the open word:
  `CompletionResplits` is an if and only if, `OpenQuoteSpoilsCompletion` an input.
- The rate limiter forgets a request made at time 0 as soon as the next one comes. `WindowIsRespected` says exactly which
  windows hold too much, in terms of the requests alone; `TimeZeroIsForgotten` is one.
- The SQLite store compares times as signed numbers. For one get, put or purge on any table the condition is exact
  (`GetInSql`, `PutInSql`, `PurgeInSql`), as it is for a fresh lease (`FreshLeaseInSql`, an input with every lease that
  crosses 2^63). For whole runs `StoresAnswerAlike` gives a sufficient one: that no time crosses 2^63.
- A deletion has no time, so its answer depends on whether a purge has come by (`DeletionAnswer`).

## Model

| member | source | states |
|---|---|---|
| RoomAuthority.NewRoomGood | crates/skyffla-session/src/room.rs:60-82 | a new room satisfies the room's invariant, and creating one fails exactly when the host's name is blank |
| RoomAuthority.ApplyGood | crates/skyffla-session/src/room.rs:112-405 | every operation, accepted or refused: the host stays a member, channels hold current members (two, or the opener alone), transfer metadata goes with file channels exactly, recipients are current members other than the actor |
| RoomAuthority.OpenGood | crates/skyffla-session/src/room.rs:216-267 | an opened channel has two participants or just its opener, also when opened to oneself or to everybody when alone |
| RoomAuthority.FreshId | crates/skyffla-session/src/room.rs:112-127 | the identifier of the next newcomer belongs to no member |
| RoomAnswers.WhenACommandApplies | crates/skyffla-session/src/room.rs:195-405 | a command is carried out if and only if it is well formed, its issuer is a member, and the room permits it: a known recipient, a free channel name, one's own file channel to update, and a channel one takes part in for everything else, for data neither file nor pipe |
| RoomAnswers.WhatACommandAnnounces | crates/skyffla-session/src/room.rs:195-405 | the event a command leads to carries the issuer, the issuer's name in the room and every field of the command unchanged, the body of data included; its recipients are exactly the other members the command concerns |
| RoomAnswers.ComingsAndGoings | crates/skyffla-session/src/room.rs:112-193 | a newcomer is taken in unless its name is blank and all members are told of it; a departure is accepted exactly for a member other than the host, and all who stay are told |
| RoomAnswers.WhatACommandChanges | crates/skyffla-session/src/room.rs:195-405 | a command changes the channel it is about and nothing else, and what it leaves of that channel: opened as asked, size and offer updated, the issuer taken out, or as it was |
| RoomAnswers.RefusedForAReason | crates/skyffla-session/src/room.rs:195-438 | a refusal gives an error that is true of the command: an unknown member or channel, a name taken, a stranger to the channel, the wrong opener or kind, or what is malformed |
| RoomAnswers.WhenACommandIsWellFormed | crates/skyffla-protocol/src/room.rs:268-351 | exactly which commands validation lets through, and that the error it gives is true of those it does not |
| RoomAnswers.TheRoomAtFirst | crates/skyffla-session/src/room.rs:60-82 | a new room has the host alone in it, as the first of the numbered members, and no channels |
| RoomAnswers.WhoIsInTheRoom | crates/skyffla-session/src/room.rs:112-193 | who the members are after any operation, numbered as they come, and that channels change with a departure only by losing the leaver, and those that are left with fewer than two |
| RoomAnswers.WelcomeTells | crates/skyffla-session/src/room.rs:128-157 | a newcomer is told the room, its own identifier and the host's, and members of the room only |
| RoomEngineObject.RoomEngine.New | crates/skyffla-session/src/room.rs:60-82 | the engine starts as the specified room or reports why not |
| RoomEngineObject.RoomEngine.Join | crates/skyffla-session/src/room.rs:112-157 | new state, notifications and greeting are the specified ones; a refusal changes nothing |
| RoomEngineObject.RoomEngine.Leave | crates/skyffla-session/src/room.rs:159-193 | the member is gone from the room and from every channel, emptied channels are gone; a refusal changes nothing |
| RoomEngineObject.RoomEngine.SendChat | crates/skyffla-session/src/room.rs:195-214 | one event to each recipient of the route, in key order, or the specified refusal |
| RoomEngineObject.RoomEngine.OpenChannel | crates/skyffla-session/src/room.rs:216-267 | the channel is recorded with its participants and announced to the others; a refusal changes nothing |
| RoomEngineObject.RoomEngine.AcceptChannel | crates/skyffla-session/src/room.rs:269-284 | the acceptance reaches the other participants and changes nothing |
| RoomEngineObject.RoomEngine.UpdateChannelTransfer | crates/skyffla-session/src/room.rs:286-344 | only the opener of a file channel updates it, the others are told; a refusal changes nothing |
| RoomEngineObject.RoomEngine.RejectChannel | crates/skyffla-session/src/room.rs:346-365 | the other participants are told, then the member is out, and the channel too when fewer than two are left |
| RoomEngineObject.RoomEngine.SendChannelData | crates/skyffla-session/src/room.rs:367-384 | one event with the data to each other participant of a machine or clipboard channel, in key order; file and pipe channels, strangers and unknown channels are refused |
| RoomEngineObject.RoomEngine.CloseChannel | crates/skyffla-session/src/room.rs:386-405 | as for a rejection |
| RoomEngineObject.RoomEngine.RouteEvent | crates/skyffla-session/src/room.rs:407-437 | the recipients of a route are the members it names other than the sender |
| RoomEngineObject.RoomEngine.ChannelParticipants | crates/skyffla-session/src/room.rs:457-476 | the sender and everybody the route names, or a refusal when one of them is unknown |
| RoomEngineObject.RoomEngine.RouteChannelEvent | crates/skyffla-session/src/room.rs:478-518 | a channel event goes to the other participants that are members, or is refused for the first reason that applies |
| RoomEngineObject.RoomEngine.RemoveChannelParticipant | crates/skyffla-session/src/room.rs:520-530 | the participant is removed, and the channel when fewer than two are left |
| RoomEngineObject.RoomEngine.PruneMemberFromChannels | crates/skyffla-session/src/room.rs:532-544 | the two loops together leave exactly the channels that keep two participants without the member, also channels the member was never in |
| JoinStateObject.JoinState.ApplyMachineEvent | crates/skyffla-cli/src/runtime/machine_state.rs:63-157 | an event changes every field of a joiner's state as specified |
| JoinStateObject.JoinState.EventParticipants | crates/skyffla-cli/src/runtime/machine_state.rs:185-213 | the participants of an announced channel, or a failure when a member is unknown |
| JoinStateObject.JoinState.RemoveJoinChannelParticipant | crates/skyffla-cli/src/runtime/machine_state.rs:340-358 | the channel stays exactly while two participants are left and this member is one of them |
| JoinStateObject.JoinState.PruneJoinChannelsForMember | crates/skyffla-cli/src/runtime/machine_state.rs:360-366 | the loop over all channels equals removing the member from each at once |
| JoinStateObject.JoinState.ApplyOwnCommand | crates/skyffla-cli/src/runtime/machine.rs:1325-1438 | the local effect of a joiner's own open, update, reject and close; its acceptance is `FileFinalisation.HandleAcceptance` |
| JoinStateObject.JoinState.ChatRecipients | crates/skyffla-cli/src/runtime/machine_state.rs:159-183 | whom a joiner sends chat to, in key order |
| JoinStateObject.JoinState.ChannelRecipients | crates/skyffla-cli/src/runtime/machine_state.rs:215-242 | whom a joiner sends channel data to, or the refusal |
| Replica.WhomAViewRemembers | crates/skyffla-cli/src/runtime/machine_state.rs:63-157 | after any event: who this member is, who is host, whose tickets it has and to whom it is linked |
| Replica.WhichFilesAViewRemembers | crates/skyffla-cli/src/runtime/machine_state.rs:63-157 | after any event: an acceptance is given up exactly when the file is there or the channel is closed or rejected and this member no longer takes part; bytes that wait, when the file is there or anybody closes or rejects |
| Replica.WhatAnOpeningShows | crates/skyffla-cli/src/runtime/machine_state.rs:86-112 | an opened channel shows exactly when its opener and those it is for are known, with its participants and metadata as announced; only its opener counts the file as there |
| Replica.NothingIsLeft | crates/skyffla-cli/src/runtime/machine_state.rs:80-85 | when the room closes, no member, ticket, channel or link is left |
| Replica.WhoIsAddressed | crates/skyffla-cli/src/runtime/machine_state.rs:159-242 | chat and data go to exactly the others that a route names or that take part, and are refused exactly for an unknown member, an unknown channel, a file channel, or a stranger to the channel |
| RoomRefinement.SnapshotRestores | crates/skyffla-session/src/room.rs:129-139 | reading a snapshot gives back the members it was taken of |
| RoomRefinement.JoinerGreeted | crates/skyffla-cli/src/runtime/machine_state.rs:302-330 | after welcome and snapshot a newcomer's view agrees with the host's room |
| RoomRefinement.MemberLeftSeen | crates/skyffla-cli/src/runtime/machine_state.rs:360-366 | pruning at a joiner and at the host agree on every channel the joiner takes part in |
| RoomRefinement.OpenSeen | crates/skyffla-cli/src/runtime/machine_state.rs:90-114 | an opened channel appears at exactly the members who take part, with the host's attributes |
| RoomRefinement.DroppedOutSeen | crates/skyffla-cli/src/runtime/machine_state.rs:340-358 | closing and rejecting leave host and joiner agreeing, for the one who leaves and for the others |
| RoomRefinement.UpdatedSeen | crates/skyffla-cli/src/runtime/machine_state.rs:115-129 | a transfer update leaves them agreeing on size and offer |
| RoomRefinement.StepKeepsFaithful | crates/skyffla-cli/src/runtime/machine_state.rs:63-157 | one operation of the room, with the events it routes and the issuer's local effect at its place in the host's order, keeps every joiner's view faithful; `exact` includes sizes and transfers |
| RoomRefinement.EveryRunIsFaithful | crates/skyffla-session/src/room.rs:112-405 | for every run of operations whose routed events are all applied: each joiner's members equal the host's and its channels are exactly the host channels it takes part in, with the same attributes |
| RuntimeRefinement.WhoIsUntold | crates/skyffla-cli/src/runtime/machine.rs:2111-2299 | which joiners are not told of a command that is carried out: all it is for when serving it faults, and otherwise those at and after the first dead link in key order |
| RuntimeRefinement.StepIsFaithful | crates/skyffla-cli/src/runtime/machine.rs:544-757 | one input of the host's loop, or a new link between joiners, keeps every view right if and only if nobody misses what its view needs, a refused command of a joiner's was harmless, and the link is to a member |
| RuntimeRefinement.StepIsNearlyFaithful | crates/skyffla-cli/src/runtime/machine.rs:1325-1438 | sizes and transfers aside, it does if and only if nobody misses that a channel is opened or left, no refused opening differs from the host's channel of that name in opener, kind, participants or name, and the link is to a member |
| RuntimeRefinement.EveryRuntimeRun | crates/skyffla-cli/src/runtime/machine.rs:544-757 | for every run of the host's loop, with its links, its own receives, refused commands and links between joiners: all views are right after every turn if and only if every turn is sound |
| LossyRuns.ForgottenAcceptance | crates/skyffla-cli/src/runtime/machine.rs:2157-2178 | the host accepts a file of unknown size and closes its side; the opener's next update is carried out and the other receivers are not told |
| LossyRuns.SizeIsNeverTold | crates/skyffla-cli/src/runtime/machine.rs:2157-2178 | a run of three members to such an update, with all views right before it and one wrong after it |
| LossyRuns.RefusedOpeningMisleads | crates/skyffla-cli/src/runtime/machine.rs:1325-1360 | a run of two members to an opening that the host refuses, with the issuer's view right before it and wrong after it, sizes and transfers aside |
| LossyRuns.AcceptanceReachesNobody | crates/skyffla-cli/src/runtime/machine.rs:2250-2272 | a run of three members in which an acceptance after the opener's departure is announced to the third and handed to nobody |
| LossyRuns.OneBrokenLinkSilencesOthers | crates/skyffla-cli/src/runtime/machine.rs:2276-2299 | a run in which one member's broken link keeps a message from another whose link is whole |
| RoomRefinement.IdentifiersAreNeverReused | crates/skyffla-session/src/room.rs:112-127 | the next identifier belonged to nobody at any earlier point of any run |
| RoomRefinement.RefusedCommand | crates/skyffla-cli/src/runtime/machine.rs:1325-1438 | after a command the host refuses, the issuer's view is right if and only if the command was harmless; for sizes and transfers too, or aside from them |
| RoomRefinement.RefusedOpenCanDiverge | crates/skyffla-cli/src/runtime/machine.rs:1325-1360 | a room, a view and a command for which it is not, sizes and transfers aside |
| RoomRefinement.ChatReachesTheSameMembers | crates/skyffla-cli/src/runtime/machine_state.rs:159-183 | a joiner's chat recipients are the sequence the host would have routed to, or both refuse |
| RoomRefinement.DataReachesTheSameMembers | crates/skyffla-cli/src/runtime/machine_state.rs:215-242 | the same for channel data, if and only if the channel is not a pipe the joiner takes part in; the host routes the body as it was sent |
| RoomRefinement.PipeDataIsAddressed | crates/skyffla-cli/src/runtime/machine_state.rs:215-242 | two members on a pipe: the guest sends its data to the host, which would have refused to route it |
| FileFinalisation.MaybeFinalizeReceivedFile | crates/skyffla-cli/src/runtime/machine.rs:1842-1892 | with digest and bytes both there the file is no longer pending and one of the two decisions is taken; what these are over whole runs is `JoinerFinalisesOnce` |
| FileFinalisation.MaybeStartPendingReceive | crates/skyffla-cli/src/runtime/machine.rs:1946-2009 | when an accepted transfer is started, put off, or found to be at fault, also for a name it cannot be stored under |
| FileFinalisation.JoinPendingFileTransfer | crates/skyffla-cli/src/runtime/machine_state.rs:244-290 | what a joiner may fetch on a channel, nothing, or a fault |
| FileFinalisation.HandleAcceptance | crates/skyffla-cli/src/runtime/machine.rs:1390-1420 | a joiner's own acceptance is remembered and may start a receive; a fault is reported and its session goes on |
| FileFinalisation.HandleDelivered | crates/skyffla-cli/src/runtime/machine.rs:906-921 | an event is applied, may start a receive and may finalise a file, in this order; a fault of the receive ends the session with nothing finalised |
| FileFinalisation.HandleBytesArrived | crates/skyffla-cli/src/runtime/machine.rs:1094-1108 | arrived bytes are kept and finalised if the digest is known |
| FileFinalisation.OrderDoesNotMatter | crates/skyffla-cli/src/runtime/machine.rs:1842-1892 | from any known digest: nothing happens before both digest and bytes are in, then one decision is made, whatever the order and however often the digest is repeated; a digest that comes with a fault decides only with bytes that come later |
| FileFinalisation.JoinerFinalisesOnce | crates/skyffla-cli/src/runtime/machine.rs:1842-1892 | in every run that leaves the channel alone: if and only if digest and bytes come before a fault on any channel ends the session, a joiner either renames the file into place and announces it, when its hash is the digest, or deletes it and reports it, when it is not; once, and never both |
| FileFinalisation.ReadyMeansStored | crates/skyffla-cli/src/runtime/machine.rs:1872-1889 | in every such run, however it ends, the joiner counts the file as there exactly when it did before or a file was renamed into place |
| FileFinalisation.OnlyIntactFilesAreReady | crates/skyffla-cli/src/runtime/machine.rs:1842-1892 | so after such a run the file is there exactly when digest and bytes came in time and agree |
| FileFinalisation.WhenTheSessionEnds | crates/skyffla-cli/src/runtime/machine.rs:1946-2009 | which event ends a joiner's session: one about a transfer it has accepted and cannot fetch or store |
| FileFinalisation.OnlyEventsEndIt | crates/skyffla-cli/src/runtime/machine.rs:1390-1420 | neither a joiner's own acceptance nor bytes that arrive end its session |
| FileFinalisation.FaultLosesAnotherFile | crates/skyffla-cli/src/runtime/machine.rs:1580-1601 | an accepted file named ".." ends the session, and a file whose bytes are there is never finalised |
| FileFinalisation.HandlingFollowsTheEvent | crates/skyffla-cli/src/runtime/machine.rs:906-921 | beyond the event itself, handling it changes neither members, tickets nor channels but for local readiness |
| FileFinalisation.HostFinalisesOnce | crates/skyffla-cli/src/runtime/machine.rs:1894-1944 | the host renames and announces a file whose hash is the digest, or deletes and reports one whose hash is not, once: when bytes and an announced digest are both in, or when the bytes come after a digest whose serving faulted or whose delivery was cut short; otherwise neither |
| FileFinalisation.KeepingSpendsAcceptance | crates/skyffla-cli/src/runtime/machine.rs:1919-1941 | a file the host keeps is no longer accepted, one that it deletes still is |
| FileReceive.WhenServingFaults | crates/skyffla-cli/src/runtime/machine.rs:2011-2109 | serving an accepted command faults exactly when it is an update of a transfer the host has accepted, or an acceptance of its own, and the host takes no part, lacks the opener's ticket, or cannot store the name |
| FileReceive.OwnUpdatesDoNotFault | crates/skyffla-cli/src/runtime/machine.rs:2011-2109 | the host's update of a transfer of its own starts no receive and does not fault |
| Paths.PlainNameReceivable | crates/skyffla-cli/src/runtime/machine.rs:1580-1593 | a name without slashes is refused exactly when trimming leaves nothing, "." or ".." |
| Paths.LastNameCounts | crates/skyffla-cli/src/runtime/machine.rs:1580-1593 | of a name with slashes only the last component decides, and a slash at the end makes no difference |
| Paths.TrimmedIs | crates/skyffla-cli/src/runtime/machine.rs:1585 | trimming takes off the white space at both ends, all of it and nothing else |
| FileFinalisation.StartsAreAccepted | crates/skyffla-cli/src/runtime/machine.rs:1946-2009 | no more receives are started for a channel than were accepted |
| AcceptedFiles.WhenAJoinerFetches | crates/skyffla-cli/src/runtime/machine.rs:1946-2009 | a joiner starts a receive if and only if it accepts a file that is offered to it and can be fetched at once, or hears of a transfer that it has accepted before and that can be fetched now |
| AcceptedFiles.AcceptedIsFetched | crates/skyffla-cli/src/runtime/machine.rs:1946-2009 | an accepted file of unknown size is not fetched by anything that happens elsewhere, and is fetched when its size is announced |
| AcceptedFiles.WhenTheHostFetches | crates/skyffla-cli/src/runtime/machine.rs:2011-2109 | the host starts a receive if and only if it accepts, or has accepted, a file that the command at hand leaves it able to fetch |
| AcceptedFiles.HostAcceptanceAwaits | crates/skyffla-cli/src/runtime/machine.rs:2250-2272 | the host's acceptance of a file of unknown size is remembered and starts nothing |
| AcceptedFiles.HostAcceptedIsFetched | crates/skyffla-cli/src/runtime/machine.rs:2011-2109 | and the file is fetched when its opener announces the size, after whatever happens elsewhere, and not before |
| AcceptedFiles.HostStartsAreAccepted | crates/skyffla-cli/src/runtime/machine.rs:2011-2109 | over any run the host starts no more receives of a channel than it has accepted |
| HostLinks.StepKeepsInv | crates/skyffla-cli/src/runtime/machine.rs:544-840 | connecting, links that become ready or break, departures, commands, finished files and prepared transfers keep: handles match members, introductions complete, everything handed on in order, greeting before any dial order |
| HostRuntime.HostSession.IntroduceMemberToExistingPeers | crates/skyffla-cli/src/runtime/machine_links.rs:747-778 | the loop tells each existing peer to dial and the newcomer about each, in key order; it fails exactly when a ticket is missing |
| HostRuntime.HostSession.DeliverRoutedEvents | crates/skyffla-cli/src/runtime/machine.rs:2276-2299 | every peer gets its own events in order, on its link or kept for it, up to the first peer whose link is broken; it fails exactly when there is one |
| HostRuntime.HostSession.PeerLinkReady | crates/skyffla-cli/src/runtime/machine.rs:616-630 | what was kept is sent first, and nothing is kept from then on |
| HostRuntime.HostSession.PeerConnected | crates/skyffla-cli/src/runtime/machine.rs:759-814 | join, introductions, greeting and notifications, or the failure: a refusal, a missing ticket, or a broken link among the others |
| HostRuntime.HostSession.AdmitPeer | crates/skyffla-cli/src/runtime/machine.rs:772-802 | introductions both ways, then the newcomer's handle and its greeting; it fails exactly when a ticket is missing |
| HostRuntime.HostSession.PeerDisconnected | crates/skyffla-cli/src/runtime/machine.rs:670-681 | the handle is gone and the remaining members are told, or a broken link ends the session; a leave command has the same effect |
| HostRuntime.HostSession.PreparedTransferReady | crates/skyffla-cli/src/runtime/machine.rs:691-717 | the room updates the host's own transfer and the others are told; that the channel is gone is overlooked, any other refusal and a broken link end the session |
| HostRuntime.HostSession.PreparedTransferFailed | crates/skyffla-cli/src/runtime/machine.rs:734-757 | the same for closing the channel of a transfer that could not be prepared |
| HostRuntime.HostSession.HostPendingFileDownload | crates/skyffla-cli/src/runtime/machine.rs:2011-2058 | where the host may fetch from, nothing, or a fault |
| HostRuntime.HostSession.MaybeStartHostPendingReceive | crates/skyffla-cli/src/runtime/machine.rs:2060-2109 | an accepted transfer is started, put off, or found to be at fault |
| HostRuntime.HostSession.MaybeFinalizeHostReceivedFile | crates/skyffla-cli/src/runtime/machine.rs:1894-1944 | the host's own file is kept or deleted once digest and bytes are in |
| HostRuntime.HostSession.HandleHostCommand | crates/skyffla-cli/src/runtime/machine.rs:2111-2274 | the room carries a command out, the host serves it for itself, its events are delivered, and a file may be finalised, in this order; it fails exactly when the room refuses, the serving faults or a link is broken, and then peers have been told what was handed on before that |
| HostRuntime.HostSession.Command | crates/skyffla-cli/src/runtime/machine.rs:631-664 | four outcomes: delivered; refused with nothing changed; carried out with its events dropped; carried out with its events delivered up to a broken link. In the last three the issuer is told of a failure |
| HostRuntime.HostSession.ReceivedFileReadyToFinalize | crates/skyffla-cli/src/runtime/machine.rs:718-733 | arrived bytes are kept and finalised if the digest is known |
| HostRuntime.HostSession.LocalPathReceived | crates/skyffla-cli/src/runtime/machine_state.rs:292-300 | once a path of its own is complete, the channel is neither accepted nor waiting any more |
| HostRuntime.HandleJoinAuthorityMessage | crates/skyffla-cli/src/runtime/machine.rs:898-960 | what a joiner records of an authority message, the receives and finalisations it leads to, whether it dials, and whether its session or the link ends |
| Mesh.EveryPairIsIntroduced | crates/skyffla-cli/src/runtime/machine_links.rs:747-778 | after any run, every two joiners have been told about each other exactly once with the right ticket, and exactly the older one was told to dial |
| Mesh.NoEventIsLost | crates/skyffla-cli/src/runtime/machine.rs:2276-2299 | after any run, what was sent to a joiner and what still waits is all the room emitted for it, in order, if and only if nothing for it was dropped at a command |
| Mesh.WhenEventsAreDropped | crates/skyffla-cli/src/runtime/machine.rs:2111-2274 | an input drops something the room emits exactly when it is a command carried out, and it is about a transfer the host has accepted and cannot fetch or store, or somebody it is for has a broken link |
| Mesh.WhoIsNotTold | crates/skyffla-cli/src/runtime/machine.rs:2276-2299 | of such a command a member is not told exactly when serving it faults, or the member or one before it in key order has a broken link |
| Mesh.CommandIsHandedOn | crates/skyffla-cli/src/runtime/machine.rs:2276-2299 | end to end: a command that is carried out adds to what was sent or waits for a joiner exactly one event, with the command in full and in its issuer's name, if the command concerns that joiner and is somebody else's, nothing faults and no broken link comes first; otherwise nothing |
| Mesh.WhoIsToldOfAFailure | crates/skyffla-cli/src/runtime/machine.rs:2405-2419 | the issuer of a command that is refused, faults or meets a broken link is told once, with the channel it was about; no other joiner's authority link gets anything |
| LinkStates.StepFollows | crates/skyffla-cli/src/runtime/machine.rs:544-840 | what each input does to a peer link: readiness sends what has waited, in order, and everything else sends only over ready links, keeps back for the others, and leaves the state of the link alone |
| LinkStates.WhenALinkIsReady | crates/skyffla-cli/src/runtime/machine.rs:616-626 | after any run a link is ready if and only if it became so since its joiner came, and until then nothing has been sent over it |
| Mesh.AcceptanceAfterDeparture | crates/skyffla-cli/src/runtime/machine.rs:2250-2272 | a member offers a file to several and leaves: the host may still accept it, and the acceptance reaches nobody |
| Mesh.WhenTheRunEnds | crates/skyffla-cli/src/runtime/machine.rs:544-840 | after any run the next input ends the host's session exactly when it brings a blank name, no ticket, a refusal of the host's own transfer other than that the channel is gone, or, unless it is a command, finds a broken link to somebody who should be told |
| Mesh.WhenAFailedPreparationEndsTheSession | crates/skyffla-cli/src/runtime/machine.rs:734-757 | a failed preparation ends it exactly when the channel's name is blank, or the channel is still there and the host has left it or another participant's link is broken |
| Mesh.WhenAPreparedTransferEndsTheSession | crates/skyffla-cli/src/runtime/machine.rs:691-716 | a prepared transfer ends it exactly when the channel is there and the host's own, and is not for files, or the offer is malformed, or another participant's link is broken |
| Mesh.PreparedTransferIsHandedOn | crates/skyffla-cli/src/runtime/machine.rs:691-716 | otherwise the room records size and offer, and each other participant, and nobody else, is handed one update with them |
| Mesh.CompleteFolderIsDone | crates/skyffla-cli/src/runtime/machine_state.rs:292-300 | a folder that is complete is neither accepted nor waiting any more, and nothing else changes |
| Mesh.DialOrdersFindTheLocalMember | crates/skyffla-cli/src/runtime/machine.rs:922-957 | whatever the order in which a joiner reads its links, each dial order before its session ends finds it greeted and is carried out in its own name |
| Dialling.WhenAJoinerDials | crates/skyffla-cli/src/runtime/machine.rs:922-957 | reading a message makes a joiner dial if and only if it is an order to dial, of somebody else who is not linked, and the joiner is greeted and knows itself |
| Dialling.OnlyTheOlderDials | crates/skyffla-cli/src/runtime/machine.rs:922-957 | after any run of the host and along any schedule of a joiner: it dials another joiner only if it is the older of the two, at most once, in its own name and with the other's ticket; so never both dial |
| Dialling.TheOlderDials | crates/skyffla-cli/src/runtime/machine.rs:922-957 | a joiner that reads its whole authority link while its session lasts and the two are not linked dials the other exactly once if it is the older, and otherwise not |
| CreditTransfer.StepKeepsInv | crates/skyffla-transport/src/lib.rs:1227-1263 | in every interleaving: credit held, in flight and spent is what was granted, data arrives in order, no counter saturates |
| CreditTransfer.WindowBound | crates/skyffla-transport/src/lib.rs:22-24 | the sender is never more than one window ahead of the receiver |
| CreditTransfer.NoDeadlock | crates/skyffla-transport/src/lib.rs:1622-1687 | short of the end some step is enabled |
| CreditTransfer.StepMakesProgress | crates/skyffla-transport/src/lib.rs:1622-1687 | every step brings both loops nearer to their end |
| CreditTransfer.TerminalOutcome | crates/skyffla-transport/src/lib.rs:1264-1274 | a transfer that has stopped is complete, with the right bytes, exactly when the source was long enough |
| CreditTransfer.EveryScheduleDelivers | crates/skyffla-transport/src/lib.rs:1216-1274 | every schedule is bounded, conserves credit and ends with the first announced bytes of the source at the receiver, or with failure when the source is short |
| CreditTransfer.ReportedIsRead | crates/skyffla-transport/src/lib.rs:1556-1559 | in every schedule the sizes reported as progress add up to what the receiver has |
| CreditTransfer.WhenAReadGrants | crates/skyffla-transport/src/lib.rs:1232-1263 | a read makes a grant exactly when a quarter of the window has come since the last, more is to come and the sender still listens; it grants all that has come since |
| CreditTransfer.Connection.WriteCredit | crates/skyffla-transport/src/lib.rs:1905-1914 | a grant of zero is not written |
| CreditTransfer.Connection.ReadCredit | crates/skyffla-transport/src/lib.rs:1916-1929 | one credit message is added to what the sender holds |
| CreditTransfer.Connection.ServeChunk | crates/skyffla-transport/src/lib.rs:1636-1669 | one turn of the sending loop is a step of the protocol |
| CreditTransfer.Connection.ReceiveChunk | crates/skyffla-transport/src/lib.rs:1232-1263 | one turn of the receiving loop, with its grant, is a step of the protocol |
| CreditTransfer.Connection.Run | crates/skyffla-transport/src/lib.rs:1216-1274 | the two loops together terminate; they succeed exactly when the source is long enough and then the file is its prefix |
| PipeBroadcast.StepKeepsInv | crates/skyffla-cli/src/runtime/pipe.rs:1038-1163 | every receiver has been written exactly the input from where it joined, and its credit balances |
| PipeBroadcast.ChunkFitsEverybody | crates/skyffla-cli/src/runtime/pipe.rs:1118-1157 | when input is read everybody is active with credit for the whole chunk, so the subtraction never saturates |
| PipeBroadcast.NeverSpins | crates/skyffla-cli/src/runtime/pipe.rs:1060-1116 | with receivers present the loop reads or has a definite receiver to wait for; a chunk length of zero names a blocked one |
| PipeBroadcast.WhoIsAwaited | crates/skyffla-cli/src/runtime/pipe.rs:1055-1082 | credit is awaited of exactly one receiver: the least in key order of those that have never granted any, or, when there are none, of those that have used up theirs |
| PipeBroadcast.AwaitedReceiverAnswers | crates/skyffla-transport/src/lib.rs:685-760 | the receiver waited for has credit on the way or a step of its own, and cannot go on for ever without granting |
| PipeBroadcast.AwaitedCreditComes | crates/skyffla-transport/src/lib.rs:685-760 | over runs: a receiver without credit that stays in place has some on its way after at most a quarter window's number of its own turns, however they are interleaved |
| PipeBroadcast.EveryRunIsLossless | crates/skyffla-cli/src/runtime/pipe.rs:1038-1163 | in every run a receiver present at the end of the input has been written the input from where it joined, without a gap |
| PipeBroadcast.ObeyingTouchesOne | crates/skyffla-cli/src/runtime/pipe.rs:1195-1211 | after an addition the receiver is there, pending, written nothing and joined at the current byte; after a removal it is gone; nobody else changes |
| PipeBroadcast.WhoIsServed | crates/skyffla-cli/src/runtime/pipe.rs:1045-1158 | at any step, who is served afterwards: whoever is added, and whoever was and is neither removed nor failed |
| PipeBroadcast.HowTheLoopGoesOn | crates/skyffla-cli/src/runtime/pipe.rs:1045-1158 | the loop consumes the input in order and goes on until input or commands end |
| PipeBroadcast.LateReceiverIsServed | crates/skyffla-cli/src/runtime/pipe.rs:1038-1163 | over runs: a receiver added after k bytes and spared since is there, and at the end of the input has been written exactly the input from byte k; one that is removed and not added again is not there |
| PipeBroadcast.Broadcaster.FirstPendingReceiver | crates/skyffla-cli/src/runtime/pipe.rs:1213-1218 | the first receiver in key order that has not granted yet |
| PipeBroadcast.Broadcaster.FirstBlockedActiveReceiver | crates/skyffla-cli/src/runtime/pipe.rs:1220-1227 | the first active receiver in key order that has no credit left |
| PipeBroadcast.Broadcaster.ChunkLen | crates/skyffla-cli/src/runtime/pipe.rs:1084-1090 | the least credit any receiver has, at most one chunk |
| PipeBroadcast.Broadcaster.ApplyBroadcastCommand | crates/skyffla-cli/src/runtime/pipe.rs:1195-1211 | a receiver is added at the current byte or removed |
| PipeBroadcast.Broadcaster.WaitForReceiverCredit | crates/skyffla-cli/src/runtime/pipe.rs:1165-1193 | a credit is added and the receiver becomes active |
| PipeBroadcast.Broadcaster.WriteToAll | crates/skyffla-cli/src/runtime/pipe.rs:1135-1157 | every receiver gets the chunk and is charged for it; those that fail are removed |
| PipeBroadcast.Broadcaster.Iterate | crates/skyffla-cli/src/runtime/pipe.rs:1045-1158 | one turn of the loop is a run of steps |
| PipeBroadcast.ReceivePipeStream | crates/skyffla-transport/src/lib.rs:685-760 | the receiving loop writes out what it reads; it grants what falls due up to the first grant that does not get through and none after it, and fails exactly when the first one does not or its streams break |
| PipeBroadcast.GrantsAddUp | crates/skyffla-transport/src/lib.rs:685-760 | the grants of a stream that ends add up to the window and what was received, each but the last a quarter window or more |
| Framing.FrameRoundTrip | crates/skyffla-protocol/src/framing.rs:52-95 | decoding accepts exactly the frames that encoding makes, and gives back their payload |
| Framing.BigEndianBytes | crates/skyffla-protocol/src/framing.rs:66-68 | the length prefix has its most significant byte first |
| Framing.WhenFramesAreRefused | crates/skyffla-protocol/src/framing.rs:52-95 | exactly which payloads and which frames are refused, and with which error |
| Framing.EntryIsSelfDelimiting | crates/skyffla-transport/src/lib.rs:1439-1482 | header, data and trailer are parsed back and what follows is left untouched; the entry is refused exactly when its size is not the manifest's or its hash not the trailer's |
| Framing.CutEntryIsRefused | crates/skyffla-transport/src/lib.rs:1508-1587 | an entry cut off at any byte is refused, within its data as closed early |
| Framing.CutMessage | crates/skyffla-transport/src/lib.rs:1869-1903 | a stream that ends between messages ends well, one that ends within a prefix or a payload gives the error for that |
| Framing.TooLargeMessage | crates/skyffla-transport/src/lib.rs:1869-1903 | a message that announces too much is refused and read off the stream |
| Framing.UnexpectedReady | crates/skyffla-transport/src/lib.rs:1508-1530 | an error response, an undecodable payload or any other message in place of the ready frame fails the entry with the error for it |
| Framing.UnexpectedTrailer | crates/skyffla-transport/src/lib.rs:1573-1587 | the same in place of the trailer |
| Framing.AcceptedEntry | crates/skyffla-transport/src/lib.rs:1508-1587 | whatever bytes are accepted as an entry are a ready frame of the manifest's size, so many bytes, and a trailer with their hash |
| Framing.ByteStream.ReadExact | crates/skyffla-transport/src/lib.rs:1869-1903 | any splitting of the bytes yields the same prefix, or says how many came |
| Framing.ByteStream.ReadMessage | crates/skyffla-transport/src/lib.rs:1869-1903 | one message is read off the stream, and no more |
| Framing.ByteStream.ReadData | crates/skyffla-transport/src/lib.rs:1531-1572 | exactly the announced bytes are read in pieces |
| Framing.ByteStream.ReadEntry | crates/skyffla-transport/src/lib.rs:1508-1587 | a whole entry is read, checked against the manifest and against its hash as specified, for any splitting of reads |
| StreamPairing.StepKeepsInv | crates/skyffla-transport/src/lib.rs:1497-1506 | under the lock, request and credit streams alternate, each pair one worker's, in the order the server accepts them |
| StreamPairing.NoDeadlock | crates/skyffla-transport/src/lib.rs:949-979 | while an entry is still to be served, a worker or the server can go on |
| StreamPairing.EveryEntryGetsItsOwnCredit | crates/skyffla-transport/src/lib.rs:949-979 | in every interleaving an entry is served with its own worker's credit stream, once, and in the end all are |
| DirectoryEntries.ComputeTotalSize | crates/skyffla-transport/src/lib.rs:443-446 | the fold is the sum of the file sizes, capped at 2^64 - 1 |
| DirectoryEntries.ExpectedFileRequests | crates/skyffla-transport/src/lib.rs:943-948 | the server waits for as many requests as there are file entries |
| DirectoryEntries.CollectFiles | crates/skyffla-transport/src/lib.rs:1289-1293 | the file entries in manifest order |
| WorkerPool.StepKeepsInv | crates/skyffla-transport/src/lib.rs:1304-1370 | every entry is in one place, tasks in flight stay within the limit, every reported byte is accounted for |
| WorkerPool.SomebodyIsInFlight | crates/skyffla-transport/src/lib.rs:1338-1342 | joining never finds the set of tasks empty while some are counted in flight |
| WorkerPool.EveryRunFetchesEverything | crates/skyffla-transport/src/lib.rs:1304-1383 | in every order: requests in order and once each, as many in flight as there are workers and at least one until all are requested, bounded and never stuck, ending well exactly when every task succeeds, with everything counted |
| WorkerPool.DirectoryReceiver.FillPool | crates/skyffla-transport/src/lib.rs:1314-1326 | the first loop ends with the pool at its limit or every entry requested |
| WorkerPool.DirectoryReceiver.JoinNext | crates/skyffla-transport/src/lib.rs:1338-1370 | a joined task makes room for the next entry, a failed one ends the loop |
| WorkerPool.FetchReportsSize | crates/skyffla-transport/src/lib.rs:1531-1572 | a task that succeeds has reported exactly its entry's size, in every schedule of its credit transfer |
| WorkerPool.DirectoryReceiver.ReceiveDirectoryEntries | crates/skyffla-transport/src/lib.rs:1276-1383 | with tasks that run the credit transfer: succeeds exactly when every task does; then as many requests as the server expects, and the last progress is the announced size |
| DirectoryTree.CollectRecursive | crates/skyffla-transport/src/lib.rs:1085-1134 | the recursive loop lists every file and every empty folder below the root |
| DirectoryTree.TreeHolds | crates/skyffla-transport/src/lib.rs:1085-1134 | a tree consists of what is collected from it and the folders on the way, and no entry lies below another |
| DirectoryTree.WhatInstallingDoes | crates/skyffla-transport/src/lib.rs:1521-1530 | installing an entry fails exactly when a file is in the way of a folder or a folder in the way of the file; otherwise the entry and the folders it lies in are there, and everything else is as it was |
| DirectoryTree.InstallAllHolds | crates/skyffla-transport/src/lib.rs:1294-1303 | creating compatible entries in any order succeeds and leaves exactly them and the folders on the way |
| DirectoryTree.RebuildRestores | crates/skyffla-transport/src/lib.rs:1294-1303 | rebuilding from the entries in any order gives the tree back, empty folders and an empty root included |
| DirectoryManifest.ValidatedCollectionRelativePath | crates/skyffla-transport/src/lib.rs:1745-1775 | the loop over components accepts and normalises relative paths as specified |
| DirectoryManifest.WhenAPathIsAccepted | crates/skyffla-transport/src/lib.rs:1745-1775 | for every string: refused exactly when it begins with a slash, has a parent component or names nothing; an accepted path has components only that are names, without slashes and neither of the dots, and they are the string's own |
| DirectoryManifest.RebuiltStaysInside | crates/skyffla-transport/src/lib.rs:1276-1310 | whatever manifest and contents a server sends, all that a receiver installs lies under the directory it downloads to |
| DirectoryManifest.ServedFromInside | crates/skyffla-transport/src/lib.rs:1398-1419 | whatever a client asks for, a path served lies under the shared directory |
| DirectoryManifest.NameRoundTrip | crates/skyffla-transport/src/lib.rs:1136-1139 | a name made from a path without backslashes is read back as that path |
| DirectoryManifest.LookupDirectoryEntry | crates/skyffla-transport/src/lib.rs:1398-1419 | the first entry of the name, if it is a file, with its path |
| DirectoryManifest.WhatIsLookedUp | crates/skyffla-transport/src/lib.rs:1398-1419 | the first entry of a name decides: served if it is a file, and otherwise there is no such entry, nor when no entry has the name |
| DirectoryManifest.ReceivedAsAnnounced | crates/skyffla-transport/src/lib.rs:1508-1587 | whatever the server sends, what a receiver takes for a file has the announced size |
| DirectoryManifest.LookupFinds | crates/skyffla-transport/src/lib.rs:1398-1419 | in a manifest of a tree every file is found under its own name |
| DirectoryManifest.DirectoryRoundTrip | crates/skyffla-transport/src/lib.rs:1276-1310 | the receiver ends up with the server's tree if and only if no name in it has a backslash |
| DirectoryManifest.BackslashIsLost | crates/skyffla-transport/src/lib.rs:1136-1139 | a tree with such a name, whose transfer fails |
| DirectoryManifest.AnnouncedSizeIsTreeSize | crates/skyffla-transport/src/lib.rs:443-446 | the announced size is the sum of the tree's files, capped at 2^64 - 1 |
| DirectoryManifest.AnnouncedSizes | crates/skyffla-transport/src/lib.rs:1105-1131 | in the manifest files have their sizes and empty folders none |
| ShellWords.SplitShellWords | crates/skyffla-cli/src/runtime/room_tui.rs:941-982 | the loop over characters splits as specified, or gives the specified error |
| ShellWords.EscapeShellToken | crates/skyffla-cli/src/runtime/room_tui.rs:825-834 | the loop escapes as specified |
| ShellWords.LexEscaped | crates/skyffla-cli/src/runtime/machine_command_line.rs:225-268 | an escaped token is read as itself, whatever word it continues |
| ShellWords.QuotingRoundTrip | crates/skyffla-cli/src/runtime/machine_command_line.rs:225-268 | escaping, joining and splitting gives the non-empty tokens back, and all of them if and only if none is empty |
| ShellWords.QuotedTextIsOneWord | crates/skyffla-cli/src/runtime/room_tui.rs:941-982 | text in single quotes is taken as it is, text in double quotes once its quotes and backslashes are escaped; without the closing quote splitting fails |
| ShellWords.WhenEscapingIsNeeded | crates/skyffla-cli/src/runtime/room_tui.rs:941-982 | unescaped text is one word if and only if it has no white space, quote or backslash |
| ShellWords.WhenEscapingChanges | crates/skyffla-cli/src/runtime/room_tui.rs:825-834 | escaping changes a text if and only if it has one of those, a dollar sign or a backquote |
| Completion.PartialShellTokens | crates/skyffla-cli/src/runtime/room_tui.rs:680-741 | the loop finds the specified tokens and spans |
| Completion.TokensAreWords | crates/skyffla-cli/src/runtime/room_tui.rs:680-741 | when a line splits, its words are the non-empty tokens; spans are ordered and apart, and each starts and ends where the text read so far is just those tokens |
| Completion.CommonPrefix | crates/skyffla-cli/src/runtime/room_tui.rs:809-823 | the longest prefix shared by all the values |
| Completion.CompletionResplits | crates/skyffla-cli/src/runtime/room_tui.rs:567-674 | the edited line splits into the earlier words and the inserted path; for a bare command, if and only if that line splits by itself |
| Completion.WhenCompletionIsOffered | crates/skyffla-cli/src/runtime/room_tui.rs:643-674 | exactly on which lines a completion is offered, and for which text |
| Completion.TypingGoesOn | crates/skyffla-cli/src/runtime/room_tui.rs:593-605 | what is typed after the completion goes on with the path if that is a folder, and begins a new word if it is a file |
| Completion.SharedBeginningIsAdded | crates/skyffla-cli/src/runtime/room_tui.rs:606-625 | with several matches something is added exactly when they share more than was typed, and typing goes on with it |
| Completion.OpenQuoteSpoilsCompletion | crates/skyffla-cli/src/runtime/room_tui.rs:643-674 | a line that is offered a completion although it does not split |
| LeaseRegistry.RoomRegistry.PurgeExpired | crates/skyffla-rendezvous/src/lib.rs:144-149 | exactly the expired records go |
| LeaseRegistry.RoomRegistry.Put | crates/skyffla-rendezvous/src/lib.rs:88-123 | purge, then insert, renew or refuse |
| LeaseRegistry.RoomRegistry.Get | crates/skyffla-rendezvous/src/lib.rs:125-138 | purge, then look up |
| LeaseRegistry.RoomRegistry.Delete | crates/skyffla-rendezvous/src/lib.rs:140-142 | the record goes, and the answer says whether there was one |
| LeaseRegistry.SqliteRoomStore.Put | crates/skyffla-rendezvous/src/store.rs:136-198 | the same through the statements on the table, with signed times |
| LeaseRegistry.SqliteRoomStore.Get | crates/skyffla-rendezvous/src/store.rs:200-239 | the same for a look-up |
| LeaseRegistry.SqliteRoomStore.Delete | crates/skyffla-rendezvous/src/store.rs:241-247 | the same for a deletion |
| LeaseRegistry.SqliteRoomStore.DeleteExpired | crates/skyffla-rendezvous/src/store.rs:249-257 | the rows that have not expired stay, and the count of the others is returned |
| LeaseRegistry.StoresAnswerAlike | crates/skyffla-rendezvous/src/store.rs:135-257 | whenever purges run, with a clock that does not go back and no time across 2^63, both stores answer every put and get like a store that never purges |
| LeaseRegistry.LeaseLasts | crates/skyffla-rendezvous/src/lib.rs:20-123 | a lease lasts as long as was asked for, at most an hour, unless renewed or deleted: until then look-ups give its record and another ticket is refused, from then on the room is free |
| LeaseRegistry.UnheldIsFree | crates/skyffla-rendezvous/src/lib.rs:88-138 | a room that was never put, or was deleted since, is not found and may be put by anybody |
| LeaseRegistry.PurgeCounts | crates/skyffla-rendezvous/src/lib.rs:144-149 | a purge reports how many leases had run out |
| LeaseRegistry.SignedOrder | crates/skyffla-rendezvous/src/store.rs:249-257 | signed comparison agrees with the clock exactly when both times lie on the same side of 2^63 |
| LeaseRegistry.GetInSql | crates/skyffla-rendezvous/src/store.rs:200-239 | on any table a get is answered as in memory if and only if the room's record does not lie across 2^63 from the clock |
| LeaseRegistry.PutInSql | crates/skyffla-rendezvous/src/store.rs:136-198 | the same for a put: if and only if no record with another ticket lies across 2^63 |
| LeaseRegistry.PurgeInSql | crates/skyffla-rendezvous/src/store.rs:249-257 | a purge leaves the unexpired rows if and only if none of the rows lies across 2^63 |
| LeaseRegistry.FreshLeaseInSql | crates/skyffla-rendezvous/src/store.rs:136-198 | a fresh lease is found again at once if and only if it does not cross 2^63 |
| LeaseRegistry.DeletionAnswer | crates/skyffla-rendezvous/src/lib.rs:140-142 | a deletion reports a live lease, if and only if no expired one was still waiting to be purged |
| LeaseRegistry.DeletionInSql | crates/skyffla-rendezvous/src/store.rs:241-247 | a deletion on the table is the deletion in memory |
| RateLimiter.IpRateLimiter.CheckRequest | crates/skyffla-rendezvous/src/app.rs:198-225 | the loop and the two outcomes as specified |
| RateLimiter.WhenARequestIsRefused | crates/skyffla-rendezvous/src/app.rs:198-225 | after any requests the next is refused if and only if as many of its own client's as the limit allows have been admitted in the window that ends with it |
| RateLimiter.WindowIsRespected | crates/skyffla-rendezvous/src/app.rs:198-225 | a window holds more than the limit of one client's admitted requests if and only if it begins before time 0, the client asks at time 0, and more often than the limit before the window's end |
| RateLimiter.RetryAfterIsExact | crates/skyffla-rendezvous/src/app.rs:210-220 | the wait in a refusal is exactly the least after which the client is admitted |
| RateLimiter.NothingPassesLimitZero | crates/skyffla-rendezvous/src/app.rs:210-220 | a limit of zero turns everybody away with a wait of one second |
| RateLimiter.TimeZeroIsForgotten | crates/skyffla-rendezvous/src/app.rs:198-208 | requests at times 0 and 5 both pass a limit of one in ten seconds |

## Left out

- RoomRefinement.EveryRunIsFaithful: every event reaches a joiner at its place in the host's order; the authority link and the peer links are separate queues in the code, and under arbitrary reordering between them views need not converge.
- RoomRefinement.EveryRunIsFaithful: takes accepted operations, all of whose events arrive; what a refused command leaves behind at its issuer, what the host's loop drops, and that a link between joiners can add a member to a view, are the subject of RuntimeRefinement.EveryRuntimeRun.
- RoomRefinement.EveryRunIsFaithful: room closure and the host's own departure end a run and are not operations of it; SendPath and SendFile come down to opening a channel and updating its transfer.
- RuntimeRefinement.EveryRuntimeRun: a joiner whose session has ended keeps its last view, to which events are still applied until it leaves; what joiners send each other directly is chat and channel data, which no view depends on.
- HostLinks.StepKeepsInv: the writers of authority links are taken to last as long as their handles, and a peer link to take what has waited for it; failures of local files, directories and standard output are not modelled.
- JoinStateObject.JoinState.ApplyOwnCommand: has no effect for an acceptance, whose part in the joiner's pending files is FileFinalisation.HandleAcceptance.
- Mesh.EveryPairIsIntroduced: speaks of orders put on the authority queues; that a queue's messages all arrive is left to the transport.
- Mesh.DialOrdersFindTheLocalMember: allows any event on the peer links that spares the member, which is more than the host and the other joiners send, but not a closing of the room.
- Dialling.TheOlderDials: that a dialled link comes up, and that the other side accepts it, is left to the transport.
- LeaseRegistry.StoresAnswerAlike: speaks of puts and gets; the answers of deletions and the counts of purges may differ, the former exactly as DeletionAnswer says.
- RateLimiter.RetryAfterIsExact: adds time and window without overflow; the method takes that as a requirement.
- Completion.TokensAreWords: spans count characters, where the code counts bytes; the two agree on ASCII lines and stand in the same order on all.
- Completion.CompletionResplits: the directory listing that yields the candidates is a parameter, and the text after the cursor is left as it is.
- WorkerPool.DirectoryReceiver.ReceiveDirectoryEntries: a task is the list of counts it reports and whether it succeeds, as some schedule of its entry's credit transfer yields them; the bytes themselves are the subject of DirectoryRoundTrip.
- DirectoryManifest.DirectoryRoundTrip: names are valid Unicode without a slash on a system whose separator is the slash; symbolic links, special files, permissions and Windows prefixes are not modelled, and any order of the manifest stands for the sorted one.
- DirectoryManifest.AnnouncedSizeIsTreeSize: sizes are those at the time of listing; files that change while they are sent are not modelled.
- CreditTransfer.EveryScheduleDelivers: streams do not fail by themselves; the one failure modelled is a grant that the sender no longer listens for, and a source that turns out shorter than announced.
- StreamPairing.EveryEntryGetsItsOwnCredit: takes from section 3.2 of RFC 9000 that streams are accepted in the order in which they were opened.
- FileFinalisation.JoinerFinalisesOnce: takes runs in which nobody closes or rejects the channel or leaves it, in which the bytes arrive at most once and every digest announced is the same; the same holds for FileFinalisation.HostFinalisesOnce.
- Completion.OpenQuoteSpoilsCompletion: one input; the whole family is in CompletionResplits.
- RoomAuthority.NewRoomGood: the member index is unbounded, where the code counts in 64 bits.
- Framing.FrameRoundTrip: the codec is abstract, a payload is the bytes it made; decoding a response and hashing a file are parameters of Framing.ByteStream.ReadEntry, and a stream that breaks inside a frame is one that ends there.
- The sockets, QUIC, mDNS, HTTP, the SQL engine, tasks and timers: streams are queues, tables are maps, tasks are interleaved steps, the clock is a parameter.
- The terminal interface, status lines, progress throttling, error texts, identity and trust, version negotiation, persistence and the Node and Python wrappers: interface code or single-branch logic.
- PipeSenderState and the opening of late pipe channels: bookkeeping around the broadcast loop.
