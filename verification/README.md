# Ciao: a verified model of scheduling, launching and forwarding

Ciao is a cluster orchestrator. Controllers send commands to a scheduler over SSNTP, the
scheduler places workloads on nodes, and a launcher on each node runs them. This project
models the parts of it that keep state under concurrency or take text apart, and proves
what they keep over every run.

Code that updates objects is a class here, with methods proved against functions on
values. Goroutines and locks are a state machine: a step is one critical section, one
channel send or one table update, a step that is not enabled changes nothing, and a
theorem about every `Log` of steps is a theorem about every interleaving.

| file | what it models |
|---|---|
| `Basics.dfy`, `Slices.dfy` | shared types; lists edited in place while being ranged over |
| `Controllers.dfy` | controller succession in the scheduler |
| `Placement.dfy` | a node table: first fit with a most-recently-used cursor, and the memory ledger |
| `Scheduler.dfy` | the scheduler's tables as objects, and command forwarding |
| `Notifications.dfy`, `LastEvents.dfy`, `EventRaces.dfy` | how controllers learn about nodes, lock by lock; the last event they get |
| `Documents.dfy`, `Payload.dfy` | the launcher's side of the START payload: dividing lines into documents, taking them apart |
| `Delivery.dfy`, `PayloadText.dfy` | the START payload from the controller to the launcher, in lines and in text |
| `Arrangements.dfy` | payloads with the command in other places, or without one |
| `Overseer.dfy` | the launcher's instance table and resource accounting |
| `Launcher.dfy`, `Lifecycle.dfy` | server loop, instance goroutines, self-kill and evacuation; the life of an instance |
| `Roles.dfy`, `Forwarding.dfy` | roles, and the SSNTP forwarding index |
| `Sessions.dfy` | the life of a client connection in the SSNTP server |
| `Frames.dfy` | path tracing of SSNTP frames |
| `Tenants.dfy` | single-flight tenant confirmation |
| `PortPool.dfy`, `Ports.dfy` | the pool of console ports |

## Where the code falls short of what one would expect

Each of these is proved, with the condition under which the code does meet the expectation
and an input or a run on which it does not.

- An MRU cursor goes stale when a node ahead of it leaves (`CursorStaysExactIff`); the
  node used last is then picked again although another fits (`MruRestsIff`,
  `StaleCursorAnywhere`, `StaleCursorHappens`). The scheduler's package documentation
  promises to prefer other nodes (ciao-scheduler/doc.go:136-138).
- The controller writes the opening marker of the metadata right behind the base
  configuration. If that does not end in a newline, its last line swallows the marker; unless
  that line still opens or closes a document, the metadata is glued to the configuration
  (`MetadataArrivesTextIff`, `AllArrivesIff`, `UnfinishedLastLine`).
- A base configuration of more than one document displaces the metadata
  (`MetadataArrivesTextIff`, `TwoDocuments`). With none, the command arrives whole if and
  only if it is nested under its first line (`StartAlone`).
- The startup scan descends into directories whose configuration does not load, can meet
  one base name twice, and then counts the shadowed instance for good (`TotalsAreSums`,
  `ShadowingHappens`).
- A negative memory requirement, which the launcher does not reject
  (ciao-launcher/payload.go:143), breaks the allocation totals (`RunOffIff`,
  `RemoveIsExactIff`, `NegativeHappens`).
- A request of an instance to be killed names the instance, not the goroutine. After a
  delete and a new start of that name it kills the new instance (`KillReachesAskerIff`,
  `StaleKillHappens`).
- A controller's last event about a node can be the wrong one, because the goroutines that
  notify are not ordered (`LastEventIsRightIff`, `LastEventIsRight`, `OvertakenEvent`).
- A frame without a forwarder that several rules match is written to a session once per rule
  (`FrameReaches`, `WrittenOnceIff`, `WrittenTwice`).
- A second connection under a live uuid takes the session of the first, and the teardown of
  the first takes that of the second (`StepKeepsIff`, `SecondConnectionTakesSession`,
  `SecondConnectionLosesSession`).
- The path length of a frame is one byte; after 256 hops transmission stamps go to the
  wrong node (`TxCompleteIff`), and from 256 hops on Duration does not take the last
  reception (`DurationIsEndToEndIff`), though no index is ever out of range.
- A console port found in use is not put back, and a VM launched without a console after
  ten such ports is recorded with the tenth (`NoneAbandonedIff`, `AbandonedForGood`,
  `LaunchWithConsole`).

## Assumptions

- Uuids, instance names and host names are values of which only equality matters.
- Integers are unbounded, except the bytes `PathLength` and `Major` of a frame; a role is 32 bits.
- A pick of a node is one step; the code writes the cursor under a read lock
  (ciao-scheduler/scheduler.go:646-687).
- Marshalling and the two regular expressions are given: YAML and JSON payloads come
  parsed, and lines come classified (`PayloadText.Classify` spells out the expressions).
- Clocks, launch outcomes and device statistics are parameters.
- Marshalling an event succeeds, and an event sent counts as sent whatever the network does.
- Every connection makes a session object of its own.

## Model

| member | source | states |
|---|---|---|
| Slices.RangeRemove | ciao-scheduler/scheduler.go:251-257 | the removal loop, which does not stop at its match and reads a list it is shifting, removes exactly the one element and keeps the order of the others |
| Slices.RemoveWhileRanging | ciao-scheduler/scheduler.go:317-323 | the same of the list a table holds |
| Controllers.Succession.constructor | ciao-scheduler/scheduler.go:80-88 | no controllers |
| Controllers.Succession.Connect | ciao-scheduler/scheduler.go:207-235 | a new controller goes to the end of the order, a known one changes nothing; map and list agree and the first alone is master |
| Controllers.Succession.Disconnect | ciao-scheduler/scheduler.go:239-279 | exactly the departed controller leaves the order; map and list agree and the first alone is master |
| Controllers.Succession.Promote | ciao-scheduler/scheduler.go:263-278 | the first backup becomes master and moves to the front, the others keep their order |
| Controllers.ListIsConnectionOrder | ciao-scheduler/scheduler.go:207-279 | in every run the list is exactly the connected controllers, each once, earliest connection first |
| Controllers.MastershipMoves | ciao-scheduler/scheduler.go:259-278 | mastership moves only when the master leaves, and then to the longest-connected backup |
| Controllers.Replay | ciao-scheduler/scheduler.go:207-279 | after any run of notifications the object holds that order and the master in front |
| Placement.NextCoherent | ciao-scheduler/scheduler.go:283-331 | every notification and every pick keeps: map and list agree, the MRU node and index are unset together, the node is at or before the index |
| Placement.DepartedCoherent | ciao-scheduler/scheduler.go:304-331 | a departure keeps that too: it can only move the MRU node to the left of its index |
| Placement.RunCoherent | ciao-scheduler/scheduler.go:283-331 | so every reachable table does |
| Placement.SkipNeverFires | ciao-scheduler/scheduler.go:658-663 | the first loop of a pick never meets the MRU node |
| Placement.ChoiceIsFirstFit | ciao-scheduler/scheduler.go:646-687 | with a stale cursor or not, the two loops choose exactly the first node that fits in the list rotated to start after the cursor, and none if and only if none fits |
| Placement.CursorStaysExactIff | ciao-scheduler/scheduler.go:304-328 | an exact cursor stays exact if and only if the step is not the departure of a node ahead of it |
| Placement.MruRestsIff | ciao-scheduler/scheduler.go:656-683 | the MRU node is never chosen while another fits, whichever nodes fit, if and only if the cursor is exact or the node is last |
| Placement.PickedAgainIsAPick | ciao-scheduler/scheduler.go:656-683 | the positions used to say so are what a pick chooses |
| Placement.MruIsLastResort | ciao-scheduler/doc.go:136-138 | with the cursor on its node, or the node last in the list, that node is chosen again only if no other fits |
| Placement.StaleCursorRepeats | ciao-scheduler/scheduler.go:304-328 | in any list of three with the cursor on the second, once the first has left the second is chosen again although the third fits |
| Placement.StaleCursorHappens | ciao-scheduler/scheduler.go:656-683 | a run that gets there, where before the departure the third is chosen |
| Placement.StaleCursorAnywhere | ciao-scheduler/scheduler.go:656-683 | a stale cursor chooses its node again, wherever that is but last, when there is room there and on the next node only |
| Placement.PicksRotate | ciao-scheduler/scheduler.go:656-683 | while all nodes keep fitting, consecutive picks take the rotated list in order |
| Placement.RoundRobin | ciao-scheduler/scheduler.go:656-683 | n picks on a list of n nodes choose each exactly once |
| Placement.LedgerBalances | ciao-scheduler/scheduler.go:413-441 | in every run a node's available memory is what it last reported less all memory dispatched to it since; its disk space, status and host name are the latest reported |
| Placement.NeverOverdrawn | ciao-scheduler/scheduler.go:641-643 | between two parsed READY reports the dispatched memory never exceeds the non-negative amount reported |
| Placement.DispatchIsSound | ssntp/README.md:430-437 | in every run a START only goes to a node whose latest status is READY, that has the memory left, that reported the disk space, and whose kind, host name and id are those asked for |
| Placement.ListIsConnectionOrder | ciao-scheduler/scheduler.go:283-331 | in every run the list is the connected nodes in the order of their connections |
| Placement.PlacementIff | ciao-scheduler/scheduler.go:498-518 | for every run and START: it goes to the first node in rotation whose reports and dispatches since it connected leave room, with the kind, host name and id asked for, and fails if and only if no connected node is such |
| Scheduler.NodeTable.constructor | ciao-scheduler/scheduler.go:80-88 | an empty table with the cursor unset |
| Scheduler.NodeTable.Connect | ciao-scheduler/scheduler.go:283-300 | the node joins the end of the list in state CONNECTED; invariant kept |
| Scheduler.NodeTable.Disconnect | ciao-scheduler/scheduler.go:304-331 | exactly that node leaves; the cursor is unset if it was on it; invariant kept |
| Scheduler.NodeTable.UpdateStat | ciao-scheduler/scheduler.go:413-441 | status always taken over, resources only from a READY that parses |
| Scheduler.NodeTable.ScanLoop | ciao-scheduler/scheduler.go:658-671 | the first position from a start that fits and is not the skipped node |
| Scheduler.NodeTable.Search | ciao-scheduler/scheduler.go:656-683 | the two loops one after the other |
| Scheduler.NodeTable.Pick | ciao-scheduler/scheduler.go:646-731 | the choice above, the cursor moved to it, and exactly one error of the right reason when there is none |
| Scheduler.NodeTable.StartWorkload | ciao-scheduler/scheduler.go:733-775 | the pick, the memory claim on the node picked, and the reason when there is none; invariant kept |
| Scheduler.Replay | ciao-scheduler/scheduler.go:283-441 | the object driven through any run of notifications and STARTs holds the table of that run |
| Scheduler.Server.CommandForward | ciao-scheduler/scheduler.go:777-826 | only the first controller of the list gets anything forwarded or any table changed; a START goes through placement in the table of its kind and leaves the other alone |
| Notifications.InvNext | ciao-scheduler/scheduler.go:155-203 | for every connected controller and node, told already or someone still has to tell |
| Notifications.EveryControllerIsTold | ciao-scheduler/scheduler.go:207-235 | under every interleaving, once nothing is pending every connected controller has been sent NodeConnected for every node in the tables |
| Notifications.NothingSentEarly | ciao-scheduler/scheduler.go:283-300 | a connection just made is in no pair recorded as sent, so what was sent on an earlier one does not count for it |
| Notifications.NeverStuck | ciao-scheduler/scheduler.go:187-203 | a pending scan or notifier can always move: the locks do not block each other |
| Notifications.SentByStep | ciao-scheduler/scheduler.go:187-203 | what comes to count as sent was just sent: a NodeConnected about that node to that controller |
| Notifications.TableFrozen | ciao-scheduler/scheduler.go:155-184 | while a scan holds a table, no node of that kind comes or goes |
| Notifications.ControllersComeAndGo | ciao-scheduler/scheduler.go:207-245 | while the lock is free controllers come and go, and one that comes back counts as new and is scanned for again |
| Notifications.ControllersWait | ciao-scheduler/scheduler.go:207-245 | while it is held they wait |
| Notifications.NodesComeAndGo | ciao-scheduler/scheduler.go:283-331 | a node that comes or goes does so at once and starts a notifier that says which |
| LastEvents.RunTurn | ciao-scheduler/scheduler.go:187-203 | while the notifiers of a node take turns, only the oldest is at work, the newest is right about the node, and whatever is settled is right |
| LastEvents.LastEventIsRight | ciao-scheduler/scheduler.go:187-203 | a schedule that makes it right: with turns kept, once nothing is pending, the last event a controller got about a node is NodeConnected if and only if the node is in the tables |
| LastEvents.OvertakenEvent | ciao-scheduler/scheduler.go:299-330 | a run in which a NodeDisconnected comes last for a node that has come back |
| EventRaces.FatedNext | ciao-scheduler/scheduler.go:155-203 | no step of the scan or of a notifier changes an outcome that all who have yet to speak agree on, right or wrong |
| EventRaces.Drain | ciao-scheduler/scheduler.go:187-203 | from any state, the scan and all notifiers but any chosen ones can go through first, the chosen ones as they were |
| EventRaces.AgreedIff | ciao-scheduler/scheduler.go:155-203 | in any state of the protocol, however the scan and the notifiers go on, the last event ends up right if and only if every notifier that has yet to speak is right, or none has and the controller has heard right or is about to be told by the scan |
| EventRaces.LastEventIsRightIff | ciao-scheduler/scheduler.go:155-203 | the same after every run of connections and disconnections |
| Documents.FindDocument | ciao-launcher/payload.go:333-383 | the backward scan returns the last document, its strictly smaller start, and 0 <= realStart <= realEnd <= length |
| Documents.ScanBack | ciao-launcher/payload.go:347-358 | the first loop stops at the last opening line, or just after the last closing line, or past the front |
| Documents.BackOverDirectives | ciao-launcher/payload.go:359-367 | the second loop stops behind the last line that is not a directive |
| Documents.DocsTile | ciao-launcher/payload.go:405-411 | the documents concatenate to the input and none is empty or divides further |
| Documents.DocsConcat | ciao-launcher/payload.go:405-411 | where a document starts, what is before and after is divided independently |
| Documents.GluedDocs | ciao-launcher/payload.go:333-383 | lines that open no document, behind one that is not closed, go to that document |
| Payload.ExtractStartYaml | ciao-launcher/payload.go:298-331 | the start mapping and the rest of its document, markers left out |
| Payload.ExtractDocument | ciao-launcher/payload.go:294-296 | the text between a document's markers |
| Payload.CollectDocs | ciao-launcher/payload.go:405-411 | the backward loop ends and yields the documents in order |
| Payload.ReadLines | ciao-launcher/payload.go:395-403 | the first line with the start key, found while the lines are read |
| Payload.SplitTwo | ciao-launcher/payload.go:419-431 | of two documents the one with the start key is taken apart, and the other is metadata |
| Payload.SplitThree | ciao-launcher/payload.go:432-445 | the document with the start key is the command, the others configuration and metadata in order |
| Payload.SplitYaml | ciao-launcher/payload.go:385-451 | the whole splitter for any lines and any number of documents, every index in range |
| Arrangements.KeyWithin | ciao-launcher/payload.go:298-331 | a start key within a document: the key and what is nested under it are the command, what is before and behind them the configuration |
| Arrangements.KeyWithinUnopened | ciao-launcher/payload.go:298-331 | the same of a document that is not opened |
| Arrangements.CommandAlone | ciao-launcher/payload.go:413-418 | a payload of the command alone |
| Arrangements.ConfigurationAlone | ciao-launcher/payload.go:413-418 | a payload of one document without a command is configuration |
| Arrangements.CommandFirstOfTwo | ciao-launcher/payload.go:419-427 | of two documents the command first |
| Arrangements.CommandSecondOfTwo | ciao-launcher/payload.go:419-427 | or second; the other is metadata |
| Arrangements.NoCommandOfTwo | ciao-launcher/payload.go:428-431 | two without a command are configuration and metadata |
| Arrangements.CommandFirstOfThree | ciao-launcher/payload.go:432-445 | of three documents the command first |
| Arrangements.CommandSecondOfThree | ciao-launcher/payload.go:432-445 | or second |
| Arrangements.CommandThirdOfThree | ciao-launcher/payload.go:432-445 | or third; the others are configuration and metadata in their order |
| Arrangements.NoCommandOfThree | ciao-launcher/payload.go:432-451 | three without a command give nothing |
| Arrangements.CommandTooLate | ciao-launcher/payload.go:432-451 | nor does a command behind three other documents |
| Delivery.PayloadDocs | ciao-controller/instance.go:339 | the documents of the payload, for any lines of base configuration and whatever line the opening marker of the metadata ends up in |
| Delivery.Delivered | ciao-controller/instance.go:339 | what arrives in each case: one document of configuration kept apart from the metadata arrives with it; more displace the metadata; without a line that separates them the metadata is glued to the last |
| Delivery.MetadataArrivesIff | ciao-launcher/payload.go:405-445 | the metadata arrives, whatever it is, if and only if the line behind the configuration opens or closes a document and at most one document is in front |
| Delivery.StartAlone | ciao-launcher/payload.go:419-427 | with no configuration the command arrives whole if and only if it is nested under its first line; otherwise it is cut |
| Delivery.RoundTrip | ciao-controller/instance.go:339 | with no markers inside the three texts and the configuration between its own, splitting undoes composing |
| PayloadText.ScanComposed | ciao-launcher/payload.go:395-403 | the lines of the controller's string for every base string: an unfinished last line has the marker of the metadata behind it |
| PayloadText.ScanUnlines | ciao-launcher/payload.go:395-403 | scanning undoes writing |
| PayloadText.ScanWithCRs | ciao-launcher/payload.go:395-403 | carriage returns in front of newlines are dropped |
| PayloadText.StartKeyIff | ciao-launcher/payload.go:50 | what the expression for the start key matches |
| PayloadText.SpacesAre | ciao-launcher/payload.go:49 | what counts as white space in the expression for an indented line |
| PayloadText.HasSpaceSplit | ciao-launcher/payload.go:49 | which is not anchored: the space may be anywhere |
| PayloadText.TextDelivered | ciao-controller/instance.go:339 | the three strings the launcher makes of it, for every base string |
| PayloadText.MetadataArrivesTextIff | ciao-controller/instance.go:339 | for every base string, the exact condition for the metadata to arrive |
| PayloadText.AllArrivesIff | ciao-controller/instance.go:339 | for every base string, all three arrive, whatever the metadata, if and only if the base is one document that its last line closes, or one ended by a newline without directives at its end, or has no text and the command is nested |
| PayloadText.UnfinishedLastLine | ciao-controller/instance.go:339 | a document of one unfinished line: no configuration arrives and the metadata has that line in front |
| PayloadText.UnfinishedExample | ciao-controller/instance.go:339 | such a line |
| PayloadText.TwoDocuments | ciao-controller/instance.go:339 | any two documents of plain lines: the second arrives in place of the metadata |
| PayloadText.DirectiveAtTheEnd | ciao-controller/instance.go:339 | a directive at the end of a configuration does not arrive with it |
| PayloadText.TextRoundTrip | ciao-controller/instance.go:339 | a configuration without markers of its own, between markers, arrives with command and metadata, from string to strings |
| Overseer.SumRemove | ciao-launcher/overseer.go:218-230 | a sum over the table does not depend on the order of ranging |
| Overseer.StartupTotals | ciao-launcher/overseer.go:677-721 | whatever the scan finds, the totals are the sums over the table plus what was shadowed |
| Overseer.UniqueShadowsNothing | ciao-launcher/overseer.go:681-721 | distinct names shadow nothing |
| Overseer.ShadowingHappens | ciao-launcher/overseer.go:681-721 | a scan that meets one name twice, the second time below a directory that does not load, after which the totals are not the sums |
| Overseer.ClampNeverFires | ciao-launcher/overseer.go:472-485 | with non-negative configurations a removal takes off exactly what was added |
| Overseer.RemoveIsExactIff | ciao-launcher/overseer.go:472-485 | with any configurations, and totals off by any amount, a removal takes off exactly what was added if and only if no remaining total is negative |
| Overseer.RunOffIff | ciao-launcher/overseer.go:432-489 | for every scan and run, with configurations of any sign, the totals stay off by exactly what startup shadowed if and only if no removal takes one below zero |
| Overseer.NonNegativeIsEnough | ciao-launcher/overseer.go:432-489 | with non-negative configurations no removal does |
| Overseer.NegativeBreaksTotals | ciao-launcher/overseer.go:464-489 | in a table with a negative memory maximum, a removal that makes right totals wrong |
| Overseer.NegativeHappens | ciao-launcher/overseer.go:432-489 | a run of a refresh, two adds and a removal that gets there |
| Overseer.RunAccounted | ciao-launcher/overseer.go:432-489 | with non-negative configurations, in every reachable state the totals exceed the sums by exactly what startup shadowed |
| Overseer.TotalsAreSums | ciao-launcher/overseer.go:432-489 | and so they are the sums if and only if nothing of size was shadowed |
| Overseer.AvailableIsFreeLessHeadroom | ciao-launcher/overseer.go:215-242 | after a refresh the memory available is the free memory less every instance's headroom and what startup shadowed, never more than the free memory; disk likewise, without the bound |
| Overseer.RunAvailable | ciao-launcher/overseer.go:215-242 | so it is after every run that ends in a refresh |
| Overseer.ReadyAcceptsIff | ciao-launcher/overseer.go:185-266 | a READY node takes a workload in every state if and only if the workload fits between the watermarks |
| Overseer.AdmitsIff | ciao-launcher/overseer.go:185-213 | a new instance is admitted if and only if the node is not in maintenance, has fewer instances than allowed, and keeps 40000 MB of disk space and 512 MB of memory as far as those limits are on |
| Overseer.RefusalReason | ciao-launcher/overseer.go:185-193 | a node in maintenance says so, one full by number refuses as full |
| Overseer.StatusIff | ciao-launcher/overseer.go:244-266 | READY is reported exactly when there is room for 40000 MB of disk space and 488 MB of memory, MAINTENANCE exactly in maintenance |
| Overseer.InstancesBounded | ciao-launcher/overseer.go:190-193 | in every run there are never more instances than allowed, or than startup found |
| Overseer.NothingBeforeRefresh | ciao-launcher/overseer.go:730-746 | before the first refresh nothing is available, and with a limit on nothing is admitted |
| Overseer.StartupEntries | ciao-launcher/overseer.go:681-721 | after the scan the entries are the last directories of their names that load |
| Overseer.EntryIsLatest | ciao-launcher/overseer.go:432-534 | in every run an entry holds the maxima it was added with and the state and usage last reported since |
| Overseer.EntriesKept | ciao-launcher/overseer.go:432-489 | entries come and go by their own adds and removals only |
| Overseer.MaintenanceIsLatest | ciao-launcher/overseer.go:541-571 | in every run the last word on maintenance counts |
| Overseer.AvailableKept | ciao-launcher/overseer.go:432-489 | what is available changes with a refresh only |
| Overseer.MaintenanceStaysEmpty | ciao-launcher/overseer.go:185-188 | an empty table in maintenance stays empty under every message but a restore |
| Overseer.State.constructor | ciao-launcher/overseer.go:667-746 | the state after the startup scan |
| Overseer.State.ProcessAdd | ciao-launcher/overseer.go:432-462 | an existing instance or a refusal changes nothing; otherwise entry and totals are added |
| Overseer.State.FindRoom | ciao-launcher/overseer.go:185-213 | the reason for a refusal |
| Overseer.State.CurrentStatus | ciao-launcher/overseer.go:244-266 | the status reported |
| Overseer.State.ProcessRemove | ciao-launcher/overseer.go:464-489 | entry and totals removed, clamped at zero |
| Overseer.State.ProcessStateChange | ciao-launcher/overseer.go:513-519 | the running state of a known instance |
| Overseer.State.ProcessStatsUpdate | ciao-launcher/overseer.go:521-534 | the usage of a known instance |
| Overseer.State.ProcessMaintenance | ciao-launcher/overseer.go:541-556 | maintenance on |
| Overseer.State.ProcessRestore | ciao-launcher/overseer.go:558-571 | maintenance off |
| Overseer.State.UpdateAvailableResources | ciao-launcher/overseer.go:215-242 | the accumulation in any order yields free plus consumed less allocated |
| Overseer.Replay | ciao-launcher/overseer.go:432-571 | the object driven through any scan and any run of messages holds the table of that run |
| Launcher.InvNext | ciao-launcher/main.go:181-269 | every step of server loop, workers, instances and kill requests keeps the invariant below |
| Launcher.NoCommandToTheDead | ciao-launcher/instance.go:84-104 | between commands every instance in the table has a goroutine that listens, and no command is ever on its way to one that has exited |
| Launcher.NeverLocksUp | ciao-launcher/instance.go:92-98 | in the middle of a command the server loop can always be carried on |
| Launcher.KillReachesAskerIff | ciao-launcher/instance.go:106-124 | a kill request reaches the goroutine that made it if and only if that one was never sent a delete and kept its entry at startup |
| Launcher.KillOutlivesEntry | ciao-launcher/instance.go:199-205 | after a failed start, a delete refused by the instance that is shutting down still takes its entry away, the kill request pending |
| Launcher.StaleKill | ciao-launcher/main.go:241-268 | that request then kills the next instance of that name |
| Launcher.StaleKillHappens | ciao-launcher/main.go:181-269 | a run from an empty node in which this happens to a running instance |
| Launcher.TableIsOverseerRun | ciao-launcher/main.go:181-269 | the table is one the overseer reaches on its own messages, so its accounting carries over |
| Launcher.EvacuatedUntilRestore | ciao-launcher/main.go:191-215 | from the end of an evacuation to the next restore the node is in maintenance and the table empty; unless a removal took a total below zero, the totals are down to what startup shadowed |
| Lifecycle.ShuttingDownAsks | ciao-launcher/instance.go:106-124 | in every run an instance whose start failed or whose VM was lost, and that was never sent a delete, has its request to be killed pending or the delete on its way |
| Lifecycle.StartAdds | ciao-launcher/main.go:218-240 | a start adds an entry, its share of the totals and a goroutine, which then watches a VM, or found one there already, or asks to be killed |
| Lifecycle.StartRefused | ciao-launcher/main.go:218-240 | without room nothing changes |
| Lifecycle.StartAgain | ciao-launcher/instance.go:126-157 | a start of an instance that watches a VM changes nothing; of one that does not, it starts one |
| Lifecycle.AttachKeeps | ciao-launcher/main.go:251-260 | an attach reaches the goroutine and leaves everything as it was |
| Lifecycle.DeleteRemoves | ciao-launcher/main.go:241-268 | a delete removes the entry; the goroutine exits unless it waits for the delete it asked for |
| Lifecycle.UnknownIgnored | ciao-launcher/main.go:241-258 | commands for an instance that is not there change nothing |
| Lifecycle.DeleteUndoesStart | ciao-launcher/main.go:218-268 | a delete undoes a start: the table is what it was, if and only if no total was negative |
| Lifecycle.KillRemoves | ciao-launcher/main.go:241-268 | a request to be killed that reaches its asker removes entry and goroutine |
| Lifecycle.LostIsRemoved | ciao-launcher/instance.go:340-356 | an instance that loses its VM asks to be killed and is removed |
| Lifecycle.LossNeedsVM | ciao-launcher/instance.go:340-356 | only a goroutine in its loop that watches a VM can lose it |
| Lifecycle.BootTellsAll | ciao-launcher/overseer.go:681-767 | all goroutines of startup are to be told to watch their instances |
| Lifecycle.ReconnectWatches | ciao-launcher/overseer.go:747-767 | and then do |
| Lifecycle.ReportsArrive | ciao-launcher/overseer.go:513-534 | reports reach the table whatever the server loop is doing |
| Lifecycle.RestoreEndsMaintenance | ciao-launcher/main.go:191-215 | an evacuation puts the node in maintenance, a restore takes it out |
| Lifecycle.ExitsWhenStopped | ciao-launcher/instance.go:320-375 | a goroutine leaves on its own only when the launcher stops |
| Forwarding.RemoveNIsWithout | ssntp/forward.go:210-261 | removing as many first copies as there are rules removes every copy and keeps the order of the others |
| Roles.HasBit | ssntp/ssntp.go:649-655 | a role of one bit is had by those that have the bit |
| Roles.HasParts | ssntp/ssntp.go:649-655 | those that have a role have every part of it |
| Roles.HasBoth | ssntp/ssntp.go:649-655 | those that have two roles have both together |
| Forwarding.ForwarderForIff | ssntp/forward.go:155-174 | the forwarder of an operand is that of the last rule of it that gives one, and there is none if and only if no rule of it gives one |
| Forwarding.DeleteRestoresDests | ssntp/forward.go:210-261 | a delete leaves exactly the destinations of the remaining sessions |
| Forwarding.AddKeepsIndex | ssntp/forward.go:182-205 | the loop over the rules turns an index that is right into one that is right with the session added |
| Forwarding.DropKeepsIndex | ssntp/forward.go:215-258 | and the other loop into one that is right without it |
| Forwarding.DropFirst | ssntp/forward.go:217-226 | the inner loop removes the first copy only |
| Forwarding.FrameForward.constructor | ssntp/forward.go:142-177 | no destinations; the last rule with a forwarder decides |
| Forwarding.FrameForward.AddForwardDestination | ssntp/forward.go:179-208 | every operand's destinations are again a function of rules and connected sessions |
| Forwarding.FrameForward.AddToIndex | ssntp/forward.go:182-205 | the loop applies the rules one after the other |
| Forwarding.FrameForward.DeleteForwardDestination | ssntp/forward.go:210-261 | the same after a departure, with several rules for one operand |
| Forwarding.FrameForward.DeleteFromIndex | ssntp/forward.go:215-258 | the loop applies the rules one after the other |
| Forwarding.FrameForward.ForwardFrame | ssntp/forward.go:305-359 | the forwarder of the last rule that gives one takes the frame; without any it is written to the destinations except its source |
| Forwarding.FrameReaches | ssntp/forward.go:312-358 | it is written to exactly the connected sessions that have the destination role of a rule of its operand, other than its source, once per such rule, and to none if a rule of its operand gives a forwarder |
| Forwarding.WrittenTwice | ssntp/forward.go:349-358 | two rules of one operand and role, without a forwarder, write a session twice |
| Forwarding.WrittenOnceIff | ssntp/forward.go:312-358 | no session is written twice, whatever is connected, if and only if a rule of the operand gives a forwarder or at most one has a destination role |
| Forwarding.Replay | ssntp/forward.go:179-261 | after any run of connections and disconnections the index is that function |
| Forwarding.ForwardDestination | ssntp/forward.go:263-279 | nothing when discarded, otherwise exactly the recipients that have a session, in the order chosen |
| Sessions.RegisteredHasSession | ssntp/server.go:164-177 | for every run, with any number of connections per uuid: what the maps and the forwarding index know has a session after every step if and only if every step found its guard |
| Sessions.ServedClientIsKnown | ssntp/server.go:457-465 | in such a run, while a client is served, a role lookup finds its own session |
| Sessions.OwnSessionIff | ssntp/server.go:206-216 | in every run a handler that has added its session finds it if and only if no other handler of its uuid has added or removed one since |
| Sessions.StepKeepsIff | ssntp/server.go:164-177 | the guard of each step, exactly: adding a session, joining the forwarding index, registering, removing the session |
| Sessions.OneAtATimeIsCareful | ssntp/server.go:164-177 | one live connection per uuid is enough for every guard, under every interleaving |
| Sessions.SecondConnectionLosesSession | ssntp/server.go:206-216 | a run with two live connections of one uuid after which the second is served and registered but has no session |
| Sessions.SecondConnectionTakesSession | ssntp/server.go:206-216 | a run in which adding the second session already takes that of the first, which is forwarded to |
| Sessions.HandlerOfClient | ssntp/server.go:154-164 | in every run there is one handler per connection, for its client and its roles |
| Sessions.HandlerProgresses | ssntp/server.go:164-177 | a handler goes through all its stages, one after the other |
| Sessions.VisitsInOrder | ciao-scheduler/scheduler.go:385-411 | in every run the scheduler's maps are visited in the same order, coming and going |
| Sessions.ServedIsRegistered | ciao-scheduler/scheduler.go:385-395 | with one live connection per uuid, a client that is served is registered in its roles and no others |
| Sessions.GoneIsUnregistered | ciao-scheduler/scheduler.go:399-409 | and one that is gone in none |
| Frames.Frame.constructor | ssntp/session.go:108-123 | a built frame keeps the version, is traced as configured and starts its path with the sender |
| Frames.Frame.SetTrace | ssntp/frame.go:117-129 | flag and trace as configured, version untouched |
| Frames.Frame.AddPathNode | ssntp/frame.go:219-231 | the sender appended and counted, on traced frames only |
| Frames.Frame.Write | ssntp/session.go:176-191 | the node the path length points at is stamped; the index is out of range exactly when it is past the path, which a built frame never has |
| Frames.Frame.Read | ssntp/session.go:193-214 | the receiver appended, stamped and counted |
| Frames.Frame.Duration | ssntp/frame.go:235-241 | the two stamps used, with the same exact condition for the index |
| Frames.CursorInRange | ssntp/frame.go:240 | when the byte is the path length modulo 256, the index is in range, and is the last node if and only if there are at most 256 |
| Frames.PathListsVisited | ssntp/session.go:176-214 | for any chain of hops the path is the nodes visited in order, its length is right modulo 256, and label and start time are kept |
| Frames.RxAlwaysComplete | ssntp/session.go:202-209 | every node but the first has a reception stamp |
| Frames.RxIsOwnHop | ssntp/session.go:202-209 | each of them the time at which that node received the frame |
| Frames.TxIsLast | ssntp/session.go:183 | a transmission stamp is that of the last hop that stamped the node, the hops taking the nodes in turn modulo 256 |
| Frames.TxIsOwnHop | ssntp/session.go:183 | up to 256 hops that is the hop the node sent the frame on with |
| Frames.MajorParts | ssntp/frame.go:117-129 | the first byte is seven bits of version and the trace flag |
| Frames.TxCompleteIff | ssntp/session.go:183 | every node but the last has a transmission stamp if and only if there were at most 256 hops |
| Frames.DurationIsEndToEnd | ssntp/frame.go:233-241 | up to 255 hops it takes the first transmission and the last reception |
| Frames.DurationIsEndToEndIff | ssntp/frame.go:233-241 | it does so for all chains of n hops if and only if n is at most 255 |
| Frames.DurationWrapsAt256 | ssntp/frame.go:240 | at 256 it takes the reception stamp of the sender, which is never set |
| Frames.Travel | ssntp/session.go:108-214 | the object taken through any chain of writes and reads holds that trace |
| Tenants.SingleFlight | ciao-controller/command.go:199-224 | at most one confirmation per tenant is in progress |
| Tenants.SuccessIsFinal | ciao-controller/command.go:214-218 | after a success the confirmation never runs again for that tenant |
| Tenants.EarlierMemosAreDone | ciao-controller/command.go:225-230 | a second one starts only after the first failed and was taken off the map |
| Tenants.ReturnsTheJoinedResult | ciao-controller/command.go:204-212 | a caller returns only after the confirmation it ran or joined finished, with its result |
| Tenants.JoinsItsTenant | ciao-controller/command.go:199-209 | in every run a caller's memo is of the tenant it called for |
| Tenants.ResultIsReported | ciao-controller/command.go:224 | what a memo's confirmation returned is what its owner reported |
| Tenants.ReturnsItsTenantsResult | ciao-controller/command.go:199-233 | in terms of the log alone: a caller returns a result only if a caller for the same tenant reported it from a confirmation it ran |
| Tenants.RecordsItsOwn | ciao-controller/command.go:226-228 | the lookup before recording an error finds the caller's own memo |
| Tenants.NobodyStranded | ciao-controller/command.go:208-232 | a waiter can wake or the owner of its memo can move |
| PortPool.PortGrabber.constructor | ciao-launcher/port_grabber.go:51-56 | all ports of the pool are free |
| PortPool.PortGrabber.GrabPort | ciao-launcher/port_grabber.go:58-75 | some free port, no longer free, or 0 if there is none |
| PortPool.PortGrabber.ReleasePort | ciao-launcher/port_grabber.go:77-89 | the port is free again, a number outside the pool changes nothing |
| PortPool.PortGrabber.TryPorts | ciao-launcher/qemu.go:254-280 | the retry loop ends at the first attempt that does not blame its port, or when ten do or the pool runs out; how many ports were tried in vain, and that they are not put back |
| PortPool.PortGrabber.LaunchWithConsole | ciao-launcher/qemu.go:250-327 | a launch divides the free ports it found into free, abandoned and the one recorded; how it ends and how many ports it abandons; none if and only if the first attempt does not blame its port or there is none |
| Ports.NextConserved | ciao-launcher/qemu.go:250-327 | every step of every VM keeps each port in exactly one place |
| Ports.PortsConserved | ciao-launcher/qemu.go:442-473 | over any interleaving free, held and abandoned ports divide 5900..6899 and no two VMs hold one |
| Ports.OnlyHolderReleases | ciao-launcher/qemu.go:465-473 | a port comes free only through the one VM that has it, which then has none |
| Ports.AttemptLeaves | ciao-launcher/qemu.go:257-280 | where an attempt leaves the port: with the VM, free again, or abandoned |
| Ports.LossFrees | ciao-launcher/qemu.go:465-473 | a VM that is lost gives its port back |
| Ports.FallbackRecords | ciao-launcher/qemu.go:282-287 | a launch without a console is recorded with the last port tried |
| Ports.GrabTakes | ciao-launcher/port_grabber.go:58-75 | a VM gets the port it grabs and goes on counting |
| Ports.GrabFails | ciao-launcher/qemu.go:258-261 | with no port left it is launched without a console |
| Ports.AbandonsIff | ciao-launcher/qemu.go:257-285 | abandoned ports only grow, and exactly at an attempt that goes on to another port or a fallback that fails |
| Ports.NoneAbandonedIff | ciao-launcher/qemu.go:250-327 | in every run the pool is free or held if and only if there was no such step |
| Ports.AbandonedForGood | ciao-launcher/qemu.go:257-280 | a run of one attempt on a port in use, after which no step brings the port back |
| Ports.TriesBounded | ciao-launcher/qemu.go:257-280 | no launch goes past its tenth port |

## Left out

- TLS, gob encoding, sockets, certificates and timeouts of ssntp; client reconnection.
- YAML and JSON marshalling, and the size limit of the line scanner.
- The CNCI manager, quotas, the datastore, volumes, images, external addresses and the HTTP interfaces.
- The docker side of the launcher, monitor channels and device statistics.
- Whether a launcher overcommits between refreshes: an add does not lower the memory available.
- Whether a self-kill is eventually served: a delete refused by an instance that is shutting down leaves its goroutine without an entry.
- The scheduler's forwarding of events, trace reports, heartbeats and the command-line tools: not modelled, and nothing proved here rests on them.
- The interleaved parts (Notifications, Launcher, Sessions, Tenants, Ports) are step machines on values: update in place of the goroutines' own objects is not modelled.
- Overlapping picks: two picks under the read lock at once are not modelled.
- The objects shared by map, list and cursor in the scheduler are named by uuid, so aliasing between them is not modelled.
- Forwarding.FrameForward.AddForwardDestination: requires a session object that is not in the index, as every connection makes its own.
