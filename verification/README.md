# HooshiXAgent, modelled and proved in Dafny

HooshiXAgent is a reverse tunnel: a Gateway and an Agent multiplex streams over
one WebSocket with their own framed protocol. This project models its hard core
and proves, for every input, every run or every reachable state, what the code
keeps. `dafny verify dfyconfig.toml` checks the whole project.

| file | part of the system |
|---|---|
| `StreamLedger.dfy` | stream queues and the nested byte budgets of both peers, at the granularity of single channel and budget operations, under every interleaving |
| `StreamDelivery.dfy` | what those runs keep, deliver to the reader and give back to the budgets |
| `StreamProgress.dfy` | no deadlock in them: every stream can end and every reader can get what was accepted |
| `GatewayStream.dfy`, `AgentStream.dfy`, `Budgets.dfy` | the stream objects and the budgets as classes, one method per step |
| `Window.dfy`, `FlowControl.dfy`, `FlowBounds.dfy` | the sender's credit window, credit flow control as a two-party step system, and what its runs keep |
| `EndToEnd.dfy` | the frames behind the flow-control runs, from the sender to the receiver's reader |
| `AgentWriter.dfy` | the Agent's session writer: two queues merged back into acceptance order |
| `AgentUplink.dfy` | the writer and the wire together: from the Agent's senders to the Gateway's reader |
| `StateJournal.dfy` | the crash-safe rollback journal over the Agent's two state files |
| `Registry.dfy` | the Gateway's tunnel registry and routing |
| `Resume.dfy`, `ResumeHistory.dfy` | the one-shot resume handshake with rotating challenges, under every interleaving, and what its states owe to the steps before them |
| `LiveMetadata.dfy` | monotone, deadline-bounded metadata generations |
| `TokenBuckets.dfy`, `Admission.dfy`, `AdmissionRate.dfy` | rate and concurrency limits, per key, with swept state |
| `FrameCodec.dfy`, `Wire.dfy` | the frame format, and both directions of a connection from the handshake on |
| `HeaderLimit.dfy` | the incremental matcher that bounds a response header |
| `Base64Url.dfy`, `Transcript.dfy` | canonical base64url and the signed transcripts |

Objects whose methods update fields are classes, loops are loops with
invariants, and protocols between goroutines or peers are step systems whose
runs are sequences of states. Clocks, randomness, signatures, the filesystem's
failures and what other goroutines change reach the model as arguments or as
nondeterministic choices; freshness of random values is an explicit guard.

## What holds only under a condition

The following are false of the code as one might first state them. Each has a
concrete run or input, and the exact condition.

- Byte order of a Gateway stream. `Read` receives from the channel without the
  queue lock while `finish` drains it, so a receive can pass a drained chunk
  (`StreamDelivery.OvertakingHappens`). Every payload is still delivered exactly
  once, and the order is the accepted one iff no receive passed a drained chunk
  (`StreamDelivery.InOrderIffNothingOvertook`). Whatever the discarder does, what
  the reader has is in order unless one of its own receives did
  (`StreamDelivery.ReaderIsInOrder`). From the sender on, with frames of at least f
  bytes, order is guaranteed over all lossless schedules iff the receiver retains
  no tail (the Agent) or the window is below 2f (`EndToEnd.AlwaysInOrderIff`). With
  each method as one step it always holds (`GatewayStream.Stream.Read`).
- A discarded Gateway stream gives its whole share back. `failAll` and
  `detachStream` take a stream out of the session's table before they finish it,
  so a handler can discard it first; a payload accepted after the discard's
  locked section is then retained by `finish` and stays charged to all three
  budgets for good (`StreamDelivery.LeakHappens`, `StreamDelivery.LeakIsForever`).
  With finish and discard done, the share is zero iff every payload still queued
  at that section, or accepted after it, is empty or reached the reader
  (`StreamDelivery.DiscardReturnsEverythingIff`); a stream finished before it always
  ends at zero (`StreamDelivery.FinishThenDiscardReturnsEverything`).
- When a read reports the end, every accepted byte has reached the reader. A
  handler that gives up on a stalled reader discards without waiting for it, and
  the reader then sees the end of a truncated stream
  (`StreamDelivery.TruncationHappens`). At the end the reader has missed exactly
  what the discard took from the queue and the tail, so it has everything iff there
  was no byte and no datagram in that (`StreamDelivery.EndDeliversEverythingIff`,
  `StreamDelivery.EndDeliversInOrderIff`). A discard that waits for the reader to
  stop never takes any. The accounting holds always.
- A frame sent under credit can be refused by the Agent's per-stream budget iff
  that budget is below the 64 KiB header allowance
  (`FlowBounds.RequestBudgetRefusesIff`).
- The slot count binds before the bytes iff it is below the window divided by
  the smallest frame (`FlowBounds.SlotsBindIff`).
- Recovery after a crash inside the journal's removal can always finish iff the
  manifest is deleted before every backup it calls for
  (`StateJournal.RemovalIsRestartableIff`). The contents stay all-or-nothing in
  either case.
- Routing finds a routable tunnel whenever there is one iff the device has at
  most two tunnels, the default bound: with three, an unroutable newest standby
  hides a routable older one (`Registry.RoutingCompleteIff`).
- A failed resume hands the slot back. It is lost without a reachable successor
  iff the attempt presents another subject, its reply cannot be sent, or the
  registration of the answered successor is refused; every other failure hands it
  back (`Resume.SlotLostIff`, with a run for each loss).
- Sweeping idle buckets is unobservable, for observations in order of time, iff
  one idle minute refills a whole burst (`TokenBuckets.SweepingUnobservableIff`);
  out of order it is always observable (`TokenBuckets.OrderIsNeeded`).
- The per-key rate limit of keyed admission holds over a set of keys iff the map
  has room for all of them: beyond that, dropping the entries with nothing in
  flight hands out fresh bursts (`AdmissionRate.RateHoldsIff`).
- The base64url decoder of the Go library accepts texts with nonzero spare bits;
  the canonical-form check accepts exactly those without (`Base64Url.SpareBits`).

Where the code and its comments differ, the model follows the code. The comment
on the resume slot says that it is rearmed only by success or a fresh handshake,
and the code also rearms it on most failures (`internal/gateway/gateway.go:486-565`).
The comment on the Agent's budget says that an empty reservation never
succeeds, and in the code it always does (`internal/agent/agentbudget/budget.go:33-51`).
The comment on the handler's discard says that it runs after the stream has been
detached, and when another goroutine owns the detach it does not wait for it
(`internal/gateway/gateway.go:909-912`, `internal/gateway/session.go:623-677`).
The comment on routing promises the newest routable standby, and the code takes
the newest standby if that one is routable (`internal/gateway/gateway.go:786-814`).

## Model

| member | source | states |
|---|---|---|
| `StreamLedger.MoveBalances` | internal/gateway/session.go:983-1191 | every single step of enqueue, read, finish and discard, on either peer, changes what a stream holds at each budget level by exactly the budget operation of that step |
| `StreamDelivery.LedgerExactInEveryRun` | internal/gateway/session.go:983-1191 | in every state of every run, with any number of sessions and streams and with finish and discard in any order, stream, session and process usage each equal the bytes still held below them and stay within their limits, each stream with its own |
| `StreamDelivery.ReleaseNeverUnderflows` | internal/gateway/gatewayresources/resources.go:56-63 | no release by any goroutine at any point takes a budget below zero, so the panic is unreachable and the Agent's clamp never acts |
| `StreamDelivery.DiscardReturnsEverythingIff` | internal/gateway/session.go:1126-1191 | once a Gateway stream is finished and discarded its share is zero at all three levels iff every payload queued at, or accepted after, the discard's locked section is empty or reached the reader |
| `StreamDelivery.FinishThenDiscardReturnsEverything` | internal/gateway/session.go:623-638 | finished before that section, the share ends at zero |
| `StreamDelivery.LeakHappens` | internal/gateway/session.go:666-677 | a run in which the discard comes first and one byte stays charged at all three levels |
| `StreamDelivery.LeakIsForever` | internal/gateway/session.go:1177-1191 | a finished and discarded stream whose reader is gone never changes its share again |
| `StreamDelivery.TruncationHappens` | internal/gateway/connector.go:144-160 | a run in which a discard that does not wait for the reader makes it miss an accepted byte |
| `StreamDelivery.FinishReturnsEverything` | internal/agent/session.go:456-513 | once an Agent stream is finished and its writer holds no payload its share is zero at both levels |
| `StreamDelivery.FinishedQueueIsEmpty` | internal/gateway/session.go:1161-1175 | nothing is left in a finished queue, so draining it again releases nothing twice |
| `StreamDelivery.AcceptedExactlyOnce` | internal/gateway/session.go:1028-1159 | at every interleaving each accepted payload is in exactly one place: with the reader, dropped, in the tail, or queued |
| `StreamDelivery.InOrderIffNothingOvertook` | internal/gateway/session.go:1028-1159 | unless a discard that began before the reader had stopped took something, the payloads stand in acceptance order iff no receive passed a drained chunk |
| `StreamDelivery.ReaderIsInOrder` | internal/gateway/session.go:1028-1191 | in every run of either peer, whatever finish and discard do, the reader has a subsequence of the accepted payloads in order unless one of its own receives passed a drained chunk, and the bytes returned and held ready are those payloads joined |
| `StreamDelivery.EndDeliversEverything` | internal/gateway/session.go:1028-1124 | when a read reports the end, an accepted byte or datagram is missing iff it was dropped, and none is unless a discard began before the reader had stopped |
| `StreamDelivery.EndDeliversEverythingIff` | internal/gateway/session.go:1028-1191 | at the end every accepted byte, and every datagram whole, has reached the reader iff the discard took no byte and no datagram |
| `StreamDelivery.EndDeliversInOrderIff` | internal/gateway/session.go:1028-1191 | and, unless a receive of the reader passed a drained chunk, it has the accepted byte sequence, or the accepted datagrams, under the same condition |
| `StreamDelivery.OvertakingHappens` | internal/gateway/session.go:1036-1060 | a run in which the reader gets the second payload before the first |
| `StreamProgress.EveryStreamCanEnd` | internal/gateway/session.go:983-1191 | from every state of every run of either peer, each stream's own goroutines can bring it to its end: finished, discarded on the Gateway, its reader gone, nothing in the enqueuer's hand |
| `StreamProgress.EverythingCanBeDelivered` | internal/gateway/session.go:1028-1159 | from every state in which a Gateway stream is still read and no discard has begun, its reader can get every byte and datagram accepted so far, in order unless one of its receives already passed a drained chunk |
| `Budgets.GatewayBudget.TryAcquire` | internal/gateway/gatewayresources/resources.go:34-54 | on a budget within its limit it succeeds iff the sum stays within it, so usage never passes the limit; a refusal is counted and charges nothing |
| `Budgets.GatewayBudget.Release` | internal/gateway/gatewayresources/resources.go:56-63 | returns the size, and reports false exactly where the source panics |
| `Budgets.AgentBudget.TryAcquire` | internal/agent/agentbudget/budget.go:35-51 | the same rule on the Agent |
| `Budgets.AgentBudget.Release` | internal/agent/agentbudget/budget.go:56-74 | an over-release is clamped to zero and counted, any other is exact |
| `GatewayStream.Stream.constructor` | internal/gateway/session.go:963-981 | a fresh stream is empty and valid, with slots for its byte budget in minimal frames |
| `GatewayStream.Stream.Enqueue` | internal/gateway/session.go:983-1014 | which of closed, budget exhausted, queue full or accepted it is, in terms of the three usages and limits; acceptance charges all three budgets, a refusal leaves all three as they were, and none ever passes its limit |
| `GatewayStream.Stream.Reserve` | internal/gateway/session.go:990-1001 | all three levels or none |
| `GatewayStream.Stream.ReleaseQueued` | internal/gateway/session.go:1016-1020 | all three budgets move together and none underflows |
| `GatewayStream.Stream.Read` | internal/gateway/session.go:1028-1083 | bytes returned, in hand, queued and retained always make up the accepted payloads in order; terminal outcomes come only after the last byte; what leaves the stream is credited |
| `GatewayStream.Stream.FillBuffer` | internal/gateway/session.go:1033-1079 | the read loop ends with bytes in hand or with nothing left to give |
| `GatewayStream.Stream.ReadDatagram` | internal/gateway/session.go:1085-1124 | packets come out whole and in order, terminal outcomes only after the last one |
| `GatewayStream.Stream.Finish` | internal/gateway/session.go:1126-1159 | the first finish keeps everything pending and charged, later ones change nothing |
| `GatewayStream.Stream.DrainQueue` | internal/gateway/session.go:1134-1150 | a byte stream's chunks join into one tail, a datagram flow keeps its packets apart |
| `GatewayStream.Stream.ReleaseQueuedChunks` | internal/gateway/session.go:1166-1175 | the queue's bytes, and only those, go back |
| `GatewayStream.Stream.DiscardRetained` | internal/gateway/session.go:1180-1191 | everything the stream still held goes back to all three budgets |
| `AgentStream.Stream.Enqueue` | internal/agent/session.go:456-476 | accepted iff open, with a free slot, and with both sums within their limits; a refusal leaves both budgets as they were |
| `AgentStream.Stream.ReleaseQueued` | internal/agent/session.go:478-485 | both budgets move together and neither is clamped |
| `AgentStream.Stream.WriteNext` | internal/agent/session.go:653-701 | accepted bytes are the written ones plus the queued ones in order, and credit goes back only for bytes the local connection took |
| `AgentStream.Stream.WriteAll` | internal/agent/session.go:680-692 | the local connection gets as much of the payload as it takes; success iff it takes all |
| `AgentStream.Stream.Finish` | internal/agent/session.go:498-513 | what is still queued is discarded and given back exactly once |
| `AgentStream.Lifetime` | internal/agent/session.go:456-513 | a stream's whole life, whatever arrives and fails, leaves the session budget as it found it and never clamps |
| `Window.InitialCredit` | internal/tunnelwindow/window.go:123-131 | the first grant is the budget clamped to 1..8 MiB |
| `Window.StreamWindow.constructor` | internal/tunnelwindow/window.go:35-40 | no credit, and a limit of at least one |
| `Window.StreamWindow.AddCredit` | internal/tunnelwindow/window.go:81-99 | a grant is applied iff it is positive, the window open and the sum within the limit; the refusals are told apart |
| `Window.StreamWindow.CloseWindow` | internal/tunnelwindow/window.go:103-112 | the first close wins |
| `Window.StreamWindow.Take` | internal/tunnelwindow/window.go:49-76 | for every sequence of wake-ups it decides in the first state that lets it, and takes exactly its size |
| `Window.AfterSound` | internal/tunnelwindow/window.go:49-112 | credit stays between zero and the limit through every sequence of grants and closes |
| `Window.FirstCloseWins` | internal/tunnelwindow/window.go:49-112 | from the first close on neither the error nor the credit changes |
| `Window.CreditIsGranted` | internal/tunnelwindow/window.go:81-99 | credit is what it was plus exactly the grants that kept it within the limit |
| `FlowControl.StreamQueueFrames` | internal/agent/resources.go:50-56 | the slot count covers the byte budget in minimal frames |
| `FlowControl.StreamInputBudget` | internal/agent/resources.go:24-32 | a byte stream gets the stream bound, an HTTP request the larger of stream and session bound |
| `FlowControl.NextPreserves` | internal/gateway/session.go:679-706 | every step of sender, receiver and wire keeps the books |
| `FlowBounds.CreditConserved` | internal/gateway/session.go:544-609 | sender credit, data in flight, queued, retained, dequeued and credit in flight never exceed the window, and equal it while nothing was lost |
| `FlowBounds.GrantsAreInBounds` | internal/gateway/session.go:474-491 | no window update is an over-grant or outside 1..8 MiB, in any run |
| `FlowBounds.BothDirectionsConserve` | internal/agent/session.go:402-418 | both results for the two directions as the peers set them up, for all bounds |
| `FlowBounds.RequestBudgetRefusesIff` | internal/agent/session.go:402-418 | the Agent's stream budget can refuse a frame sent under credit iff it is below 64 KiB |
| `FlowBounds.AgentBudgetRefusesIff` | internal/agent/resources.go:24-32 | so a byte stream needs a stream bound of 64 KiB, and an HTTP request a stream or session bound of that size |
| `FlowBounds.ResponseBudgetNeverRefuses` | internal/gateway/session.go:983-1001 | the Gateway's stream budget never refuses a frame sent under credit |
| `FlowBounds.SlotsBindIff` | internal/agent/resources.go:34-56 | with frames of at least f bytes, slots bind before bytes iff there are fewer than the window over f |
| `FlowBounds.SlotsFollowTheBudget` | internal/gateway/session.go:956-981 | with both peers' sizing, frames of 4096 bytes or more never run out of slots first |
| `FlowBounds.WindowSizes` | internal/agent/session.go:402-418 | the window a direction opens is the receiver's whole byte budget up to the contract's ceiling, and at least the header allowance on requests; the sender's limit is the largest such window |
| `FlowBounds.WholeBudgetUsable` | internal/gateway/session.go:570-609 | with the peers' own sizing, n bytes can stand in the receiver's queue at once iff n is at most its budget and the ceiling, in either direction |
| `FlowBounds.QuiescentMeansFullWindow` | internal/tunnelwindow/window.go:49-99 | with nothing in flight and nothing lost the sender holds the whole window, and a send goes through iff it fits the window |
| `FlowBounds.LargerChunksNeverGo` | internal/agent/session.go:703-730 | a chunk larger than the window is never sendable |
| `FlowBounds.HelpfulStepsProgress` | internal/gateway/session.go:1028-1056 | every step that neither sends nor loses brings the direction strictly closer to quiescence |
| `FlowBounds.HelpIsEnabled` | internal/agent/session.go:680-701 | while something is outstanding and nothing was lost, such a step is enabled |
| `FlowBounds.WindowReturns` | internal/agent/session.go:693-699 | from every lossless state the whole window can return without new data |
| `EndToEnd.FitsStep` | internal/gateway/session.go:983-1159 | every step of the sizes is a step of the contents |
| `EndToEnd.DeliveredInOrderIff` | internal/gateway/session.go:1028-1159 | in every run, with the half-close as finish, single drains and publication, while nothing is lost: each frame sent is in exactly one place, and received plus pending is what was sent, in order, iff no receive passed a drained frame |
| `EndToEnd.CalmRunsLoseNothing` | internal/agent/resources.go:34-56 | without a failed send or a full shared budget the receiver's own bounds never lose a frame sent under credit |
| `EndToEnd.EndToEndDelivery` | internal/agent/session.go:703-730 | so every frame sent under credit reaches the reader or is on its way, once, in order under the same condition; towards the Agent always in order |
| `EndToEnd.AlwaysInOrderIff` | internal/gateway/session.go:1036-1150 | with frames of at least f bytes, every lossless schedule keeps the order iff the receiver retains no tail or the window is below 2f |
| `EndToEnd.BothDirectionsAreRoomy` | internal/agent/session.go:402-418 | both directions as the peers configure them meet that condition, with frames of 4096 bytes or more |
| `EndToEnd.DeliveryCompletes` | internal/tunnelwindow/window.go:49-99 | from every lossless state the peers can finish without new data: the reader has every frame once and the sender its whole window, in order iff nothing had overtaken before |
| `AgentWriter.PickOldest` | internal/agent/session.go:874-887 | the search returns a request with the least stamp and removes exactly it |
| `AgentWriter.DrainQueues` | internal/agent/session.go:851-873 | the drain is a path of protocol steps that keeps what was pending, adds everything from both queues and ends with both empty |
| `AgentWriter.WritePass` | internal/agent/session.go:836-888 | one pass of the loop is a path of protocol steps that handles exactly the oldest accepted request, and writes it unless it is control and its caller has given up |
| `AgentWriter.OldestIsNext` | internal/agent/session.go:836-888 | after a drain the oldest pending request is the oldest one not yet handled |
| `AgentWriter.HandledInAcceptanceOrder` | internal/agent/session.go:791-888 | for every interleaving of senders, requests leave the writer in acceptance order, none skipped or repeated |
| `AgentWriter.WrittenInAcceptanceOrder` | internal/agent/session.go:890-927 | the frames written carry strictly increasing stamps and include every handled data frame |
| `AgentWriter.MissingIff` | internal/agent/session.go:890-899 | in every run a handled request is not written iff it is a control frame whose caller had given up before the step that handled it |
| `AgentWriter.QueuesAreBounded` | internal/agent/session.go:177-178 | in every run the control queue holds at most 32 requests and the data queue at most two |
| `AgentWriter.AdmittedIff` | internal/agent/session.go:799-813 | the sender holding the mutex gets in exactly while its own queue has room |
| `AgentWriter.StampedIff` | internal/agent/session.go:799-802 | a sender gets the next stamp exactly while nobody else holds the mutex |
| `AgentWriter.EverythingIsHandled` | internal/agent/session.go:836-888 | from every state of every run the writer can get everything stamped so far accepted and handled, with nobody else moving |
| `StateJournal.RestoredIsBase` | internal/agent/state_transaction.go:292-334 | a journal that agrees with the old contents restores them byte for byte, absence included, or nothing |
| `StateJournal.StateDir.RemoveAll` | internal/agent/state_transaction.go:275-286 | the journal's entries go one by one in any order, stopping anywhere |
| `StateJournal.StateDir.Load` | internal/agent/state_transaction.go:204-217 | a read succeeds iff no journal exists, and then sees the durable contents |
| `StateJournal.StateDir.Begin` | internal/agent/state_transaction.go:219-259 | success leaves a complete published journal, and it succeeds if nothing fails; any failure or crash keeps the old contents durable, and a single failure leaves no journal |
| `StateJournal.StateDir.Prepare` | internal/agent/state_transaction.go:232-258 | a manifest is only ever published over complete backups |
| `StateJournal.LastWriteWins` | internal/agent/state_transaction.go:261-273 | after a mutation's writes each file holds what the last write to it says, or what it held before |
| `StateJournal.StateDir.Operate` | internal/agent/state_transaction.go:261-273 | the files are those after some prefix of the mutation's writes, and after all of them on success |
| `StateJournal.StateDir.RestoreFile` | internal/agent/state_transaction.go:362-381 | one file restored or removed as the manifest says, and a missing backup fails without a change |
| `StateJournal.StateDir.Recover` | internal/agent/state_transaction.go:292-334 | the crash invariant survives every outcome; if nothing fails it completes iff the journal is recoverable, and then both files are restored and the journal is gone; until removal starts it can be repeated |
| `StateJournal.StateDir.RunTransaction` | internal/agent/state_transaction.go:261-290 | what is durable afterwards is all of the writes or none of them, at every crash point; if nothing fails it commits, and if one thing fails the files are rolled back and the journal is gone unless all the writes are in place |
| `StateJournal.Lifetimes` | internal/agent/config_lock.go:61-101 | over any number of process lifetimes, each dying anywhere, a reader sees only whole transactions in order, and all of them if nothing fails |
| `StateJournal.RecoverRepeatedly` | internal/agent/state_transaction.go:292-381 | any number of crashed recoveries followed by one that completes restores both files exactly, and the first one completes if nothing fails |
| `StateJournal.RecoverableAt` | internal/agent/state_transaction.go:320-334 | which partly removed journals can still be recovered |
| `StateJournal.RemovalIsRestartableIff` | internal/agent/state_transaction.go:275-286 | recovery can finish after a crash at every point of the removal iff the manifest goes before every backup it calls for |
| `StateJournal.WedgedExample` | internal/agent/state_transaction.go:275-286 | a removal order that leaves a journal recovery cannot finish |
| `Registry.AdmitKeepsDevice` | internal/gateway/gateway.go:675-730 | admission keeps a device's bound, keys and primary, and every tunnel but the victim and the displaced one |
| `Registry.AdmitKeepsPrimary` | internal/gateway/gateway.go:698-730 | the primary is never evicted, and a reconnect of its own session ID inherits routing |
| `Registry.RemoveKeepsDevice` | internal/gateway/gateway.go:758-784 | removal with promotion keeps the device sound and every other tunnel |
| `Registry.ReplacedIsGone` | internal/gateway/gateway.go:732-740 | a replaced or recycled session is no longer registered |
| `Registry.RegistryIsSound` | internal/gateway/gateway.go:675-784 | in every run of register, unregister, drain and close: a primary iff tunnels, the primary one of them, keys match identities, both bounds hold |
| `Registry.RegisterSucceedsIff` | internal/gateway/gateway.go:675-711 | in every sound state a registration succeeds iff the Gateway is not draining and the session ID is known on its device, whatever the load, or there is room in all and the device has no tunnel or more than one place |
| `Registry.UnregisterSucceeds` | internal/gateway/gateway.go:758-784 | unregistering is always possible, with an heir among whatever is left, and the very object is gone afterwards |
| `Registry.EmptyAfterClose` | internal/gateway/gateway.go:1075-1087 | once closed the registry stays empty |
| `Registry.PrimaryIsStable` | internal/gateway/gateway.go:675-784 | while a primary stays registered it stays the primary |
| `Registry.RoutingCompleteIff` | internal/gateway/gateway.go:792-824 | routing can miss a routable tunnel iff the device has more than two |
| `Registry.FewNeverHide` | internal/gateway/gateway.go:792-824 | with at most two tunnels routing answers none only if none is routable |
| `Registry.Gateway.constructor` | internal/gateway/gateway.go:77-78 | the registry starts empty and sound |
| `Registry.Gateway.CountSessions` | internal/gateway/gateway.go:684-687 | the loop counts the registered pairs of device and session |
| `Registry.Gateway.Register` | internal/gateway/gateway.go:675-741 | which refusal occurs and when; a refusal changes nothing; success admits exactly the session, recycling at most the oldest standby |
| `Registry.Gateway.Install` | internal/gateway/gateway.go:713-730 | the map updates of one admission |
| `Registry.Gateway.Unregister` | internal/gateway/gateway.go:758-784 | only the very object is removed, and the oldest survivor inherits routing |
| `Registry.Gateway.BeginDrain` | internal/gateway/gateway.go:1071-1073 | draining is set and nothing else changes |
| `Registry.Gateway.Close` | internal/gateway/gateway.go:1075-1087 | the registry is draining, empty and closed |
| `Registry.Gateway.SessionForDevice` | internal/gateway/gateway.go:792-814 | the primary if routable, else a newest standby if routable; with at most two tunnels none only if none is routable |
| `Registry.FindOldestStandby` | internal/gateway/gateway.go:745-756 | an oldest non-primary, for any iteration order, or none iff only the primary is left |
| `Registry.FindNewestStandby` | internal/gateway/gateway.go:796-804 | a newest non-primary, for any iteration order |
| `Registry.FindOldest` | internal/gateway/gateway.go:774-780 | the heir is an oldest survivor |
| `Registry.ReplaceThenUnregister` | internal/gateway/gateway.go:732-784 | after a replacement the replaced session's own unregister changes nothing |
| `Resume.DoKeepsInv` | internal/gateway/gateway.go:476-584 | every step of handshakes, resume attempts and their replies, registration and deauthorization keeps the chain, slot, holder and acceptance invariants |
| `ResumeHistory.AuthorizedIff` | internal/gateway/session.go:314-318 | in every run a session is authorized iff it has never been deauthorized |
| `ResumeHistory.RevokedIsNeverResumed` | internal/gateway/gateway.go:480-485 | once a session is deauthorized no resume of it is accepted any more, and no attempt that had not found it ever does |
| `ResumeHistory.RegisteredIff` | internal/gateway/gateway.go:675-784 | the object found under a session ID is the last one registered under it, until that very object is unregistered |
| `ResumeHistory.AlwaysPossible` | internal/gateway/gateway.go:342-352 | arrivals, deauthorization and unregistration are possible at any time, and a registration exactly once after the answer |
| `ResumeHistory.SuccessPassedEveryCheck` | internal/gateway/gateway.go:476-565 | every accepted resume comes from an attempt that presented the session's ID, subject and challenge and whose proof was verified |
| `ResumeHistory.HonestResumeSucceeds` | internal/gateway/gateway.go:476-584 | an undisturbed attempt with the right subject, challenge and proof on a registered, authorized, armed session ends with the successor registered and resumable |
| `Resume.OneSuccessor` | internal/gateway/gateway.go:486-565 | under every interleaving no session object gets two successors |
| `Resume.SharedIdIsOneChain` | internal/gateway/session.go:157-200 | objects sharing a session ID form one chain, each resuming exactly the one before it |
| `Resume.SuccessPresentedItsChallenge` | internal/contractv1/validation.go:884-889 | every success presented the challenge issued to the object it resumed |
| `Resume.ChallengeAcceptedOnce` | internal/gateway/gateway.go:548-565 | with fresh challenges no challenge is accepted twice |
| `Resume.SlotLostIff` | internal/gateway/gateway.go:486-584 | after any step a slot is lost without a reachable successor iff it was before, or a holder presents another subject, or the reply cannot be sent, or the registration is refused |
| `Resume.LostForever` | internal/gateway/gateway.go:486-584 | a lost slot stays lost |
| `Resume.StillbornIsUnreachable` | internal/gateway/gateway.go:342-352 | a successor that was not answered or not registered is never found or resumed |
| `Resume.LostBySubject` | internal/gateway/gateway.go:493-495 | a run that loses a slot to a subject mismatch |
| `Resume.LostByReply` | internal/gateway/gateway.go:577-580 | a run that loses a slot to an unsent reply, with the old session still registered and authorized |
| `Resume.LostByRefusal` | internal/gateway/gateway.go:342-351 | a run that loses a slot to a refused registration |
| `LiveMetadata.LoadManifest` | internal/gateway/live_metadata.go:332-384 | which manifests are accepted, and the deadline is the earliest of the three bounds |
| `LiveMetadata.AcceptableIff` | internal/gateway/live_metadata.go:332-384 | the acceptance rule in the contract's own numbers |
| `LiveMetadata.Source.RefreshAt` | internal/gateway/live_metadata.go:263-322 | a refresh installs a strictly newer loaded generation or leaves the active one alone; when it counts as a success |
| `LiveMetadata.Source.ActiveSnapshot` | internal/gateway/live_metadata.go:232-247 | a snapshot is handed out only strictly before its deadline |
| `LiveMetadata.RevisionsAreMonotone` | internal/gateway/live_metadata.go:263-322 | over every sequence of refreshes, with any clock, revisions never decrease and the same revision is the very same snapshot and deadline |
| `LiveMetadata.ActiveIff` | internal/gateway/live_metadata.go:263-322 | something is active iff some refresh has loaded an acceptable generation |
| `LiveMetadata.ActiveIsNewest` | internal/gateway/live_metadata.go:263-322 | the active generation is what the first refresh with the largest loaded revision read, so every larger acceptable revision is installed |
| `LiveMetadata.ServedIff` | internal/gateway/live_metadata.go:232-384 | its snapshot is served iff it is ready and inside that refresh's validity, age and acceptance bounds, however often the revision is seen again |
| `LiveMetadata.UnchangedIff` | internal/gateway/live_metadata.go:281-310 | a refresh that does not advance counts as unchanged iff nothing was touched since the installing one or everything reads the same |
| `LiveMetadata.NameGrows` | internal/gateway/live_metadata.go:512-523 | which generation names are valid, built up character by character |
| `LiveMetadata.NameIsOneElement` | internal/gateway/live_metadata.go:512-523 | so a generation is a single path element below the metadata directory |
| `LiveMetadata.DeadlineIsNeverExtended` | internal/gateway/live_metadata.go:263-322 | seeing a revision again never extends its service |
| `TokenBuckets.TokenBucket.Allow` | internal/gateway/gatewayresources/resources.go:94-112 | one observation of the bucket, its clock never running back |
| `TokenBuckets.TokensInRange` | internal/gateway/gatewayresources/resources.go:94-112 | for observations in any order the tokens stay between zero and the burst |
| `TokenBuckets.RateBound` | internal/gateway/gatewayresources/resources.go:94-112 | in any stretch of any run the grants are at most the burst plus rate times the clock's advance |
| `TokenBuckets.GrantsBalance` | internal/gateway/gatewayresources/resources.go:94-112 | over any stretch tokens are conserved: granted, left, or lost to a full bucket, and a refusal costs none |
| `TokenBuckets.RefusedOnlyWhenSpent` | internal/gateway/gatewayresources/resources.go:94-112 | a request is refused only if all but less than one token that was there or accrued went to grants or over the cap |
| `TokenBuckets.PatientCallersAreGranted` | internal/gateway/gatewayresources/resources.go:94-112 | a caller that waits for a token each time is never refused |
| `TokenBuckets.KeyedTokenBuckets.constructor` | internal/gateway/gatewayresources/resources.go:373-387 | rate and burst are raised to one |
| `TokenBuckets.KeyedTokenBuckets.Allow` | internal/gateway/gatewayresources/resources.go:392-423 | entry, sweep and charge of one call |
| `TokenBuckets.KeyedTokenBuckets.Sweep` | internal/gateway/gatewayresources/resources.go:399-406 | the loop drops exactly the other keys idle for a minute |
| `TokenBuckets.SweepingUnobservable` | internal/gateway/gatewayresources/resources.go:389-423 | with burst at most sixty times the rate, every time-ordered call sequence gets the answers of a never-swept map |
| `TokenBuckets.PlainGrantsBounded` | internal/gateway/gatewayresources/resources.go:392-423 | without sweeping a key's grants stay within its burst and refill |
| `TokenBuckets.SweepingObservable` | internal/gateway/gatewayresources/resources.go:399-406 | with a larger burst a concrete call sequence is answered differently |
| `TokenBuckets.SweepingUnobservableIff` | internal/gateway/gatewayresources/resources.go:392-423 | sweeping is unobservable iff burst is at most sixty times the rate |
| `TokenBuckets.OrderIsNeeded` | internal/gateway/gatewayresources/resources.go:399-410 | with observation times out of order a concrete call sequence is answered differently under every configuration |
| `Admission.FairnessShare` | internal/gateway/gatewayresources/resources.go:173-185 | three quarters rounded down, at least one and strictly below an allowance of two or more |
| `Admission.KeyedAdmissionLimiter.TryAcquire` | internal/gateway/gatewayresources/resources.go:215-266 | the verdict and the whole new state of one acquire |
| `Admission.ContendedIff` | internal/gateway/gatewayresources/resources.go:268-283 | for observations of nonempty keys in order of time, the two remembered keys tell exactly whether any other key was observed in the last two seconds |
| `Admission.RefusedForConcurrencyIff` | internal/gateway/gatewayresources/resources.go:215-258 | in every time-ordered run a request is refused for concurrency iff the key's outstanding requests reach the cap, which is the smaller share exactly under contention or in always-fair mode |
| `Admission.PatientKeyIsAdmitted` | internal/gateway/gatewayresources/resources.go:246-265 | below its cap, a key that waits for a token at its share of the rate is admitted |
| `Admission.KeyedAdmissionLimiter.SweepIdle` | internal/gateway/gatewayresources/resources.go:238-244 | the loop drops exactly the other keys with nothing in flight |
| `Admission.KeyedAdmissionLimiter.Charge` | internal/gateway/gatewayresources/resources.go:246-265 | concurrency is checked first and costs no token |
| `Admission.KeyedAdmissionLimiter.Release` | internal/gateway/gatewayresources/resources.go:287-295 | returns one slot, or reports false where the source panics |
| `Admission.InFlightIsBalance` | internal/gateway/gatewayresources/resources.go:215-295 | in every run, through every sweep, a key's in-flight count is its accepted acquires minus its releases |
| `Admission.NeverAboveCap` | internal/gateway/gatewayresources/resources.go:215-266 | the count never exceeds the cap, which is strictly smaller in always-fair mode |
| `Admission.ReleaseUnderflowsIff` | internal/gateway/gatewayresources/resources.go:287-295 | a release is refused iff every accepted acquire of the key was released already |
| `Admission.NewKeyIsAdmitted` | internal/gateway/gatewayresources/resources.go:231-236 | a key without state, new or swept, is always admitted |
| `AdmissionRate.DroppedIff` | internal/gateway/gatewayresources/resources.go:232-245 | an entry is dropped iff another key's first request finds the map full and the entry has nothing in flight, whatever its last use |
| `AdmissionRate.RateBoundWhileKept` | internal/gateway/gatewayresources/resources.go:246-265 | while its entry is kept, a key's grants are at most the binding burst plus the binding rate times the time that passes |
| `AdmissionRate.SweptKeyStartsAfresh` | internal/gateway/gatewayresources/resources.go:232-245 | with one key more than the map holds, a run at a single instant grants a key more than its burst |
| `AdmissionRate.RateHoldsIff` | internal/gateway/gatewayresources/resources.go:215-266 | the per-key rate limit holds over all runs on a number of keys iff the map has room for them |
| `FrameCodec.EncodeFrame` | internal/contractv1/frame.go:38-53 | fills the buffer with the frame's image iff the frame is valid |
| `FrameCodec.DecodeImage` | internal/contractv1/frame.go:72-108 | decoding undoes encoding on every valid frame |
| `FrameCodec.ImageOfDecoded` | internal/contractv1/frame.go:72-124 | every accepted byte string is the image of the valid frame it decodes to |
| `FrameCodec.ValidIff` | internal/contractv1/frame.go:110-130 | which frames there are: the widths, the two kinds, their payload bounds and the stream of data |
| `FrameCodec.FirstViolation` | internal/contractv1/frame.go:72-108 | the header is judged field by field, and the first violation decides the error |
| `FrameCodec.FirstIsMostSignificant` | internal/contractv1/frame.go:47-50 | the integer fields are in network byte order |
| `FrameCodec.GoldenHello` | contracts/v1/fixtures/tunnel/frame-vectors.json:5-11 | the contract's data vector, byte for byte |
| `FrameCodec.GoldenLargest` | contracts/v1/fixtures/tunnel/frame-vectors.json:20-35 | the contract's headers of the two largest payloads |
| `FrameCodec.PutUint` | internal/contractv1/frame.go:47-50 | the big-endian fields, and nothing else in the buffer |
| `FrameCodec.SequenceTracker.Accept` | internal/contractv1/frame.go:156-173 | accepts exactly the next number, and none after the last |
| `Wire.NeverRejected` | internal/gateway/session.go:831-868 | in every run of handshake or resume and traffic over FIFO links no frame is ever refused |
| `Wire.RefusedIff` | internal/gateway/session.go:831-868 | whatever stands on a link, a read refuses it iff it does not decode, has not the next number or is not what the handshake expects, and a refusal changes nothing else |
| `Wire.TrafficIsEnabled` | internal/agent/session.go:82-187 | each side sends and reads as soon as its own handshake is done |
| `Wire.DeliveredIsPrefixOfSent` | internal/agent/session.go:890-927 | what was delivered is a prefix of what was sent, numbered from one without gaps |
| `Wire.SentIsAsked` | internal/agent/session.go:890-927 | in every run each side has sent exactly what it was asked to send and can be encoded, in order, numbered from one |
| `Wire.HandshakeCompletes` | internal/agent/session.go:82-187 | every handshake, full or resumed, can complete from every state |
| `Wire.CountersAgree` | internal/agent/runtime.go:606-663 | after a full handshake and after a resume alike, each counter is the peer's tracker plus what is in flight |
| `Wire.AgentHandshakeKeepsInv` | internal/agent/session.go:82-187 | the Agent's side of the handshake sets its counter to what it has sent |
| `Wire.GatewayHandshakeKeepsInv` | internal/gateway/gateway.go:566-667 | so does the Gateway's side, for a handshake and for a resume |
| `AgentUplink.NextKeepsInv` | internal/agent/session.go:836-927 | every step of senders, writer and transport keeps frames and requests matched |
| `AgentUplink.HeadIsAlwaysAccepted` | internal/gateway/session.go:202-245 | whatever is on its way to the Gateway is accepted there |
| `AgentUplink.ArrivesInAcceptanceOrder` | internal/agent/session.go:791-927 | for every interleaving the frames the Gateway accepts are those of accepted requests, in acceptance order, without gaps, each with its request's contents |
| `AgentUplink.FramedIff` | internal/agent/session.go:890-927 | a handled request becomes a frame iff it encodes and is not a control frame whose caller had given up |
| `AgentUplink.EveryFrameArrives` | internal/gateway/session.go:202-245 | once nothing is on its way the Gateway has accepted the frame of every framed request, in order |
| `HeaderLimit.AdvanceIsExact` | internal/gateway/gateway.go:1430-1444 | one byte keeps the matched count the longest separator prefix that ends the input |
| `HeaderLimit.ScanIsSearch` | internal/gateway/gateway.go:1430-1444 | for every byte string the matcher finds the separator iff the string contains it |
| `HeaderLimit.Reader.Read` | internal/gateway/gateway.go:1418-1450 | done iff the bytes so far contain the separator; the limit error iff they do not and the limit is reached |
| `HeaderLimit.Reader.Match` | internal/gateway/gateway.go:1430-1444 | the byte loop, stopping at the byte that completes the separator |
| `HeaderLimit.ReadInChunks` | internal/gateway/gateway.go:1414-1450 | for every chunking the outcome depends only on the bytes |
| `Base64Url.DecodeOfEncode` | internal/contractv1/validation.go:1062-1071 | the decoder undoes the encoder |
| `Base64Url.TestVectors` | internal/contractv1/validation.go:1062-1071 | the encoder on the test vectors of section 10 of RFC 4648, without padding, and on the two characters of its section 5 |
| `Base64Url.ValidRawIff` | internal/contractv1/validation.go:1062-1071 | the check accepts exactly the encodings of byte strings of the given size |
| `Base64Url.SpareBits` | internal/contractv1/validation.go:1062-1071 | the decoder ignores spare bits and the check insists that they are zero |
| `Base64Url.LineBreakIsSkipped` | internal/contractv1/validation.go:1062-1071 | the decoder takes no notice of a line break wherever it stands |
| `Transcript.IdIsNulFree` | internal/contractv1/validation.go:43-48 | a contract identifier contains no NUL |
| `Transcript.TimeIsNulFree` | internal/contractv1/validation.go:1073-1082 | nor does a timestamp |
| `Transcript.IdGrows` | internal/contractv1/validation.go:43 | which identifiers are valid, built up character by character |
| `Transcript.ValidTimeIff` | internal/contractv1/validation.go:1073-1082 | a timestamp is valid iff it is the printed form of a date and time that exists, with at most nine fractional digits |
| `Transcript.V1IsSound` | internal/contractv1/validation.go:1055-1082 | what the contract's checks accept contains no NUL, and its nonces have one text per byte string |
| `Transcript.JoinIsInjective` | internal/contractv1/validation.go:831-836 | NUL-joining is injective on lists of NUL-free parts of any lengths |
| `Transcript.TranscriptText` | contracts/v1/tunnel-protocol.md:111-117 | both transcripts are the contract's concatenations: which components, in which order, one NUL between two |
| `Transcript.AuthTranscriptIsInjective` | internal/contractv1/validation.go:995-1021 | an authentication transcript fixes all six components |
| `Transcript.AuthTranscriptBindsBytes` | internal/contractv1/validation.go:995-1021 | two valid transcripts agree iff their identifiers and their nonces' bytes do |
| `Transcript.ResumeTranscriptIsInjective` | internal/contractv1/validation.go:842-872 | a resume transcript fixes all seven components |
| `Transcript.TranscriptsAreDisjoint` | internal/contractv1/validation.go:842-1021 | no transcript is of both kinds |
| `Transcript.V1Transcripts` | internal/contractv1/validation.go:831-1021 | the three results, without hypotheses, for the contract's own checks |

## Left out

- The Gateway's own writer loop: it orders frames per stream only through its senders, and no order across its two queues is claimed.
- A failed transport write: it ends the session, so `Wire` models only connections on which writes succeed.
- Wire order of concurrent stream opens: opens are serialised in `FlowControl`.
- v1 streams and UDP flows in flow control: they carry no credit.
- The on-disk config lock: a single mutator is assumed in `StateJournal`.
- WebSocket, TLS, HTTP proxying, sockets, dialing and timers: foreign input and output.
- Ed25519 and SHA-256: signature checks are nondeterministic outcomes and digests are opaque numbers.
- JSON decoding: messages are validated records.
- Counter wrap-around of 64-bit byte budgets: usage is bounded by limits far below it.
- Rounding of floating-point token counts: they are reals.
- Setup, tray, service control, supervisor, status export, logging and metrics: easy or observational.
- Registry.Gateway.SessionForDevice: last-seen times are one snapshot per operation; in the source they are atomics that can change between two comparisons, so oldest and newest (also in FindOldestStandby, FindNewestStandby and FindOldest) mean by that snapshot. That the victim is never the primary does not depend on it.
- Admission.ContendedIff: the empty key is the source's mark for no key, so it is not among the observed ones.
- AgentStream.Lifetime: the local writer and the frame handler alternate method by method; their finer interleavings are covered by `StreamLedger`.
- EndToEnd.CalmRunsLoseNothing: frames carry at least a given number of bytes, because with smaller ones the slots can bind first, exactly as `FlowBounds.SlotsBindIff` says.
