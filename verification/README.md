# Verification of the CAN IPC daemon

The daemon shares one CAN port among many socket clients. A client asks for CAN identifiers with
ADD orders, gives them up with REMOVE orders, and is written every received frame whose
identifier it asked for. Three stateful parts must agree: the client manager (a forward map and a
reverse index), the receiver (per port, a count table and a filter table), and a bounded work
queue between the receive thread and the worker.

Two views are proved and connected.

- **Objects.** `ClientManager`, `PortFilter`, `CanIpcReceiver`, `WorkQueue`, `Connection`, `CanBus`
  and `IpcSocketController` update their fields in place, with the loops of the source, and are
  proved against closed-form descriptions of their effect.
- **Runs.** `QueueThreads` (any number of threads on the queue) and `Daemon` (receive thread,
  worker, and any number of clients) are step machines. Every critical section, flag access, table
  update and index update is one step, a blocked thread's step changes nothing, and theorems hold
  for every sequence of steps. `DaemonOrders` shows that an order does what the controller does
  however other threads' steps come between its own, as long as no other client's order proceeds
  and no other client hangs up meanwhile; and that under every interleaving each order is answered
  once, in order. `DaemonSerial` shows that orders which do overlap leave what the controller leaves
  when it serves them one after another. `DaemonPipeline` shows that the daemon's threads refine the
  shared queue, and that the receive thread alone does what the receiver object's batch loop does.
  `DaemonProgress` shows that the threads, when they are let, get a subscribed frame to its clients.

`OrderEffects` and the lemmas it uses state what packages do in terms of single fields and bytes,
with the numerals of the structures and of the CAN standard.

| file | content |
|---|---|
| `CanFrames.dfy` | frames, DLC coding (ISO 11898-1, section 8.4.2.3, with CAN FD), byte order, one batch |
| `Packages.dfy`, `Messages.dfy`, `Connections.dfy` | the 224-byte package and the replies, the messages of a socket and the packages read from them, `read_full` |
| `FilterTables.dfy`, `Receivers.dfy` | the count and filter tables, their histories, the receiver object |
| `ClientIndex.dfy` | the forward map and the reverse index |
| `WorkQueues.dfy`, `QueueThreads.dfy` | the queue object, and the queue under any interleaving |
| `Routing.dfy`, `Controllers.dfy`, `OrderEffects.dfy` | ports, one client's whole session, what each field and byte of a package does |
| `Daemon.dfy` | the step machine |
| `DaemonIndex.dfy`, `DaemonCounts.dfy`, `DaemonHoldings.dfy` | who is written to, what the tables hold, what clients ask for and hold |
| `DaemonPipeline.dfy`, `DaemonProgress.dfy`, `DaemonPause.dfy` | order of frames, what the threads get done, what a pause stops |
| `DaemonOrders.dfy`, `DaemonSerial.dfy` | one order among other threads, overlapping orders |
| `DaemonExamples.dfy`, `DaemonOverlaps.dfy` | runs from the initial state: a subscription that is served, and runs in which something one might rely on fails |

Check everything with `dafny verify dfyconfig.toml`.

## What holds only under a condition

These are properties one might expect of the code that fail for some inputs. Each comes with an
input at which it fails and with the condition under which it holds.

- *Disconnecting stops deliveries.* It does not: `DisconnectedClientIsStillWrittenTo`. Worse, a
  descriptor that is used again receives frames its new owner never asked for
  (`ReusedDescriptorIsWrittenTo`). A delivery goes to exactly the identifier's askers if and only
  if nobody who asked for it has disconnected since the reverse index was last rebuilt
  (`DeliveryIsExact`).
- *A REMOVE stops deliveries.* It takes the client off the recipient list if and only if the client
  has an entry or is not on the list (`RemovedFromTargets`). Then it is final (`RemovalIsFinal`);
  otherwise the next callback can write to the client (`RemovalIsNotFinal`). In the run of
  `ReusedDescriptorIsWrittenTo` the new owner sends such a REMOVE.
- *A frame that a client asks for is matched.* Not during its ADD: the index is updated before the
  tables, and pausing does not stop a sweep that is under way (`AddOpensWindow`,
  `FrameDuringAddIsDropped`). If clients remove no more than they hold, it is matched on port 5 if
  and only if the ADD is complete or somebody holds the identifier already
  (`SubscribedFrameReachesQueue`).
- *Clients do not disturb each other.* One that removes more than it holds starves others
  (`UnfairRemovalStarves`, `UnfairRemovalStarvesInRun`). A removal keeps the counts in step with the
  holdings if and only if, for each listed identifier, the client holds enough of it or nobody else
  holds any (`TablesUpdateConserves`).
- *A client asks for what it holds.* The manager keeps a set and the receiver a multiset, so adding
  twice and removing once leaves a registration that is never served (`RepeatedAddIsForgotten`,
  `RepeatedAddIsForgottenInRun`). A removal keeps the two equal if and only if it lists each of its
  identifiers at least as often as it is held (`RemovalKeepsAskedExactly`); for clients that never
  add what they hold they are always equal (`AskedIsExactlyHeld`).
- *Every port is served.* Filters of every port are kept in port 5's tables
  (`PortSixSubscriptionIsNotServed`). A frame gets past the filters if and only if it was read on
  port 5 and its identifier is held or was left behind (`FrameIsMatchedExactly`).
- *Pausing lasts until the reply.* A flag that an order has raised stays up until its reply if and
  only if no other client's order comes to the step that clears it (`WorkPauseHoldsExactly`,
  `ReceivePauseHoldsExactly`). In `OverlappingOrderIsUnpaused` both flags are down while an order is
  about to update the index.
- *Overlapping orders leave what they would one after another.* The tables and the forward map always
  do, in the order of the table updates. The reverse index does if and only if no client that asked
  for something has hung up, since it was last rebuilt, while an order that had rebuilt it had not
  reached the tables (`RunIsSerial`). In the run of `HangUpBetweenUpdatesIsNotSerial` one has, and no
  other order of the same orders and the departure fits either. A departure can be swapped with
  another client's index update if and only if it asks for nothing or the update rebuilds nothing
  (`DepartureCommutes`).
- *The queue never exceeds its maximum.* By up to P - 1 with P producers (`CapacityBound`, reached by
  `CapacityBoundIsReached`); the daemon has one (`QueueNeverExceedsMaximum`).
- *A batch is decoded completely.* If and only if it has no frame of length zero (`BatchRoundTrip`);
  such a frame hides the ones after it (`EmptyFrameHidesTheRest`).
- *Receiving undoes the sender's byte swap.* One hop keeps an identifier if and only if it reads the
  same from both ends, two hops always do (`TwoHops`); 0x100 arrives as 0x10000 (`OneHopSwaps`).
- *Packages are read as written.* If no message is empty, if and only if every package begins and
  ends where a message does (`ReadAsWritten`). What follows the end of a package in the same message
  is lost (`SharedMessageLosesRest`), and nothing that is read later makes up for it (`LossIsFinal`).
  An empty message ends the session between two packages, and inside one it has the missing bytes
  taken as zero (`EmptyMessageEnds`).

## Model

| member | source | states |
|---|---|---|
| CanFrames.DlcIsLeastSufficient | include/can_ipc_layer/can_struct_define.h:113-137 | on every payload length a frame can have, the two DLC codings form a Galois connection: the code chosen is the least whose capacity covers the length |
| CanFrames.DlcValues | include/can_ipc_layer/can_struct_define.h:113-118 | the capacity of each code is the standard's: the code itself up to 8, then in steps of 4 up to 24, then of 16 up to 64, and 64 for any greater code |
| CanFrames.DlcRoundTrip | include/can_ipc_layer/can_struct_define.h:113-137 | a length is covered by its code exactly up to 64; going from code to bytes and back only clamps to 15 |
| CanFrames.BSwapReverses | src/core/can_ipc_sender.cpp:25-27 | the macro reverses the four bytes and is its own inverse |
| CanFrames.FrameRoundTrip | src/core/can_ipc_receiver.cpp:257-264 | decoding an encoded frame gives the byte-swapped identifier, the flags, the clamped DLC and the covered payload |
| CanFrames.NormaliseKeepsPayload | src/core/can_ipc_sender.cpp:115-118 | the bytes covered by the DLC survive and the rest of the buffer is zero |
| CanFrames.TwoHops | src/core/can_ipc_sender.cpp:101-118 | two hops restore the identifier; one hop does exactly for byte palindromes |
| CanFrames.OneHopSwaps | src/core/can_ipc_sender.cpp:101-118 | at a concrete identifier, one hop changes it |
| CanFrames.DecodePads | src/core/can_ipc_receiver.cpp:257-264 | a received frame has the identifier and type received, its bytes up to its length, zeros after it, and the least DLC that covers it |
| CanFrames.LivePrefix | src/core/can_ipc_receiver.cpp:251-254 | the decoded prefix stops exactly at the first frame of length zero |
| CanFrames.BatchRoundTrip | src/core/can_ipc_receiver.cpp:248-272 | decoding an encoded batch yields, in order, the normalised frames before the first DLC 0; all of them if and only if there is none |
| CanFrames.EmptyFrameHidesTheRest | src/core/can_ipc_receiver.cpp:251-254 | of two frames, the first with DLC 0, none is decoded; the second alone is |
| Packages.ParseFields | include/can_ipc_layer/can_struct_define.h:174-190 | the offset, width and byte order of every field, each data byte and each identifier |
| Packages.ParseSerialize | include/can_ipc_layer/can_struct_define.h:174-190 | a package survives being written as memory and read back |
| Packages.ReceivedImage | src/core/ipc_socket_controller.cpp:150-153 | every byte of what a client is written for a frame |
| Messages.GatherTakesFirst | src/core/ipc_socket_controller.cpp:226-249 | a reader gets the first n bytes that come before an empty message |
| Messages.GatherUsesFew | src/core/ipc_socket_controller.cpp:226-249 | it uses up no message that it does not need, so only the last one can lose bytes |
| Messages.GatherFails | src/core/ipc_socket_controller.cpp:226-249 | it fails exactly if the connection breaks before n bytes and no message is empty |
| Messages.StreamRoundTrip | src/core/ipc_socket_controller.cpp:274-286 | packages are read as written, however each is split into non-empty messages, if every package begins and ends where a message does |
| Messages.ReadAsWritten | src/core/ipc_socket_controller.cpp:226-286 | for any non-empty messages that carry the packages' bytes, the last with the magic code: the packages read are those written if and only if every package begins and ends where a message does |
| Messages.LossIsFinal | src/core/ipc_socket_controller.cpp:226-286 | once bytes are lost, later reads never give the packages that were written; the zero padding of a short read does not repair it |
| Messages.EmptyMessageEnds | src/core/ipc_socket_controller.cpp:234-243 | an empty message ends the session between packages; inside one the missing bytes are taken as zero and reading goes on after it |
| Messages.ShortPackageIsZeroFilled | src/core/ipc_socket_controller.cpp:275-281 | a connection that ends inside a package yields one whose missing bytes are zero |
| Messages.SharedMessageLosesRest | src/core/ipc_socket_controller.cpp:226-249 | what follows the end of a package in the same message is lost, wherever the package began |
| Packages.AckTraceIsExact | src/core/ipc_socket_controller.cpp:287-377 | one reply per ADD or REMOVE before the first bad magic code, in order, repeating the order's package but for the order, the status, OKAY exactly for non-empty lists, and the order replied to |
| Connections.Connection.Read | src/core/ipc_socket_controller.cpp:232-243 | on a SOCK_SEQPACKET socket (line 70): an interruption that changes nothing, the end, or the first bytes of the next message, whose excess is discarded |
| Connections.ReadFull | src/core/ipc_socket_controller.cpp:226-249 | for every sequence of messages and interruptions: the bytes that the messages yield, a failure, or what came before the end; the rest of the buffer and the later messages are untouched |
| FilterTables.RegisterAddsMultiset | src/core/can_ipc_receiver.cpp:118-131 | registering adds the list as a multiset |
| FilterTables.DeregisterSubtractsMultiset | src/core/can_ipc_receiver.cpp:161-182 | deregistering is truncated multiset difference |
| FilterTables.OrderIsIrrelevant | src/core/can_ipc_receiver.cpp:90-185 | both operations depend only on the multiset of listed identifiers |
| FilterTables.DeregisterUndoesRegister | src/core/can_ipc_receiver.cpp:90-185 | registering and then deregistering the same list restores both tables |
| FilterTables.FirstWriterWins | src/core/can_ipc_receiver.cpp:118-182 | after any history the stored filter is that of the earliest registration since the identifier's count was last zero, and there is one exactly if such a registration exists |
| FilterTables.ReplayCounts | src/core/can_ipc_receiver.cpp:118-182 | after any history both tables have the same keys, counts are at least 1 and equal the count computed from the history |
| FilterTables.RemovalTakesOwnShare | src/core/can_ipc_receiver.cpp:161-182 | a removal takes exactly the remover's share if and only if it holds enough of each identifier or nobody else holds any |
| Receivers.PortFilter.Register | src/core/can_ipc_receiver.cpp:118-131 | the two loops have exactly the multiset effect and never replace a filter |
| Receivers.PortFilter.Deregister | src/core/can_ipc_receiver.cpp:161-182 | the loop has exactly the truncated effect; its filter lookup never fails |
| Receivers.CanIpcReceiver.RegisterCanFilter | src/core/can_ipc_receiver.cpp:90-134 | error for a null list, an empty list or an unknown port; otherwise only that port's tables change |
| Receivers.CanIpcReceiver.DeregisterCanFilter | src/core/can_ipc_receiver.cpp:136-185 | the same for deregistering |
| Receivers.CanIpcReceiver.MatchCanFilter | src/core/can_ipc_receiver.cpp:187-213 | a frame is enqueued with its stored filter exactly if its identifier has one |
| Receivers.CanIpcReceiver.GetRawCanData | src/core/can_ipc_receiver.cpp:248-272 | the loop with its non-advancing continue offers exactly the decoded live prefix, in order, and stays inside the batch |
| Receivers.BatchAppendsMatchingPrefix | src/core/can_ipc_receiver.cpp:248-272 | a batch appends the longest prefix of its matching frames that fits into the queue |
| ClientIndex.InverseInverts | src/core/ipc_socket_controller.cpp:438-454 | the rebuilt index is the relational inverse of the forward map without empty buckets |
| ClientIndex.InverseIsUnique | src/core/ipc_socket_controller.cpp:438-454 | there is only one such index |
| ClientIndex.ClientManager.UpdateSocketClientReserveIndex | src/core/ipc_socket_controller.cpp:438-454 | the nested loops compute it from any earlier contents and in any iteration order |
| ClientIndex.ClientManager.ClientManagerRegister | src/core/ipc_socket_controller.cpp:404-417 | the client's set grows by the list (an empty list still leaves an entry) and the index is rebuilt |
| ClientIndex.ClientManager.ClientManagerDeregister | src/core/ipc_socket_controller.cpp:419-436 | nothing for an unknown client; otherwise the set shrinks, an empty entry is dropped, the index is rebuilt |
| ClientIndex.ClientManager.CleanSocketClientIndex | src/core/ipc_socket_controller.cpp:456-459 | only the forward entry goes |
| ClientIndex.DeregisterAfterRegister | src/core/ipc_socket_controller.cpp:404-436 | adding and removing the same list leaves what the client had minus the list, no empty entry, and an exact inverse |
| ClientIndex.RemovedFromTargets | src/core/ipc_socket_controller.cpp:419-436 | a REMOVE takes the client off the recipient list if and only if it had an entry or was not on it |
| ClientIndex.DisconnectedClientIsStillWrittenTo | src/core/ipc_socket_controller.cpp:379-381 | counterexample: a client that added an identifier and disconnected is still a recipient |
| WorkQueues.EnqueuedAllAppendsPrefix | src/utils/work_queue.cpp:26-44 | offering a list appends the longest prefix that fits, nothing once stopped |
| WorkQueues.CapacityIsTenThousand | src/utils/work_queue.hpp:56-57 | an empty queue takes ten thousand tasks and no more |
| WorkQueues.WorkQueue.Enqueue | src/utils/work_queue.cpp:26-44 | accepted exactly if there is room and the queue is not stopped |
| WorkQueues.WorkQueue.DequeueBlocking | src/utils/work_queue.cpp:46-62 | the oldest task, or none and no change once stopped |
| WorkQueues.WorkQueue.DequeueNonblocking | src/utils/work_queue.cpp:64-80 | the oldest task, or none and no change if stopped or empty |
| WorkQueues.WorkQueue.ClearQueue | src/utils/work_queue.cpp:82-91 | terminates with an empty queue |
| QueueThreads.EnqueueAlone | src/utils/work_queue.cpp:26-44 | check and push with nothing between them are the object's enqueue |
| QueueThreads.CapacityBound | src/utils/work_queue.cpp:26-44 | under every interleaving of P producers the length never exceeds the maximum plus P - 1 |
| QueueThreads.CapacityBoundIsReached | src/utils/work_queue.cpp:26-44 | for every set of producers some interleaving reaches that length |
| QueueThreads.RunsAreFifo | src/utils/work_queue.cpp:26-91 | accepted tasks are, in order, those that left and those still queued; without clears those that left were all handed out |
| QueueThreads.StopFreezes | src/utils/work_queue.cpp:26-106 | after stop nothing is accepted or handed out, and only a clear changes the contents |
| Routing.ChannelOfPort | src/core/can_ipc_layer_impl.cpp:135-173 | port p of the five is channel 5 + p, any other is channel 5, and the instance name is the one defined for that channel |
| Routing.ChannelIdentifiesPort | src/core/can_ipc_layer_impl.cpp:102-173 | two ports send through the same library instance exactly if they have the same channel number, exactly if they are the same or both mean port 5; a port is filtered where it sends exactly if it means port 5 |
| Controllers.IpcSocketController.AddFilter | src/core/ipc_socket_controller.cpp:303-338 | index and tables updated, the reply of an ADD written, both threads resumed |
| Controllers.IpcSocketController.RemoveFilter | src/core/ipc_socket_controller.cpp:339-371 | index and tables updated, the reply of a REMOVE written, both threads resumed |
| Controllers.IpcSocketController.HandleClient | src/core/ipc_socket_controller.cpp:270-383 | state and replies of a whole session as a function of the messages that arrive and of how the connection ends |
| Controllers.CanBus.SendCanData | src/core/can_ipc_sender.cpp:82-123 | exactly one frame is transmitted under the configured instance name and channel: reversed identifier bytes, type, the standard's length, that much payload and zeros, the time and a count of one; the library's code is returned |
| Controllers.SessionSends | src/core/ipc_socket_controller.cpp:295-302 | each SEND order served transmits exactly one frame, in order, with those fields, on channel 5 + p under its name for port p of the five |
| Controllers.SessionReplays | src/core/ipc_socket_controller.cpp:270-383 | a whole session replays its filter orders, whatever ports they name, onto the history of port 5's tables and touches no other port's |
| Controllers.HangUpKeepsCounts | src/core/ipc_socket_controller.cpp:379-381 | for every session: a client that hangs up has no entry left, and the counts are exactly those of its orders added to the history, so hanging up itself deregisters nothing |
| Controllers.IpcSocketController.SocketReceiveCallback | src/core/ipc_socket_controller.cpp:136-168 | a frame is written once to each client on its identifier's list, except negative descriptors, in the package of `ReceivedImage` |
| OrderEffects.ServeAsks | src/core/ipc_socket_controller.cpp:303-371 | after a package its client asks for what it did, with the first identifiers of the array, as many as counted, of an ADD and without those of a REMOVE; other clients for what they did |
| OrderEffects.ServeCounts | src/core/can_ipc_receiver.cpp:118-182 | port 5's count of an identifier moves by the times the order lists it, down to zero at most; no other port's tables change |
| OrderEffects.ServeFilters | src/core/can_ipc_receiver.cpp:118-182 | there is a filter exactly where the count is positive; a new one is for port 5, with the order's count, and writes to the sockets; old ones stay |
| OrderEffects.ServeSends | src/core/ipc_socket_controller.cpp:294-376 | a SEND transmits one frame and changes nothing else; an ADD or REMOVE transmits none; any other order changes nothing |
| OrderEffects.ServeRebuilds | src/core/ipc_socket_controller.cpp:404-454 | the reverse index is the exact inverse after an ADD and after a REMOVE of a client with an entry, and otherwise as before |
| OrderEffects.MessageIsServed | src/core/ipc_socket_controller.cpp:274-292 | a 224-byte message with the magic code is one package with the order of bytes 4 to 7, and the session goes on after it |
| OrderEffects.AddMessage | src/core/ipc_socket_controller.cpp:303-316 | the bytes of an ADD of one identifier make exactly its client ask for exactly it, and raise exactly its count, by one |
| OrderEffects.RemoveMessage | src/core/ipc_socket_controller.cpp:339-351 | the bytes of a REMOVE of one identifier undo that |
| OrderEffects.SendMessage | src/core/ipc_socket_controller.cpp:294-302 | which bytes of a SEND are which fields of the frame transmitted |
| OrderEffects.ReplyImage | src/core/ipc_socket_controller.cpp:318-333 | every byte of a reply against the message it answers |
| OrderEffects.SubscribeSession | src/core/ipc_socket_controller.cpp:270-383 | a session of two literal messages on a fresh server leaves exactly one subscription, one count of one, and one reply |
| DaemonOrders.OrderIsServed | src/core/ipc_socket_controller.cpp:303-371 | whatever both threads do and whoever arrives meanwhile, an order that no other order or departure comes between ends after seven turns with the controller's effect and reply, and both threads stay flagged paused from before its updates until it is answered |
| DaemonPause.FlagsStayUpExactly | src/core/can_ipc_receiver.cpp:277-377 | in every run a flag that is up stays up exactly until some client's order comes to the step that clears it |
| DaemonOrders.WorkPauseHoldsExactly | src/core/ipc_socket_controller.cpp:303-371 | from an order's pause of the worker until its reply the flag is up if and only if no other client's order comes to its resume |
| DaemonOrders.ReceivePauseHoldsExactly | src/core/ipc_socket_controller.cpp:303-371 | the same for the receive thread |
| DaemonOverlaps.OverlappingOrderIsUnpaused | src/core/ipc_socket_controller.cpp:303-371 | counterexample run: two orders overlap and both flags are down while the second is about to update the index |
| DaemonOrders.EveryOrderIsAnswered | src/core/ipc_socket_controller.cpp:303-371 | under every interleaving a client's answers are, in order, one for each order it submitted but the one pending, okay exactly for non-empty lists |
| DaemonOrders.EndsAreServed | src/core/ipc_socket_controller.cpp:287-292 | a bad magic code ends a session with every entry left in place; the end of the stream drops only the forward entry; neither deregisters |
| DaemonSerial.UpdatesCommute | src/core/ipc_socket_controller.cpp:404-436 | index updates of different clients commute, from any index |
| DaemonSerial.DepartureCommutes | src/core/ipc_socket_controller.cpp:419-459 | a departure commutes with another client's index update if and only if the client asks for nothing or the update does not rebuild |
| DaemonSerial.RunIsSerial | src/core/ipc_socket_controller.cpp:303-381 | however orders and departures overlap, tables and forward map are those of a serial execution in the order of the table updates; the reverse index if and only if nobody who asked for something hung up, since its last rebuild, while an order that rebuilt it had not reached the tables |
| DaemonSerial.EffectsAreTheOrders | src/core/ipc_socket_controller.cpp:303-371 | that serial execution has every order exactly once and each client's in the order of submission |
| DaemonSerial.RunIsControlled | src/core/ipc_socket_controller.cpp:270-383 | it is the controller's, package by package |
| DaemonOverlaps.HangUpBetweenUpdatesIsNotSerial | src/core/ipc_socket_controller.cpp:379-436 | counterexample run: a departure between another order's updates leaves what no serial execution leaves |
| DaemonIndex.RunKeepsIndex | src/core/ipc_socket_controller.cpp:404-459 | in every reachable state the reverse index is exactly the forward map plus the entries dropped by disconnects since the last rebuild |
| DaemonIndex.DeliveryIsExact | src/core/ipc_socket_controller.cpp:136-168 | every delivery of every run goes to exactly the current askers and those left-over clients; to exactly the askers if and only if there is none |
| DaemonIndex.UpdateMakesExactInverse | src/core/ipc_socket_controller.cpp:404-436 | after the index update of an ADD, or of a REMOVE by a client with an entry, the index is the exact inverse |
| DaemonIndex.RemovalIsFinal | src/core/ipc_socket_controller.cpp:339-348 | after a REMOVE by a client that has an entry or is not listed, no run writes the client a frame with the identifier until it adds it again, queued frames included |
| DaemonIndex.RemovalIsNotFinal | src/core/ipc_socket_controller.cpp:419-423 | after any other REMOVE the next callback with the identifier writes to the client |
| DaemonCounts.RunConserves | src/core/ipc_socket_controller.cpp:303-371 | over every run in which clients remove no more than they hold, port 5's table is the sum of the clients' holdings plus what departed clients left |
| DaemonCounts.CountIsSumOfHoldings | src/core/can_ipc_receiver.cpp:118-182 | the same as an equation for each identifier's count |
| DaemonCounts.TablesUpdateConserves | src/core/ipc_socket_controller.cpp:350-351 | one table update keeps that equation if and only if it is an ADD or takes, of each identifier, no more than held or only what nobody else holds |
| DaemonCounts.RunKeepsCovered | src/core/ipc_socket_controller.cpp:303-371 | in every run whatever a client asks for it holds, except while its ADD is between its two updates |
| DaemonCounts.FrameIsMatchedExactly | src/core/can_ipc_receiver.cpp:187-213 | in such runs a frame gets past the filters if and only if it was read on port 5 and its identifier is held by a client or was left registered |
| DaemonCounts.AskedIsFiltered | src/core/ipc_socket_controller.cpp:303-338 | in such runs an identifier that a client asks for has a filter once the client's ADD is complete |
| DaemonCounts.SubscribedFrameReachesQueue | src/core/can_ipc_receiver.cpp:187-213 | in such runs a port 5 frame that a client asks for is offered to the queue if and only if its ADD is complete or somebody holds the identifier already |
| DaemonCounts.AddOpensWindow | src/core/ipc_socket_controller.cpp:312-316 | between the two updates of an ADD of an identifier that nobody holds the client is listed and the filter is missing |
| DaemonCounts.UnfairRemovalStarves | src/core/ipc_socket_controller.cpp:347-350 | counterexample: a removal by a client that holds nothing starves another |
| DaemonCounts.OnlyPortFiveIsServed | src/core/can_ipc_layer_impl.cpp:102-133 | in every run only port 5 frames pass the filters, and every callback is the one that writes to sockets |
| DaemonHoldings.AskedIsExactlyHeld | src/core/ipc_socket_controller.cpp:303-371 | in every run in which clients add only what they do not hold, a client asks for exactly what it holds, give or take the order between its two updates |
| DaemonHoldings.RemovalKeepsAskedExactly | src/core/ipc_socket_controller.cpp:347-350 | for a client that asks for all it holds, a REMOVE leaves that so if and only if it lists each of its identifiers at least as often as it is held |
| DaemonHoldings.RepeatedAddIsForgotten | src/core/ipc_socket_controller.cpp:303-371 | counterexample: adding twice and removing once leaves a filter and a registration, and no delivery |
| DaemonExamples.ReusedDescriptorIsWrittenTo | src/core/ipc_socket_controller.cpp:379-436 | counterexample run: the second owner of a descriptor asks for nothing, removes the identifier and is its only recipient |
| DaemonExamples.PortSixSubscriptionIsNotServed | src/core/can_ipc_layer_impl.cpp:102-133 | counterexample run: a frame on port 6 that a client asked for on port 6 has no filter |
| DaemonExamples.FrameDuringAddIsDropped | src/core/can_ipc_receiver.cpp:350-377 | counterexample run: the thread is paused inside its sweep and drops a frame that the client already asks for |
| DaemonExamples.UnfairRemovalStarvesInRun | src/core/ipc_socket_controller.cpp:339-371 | counterexample run: client 8 removes what only client 7 has added |
| DaemonExamples.RepeatedAddIsForgottenInRun | src/core/ipc_socket_controller.cpp:303-371 | counterexample run: one client adds twice and removes once |
| DaemonPipeline.RunRefines | src/core/can_ipc_receiver.cpp:277-377 | every run of the daemon is a run of the shared queue with one producer, one consumer and no clears |
| DaemonPipeline.QueueNeverExceedsMaximum | src/utils/work_queue.cpp:26-44 | in every run the queue stays within its maximum |
| DaemonPipeline.DeliveryKeepsOrder | src/core/can_ipc_receiver.cpp:187-300 | accepted frames are, in order, those delivered, at most one dropped at the end, the one in flight and those queued; they are a subsequence of the frames that had a filter, and these of the decoded frames |
| DaemonPipeline.EveryClientSeesOrder | src/core/ipc_socket_controller.cpp:136-168 | in every run each client is written a subsequence of the decoded frames |
| DaemonPipeline.ReceiverAlone | src/core/can_ipc_receiver.cpp:248-272 | the receive thread alone, from a read to the next port, does to the queue what the receiver object's loop does |
| DaemonProgress.WorkerServesOne | src/core/can_ipc_receiver.cpp:277-299 | the free worker's next five steps take the oldest task and deliver it to those on its identifier's list |
| DaemonProgress.WorkerDrains | src/core/can_ipc_receiver.cpp:277-299 | the free worker delivers every queued task once, in order, and leaves the queue empty |
| DaemonProgress.SweepAlone | src/core/can_ipc_receiver.cpp:350-377 | the free receive thread reads the enabled ports in ascending order, offers the queue the matching frames of each, and is back at the top with one more sweep |
| DaemonProgress.SweepIsDelivered | src/core/can_ipc_receiver.cpp:248-377 | a sweep and then the worker deliver every matching frame once, in order, up to ten thousand of them |
| DaemonProgress.SubscribedFrameArrives | src/core/can_ipc_receiver.cpp:187-300 | after any run in which clients remove no more than they hold, a client whose ADD is complete is delivered the next frame with its identifier that port 5 reads |
| DaemonExamples.FirstSubscriptionArrives | src/core/ipc_socket_controller.cpp:303-338 | a run from the initial state: one client adds an identifier and the frame is delivered once, to it alone |
| DaemonProgress.WorkerOutsideWork | src/core/can_ipc_receiver.cpp:290-293 | the worker waits while the queue is empty, starts over on a stopped one, and drops a task that it gets after being told to end |
| DaemonProgress.ShutdownIsFinal | src/core/can_ipc_receiver.hpp:65-71 | once the receiver is destroyed, in every run no further callback starts, at most the running one finishes, and at most one more sweep |
| DaemonProgress.ThreadsEndAtTheTop | src/core/can_ipc_receiver.cpp:279-377 | a thread at the top of its loop ends with its next step if and only if it is told to, and stays ended |
| DaemonProgress.GatesFollowFlags | src/core/can_ipc_receiver.cpp:281-360 | a thread at its gate passes it with its next step if and only if it is not flagged paused, told to end or not |
| DaemonProgress.AbandonedIsForever | src/core/ipc_socket_controller.cpp:287-292 | a client that has sent a bad magic code is served no more in any run, and what it asks for and holds stays |
| DaemonPause.PausedWorkerStartsAtMostOne | src/core/can_ipc_receiver.cpp:277-300 | from a pause to the next resume the worker starts at most one more callback, and none unless it was past its gate |
| DaemonPause.PausedReceiverFinishesSweep | src/core/can_ipc_receiver.cpp:350-377 | from a pause to the next resume the receive thread finishes at most its sweep and reads each port at most once, in ascending order, and only enabled ones |
| DaemonPause.SweepReadsEveryEnabledPort | src/core/can_ipc_receiver.cpp:350-377 | whatever else happens, a sweep under way or yet to start has read, when finished, every port that was enabled before its turn |

## Left out

- Socket setup, the accept loop, signals and thread creation: arrivals and departures of clients are steps.
- The CAN hardware library: assumed to report no more frames than fit its buffer and at most 64 bytes a frame.
- Data races on the maps that the source does not lock: each map update and each dispatch is one atomic step. Pausing is a flag and excludes neither dispatches nor other clients during an update.
- Identifier counts above 32 in a package: the source reads past its list. Only the filter orders before the first bad magic code are required to keep to 32.
- Overflow of the int counters.
- The identifier pointer kept in stored filters, which dangles after the order: dropped from the stored filter.
- Failing writes to a client: they are only logged, so a delivery is the set of clients written to.
- WorkQueues.WorkQueue.DequeueBlocking: called once the queue is non-empty, which is what the source waits for, stopped or not; the wait itself is left to the step machines, where an empty queue blocks the step. Waking up after stop is not claimed.
- Controllers.IpcSocketController.AddFilter: a contract does not order the reply and the resume; `DaemonOrders.OrderIsServed` does.
- Controllers.IpcSocketController.RemoveFilter: as for AddFilter.
- `is_queue_empty`: the daemon never calls it.
- The server's running flag inside a session: `HandleClient` is a session while the server runs.
- Clocks: transmission times are a parameter.
- Byte order of the machine: packages are little-endian memory images with two padding bytes in the frame.
- Logging, configuration links, the send test, version generation and packaging.
