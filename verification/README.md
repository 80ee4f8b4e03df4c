# skyuv in Dafny

A model of skyuv's asynchronous core and proofs about all its runs. skyuv lets the skynet actor runtime do its
networking through libuv: worker threads queue commands, one loop thread drains them in batches and drives every
socket, and events come back through a poll. Beside it stand a small client runtime with its own I/O thread, a PID
file protocol, an aligned allocator, and a line reader for standard input.

`dafny verify dfyconfig.toml` checks everything.

## How it is built

**Server sockets.** `SocketEntries` is one socket as a value: every command and callback is a function from an entry
and an input to an entry and a list of actions (buffers accepted, submitted, completed, released; events; states
entered; handles closed). What libuv and the allocator answer is part of the input, so every outcome is covered.
`EntryTraces` folds a trace into a ledger and states the invariant between an entry and its ledger;
`EntryInvariants` proves that every operation keeps it. Ownership is followed for one arbitrary buffer, which stands
for all of them. `EntryTheorems` reads off what holds of whole lives (write order, one write in flight, pausing,
warnings, bytes). `EntryLimits` shows exactly where the deferred close falls short of what the documentation
promises. `SocketMachine` puts the entries into the runtime: slot table, command queue, batches, pump list, events,
exit and release, with API calls interleaving at every command boundary and with the ownership mark every command
carries until it is destroyed. `MachineInvariants` proves the global invariant for every step, `MachineTheorems` the
properties of runs.

The same code in its own form, objects updated in place: `LinkedQueues` (nodes with a head and a tail),
`SocketObjects` (an entry with its two linked write queues), `PumpLists` (entries linked through a field of their own),
`SlotTables` (the slot and generation arrays) and `SocketRuntime`, which puts them together with the linked command and
event queues. Each list is tied to a ghost sequence (linked in order, the tail is the last node and null exactly when the
list is empty, no node shared), and each method is proved to take exactly the steps of the machine named in its contract;
`RuntimeSteps` has those steps as relations. Methods of these objects that the table below does not list are the in-place
forms of the functions the listed theorems are about. `Seals` keeps the definition of a predicate folded where a proof
only passes it on. `SocketCompat` adds the skynet-facing send calls, `SocketIds`, `UdpAddresses` and `Bits` the
identifiers, the datagram addresses and the bit arithmetic.

The libuv contract is in `SocketEntries.Enabled` and `SocketMachine.CanStep`: a write or datagram request is answered
once and before the close callback of its handle, nothing is read or accepted after uv_close, and callbacks never run
inside the code that caused them. A run stops being continued once a handle has been closed twice, since libuv
promises nothing after that; `MachineTheorems.HandleClosedOnce` says exactly when this happens.

**Client.** `ClientMailbox` is the one-command mailbox between callers and I/O thread, `ClientRequests` the I/O thread's
request and handle bookkeeping, `ClientStreams` the bounded receive buffer, `ClientSelect` the select loop against the
I/O thread.

**PID file.** `PidProtocol` has any number of processes, each system call a step, with deaths at any point and an
outsider who may touch the PID path; `PidTheorems` has the guarantees.

**Allocator and standard input.** `HeapAllocator` (the Windows branch, with the header words as bytes in memory) and
`StdinLines`.

## Where code and documentation differ

The model follows the code.

- docs/plans/004-socket-semantics.md:193 says a close drains the TCP write queue first. It does so exactly when one
  write is outstanding (`EntryLimits.CloseDrainsOnlyOneWrite`); later ones are never submitted
  (`EntryLimits.WritesLost`, `EntryLimits.LosesOne`).
- The same document promises a single CLOSE per connection. A second one is reported exactly when a close, a shutdown or
  an end of stream meets a pending deferred close (`EntryLimits.CloseReportedOnce`).
- A write that finishes with a deferred close pending on an entry that is closing already passes the handle to uv_close
  again (`EntryLimits.SecondHandleClose`, `MachineTheorems.HandleClosedOnce`).
- The EXIT event can be handed out again after a late open call (`MachineTheorems.ExitEventRepeats`,
  `MachineTheorems.ExitHandedOutTwice`).
- A line of standard input that holds a zero byte is cut short there, and a line cut for its length right behind a carriage
  return loses it (`StdinLines.TextsAreContent`).
- The IPv6 flow label and scope of a sender are not part of its 19-byte address
  (`UdpAddresses.SenderRoundTrip`).

## Model

| member | source | states |
|---|---|---|
| `SocketIds.IdRoundTrip` | src/socket/socket_internal.c:1996-2025 | for every table size, slot and generation the identifier is positive, fits an int and decodes to that slot and generation |
| `SocketIds.IdRepeats` | src/socket/socket_internal.c:2004-2025 | two reservations of a slot get the same identifier exactly when a whole number of 32767-generation cycles lies between them |
| `SocketIds.GenerationAdvances` | src/socket/socket_internal.c:2004-2010 | the generation after any number of reservations, in closed form: 0 is skipped and 32767 wraps to 1 |
| `SocketIds.ProbesCoverTable` | src/socket/socket_internal.c:302-334 | the search looks at every slot exactly once, wherever it starts |
| `SocketIds.CursorSlot` | src/socket/socket_internal.c:302-309 | a 32-bit cursor that has wrapped still points at the slot an unbounded one would |
| `SocketIds.ScanComplete` | src/socket/socket_internal.c:302-334 | reserve_entry takes the first free slot in cursor order and fails exactly when the table is full |
| `Bits.PowerTest` | src/memory/memory.c:18-20 | the v & (v - 1) test accepts exactly the powers of two |
| `Bits.AndHighMask` | src/memory/memory.c:43 | masking with the complement of 2^k - 1 takes off the remainder by 2^k |
| `Bits.OrDisjoint` | src/socket/socket_internal.c:2023 | a shifted generation and a slot do not overlap: their union is their sum |
| `UdpAddresses.SenderRoundTrip` | src/socket/socket_internal.c:431-491 | the trailer found behind any payload is the sender's encoding and decodes to family, port and IP; the whole address comes back exactly when IPv6 flow label and scope are zero |
| `UdpAddresses.DecodeInverse` | src/socket/socket_internal.c:493-516 | decoding accepts exactly the encodings and is the inverse of encoding |
| `EntryInvariants.SendKeeps` | src/socket/socket_internal.c:896-963 | a SEND keeps the entry invariant and moves its buffer to one place: a queue, a datagram request, or released |
| `EntryInvariants.WriteDoneKeeps` | src/socket/socket_internal.c:557-589 | a finished write, in all its branches, keeps the invariant and releases exactly the write that finished |
| `EntryInvariants.PumpWriteKeeps` | src/socket/socket_internal.c:591-635 | pump_write keeps the invariant whichever queue it serves and whether or not uv_write accepts |
| `EntryInvariants.PumpTurnKeeps` | src/socket/socket_internal.c:1164-1176 | one turn of the pump loop keeps the invariant and schedules nothing |
| `EntryInvariants.CloseDoneKeeps` | src/socket/socket_internal.c:336-359 | the close callback releases everything the queues still hold, each buffer once |
| `EntryInvariants.PerformKeeps` | src/socket/socket_internal.c:336-1103 | every command and every callback keeps the entry invariant: legal trace, queues equal to what was accepted and not yet submitted, bytes balanced, the watched buffer in one place |
| `EntryTheorems.ClosingIsFinal` | src/socket/socket_internal.c:296-300 | CLOSING is absorbing over a whole life, and nothing is accepted, submitted or received in it |
| `EntryTheorems.HalfCloseOnlyCloses` | src/socket/socket_internal.c:407-429 | after a remote end of stream the only way on is CLOSING and no DATA follows |
| `EntryTheorems.NoDataWhilePaused` | src/socket/socket_internal.c:744-805 | between a processed PAUSE and any DATA event reading was started again |
| `EntryTheorems.TriedIsPrefix` | src/socket/socket_internal.c:591-617 | the writes of a priority handed to uv_write are a prefix of those accepted, in order |
| `EntryTheorems.LowYieldsToHigh` | src/socket/socket_internal.c:600-613 | a low-priority write is submitted only when every accepted high-priority write has been |
| `EntryTheorems.OneWriteInFlight` | src/socket/socket_internal.c:591-623 | between two submissions on a socket the first one completed |
| `EntryTheorems.QueuedMatch` | src/socket/socket_internal.c:570-583 | the bytes queued at any point of a life, recomputed from what was accepted, completed and refused |
| `EntryTheorems.WarningsDouble` | src/socket/socket_internal.c:940-951 | the n-th WARNING since the last recovery comes with at least 2^(n-1) MiB really queued and reports that queue in KiB; every zero WARNING follows a non-zero one |
| `EntryTheorems.EpochBound` | src/socket/socket_internal.c:940-951 | n warnings in one epoch need a peak of 2^(n-1) MiB queued in it, so there are at most 1 + log2(peak / 1 MiB) |
| `EntryTheorems.ByteAccounting` | src/socket/socket_internal.c:570-583 | queued bytes are those of both queues and the write in flight and never negative; written plus queued is everything accepted; the threshold is 2^n MiB after n warnings and 0 for an idle live entry |
| `EntryLimits.FurtherClose` | src/socket/socket_internal.c:1073-1103 | a step reports a second CLOSE exactly when it is a CLOSE, SHUTDOWN or end of stream on an entry whose deferred close is pending |
| `EntryLimits.CloseReportedOnce` | src/socket/socket_internal.c:1078-1087 | over a whole life CLOSE is reported at most once exactly when no such step occurs |
| `EntryLimits.SecondHandleClose` | src/socket/socket_internal.c:361-368 | an operation passes a closing handle to uv_close exactly when a write finishes with a deferred close pending, empty queues and the entry CLOSING by then |
| `EntryLimits.CloseIsDeferred` | src/socket/socket_internal.c:1073-1103 | a first close of a live TCP entry with queued bytes is deferred and leaves its writes as they are |
| `EntryLimits.CloseDrainsOnlyOneWrite` | docs/plans/004-socket-semantics.md:193 | in every continuation of a deferred close, a write that completes on the live handle closes it with everything accepted written exactly when a single write was outstanding at the close |
| `EntryLimits.DeferredSubmitsOne` | src/socket/socket_internal.c:584-588 | in every continuation of a deferred close at most one more write is submitted, and only if the entry was on the pump list |
| `EntryLimits.WritesLost` | src/socket/socket_internal.c:584-588 | of n writes outstanding at a deferred close at least n - 1 are never submitted, in any continuation |
| `EntryLimits.OpeningReaches` | src/socket/socket_internal.c:862-963 | a concrete life of bind, sends, pump and close leads to an entry with one or two writes pending and a deferred close |
| `EntryLimits.ClosesTwice` | src/socket/socket_internal.c:557-589 | that life, continued by a failing write, passes the handle to uv_close twice |
| `EntryLimits.ReportsTwice` | src/socket/socket_internal.c:1073-1087 | that life, continued by a second close, reports CLOSE twice |
| `EntryLimits.LosesOne` | src/socket/socket_internal.c:584-588 | that life with two writes, however continued, never submits one of them |
| `MachineInvariants.NextKeeps` | src/socket/socket_internal.c:1130-1177 | every step of the runtime (API call, command, pump turn, callback, accept, poll, release) keeps the global invariant |
| `MachineInvariants.InitOk` | src/socket/socket_internal.c:1309-1367 | the invariant holds after creation |
| `MachineInvariants.QuitKeeps` | src/socket/socket_internal.c:1105-1128 | processing EXIT keeps the invariant: afterwards every entry left is closing and the count is right |
| `MachineTheorems.Always` | src/socket/socket_internal.c:1130-1177 | the invariant holds in every state of every run |
| `MachineTheorems.BufferInOnePlace` | src/socket/socket_internal.c:1482-1523 | in every reachable state each accepted buffer is in exactly one place: a queued command, an entry, or released once |
| `MachineTheorems.AllReleasedAtEnd` | src/socket/socket_internal.c:1954-1994 | when the release has finished every accepted buffer has been released exactly once |
| `MachineTheorems.FailedSendKeepsBuffer` | src/socket/socket_internal.c:1482-1523 | a failed send of an OWNED buffer changes nothing, the refused command being destroyed with its flag turned; the copy of a BORROWED one is released exactly once; a successful send queues exactly one buffer |
| `MachineTheorems.StaleIdsMiss` | src/socket/socket_internal.c:277-285 | in every run an older identifier of a slot finds a socket exactly when the slot is occupied and a whole number of generation cycles has passed, so it misses for the next 32766 reservations |
| `MachineTheorems.LiveIdsDistinct` | src/socket/socket_internal.c:302-334 | a live socket is found by its own identifier and no two live sockets share one |
| `MachineTheorems.NoStrandedWrites` | src/socket/socket_internal.c:952-960 | while the loop waits the pump list is empty and every live entry with queued writes and no deferred close has a write in flight |
| `MachineTheorems.TracesAreLegal` | src/socket/socket_internal.c:336-1103 | in every run the trace of every socket is legal to its last action, freed sockets included, so the theorems about lives of entries apply to it |
| `MachineTheorems.EntriesMatchTraces` | src/socket/socket_internal.c:336-1103 | in every run the entry in a slot agrees with the ledger of its trace |
| `MachineTheorems.CallbackIntact` | src/socket/socket_internal.c:557-589 | a callback breaks the once-only rule of uv_close exactly in the double-close situation |
| `MachineTheorems.HandleClosedOnce` | src/socket/socket_internal.c:361-398 | no step of the runtime other than such a write callback closes a handle twice, and that one does |
| `MachineTheorems.ExitIsLastCommand` | src/socket/socket_internal.c:1253-1287 | EXIT is accepted at most once, is the last command ever queued, and closes the queue |
| `MachineTheorems.ExitSafety` | src/socket/socket_internal.c:222-231 | once EXIT is processed the entry count is the number of occupied slots, all of them closing, and EXIT is ready exactly when none is left |
| `MachineTheorems.ExitEventOnlyWhenDone` | src/socket/socket_internal.c:1916-1952 | the EXIT event is handed out only with no entry left and no event queued |
| `MachineTheorems.ExitCountsDown` | src/socket/socket_internal.c:336-359 | after EXIT or the start of a release each callback brings what libuv owes down by one, one is due while a socket is left, and at zero EXIT is ready or the release can finish |
| `MachineTheorems.NothingMoreOwed` | src/socket/socket_internal.c:1105-1128 | no step other than a callback changes what is owed |
| `MachineTheorems.ExitEventRepeats` | src/socket/socket_internal.c:370-382 | once EXIT was handed out a step makes it ready again exactly when it is a listen, connect, bind or udp call that gets memory for an entry |
| `MachineTheorems.ExitHandedOutTwice` | src/socket/socket_internal.c:1916-1952 | for every table size there is a run that hands EXIT out twice |
| `LinkedQueues.Queue.Push` | src/socket/socket_internal.c:1241-1251 | head and tail pointers and the links of the nodes: the new node is behind all others, the tail is the last node, and the tail of an empty queue is null |
| `LinkedQueues.Queue.Pop` | src/socket/socket_internal.c:1289-1307 | the oldest value; the rest stays linked in order, and an emptied queue loses its tail |
| `LinkedQueues.Queue.EmptyHead` | src/socket/socket_internal.c:1289-1307 | head and tail are null exactly when nothing is queued |
| `PumpLists.PumpList.Append` | src/socket/socket_internal.c:952-960 | the entry is linked behind the tail through its own field; each entry is on the list once |
| `PumpLists.PumpList.Pop` | src/socket/socket_internal.c:1164-1171 | the first entry leaves with its link cleared; the others stay linked in order |
| `SocketObjects.SocketEntry.TakeNext` | src/socket/socket_internal.c:599-617 | unlinks the head of the high queue, else of the low one, and leaves both well linked |
| `SocketObjects.SocketEntry.ReleaseQueue` | src/socket/socket_internal.c:342-349 | the loop releases every node of a queue from the front |
| `SocketObjects.SocketEntry.CloseCallback` | src/socket/socket_internal.c:336-359 | two loops over the links release both queues, each write once, the high one first |
| `SocketObjects.SocketEntry.Step` | src/socket/socket_internal.c:336-1103 | for every command and callback the linked entry ends up holding what the entry value does, with both queues well linked and sharing no node |
| `SlotTables.SlotTable.Find` | src/socket/socket_internal.c:277-285 | the slot of the identifier, if it holds that very entry |
| `SlotTables.SlotTable.Search` | src/socket/socket_internal.c:302-313 | the loop over slots returns what the reference search returns, cursor included |
| `SlotTables.SlotTable.Reserve` | src/socket/socket_internal.c:302-334 | one fresh entry object in the slot found, next generation, count up by one; every other slot as before |
| `SlotTables.SlotTable.Operate` | src/socket/socket_internal.c:336-1103 | an operation on the object in one slot leaves the objects, queues and nodes of all others alone; a freed one leaves its slot |
| `RuntimeSteps.MoveKept` | src/socket/socket_internal.c:1130-1177 | whatever step the runtime object takes, the invariant holds for every buffer afterwards |
| `SocketRuntime.Runtime.Create` | src/socket/socket_internal.c:1309-1367 | an empty runtime, in a state where the invariant holds for every buffer |
| `SocketRuntime.Runtime.Schedule` | src/socket/socket_internal.c:952-960 | the pump list gains the entry object of the slot, and every entry not on it has no successor |
| `SocketRuntime.Runtime.PopPump` | src/socket/socket_internal.c:1164-1171 | the first entry of the list, which is in the slot its identifier names |
| `SocketRuntime.Runtime.Deliver` | src/socket/socket_internal.c:336-1103 | one operation on the entry object of a slot with all its effects on events, pump list and exit flag is one delivery of the machine |
| `SocketRuntime.Runtime.Open` | src/socket/socket_internal.c:1384-1419 | reserve and submit, or give the slot back |
| `SocketRuntime.Runtime.ProcessExit` | src/socket/socket_internal.c:1105-1128 | the loop over all slots is the machine's exit step |
| `SocketRuntime.Runtime.TakeOne` | src/socket/socket_internal.c:1130-1163 | one command of a batch is one step of the machine and shortens the queue by one |
| `SocketRuntime.Runtime.PumpOne` | src/socket/socket_internal.c:1164-1176 | one pump turn is one step of the machine and shortens the list by one |
| `SocketRuntime.Runtime.ConsumeCommands` | src/socket/socket_internal.c:1130-1177 | a whole batch is a chain of machine steps, keeps the invariant, and ends with the head and tail of both lists null |
| `SocketRuntime.Runtime.AcceptConnection` | src/socket/socket_internal.c:658-691 | reserve, set up the new entry, report it on the listener: one step of the machine |
| `SocketRuntime.Runtime.BeginRelease` | src/socket/socket_internal.c:1954-1979 | every handle closed, every entry without one freed, slot by slot: one step of the machine |
| `SocketRuntime.Runtime.DestroyQueue` | src/socket/socket_internal.c:1221-1239 | the loop over the linked commands releases the buffer of every command that still owns one, in order |
| `SocketRuntime.Runtime.EndRelease` | src/socket/socket_internal.c:1983-1993 | the machine's last step, with the buffers it releases |
| `SocketCompat.SendBuffer` | src/socket/socket_server_compat.c:115-164 | a MEMORY buffer is given to the runtime or released, exactly one of the two; a RAW one stays with the caller; an object is released once and its copy given or released, unless the object interface is incomplete; a failed call leaves nothing queued |
| `SocketCompat.UdpSend` | src/socket/socket_server_compat.c:253-300 | the same for datagrams, objects included; an unknown address tag releases the buffer and reaches nothing |
| `ClientRequests.SafeAlways` | src/client/client_runtime.c:127-176 | no callback that needs the request of its connection finds none |
| `ClientRequests.NextKeeps` | src/client/client_runtime.c:98-294 | every command and callback keeps the invariant: handle counts, one place that answers the waiting caller, distinct identifiers |
| `ClientRequests.AnsweredOnce` | src/client/client_runtime.c:98-104 | in every run each request is completed once, refused once or waiting; one whose command returned an error is never completed |
| `ClientRequests.CommandOutcome` | src/client/client_runtime.c:178-245 | a command either refuses, completes at once or leaves its caller waiting |
| `ClientRequests.FreedByLastHandle` | src/client/client_runtime.c:106-118 | a connection leaves the list exactly in the close callback of its last handle |
| `ClientRequests.HandlesClosedOnce` | src/client/client_runtime.c:120-125 | in every run uv_close is called at most once on a handle, and exactly once on every handle of a connection that is freed |
| `ClientRequests.IdsIncrease` | src/client/client_runtime.c:172-193 | identifiers returned by connect strictly increase and listed connections have distinct ones |
| `ClientRequests.CallersAreAnswered` | src/client/client_runtime.c:247-265 | while a caller waits a callback is due, and every callback uses up some of what libuv still owes |
| `ClientStreams.NothingLost` | src/client/client_runtime.c:134-156 | in every run the bytes recv returned followed by the buffer are the bytes libuv delivered |
| `ClientStreams.AlwaysOk` | src/client/client_runtime.c:141-153 | the buffer never exceeds 64 KiB, and reading is on exactly while there is room and the stream has not ended |
| `ClientStreams.EndComesLast` | src/client/client_runtime.c:302-305 | end of stream or an error is reported only when everything delivered was handed over, and nothing follows |
| `ClientStreams.Receiver.Arrive` | src/client/client_runtime.c:134-149 | bytes go to the free end of the array; a full buffer stops reading |
| `ClientStreams.Receiver.Recv` | src/client/client_runtime.c:296-318 | copies from the front, moves the rest down in place, resumes a paused stream |
| `ClientSelect.NextKeeps` | src/client/client_lua.c:138-163 | every step of caller and I/O thread keeps: a passed-by socket that is ready now has been or is being announced |
| `ClientSelect.NoLostWakeup` | src/client/client_runtime.c:65-96 | whenever the caller sleeps with a watched socket ready, the notify that wakes it is still to run |
| `ClientSelect.ReadySocketIsFound` | src/client/client_lua.c:138-163 | a socket ready when the loop starts is returned, without sleeping, unless the time is up first |
| `ClientSelect.ReturnsReady` | src/client/client_runtime.c:424-433 | what select returns is ready and stays so until the caller acts |
| `ClientSelect.ReadyInExact` | src/client/client_lua.c:101-123 | a list is refused exactly when it names an unknown socket, and otherwise exactly its ready sockets are found, for reading and for writing |
| `ClientSelect.ReadyTable` | src/client/client_lua.c:101-123 | the loop finds the ready sockets of the list in order, for reading or for writing, skips negative entries and counts the others |
| `ClientSelect.SelectRound` | src/client/client_lua.c:138-163 | a round of select fails exactly on an unknown socket, returns exactly what is ready in the two lists, and gives up exactly when no entry names a socket and there is no timeout |
| `ClientMailbox.EachCallServed` | src/client/client_runtime.c:545-563 | while calls do not overlap every accepted command runs exactly once and in order, and every call returns the result of its own command |
| `ClientMailbox.OverlapMixesResults` | src/client/client_runtime.c:463-484 | from every state of every run, a call made while another waits has a continuation in which a caller gets the result of somebody else's command |
| `PidProtocol.ParseRender` | src/platform/daemon.c:107-111 | a complete PID file reads back as the number published |
| `PidProtocol.NextKeeps` | src/platform/daemon.c:22-158 | every system call of every process, every death, and every outsider's change of the PID path keeps the invariant |
| `PidTheorems.OneOwner` | src/platform/daemon.c:64-125 | for any number of processes and any interleaving with deaths at most one live process owns the PID file |
| `PidTheorems.OwnerHoldsLocks` | src/platform/daemon.c:44-62 | the owner has both files locked |
| `PidTheorems.PublishedUntilItLeaves` | src/platform/daemon.c:127-158 | a published file keeps its owner's number until that owner releases, republishes or dies; the PID path leads to it, to nothing, or elsewhere, as the last outsider left it |
| `PidTheorems.PathChanges` | src/platform/daemon.c:22-42 | the PID path changes only through an outsider, an owner's unlink, or creation under the coordination lock |
| `PidTheorems.UnlinkRemovesHeld` | src/platform/daemon.c:22-34 | in every run the unlink of a release hits somebody else's file if and only if the last outsider since the check put a replacement there, its own file exactly if no outsider came, and nothing exactly if the last one removed it |
| `PidTheorems.UnlinkHitsReplacement` | src/platform/daemon.c:26-28 | an outsider's replacement made in that window is unlinked |
| `PidTheorems.AcquireAlone` | src/platform/daemon.c:64-125 | an uninterrupted acquire succeeds exactly when both locks are free and the file names no existing process |
| `PidTheorems.WriteAll` | src/platform/daemon.c:139-148 | short and interrupted writes are continued; the file holds a beginning of the number, the whole of it exactly on success |
| `HeapAllocator.ExtraExact` | src/memory/memory.c:31-37 | for every size_t power of two the added bytes do not wrap around |
| `HeapAllocator.RoundsUp` | src/memory/memory.c:42-44 | the mask yields the first multiple of the alignment that leaves room for the header, without wrap-around |
| `HeapAllocator.FitsInside` | src/memory/memory.c:34-46 | header and user bytes lie inside the block, one after the other |
| `HeapAllocator.CallocCheck` | src/memory/memory.c:54-57 | the division test is exact: it refuses precisely the products that do not fit |
| `HeapAllocator.StoreReads` | src/memory/memory.c:45-46 | a word stored byte by byte is read back |
| `HeapAllocator.Disjoint` | src/memory/memory.c:42-47 | header and bytes of two live pointers never overlap |
| `HeapAllocator.HeadersSurvive` | src/memory/memory.c:84-92 | after any sequence of allocations, frees and stores by the program the words in front of a live pointer are the base and the size it was allocated with, and that block is still allocated |
| `HeapAllocator.InsertSound` | src/memory/memory.c:38-47 | a new block, filled and with its header written, leaves every other header and every other user byte alone |
| `HeapAllocator.UserWrite` | src/memory/memory.c:42-47 | stores into the bytes of one pointer leave every header alone |
| `HeapAllocator.Heap.Write` | src/memory/memory.c:42-47 | the program may store into every byte it was given |
| `HeapAllocator.Heap.Allocate` | src/memory/memory.c:22-48 | succeeds exactly when the checks pass and the heap answers; aligned, its header in memory in front of it, zeroed on request, others untouched |
| `HeapAllocator.Heap.Free` | src/memory/memory.c:84-92 | the base read from memory is that of the block allocated for the pointer, and exactly that block is freed |
| `HeapAllocator.Heap.Calloc` | src/memory/memory.c:54-59 | zeroed, and refused exactly on overflow or exhaustion |
| `HeapAllocator.Heap.Realloc` | src/memory/memory.c:61-82 | keeps the first min(old, new) bytes, the old size being read from memory; on failure the old block is untouched; others are untouched always |
| `StdinLines.FragmentsDoNotMatter` | src/client/client_stdin.c:61-76 | the pieces depend only on the byte stream, not on how reads fragment it |
| `StdinLines.PiecesCut` | src/client/client_stdin.c:69-78 | pieces join up to the stream, are at most 1023 bytes, hold a newline only at the end, and all but the last are complete |
| `StdinLines.CutIsUnique` | src/client/client_stdin.c:69-78 | there is only one such cut |
| `StdinLines.ReadInput` | src/client/client_stdin.c:55-84 | the nested loops over reads and bytes, with one line buffer, produce that cut |
| `StdinLines.TrimLoop` | src/client/client_stdin.c:33-35 | takes off all trailing newlines and carriage returns and nothing else |
| `StdinLines.RingIsQueue` | src/client/client_stdin.c:41-52 | in every run lines come out in the order admitted, at most 1023 wait, and the overflow flag is up exactly when an arriving line met a full ring |
| `StdinLines.StringStops` | src/client/client_stdin.c:113-116 | a text handed over is its line up to the first zero byte, and the whole line exactly if it has none |
| `StdinLines.NothingLostInSilence` | src/client/client_stdin.c:86-124 | as long as no flag is up the texts answered so far, followed by those of the waiting lines, are the texts of all lines offered, in order |
| `StdinLines.EofMeansAll` | src/client/client_stdin.c:113-122 | end of file is answered only when every line offered has been handed out and none was refused |
| `StdinLines.TextsAreContent` | src/client/client_stdin.c:33-40 | the texts of a stream joined are the stream without its line ends if and only if it holds no zero byte and no line is cut for its length between a carriage return and more of the line |
| `StdinLines.BiteIsLong` | src/client/client_stdin.c:71-74 | only a piece cut at 1023 bytes can lose a carriage return |
| `StdinLines.AnswersReproduceStream` | src/client/client_stdin.c:55-124 | the same for the answers of every run that has offered the whole stream and been read dry without a flag |
| `StdinLines.ZeroCutsLine` | src/client/client_stdin.c:113-116 | a run in which the bytes 65, 0, 66 are answered as one byte |
| `StdinLines.CutLosesReturn` | src/client/client_stdin.c:71-74 | 1022 bytes, a carriage return and one more byte lose the carriage return |
| `StdinLines.Ring.Offer` | src/client/client_stdin.c:33-53 | the arrays and indices implement the queue; only the arriving line is ever dropped |
| `StdinLines.Ring.ReadLine` | src/client/client_stdin.c:98-123 | takes the oldest line, else reports overflow before error before end of file |

## Left out

- libuv itself, sockets, name resolution and address parsing: their answers are inputs of the steps.
- Interleavings inside one listen, connect, bind or udp call, and weak memory: an API call is one step.
- Failure to allocate an event: the code drops the event silently; here events are always recorded.
- Wrap-around of byte counters, of the warning threshold and of the client's 64-bit revision: unbounded integers.
- Two sockets bound to one descriptor, socket names, timestamps, and the info snapshots: field copying without a deeper property.
- Process signals, log reopening and the shutdown event they raise.
- Argument checks on host names, ports and backlogs in the API calls: they return before anything happens.
- SocketRuntime.Runtime.ConsumeCommands: the object runs a batch without API calls in between; the machine interleaves them at every command.
- ClientRequests: connections are values in a sequence, so the linked list's update in place is not captured; one caller at a time, as the Lua client uses it.
- ClientRequests: splitting a send into parts of at most UINT_MAX bytes is not modelled.
- ClientMailbox: the stop flag that destroy raises; destroy runs when no call does.
- ClientSelect: the state machine of the waiting loop has readers only; write readiness changes through the caller alone, so no wake-up depends on it.
- PidProtocol: the coordination file is never removed, process numbers are not reused while their owner lives, and fork is not modelled.
- HeapAllocator: words are stored least significant byte first; the other platforms forward to their allocator.
- StdinLines: creating and joining the reader thread.
- Threads, dynamic loading, time, atomics, spinlock, launcher, configuration and benchmark code.
