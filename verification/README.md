# A verified model of the multiprocessor simulator

The simulator runs MIPS programs on many processors, either joined in a mesh
and exchanging messages (network mode) or sharing one memory over a bus
(shared memory mode). This project models the parts that make those machines
work and proves what they promise, for every mesh, every number of processors
and every run:

| files | part of the simulator |
|---|---|
| `Mesh`, `NetModel` | the mesh, its links and mailboxes, the communication operations, and the simulation cycle, as a state and its steps |
| `NetInvariant`, `NetOperate`, `NetRun` | the protocol invariant and its preservation by every step, phase, cycle and run |
| `NetTheorems`, `NetOrder`, `NetSmall`, `NetAlt`, `LoneMessage`, `Latency` | what follows for the users of the network |
| `NetProcessor`, `NetCounters` | what one processor sees of its cycles and runs: registers, operations, logs, and the counters printed at the end |
| `NetHeap` | link buffers chained through the messages and updated in place, with mailboxes and processor records as fields that are reassigned; each method is proved equal to the step of `NetModel` it carries out |
| `Bus` | the bus arbiter (a ring in place, refining a queue) and the cycle of all processors on it |
| `SharedMemory`, `Semaphore` | load-linked and store-conditional, and the two semaphore routines, instruction by instruction |
| `Ring`, `BoundedBuffer`, `Dining`, `RendezvousBuffer` | the client programs: semaphore bounded buffer, dining philosophers with a footman, bounded buffer over rendezvous |
| `Words`, `Indices`, `Sums` | machine words and division; node numbers and ring slots; sums over the processes of a system |

The network model has no program text: a processor is any program that issues
the communication operations through the library. The client programs are step
systems whose atomic steps are those the lower layers provide: a semaphore
operation is atomic by `Semaphore.StepAtomic`, and a rendezvous is the three
steps post, take, release by `NetTheorems.Rendezvous`. Data that the bounded
buffer touches between its lock and unlock is updated in one step, which is
justified by the mutual exclusion that `BoundedBuffer.Safety` proves.

`dafny verify dfyconfig.toml` checks everything.

## Assumptions

- The mesh has `y >= 1` and at most 65536 nodes, as node ids travel in 16 bits (net.h:44-45).
- Inputs and outputs name a node of the mesh, and an output never the node itself, for which there is no link (net.c:235-236, 421). The array of alternative clauses lies in memory, word aligned.
- Programs write the ST register only through the library.
- Allocation never fails.
- Mailboxes start empty. The array allocated at dstbmem.c:110 is not cleared, so this is an explicit initial condition.
- Reservations start with arbitrary values, as mem.c:74-108 leaves them.
- A processor on the bus keeps its number below the number of processors, and repeats a deferred access (its program text does not change).
- A memory is a whole number of words.
- Programs run on as many processors as they are written for (README:102-103).

## Where the code and its documentation differ

- README:88-91 gives an input 1 cycle and those it waits, which is what its counter grows by, and an output 2 cycles for each hop. The counter `waitout` of an output whose input is there in time grows by 2 d + 1 for d hops, as the executing cycle counts too (`Latency.ExactLatency`).
- producer-consumer.c:12 and d_producer-consumer.c:12 mean to refuse buffer sizes that are not powers of two. `MAXELEM & 2 != 0` is `MAXELEM & 1`, so only odd sizes are refused: a size like 6 compiles, and then a run with three items can give out item 2 first (`BoundedBuffer.SizeSix`). Both programs keep the order in every run exactly if the size is a power of two or the items are no more than the largest power of two dividing it (`BoundedBuffer.OrderExact`, `RendezvousBuffer.OrderExact`).
- The semaphore bounded buffer can deadlock with a single slot, and exactly then, if more than two items are produced (`BoundedBuffer.NeverDeadlocks`); a size of 1 is a power of two, which the check above happens to refuse.

## Model

| member | source | states |
|---|---|---|
| `Mesh.HopTargetExact` | net.c:505-540 | The 32-bit neighbour computation of `hop` answers "out of bounds" exactly at the edge of the mesh, and otherwise names the neighbour in that direction. |
| `Mesh.OppositeNeighbour` | net.c:509-530 | The link facing back from a neighbour leads back. |
| `Mesh.RouteMinimal` | net.c:405-422 | Following `guidance` from any node stays in the mesh, comes one step closer each time, and reaches the target after exactly the Manhattan distance. |
| `Mesh.RouteTurnsOnce` | net.c:405-422 | A route has at most one turn, and only from east to north, north to west, west to south or south to east. |
| `NetInvariant.HopInside` | net.c:535-540 | In every state of the protocol `hop` has somewhere to send any message it finds: its out-of-bounds warning never comes up. |
| `NetInvariant.FwdLinkInv` | net.c:442-483 | Every iteration of `fwd` keeps the protocol invariant. |
| `NetInvariant.HopLinkInv` | net.c:505-555 | Every iteration of `hop` keeps it. |
| `NetInvariant.AdvanceInv` | net.c:471-482 | Any move of a head message to the next place of its route keeps it: one token for each blocked sender, acknowledges ahead of later data, logs in agreement. |
| `NetOperate.MailIsData` | net.c:132-166 | What `input` and `alt` find in a mailbox is data for them from that sender, never an acknowledge. |
| `NetOperate.OperateInv` | net.c:575-602 | Executing the pending operation of a node keeps the invariant. |
| `NetOperate.CpuStepInv` | datapath.c:595-618 | So does a cycle of any processor, with any instruction the library allows; a blocked one executes nothing. |
| `NetRun.MailboxNeverFull` | net.c:463-469 | In a cycle of the network the "mailbox is full" branch of `fwd` is never taken, in whatever order the nodes are visited. |
| `NetRun.AckConsumed` | net.c:201-214 | After the operation of a node no acknowledge is left in its mailbox, so each is consumed in the cycle it arrives. |
| `NetRun.CycleInv` | dstbmem.c:196-212 | A whole cycle of the simulation keeps the invariant, and ends without acknowledges in mailboxes. |
| `NetRun.RunInv` | dstbmem.c:190-215 | So does every run of any programs. |
| `NetTheorems.OneToken` | net.c:196-257 | In every reachable state a node waits for an acknowledge if and only if one message in all links and mailboxes is its data to its correspondent or the acknowledge back, and there is exactly one; a stopped processor has no operation pending. |
| `NetTheorems.InFlightBound` | net.c:196-257 | There are never more messages under way than nodes. |
| `NetTheorems.Rendezvous` | net.c:185-265 | Exactly once and in order: what n has taken from m is a prefix of what m has sent to n, and completed outputs <= taken values <= sent values <= completed outputs + 1, with the last 1 exactly while m is blocked. |
| `NetTheorems.DeadlockReport` | net.c:201-220 | When an operation reports a deadlock it changes nothing, and either the alternative has no clauses or the two nodes are blocked outputting to each other with neither value taken. |
| `NetTheorems.DeadlockExact` | net.c:201-220 | Exactly these are reported: an alternative without clauses (net.c:298-302), and an output of such a pair that finds the data of the other in its mailbox. |
| `NetTheorems.DeadlockSound` | net.c:622-629 | A run ends with a deadlock report only in such a state, with both data messages under way. |
| `NetTheorems.StuckForever` | net.c:201-220 | Two nodes in that state stay in it through every further cycle, whatever the others do. |
| `NetTheorems.MailboxNeverFullRun` | net.c:463-469 | In no cycle of any run is a mailbox found full. |
| `NetTheorems.MailHops` | net.c:135-164 | Data reaches a mailbox with a hop count equal to its distance, and an acknowledge with twice the distance. |
| `NetTheorems.CleanFinish` | dstbmem.c:196-214 | `nrun` is always the number of running processors, and when it is 0 every link and mailbox is empty. |
| `NetOrder.LinkOrder` | net.c:442-483 | `fwd` and `hop` serve the links of a node in the order north, east, south, west. |
| `NetOrder.SweepAnyOrder` | net.c:618-633 | Each of the loops of `Net_execute` leaves the same buffers and processors in whatever order it visits the nodes. |
| `NetOrder.NetExecuteAnyOrder` | net.c:612-636 | The sequential network cycle is a parallel one: all visiting orders report a deadlock or none does, and without one they leave the same state. |
| `NetSmall.SmallNeverJams` | net.c:454-462 | In a mesh of at most LINK_BUFSZ nodes no link is ever found full by `fwd`, `hop`, `input`, `output` or `alt`. |
| `NetSmall.CycleCloser` | net.c:612-636 | There every cycle brings every message in the links closer to its target. |
| `NetSmall.SmallDelivers` | net.c:612-636 | There no message is in the links for more than 8 times its distance and 3 cycles. |
| `NetSmall.CycleDrains` | net.c:612-636 | There every cycle that starts with a message in a link lessens the total of the moves that the messages already in links still have to make. |
| `NetSmall.MailReports` | net.c:201-220 | On any mesh, two nodes blocked outputting to each other, with the data of one in the mailbox of the other, are reported as a deadlock in the next cycle. |
| `NetSmall.DeadlockComplete` | net.c:622-629 | On such a small mesh every such deadlock is reported: no legal run from it has more than 8 times the distance of the two nodes plus 4 cycles without a report. |
| `NetAlt.ScanNearest` | net.c:311-330 | The search of `alt` finds the listed sender with mail that is nearest behind the round-robin mark, and fails only if there is none. |
| `NetAlt.AltFair` | net.c:311-333 | A sender listed and waiting until it is chosen is chosen within as many executions as there are nodes, and no other sender is chosen twice before it. |
| `NetAlt.AltChoice` | net.c:311-391 | An executed alternative chooses a listed sender with mail, if there is one, and leaves the mark just behind it, or moves the mark on by one; unless there is no room for the acknowledge it takes the value of that sender and reports the sender in K1. |
| `NetAlt.AltAnswer` | net.c:298-391 | All answers of an executed alternative: a deadlock without clauses; with no mail from a listed sender, done with -1 in K1 and no operation if its last clause is negative, and otherwise to be tried again with nothing changed but the mark; with such mail but a full link for the acknowledge, no buffers, the message staying in its slot; and else done, with the slot emptied. |
| `NetAlt.CycleMark` | net.c:333 | In a cycle only an executed alternative changes the round-robin mark of its node; a processor ends the cycle as its own operation on the snapshot after `fwd` leaves it. |
| `NetAlt.AltFairRun` | net.c:311-391 | The same fairness over the alternatives that a node executes in a legal run from any reachable state: a sender that is listed and has mail at each of them until it is chosen is chosen within as many as there are nodes, and the choices up to then are all different, each taken and reported unless there is no room for its acknowledge. |
| `NetProcessor.CycleParts` | dstbmem.c:196-212 | A cycle is three things to a processor: its instruction, the mail that `fwd` counts, and its own operation on the state after `fwd`. |
| `NetProcessor.CycleCommands` | datapath.c:595-618 | An idle processor does what its instruction says: it computes, begins an input, output or alternative, or stops; a blocked one keeps its registers and its operation, and its logs only grow. |
| `NetProcessor.OperateDoes` | net.c:575-602 | Executing its pending operation a node takes one value from the correspondent of its input or a listed sender, adding its distance to HOPS, or sends the DATA register to the correspondent, or completes its output, or changes nothing but the registers of its alternative. |
| `NetProcessor.InputAnswer` | net.c:110-168 | All answers of an executed input: to try again while its slot is empty, no buffers while the link for its acknowledge is full, and else done. |
| `NetProcessor.OutputAnswer` | net.c:186-265 | All answers of an executed output: no buffers while its link is full, else it sends; then to try again while its slot is empty, done with an acknowledge, a deadlock with data. |
| `NetProcessor.ProgramsCommunicate` | datapath.c:595-618 | In every run, a program that sets CORR to r and DATA to v and executes an output sends v to r before any other value, or still waits for room on its link; one that executes an input takes its next value from r, or still waits. |
| `NetCounters.HopsExact` | net.c:153-155 | In every run the HOPS register of a processor is what it started with plus the distance of the sender of each value it has taken, modulo 2^32. |
| `NetCounters.MailExact` | net.c:476-481 | In every run the NMSG register is what it started with plus the messages that have come to the node (values taken, acknowledges that completed its outputs, and what is in its mailbox), modulo 2^32; the mailbox counter is the same without the modulus. |
| `NetCounters.WaitsExact` | datapath.c:606-618 | In every run `waitin`, `waitout` and `waitalt` each grow by one in exactly the cycles in which the processor executes or is blocked in an input, output or alternative. |
| `NetCounters.StoppedStays` | datapath.c:385-391 | WAIT stops an idle processor, and a stopped one stays as it is but for the mail counted for it (datapath.c:595-597). |
| `NetCounters.CyclesCounted` | dstbmem.c:205-207 | The cycle count is the number of cycles run. |
| `LoneMessage.FwdStep` | net.c:442-483 | A fwd phase takes the only message of the network to the next place of its route and leaves all else alone but the mail counters. |
| `LoneMessage.HopStep` | net.c:505-555 | So does a hop phase, which counts the hop. |
| `LoneMessage.OperateParallel` | net.c:622-629 | Without a deadlock report the operate loop leaves each node what its own operation on the snapshot makes of it. |
| `Latency.CycleFlies` | dstbmem.c:196-212 | A cycle takes a lone rendezvous exactly one link on, into the input or alternative that waits for it, or out of the output. The other nodes may wait in and execute inputs and alternatives, but no output and no alternative without clauses; so may the receiver once it has received, and before that it computes or waits for the sender. |
| `Latency.ExactLatency` | datapath.c:606-618 | Over distance d, sent in cycle 0 into an empty network to an input, or alternative without default, that first waits in cycle r, the value is taken in cycle T = max(d, r) and not before, with `waitin` of an input, or `waitalt` of an alternative, grown by T - r + 1 and the other one not; the output is released in cycle T + d with `waitout` grown by T + d + 1, and the network is empty then. The receiver only computes before cycle r. The other nodes, and the receiver after cycle T, may wait in and execute inputs and alternatives meanwhile, but no output and no alternative without clauses. |
| `Latency.ScenarioOccurs` | datapath.c:595-618 | Such a rendezvous occurs: with an alternative at a neighbour and a third node already waiting in an input from the sender. |
| `NetHeap.Link.Insert` | net.c:49-67 | The linked list chains the caller's message at its tail if and only if it holds fewer than LINK_BUFSZ, and is otherwise unchanged. |
| `NetHeap.Link.Remove` | net.c:78-92 | The linked list unchains its first message, hands it over and keeps the others in order; it answers null exactly if it is empty. |
| `NetHeap.Network.constructor` | dstbmem.c:64-137 | The network built around given empty links is the initial state of the model. |
| `NetHeap.Network.Create` | dstbmem.c:64-137 | So is the one built with the links of all its nodes, none shared. |
| `NetHeap.Network.FwdLink` | net.c:442-483 | An iteration of `fwd` on the linked lists and mailboxes is the step of the model. |
| `NetHeap.Network.HopLink` | net.c:505-555 | An iteration of `hop` on the linked lists is the step of the model. |
| `NetHeap.Network.Input` | net.c:110-168 | `input` in place is the step of the model, with the same result. |
| `NetHeap.Network.Output` | net.c:186-265 | `output` in place is the step of the model, with the same result. |
| `NetHeap.Network.Search` | net.c:311-330 | The search loop of `alt` ends and answers what the recursive search of the model does. |
| `NetHeap.Network.Alt` | net.c:283-392 | `alt` in place is the step of the model, with the same result. |
| `NetHeap.Network.CpuStep` | datapath.c:595-618 | The processor's cycle in place is the step of the model. |
| `NetHeap.Network.Execute` | net.c:612-636 | The three loops over all nodes in place are the network cycle of the model, up to the first deadlock report. |
| `NetHeap.Network.Cycle` | dstbmem.c:196-212 | The simulation cycle in place is the cycle of the model. |
| `Bus.Arbiter.constructor` | mem.c:74-109 | The arbiter starts as an empty queue. |
| `Bus.Arbiter.Busacc` | mem.c:175-221 | The ring with its linear search, enqueue and grant behaves as a duplicate-free first-in first-out queue: no waiting processor is overwritten or lost; a single processor is always granted. |
| `Bus.CycleServes` | shrmem.c:46-56 | A cycle takes all new requests into the queue in the order of the processors and serves exactly one processor, the first in line; it serves none only if none is in line. |
| `Bus.OneGrantPerCycle` | shrmem.c:46-56 | A cycle serves one processor if any executes a memory instruction, and none otherwise. |
| `Bus.FirstComeFirstServed` | mem.c:196-216 | At every time the requests made are those granted, in order, followed by those waiting, in order; the waiting processors are those whose access was deferred. |
| `Bus.WaitExact` | mem.c:196-216 | The i-th in line is served exactly i cycles later, and is deferred in each cycle before. |
| `Bus.WaitBound` | datapath.c:649-653 | A memory access first attempted in cycle t by one of n processors is granted no later than cycle t + n - 1. |
| `Bus.WaitTight` | mem.c:196-216 | The bound is met: when all attempt an access in one cycle, the last waits n - 1 cycles. |
| `Bus.CountersExact` | datapath.c:441-546 | In every cycle a processor counts an attempt exactly if it executes a load or store, a deferred one again in every cycle until it is granted; a deferral exactly if it asks for the bus and is not granted it; and a terminal access exactly if it executes one. WAIT stops it (datapath.c:385-391). |
| `Bus.StoppedStays` | datapath.c:595-597 | A stopped processor stays as it is, counters included. |
| `Bus.Utilisation` | datapath.c:441-546 | The bus utilisation is the number of loads and stores attempted less the deferred ones and those to the terminal. |
| `Bus.Machine.SimCycle` | shrmem.c:46-56 | The loop over processors in place is the cycle of the model. |
| `SharedMemory.Mem.StoreWord` | mem.c:330-352 | Storing drops all reservations of the address, whether or not the address is usable, then checks it and writes. |
| `SharedMemory.Mem.LoadLinked` | mem.c:372-395 | Load-linked checks the processor, reserves the address, then checks it and reads. |
| `SharedMemory.Mem.StoreConditional` | mem.c:414-444 | Store-conditional checks the processor and its reservation, drops all reservations of the address, then checks it and writes, with the errors in that order. |
| `SharedMemory.AddressExact` | mem.c:299-444 | Which addresses are usable: every multiple of 4 below the size of the memory, the last word included, answers with its word; an address at or past the end is refused with EADDRNOTAVAIL, aligned or not, and any other with EFAULT. Load-linked and store-conditional first check the processor number (EOVERFLOW), and store-conditional then the reservation (EAGAIN), in both cases changing nothing. |
| `SharedMemory.StoresReadBack` | mem.c:299-444 | A store that succeeds is what the next load of its address returns and no other load sees it; a failed one changes no word; a store drops all reservations of its address, and a refused store-conditional changes nothing. |
| `SharedMemory.ReservationMeans` | mem.c:330-444 | A processor holds a reservation exactly if nothing has written to the address since its last load-linked, which was of that address. |
| `SharedMemory.StoreConditionalAfterLink` | mem.c:414-444 | After a load-linked, the same processor's store-conditional fails exactly if it is to another address or the address was written in between; when it succeeds the word was still the one load-linked returned. |
| `Semaphore.StepAtomic` | examples/src/libsem/Sem_P.s:8-20 | Under every interleaving of instructions each step is nothing, an atomic decrement of a value that is positive as a signed number, an atomic increment, or a plain store; a decrement or increment is exactly a successful store-conditional. Processors outside the two routines may do any memory operation but a store-conditional on the semaphore word. |
| `Semaphore.Conservation` | examples/src/libsem/Sem_V.s:8-15 | In every such interleaving the word is the initial value, or the last one a plain store gave it, plus the increments completed since less the decrements, never negative, and exact unless the increments overflow 32 bits; a routine that returned has done its work exactly once. |
| `Semaphore.AloneP` | examples/src/libsem/Sem_P.s:10-17 | Undisturbed, Sem_P takes one unit and returns if the word is between 1 and 2^31, and otherwise is back at its load-linked with nothing changed. |
| `Semaphore.AloneV` | examples/src/libsem/Sem_V.s:8-15 | Undisturbed, Sem_V adds one and returns. |
| `Semaphore.PassExact` | examples/src/libsem/Sem_P.s:11-17 | Whatever other processors do between the load-linked and the store-conditional of a pass, the pass stores exactly if none of them has written to the word and, for Sem_P, the word is between 1 and 2^31; the word is then still the one loaded, and becomes one less for Sem_P and one more, round 2^32, for Sem_V. Otherwise the pass changes nothing. |
| `Semaphore.PassesOnce` | examples/src/libsem/Sem_P.s:10-17 | Over all its passes a routine stores at most once, in the pass it ends with, and until then the memory is what its load-linked instructions and the other processors make of it. |
| `Semaphore.SemP` | examples/src/libsem/Sem_P.s:10-17 | The retry loop on the memory in place, with any operations of other processors in each pass and from any word, is done exactly if some pass stores; it has then taken one unit from a word between 1 and 2^31, once, and the rest of the memory is what the others made of it. |
| `Semaphore.SemV` | examples/src/libsem/Sem_V.s:8-15 | The same loop of Sem_V has added one unit, once. |
| `Ring.MaskIsModulo` | examples/src/producer-consumer.c:52-69 | Masking an index with MAXELEM - 1 is the remainder by MAXELEM if and only if MAXELEM is a power of two. |
| `Ring.KeepsFirstItem` | examples/src/producer-consumer.c:52-69 | A buffer filled with any number of items up to its size still has the first one at its head if and only if the size is a power of two. |
| `Ring.EnqueueHolds` | examples/src/producer-consumer.c:52-57 | With room, `enqueue` adds an item at the tail of the queue the buffer holds; there is room up to the largest power of two that divides the size, the whole size if it is one. |
| `Ring.DequeueHolds` | examples/src/producer-consumer.c:60-69 | With an item, `dequeue` returns the head of the queue and leaves the rest. |
| `Ring.Queue.Put` | examples/src/producer-consumer.c:52-57 | `enqueue` on the array in place does so. |
| `Ring.Queue.Take` | examples/src/producer-consumer.c:60-69 | `dequeue` on the array in place does so. |
| `BoundedBuffer.Safety` | examples/src/producer-consumer.c:72-145 | In every run, with a buffer of any size: mutual exclusion; the count stays within bounds and no enqueue meets a full buffer; each item is taken by one consumer; and the consumers waiting in EMPTY are nempty + empty. With a size that is a power of two the items taken are 0, 1, 2, ... in order. |
| `BoundedBuffer.NeverDeadlocks` | examples/src/producer-consumer.c:79-97 | With at least one consumer, no run deadlocks if and only if MAXELEM >= 2 or MAXVAL <= 2, despite the unsignalled enqueue after FULL. |
| `BoundedBuffer.RunsEnd` | examples/src/producer-consumer.c:72-145 | No run takes more than 20 steps for each item and 10 for each consumer, and 8. |
| `BoundedBuffer.Delivers` | examples/src/producer-consumer.c:72-145 | With at least one consumer, and MAXELEM >= 2 or MAXVAL <= 2, a run that cannot go on has handed MAXVAL items to one consumer each, 0, 1, 2, ... in order if the size is a power of two, and all processes have stopped. |
| `BoundedBuffer.OrderExact` | examples/src/producer-consumer.c:10-14 | With at least one consumer, the items come out as 0, 1, 2, ... in every run if and only if MAXELEM is a power of two or MAXVAL is at most the largest power of two that divides it. |
| `BoundedBuffer.SizeSix` | examples/src/producer-consumer.c:10-14 | With six slots and three or more items some run takes item 2 first. |
| `Dining.OneHolder` | examples/src/dining-philosophers.c:50-61 | In every run each fork has at most one holder and is free exactly if it is laid out and has none; the footman's count is PHILOS - 1 less those at the table. |
| `Dining.NeverDeadlocks` | examples/src/dining-philosophers.c:33-61 | The philosophers never deadlock, while forks are still being laid out or later, if and only if there are at least two of them or no ideas to get. |
| `Dining.EverybodyEats` | examples/src/dining-philosophers.c:50-61 | Every run ends, a run cannot go on exactly after PHILOS * (6 * IDEAS + 1) steps, and then everybody has eaten IDEAS times and all forks are back. |
| `RendezvousBuffer.Safety` | examples/src/d_producer-consumer.c:64-95 | In every run, with a buffer of any size, the buffer process never dequeues when empty or enqueues when full, and its replies are MAXVAL items, 0, 1, 2, ... in order if the size is a power of two, and then -1, never twice to the same consumer. |
| `RendezvousBuffer.NeverDeadlocks` | examples/src/d_producer-consumer.c:64-121 | With at least one consumer, until all programs have ended and every consumer has been told -1, some step other than a poll in vain is possible. |
| `RendezvousBuffer.RunsEnd` | examples/src/d_producer-consumer.c:64-121 | A run takes at most 13 steps for each item and consumer, and 8, besides two for each poll in vain. |
| `RendezvousBuffer.OrderExact` | examples/src/d_producer-consumer.c:10-14 | With at least one consumer, the replies are 0, 1, 2, ..., MAXVAL - 1 and then -1 in every run if and only if MAXELEM is a power of two or MAXVAL is at most the largest power of two that divides it. |

## Left out

- Loading ELF files, options, the terminal and the CSV output: input and output only.
- Instruction decoding and arithmetic: a processor of the model may execute any of the operations that matter to the network or the bus at any time.
- The per-link utilisation counters, the operation counters (nin, nout, nalt, rmwfail and the timed counters) and the warnings: nothing reads them.
- The data of an acknowledge is left unset by the program and read by nobody; it is 0 here.
- The array of alternative clauses is part of the processor's state, with Mem_getptr and the memory it points into left out.
- Mailboxes hold message values, where the program keeps the pointer; and the links are objects in one map, where the program has them inside the nodes.
- NetHeap.Network.constructor: takes its links from the caller; `NetHeap.Network.Create` allocates them.
- Deadlock of full link buffers in meshes of more than LINK_BUFSZ nodes: the four permitted turns form a cycle, so no general freedom from it is claimed.
- Latency.ExactLatency: a receiver that polls with non-blocking alternatives, where the cycle of the first successful poll would take the place of r.
- The pthread lock of Mem_busacc: the simulator has one thread.
- The count of running processors in shared memory mode, which follows that of network mode.
- Byte stores: they do not drop reservations, so programs that store bytes into semaphore words are outside the results on semaphores.
- Semaphore.SemP: the two CT0 instructions around the loop, which switch a performance counter on and off.
- Fairness between processors that contend for one semaphore: the routines have none.
- The second versions of the two producer-consumer programs, which drop or invent items, and the message-passing philosophers, which repeat the ring argument for five processes.
