# A verified model of the greenlet tracer

The repository traces Python function calls without holding up the traced program: every
call and return is formatted into a slot of a ring buffer shared by all threads, and one
dump thread writes the slots out. This project models the five parts of it that carry an
invariant, and proves what they keep over every run.

**The ring buffer** (`RingProtocol`, the other `Ring` modules and `TraceDump`). Any number of producers and one
consumer, as a step machine with one program counter per thread: each access to `head`, a
`busy` or `has_data` flag, a counter or a message is one step. A run (`IsRun`) is any sequence
of such steps from the constructor's state, so "in every interleaving" is "for every run", and
the theorems hold at every point of it. The fields of `History` are read by no step. The
theorems cover mutual exclusion, progress of lock holders, ticket arithmetic through masking
and word wrap, conservation of everything written, exactly when messages are one reservation's
text and leave in ticket order, overflow accounting and draining. `TraceDump` has the consumer's methods on arrays and ties them to the step machine.

**uthash and the LRU on top of it** (`UtHash`, `UtHashSort`, `UtHashFsck`, `Lru`,
`LruHistory`, `TraceLevelCache`). Nodes threaded by two doubly linked structures, changed
through their pointers, with bucket doubling and the in-place merge sort. `HashTable.Valid`
is the invariant that `HASH_FSCK` tests, and more: it also says which bucket a node is in.

**The greenlet tracer** (`TracerSpec`, `Tracer`, `TracerRuns`, `TracerHistory`, `TracerSuspend`,
`TracerResume`, `TracerBrackets`, `TracerStray`). `TracerSpec` says what should be logged in
terms of each greenlet's stack of frames and their levels. `Tracer` has the code's counters,
the last-frame shortcut and the single `no_trace_from_depth` integer, and is proved to log
exactly that. While tracing is suspended the integer stands still and the stacks do not: the
last four modules say when it is right afterwards, which lines it can spoil, and that it is
right again after `suspend_tracing`, `resume_tracing` and the context manager in one greenlet.

**The truncating serializer** (`TraceMessage`, `ReprSpec`, `Serializer`, `ReprTheorems`,
`ReprNul`, `ReprCut`). A byte buffer with limits and rewinds, and the mutually recursive
writers over object graphs that may be cyclic. Each method is proved to append what a
function of the object and the room appends. The theorems say what that is, for every object
and every room.

**The syslog sender** (`Framing`, `SyslogSocket`). Octet counting as in section 3.4.1 of
RFC 6587, with the kernel's answers as parameters.

Loops that the source writes as macros or inline are sometimes a method of their own here,
because each is proved on its own. Parameters marked `ghost` do nothing at run time.

## Where the code and its documentation part

- The design notes say that an overrunning producer replaces the old message
  (`trace_message_ring_buffer.h:97-99`). `reserve_push` does not recycle the slot, so the new
  text is added after the old one, and can overtake a message that was written before it
  (`OverrunKeepsOldText`). "Lost N messages" counts exactly the reservations added to an
  earlier one's text (`OverrunsAreGluedOn`). A message is one reservation's text, for all of
  them, if and only if there were no overruns (`OneReservationEach`), and messages leave in ticket
  order if and only if, besides, each slot's lock was taken in ticket order (`FifoExactly`).
- The default filter is documented as tracing everything. It answers `True`, which is 1,
  which is `NO_TRACE_NESTED`, so nothing is logged: `DefaultFilterLogsNothing`.
- `printf` reports a text exactly as long as the room as written, although its last
  character became a NUL that hides what follows from C. `LeafNul` and `ListNul` say exactly
  when.
- Two keys that agree in their low four bytes are one key to the hash tables. Every run over
  a set of code objects is given the filter's own levels if and only if the filter gives those
  that share these bytes the same level (`RightExactlyWhenKeysRespected`). In a run with both,
  the second is given the first one's level unless that was evicted in between.
- A resume trusts integers that stood still while stacks changed. All that follows it is logged
  as it should be if and only if they stand for the stacks, unless nothing is logged at all
  (`ResumeExactly`), and whether they stand is a matter of levels (`ResumeByLevels`). When one greenlet suspends and another runs meanwhile they may
  not: `LineTooMany` and `LinesLost`.
- Overruns are reported in full exactly when no increment falls between the load and the
  store of `get_and_reset_overflow_counter` (`OverflowAccounting`), and sometimes one does
  (`OverrunNeverReported`).

## Model

| member | source | states |
|---|---|---|
| Words.AndMask | src/infi/tracing/trace_message_ring_buffer.h:183-184 | Masking with a power of two less one is reduction modulo that power, for every word |
| RingSteps.InitInv | src/infi/tracing/trace_message_ring_buffer.h:149-167 | The constructor's state satisfies the invariant |
| RingSteps.StepKept | src/infi/tracing/trace_message_ring_buffer.h:177-260 | Every step of every thread keeps the invariant: locks, tickets, books, counters, texts |
| RingTheorems.RunInv | src/infi/tracing/trace_message_ring_buffer.h:147-276 | The invariant holds at every point of every run |
| RingSteps.ExchangeKept | src/mintomic/private/mintomic_gcc_x86-64.h:170-183 | One round of the compare-and-exchange loop behind `head &=`, successful or not, keeps the invariant |
| RingTheorems.MutualExclusion | src/infi/tracing/trace_message_ring_buffer.h:248-260 | In every reachable state a slot is busy if and only if some thread holds it, and never two do |
| RingTheorems.OnlyTheHolderWrites | src/infi/tracing/trace_message_ring_buffer.h:177-229 | A step changes a slot's message only if the thread that takes it holds the slot |
| RingTheorems.WaitersWaitOnWorkers | src/infi/tracing/trace_message_ring_buffer.h:248-256 | Whoever spins on a busy slot spins on a thread that is not itself waiting, can step at once, and with each step comes closer to the release |
| RingTheorems.SlotBooks | src/infi/tracing/trace_message_ring_buffer.h:189-225 | Per slot, reservations = pops + overruns + 1 if it has data + 1 if a producer is between lock and test-and-set |
| RingTheorems.PopPastFirstTestSucceeds | src/infi/tracing/trace_message_ring_buffer.h:212-219 | In every reachable state in which the consumer is about to make the second test of has_data, it succeeds |
| RingTheorems.PopReturnsMessage | src/infi/tracing/trace_message_ring_buffer.h:209-229 | In every run, a pop that finds the flag clear changes nothing; one that finds it set is under way until it has taken exactly one message, however long it waits, and that message is in the consumer's buffer when it is ready again |
| RingWaits.ProducerWaitsCount | src/infi/tracing/trace_message_ring_buffer.h:248-256 | At every point of every run the producers' spinlock counter, with those about to count, is the number of locks a producer got after finding them taken |
| RingWaits.ConsumerWaitsCount | src/infi/tracing/trace_message_ring_buffer.h:248-256 | The same for the consumer |
| RingTheorems.HeadCountsTickets | src/infi/tracing/trace_message_ring_buffer.h:178-185 | Through concurrent masking, retries and wrap-around head counts tickets modulo the capacity and exceeds it at most by the pending masks; the k-th ticket is served by slot k modulo capacity; tickets are not shared |
| RingTheorems.DeliveriesAreWhole | src/infi/tracing/trace_message_ring_buffer.h:219-224 | A popped message is the concatenation of all that was written to its slot since the previous pop, cut at the message capacity and at its first NUL |
| RingTheorems.LostIsCounted | src/infi/tracing/trace_message_ring_buffer.h:233-237 | The increments wiped out by resets are exactly those that fell between a load and its store |
| RingTheorems.OverflowAccounting | src/infi/tracing/trace_message_ring_buffer.h:195-198 | What was reported plus what is pending never exceeds the total; with no update in flight it equals the total if and only if no increment fell between a load and its store |
| RingConservation.EachTicketOnce | src/infi/tracing/trace_message_ring_buffer.h:177-229 | In every interleaving, overruns included, each ticket is on its way, in its slot or in one delivery, and in at most one delivery |
| RingConservation.DeliveredIsWritten | src/infi/tracing/trace_message_ring_buffer.h:209-229 | What a delivery says a reservation wrote is what its holder wrote in the run |
| RingFifo.SpacedFifo | src/infi/tracing/trace_message_ring_buffer.h:177-229 | If no ticket is drawn while a whole buffer of earlier ones is unpopped, every unpopped ticket has a slot to itself throughout |
| RingFifo.NoOverrunWhenSpaced | src/infi/tracing/trace_message_ring_buffer.h:193-198 | Then no overrun is counted |
| RingFifo.FirstInFirstOut | src/infi/tracing/trace_message_ring_buffer.h:209-229 | Then the k-th successful pop returns exactly what the holder of ticket k wrote |
| RingFifo.WaitsOnlyForConsumer | src/infi/tracing/trace_message_ring_buffer.h:189-191 | Then a producer that waits, waits for the consumer |
| RingFifo.EmptyPopMeansNothingReady | src/infi/tracing/trace_message_ring_buffer.h:209-214 | Then a pop that finds nothing, whatever producers are doing, means all tickets are popped or the oldest is not yet announced |
| RingAccounts.RunAccounts | src/infi/tracing/trace_message_ring_buffer.h:177-229 | At every point of every run, overruns or not: the tail and each slot's pops count the messages popped, each slot's locks and waiting producers count its tickets drawn, and the tickets in the order of locking are those handed out and those still in the slot |
| RingQuiet.OccupiedIsTailToHead | src/infi/tracing/trace_message_ring_buffer.h:177-229 | After any run, with nobody inside: no overrun was counted if and only if the tickets not popped fit the buffer and the occupied slots are exactly theirs, the cyclic interval from tail to head |
| RingQuiet.OverrunsAreTheGap | src/infi/tracing/trace_message_ring_buffer.h:193-198 | Tickets drawn = messages popped + slots occupied + overruns |
| RingQuiet.EmptyPopMeansEmpty | src/infi/tracing/trace_message_ring_buffer.h:209-214 | After any run without overruns and with nobody inside, an empty pop means all tickets are popped and no slot has data |
| RingQuiet.OverrunsAreGluedOn | src/infi/tracing/trace_message_ring_buffer.h:97-99 | Per slot and in total, overruns are the reservations beyond the first in messages popped or still there |
| RingQuiet.OneReservationEach | src/infi/tracing/trace_message_ring_buffer.h:97-99 | Every message popped has exactly one reservation and every slot one at most if and only if no overrun was counted |
| RingQuiet.FifoExactly | src/infi/tracing/trace_message_ring_buffer.h:177-229 | At every point of every run, except between a pop's copy and its recycling: the k-th message popped is ticket k's alone, for all k, if and only if each has a single reservation and every slot's lock was taken in ticket order as far as it was popped |
| RingQuiet.SingleIsWritten | src/infi/tracing/trace_message_ring_buffer.h:209-229 | A message with a single reservation is what that ticket's holder wrote in the run, cut at the capacity and at its first NUL |
| RingDrain.SoloPop | src/infi/tracing/trace_message_ring_buffer.h:209-229 | An undisturbed pop, seven steps of the machine, has the effect of the sequential pop |
| RingDrain.DrainDeliversAll | src/infi/tracing/trace_dump.cpp:87-90 | If the occupied slots are an interval from the tail, draining delivers all of them, oldest first, and leaves the buffer empty |
| RingDrain.DrainIsARun | src/infi/tracing/trace_dump.cpp:49-60 | With producers finished, some continuation of the run pops exactly the drained messages and ends in the drained buffer |
| RingDrain.NoOverrunDrain | src/infi/tracing/trace_dump.cpp:87-90 | After any run without overruns the drain delivers every occupied slot from the tail on, each with one reservation's text, and empties the buffer |
| RingDrain.SpacedDrain | src/infi/tracing/trace_dump.cpp:87-90 | After a run in which no ticket was drawn too early these are the texts written for all unpopped tickets, in ticket order |
| RingOverrun.SoloPush | src/infi/tracing/trace_message_ring_buffer.h:177-205 | An undisturbed reservation adds its text to the slot, whether it was free or occupied |
| RingOverrun.OverrunKeepsOldText | src/infi/tracing/trace_message_ring_buffer.h:97-99 | For all texts, three reservations in a buffer of two and two pops deliver the first text followed by the third, then the second |
| RingOverrun.OverrunNeverReported | src/infi/tracing/trace_message_ring_buffer.h:233-237 | A run in a buffer of one in which the only overrun falls between the load and the store and is in no report |
| TraceDump.TraceMessageRingBuffer.Pop | src/infi/tracing/trace_message_ring_buffer.h:209-229 | With nobody else running: the tail's message and the buffer after it, or nothing and no change |
| TraceDump.TraceMessageRingBuffer.GetAndResetOverflowCounter | src/infi/tracing/trace_message_ring_buffer.h:233-237 | Returns the counter and clears it, and touches nothing else |
| TraceDump.TraceDump.PopAndProcess | src/infi/tracing/trace_dump.cpp:49-60 | One round: the report if anything was overrun, then the message if there is one, and the buffer afterwards |
| TraceDump.TraceDump.ProcessRemaining | src/infi/tracing/trace_dump.cpp:87-90 | Terminates on every buffer and writes one report at most, first, then every drained message in order |
| TraceDump.RoundThenRest | src/infi/tracing/trace_dump.cpp:87-90 | A round followed by draining the rest is the whole drain, with one slot fewer left after it |
| TraceDump.LinesInOrder | src/infi/tracing/trace_dump.cpp:49-60 | The lines of a drain are the report with its count, first and only if there is something to report, and then the drained messages in their order |
| Framing.DecimalRoundTrip | src/infi/tracing/trace_dump.cpp:218-219 | Reading back the decimal length gives the length |
| Framing.DecodeFrames | src/infi/tracing/trace_dump.cpp:215-232 | Complete frames followed by part of one decode to exactly those messages and that part |
| Framing.FramesUnique | src/infi/tracing/trace_dump.cpp:215-232 | No byte stream can be read as frames in two ways |
| SyslogSocket.SyslogTCPSocket.Close | src/infi/tracing/trace_dump.cpp:149-154 | Closes the current connection and changes no other |
| SyslogSocket.SyslogTCPSocket.TryConnect | src/infi/tracing/trace_dump.cpp:200-213 | Connected afterwards if and only if it was or the kernel agreed; a new connection starts empty |
| SyslogSocket.SendFrames | src/infi/tracing/trace_dump.cpp:225-231 | Whatever the kernel takes of prefix and message, the connection holds whole frames followed by at most one part, and a part only if closed |
| SyslogSocket.SyslogTCPSocket.Send | src/infi/tracing/trace_dump.cpp:215-232 | True if and only if the prefix is not too long and both sends are complete; closed afterwards if false and tried; the connection has got exactly what the kernel took of the prefix and, if that was complete, of the message; older connections are untouched |
| SyslogSocket.SyslogTCPSocket.Attempt | src/infi/tracing/trace_dump.cpp:270-276 | One round: success, the connection afterwards and what every connection has got, from the kernel's answers |
| SyslogSocket.SyslogTCPSocket.Process | src/infi/tracing/trace_dump.cpp:266-278 | Gets through if and only if the first attempt does, over the connection there is or a new one, or else the second over a new one; sent once or not at all; the connection afterwards and what every connection has got |
| SyslogSocket.ProcessAll | src/infi/tracing/trace_dump.cpp:266-278 | Over a whole life the kernel's answers determine which messages get through, and decoding the connections in order gives exactly those |
| UtHash.BucketIsMasked | src/uthash.h:198-201 | The masked bucket number is the hash modulo the number of buckets |
| UtHash.LinkNode | src/uthash.h:612-618 | Linking in front of a chain keeps every chain of the table consistent both ways and every node in its own bucket |
| UtHash.RemoveFromBucket | src/uthash.h:626-636 | The chain without that node, consistent both ways, its count exact, for head, middle and last node |
| UtHash.UnlinkApp | src/uthash.h:223-244 | The app-order list without that element, for head, middle and tail |
| UtHash.Rehash | src/uthash.h:683-703 | Moves every node to the chain of its new bucket with no loss or duplication, and counts the nodes over the ideal length |
| UtHash.CeilDivIsLeast | src/uthash.h:680-682 | The ideal chain length is the least that accommodates all items |
| UtHash.HashTable.MakeTable | src/uthash.h:141-158 | A new table of 32 empty buckets |
| UtHash.HashTable.AddToBucket | src/uthash.h:612-624 | Links the node and expands the table if and only if the bucket has grown to ten times its multiple plus one and expansion is not inhibited |
| UtHash.HashTable.Add | src/uthash.h:173-196 | Keeps the whole invariant and appends to the app order; a first element makes 32 buckets, and another expands the table if and only if its bucket calls for it |
| UtHash.HashTable.Delete | src/uthash.h:215-248 | Keeps the whole invariant, removes exactly that element and changes no bucket's multiple; the table goes with the last one |
| UtHash.HashTable.Find | src/uthash.h:94-105 | An element of the table with those key bytes, and null if and only if there is none |
| UtHash.HashTable.ExpandBuckets | src/uthash.h:667-713 | Doubles the buckets, keeps the invariant, does not touch the app order, and sets the ideal length to the ceiling, nonideal_items to the sum of the excesses, each bucket's multiple, and the inhibition after two ineffective expansions |
| UtHashFsck.CountsAddUp | src/uthash.h:278-305 | The bucket counts of a valid table add up to its items |
| UtHashFsck.Fsck | src/uthash.h:278-328 | The library's integrity check passes on every valid table |
| MergeSort.PassesIn | src/uthash.h:719-805 | Whatever the comparison answers, the sort terminates with a permutation |
| MergeSort.SortsStably | src/uthash.h:718-805 | For a total and transitive comparison every element ends up before all that are greater, or equal and later |
| MergeSort.StableUnique | src/uthash.h:718-805 | There is exactly one such arrangement |
| UtHashSort.MergeTwo | src/uthash.h:745-787 | The inner loops splice two runs into their stable merge behind what was put out, in place |
| UtHashSort.SortPass | src/uthash.h:733-796 | One pass relinks the list into the merges of its pairs of runs, consistent both ways, and counts the merges |
| UtHashSort.Sort | src/uthash.h:720-805 | Leaves a valid table whose app order is the sorted one, and touches neither buckets nor chains |
| UtHashSort.SortedOrder | src/uthash.h:718-805 | The app order after it is a stable sorted permutation of the one before |
| Lru.LRU.Insert | src/lru.hpp:31-50 | Refines a bounded list: an absent key is appended, and the first pair dropped only when full; the nodes are the first entries of the array |
| Lru.LRU.Find | src/lru.hpp:52-62 | The value, the pair moved to the end; or not found and no change |
| LruHistory.ResidentIsMostRecent | src/lru.hpp:31-62 | After any history the cache holds exactly the capacity most recently used distinct keys, in order of last use, with the filter's answers |
| LruHistory.ResidentByLastUse | src/lru.hpp:31-62 | A key is resident if and only if it was requested and fewer than capacity other keys were requested since |
| LruHistory.LargerCacheHitsMore | src/lru.hpp:31-62 | Every hit at capacity c is a hit at capacity c + 1 |
| LruHistory.LevelIsFilters | src/infi/tracing/trace_level_func_cache.pyx:23-32 | The cached level is the filter's own answer after any history |
| TraceLevelCache.FindTraceLevelOrCallFilter | src/infi/tracing/trace_level_func_cache.pyx:8-32 | Find, and on a miss the filter and an insertion; hit and level as the list model says |
| TraceLevelCache.ServeAll | src/infi/tracing/trace_level_func_cache.pyx:23-32 | Over a whole run on the real table and for any filter, every level is the list model's, and each request hits exactly when last-use distance says so |
| TraceLevelCache.RightExactlyWhenKeysRespected | src/infi/tracing/trace_level_func_cache.pyx:8-32 | Every run over a set of code objects gets the filter's levels, at any capacity, if and only if code objects of the set that share key bytes have the same level |
| TraceLevelCache.CollisionGivesWrongLevel | src/uthash.h:258-261 | Two requests in a row, sharing key bytes and differing in level: the second gets the first one's level |
| Tracer.OnCall | src/infi/tracing/ctracing.pyx:136-150 | On a call the test against the one integer decides as the stack of levels does, and the integer goes on standing for the stack |
| Tracer.OnReturn | src/infi/tracing/ctracing.pyx:136-150 | The same on a return, with the frame gone |
| Tracer.LastFrameIsTop | src/infi/tracing/ctracing.pyx:53-57 | Live addresses being distinct, the last-frame test can only succeed for the greenlet of the last event |
| Tracer.ThreadStorage.ShortcutIsRight | src/infi/tracing/ctracing.pyx:53-57 | When the shortcut fires, the cached greenlet is the running one and the cached storage is the one in the map, even if addresses are reused |
| Tracer.ThreadStorage.CalcNewGreenletDepth | src/infi/tracing/ctracing.pyx:32-37 | The number of frames below the given one |
| Tracer.ThreadStorage.GetGstore | src/infi/tracing/ctracing.pyx:47-108 | The running greenlet's storage, found or made, with or without the shortcut; the map gains at most that one |
| Tracer.ThreadStorage.Consult | src/infi/tracing/ctracing.pyx:136-150 | What an event does to the integer, the cache and the log, tracing enabled or not |
| Tracer.ThreadStorage.TraceCall | src/infi/tracing/ctracing.pyx:122-150 | Keeps the invariant; moves the greenlet's integer and the log by the test against it, and neither while suspended; if the integers stand for the stacks while enabled, they go on doing so and the log is the stack specification's |
| Tracer.ThreadStorage.TraceReturn | src/infi/tracing/ctracing.pyx:126-153 | The same for a return; the storage goes when the bottom frame returns |
| Tracer.ThreadStorage.GreenletTraceFunc | src/infi/tracing/ctracing.pyx:111-155 | The same for any event; kinds other than call and return do nothing |
| Tracer.ThreadStorage.DelGstorage | src/infi/tracing/thread_storage.h:73-76 | Removes one storage, when no shortcut can point to it |
| Tracer.ThreadStorage.Suspend | src/infi/tracing/ctracing.pyx:188-190 | Tracing one level further off |
| Tracer.ThreadStorage.Resume | src/infi/tracing/ctracing.pyx:193-196 | One level back, never above enabled |
| TracerRuns.Replay | src/infi/tracing/ctracing.pyx:111-155 | Over every allowed run of calls, returns and switches of any greenlets the log equals the stack specification's, entry for entry; the filter respects key bytes on the code objects of the run |
| TracerRuns.ReturnMatchesCall | src/infi/tracing/ctracing.pyx:122-129 | A frame's return is logged if and only if its call was, with the same depth |
| TracerRuns.LineByLevels | src/infi/tracing/ctracing.pyx:140-150 | An event is logged if and only if its depth is at most 314159, its level at least 2 and no frame under it down to the tracked base has level 1 |
| TracerHistory.TrackedByHistory | src/infi/tracing/ctracing.pyx:47-108 | Over every run: a greenlet is tracked if and only if it has been seen and has frames; its base is the lowest height since its storage was made, and its depths are heights, less one if it was first seen on a return |
| TracerRuns.DefaultFilterLogsNothing | src/infi/tracing/__init__.py:24-46 | A filter that always answers 1 makes every run's log empty |
| TracerSuspend.ReplayWithSuspensions | src/infi/tracing/ctracing.pyx:111-155 | Over every allowed run with suspends and resumes anywhere in it, the log is what the integers make of it, standing still while tracing is off; and if every traced event is trusted, it is the specification's |
| TracerSuspend.TrustedIsRight | src/infi/tracing/ctracing.pyx:136-150 | So for every filter, a line too many or missing is about a frame two or more above the lowest its greenlet came down to since a suspension |
| TracerSuspend.SureStands | src/infi/tracing/ctracing.pyx:136-150 | A greenlet down at the lowest height it has come to since then has an integer that stands |
| TracerSuspend.StandIsSuppresses | src/infi/tracing/ctracing.pyx:136-150 | The integers in the storages stand for the stacks if and only if those of the run's account do |
| TracerResume.StandsForever | src/infi/tracing/ctracing.pyx:136-150 | From a state in which all integers stand, any events of any greenlets are logged as specified, and the integers go on standing |
| TracerResume.RightFromHere | src/infi/tracing/ctracing.pyx:136-150 | With tracing on and nothing wrong yet, every allowed continuation is logged as specified if and only if all integers stand for their stacks, or the filter logs nothing at all |
| TracerResume.ResumeExactly | src/infi/tracing/ctracing.pyx:193-196 | The same after any allowed run with suspends and resumes |
| TracerResume.MarkByLevels | src/infi/tracing/ctracing.pyx:136-150 | What a traced event leaves in the integer, in terms of levels: the depth of the first suppressing frame, or of one that has just returned, or disabled |
| TracerResume.ResumeByLevels | src/infi/tracing/ctracing.pyx:136-150 | Whatever a greenlet has done unseen since its last traced event, its integer stands if and only if the first suppressing frame is where it was then, or there is none now and what there was is gone |
| TracerBrackets.ClosingHeals | src/infi/tracing/__init__.py:72-74 | Whatever the levels of the frames that resume tracing, once they have returned the integer stands for the stack below them if it did before |
| TracerBrackets.BracketedSuspension | src/infi/tracing/__init__.py:67-84 | suspend_tracing, any body that leaves the greenlet where it was, and resume_tracing, each under any frames of its own: the greenlet's integer stands afterwards, all integers do if and only if those of the other greenlets do, and the lines are right if and only if the resuming frames are spared, which resume_tracing alone is |
| TracerBrackets.BracketByLevels | src/infi/tracing/__init__.py:77-84 | Whether they are spared, in terms of the levels of the suspending and the resuming frames |
| TracerBrackets.SameLevelsSpared | src/infi/tracing/__init__.py:77-84 | They are, if the frames that suppress have the same places in both |
| TracerBrackets.SuspensionInOneGreenlet | src/infi/tracing/__init__.py:67-84 | If no other greenlet runs meanwhile, all integers stand afterwards, and if the lines so far are right so is everything that follows |
| TracerStray.LineTooMany | src/infi/tracing/ctracing.pyx:136-150 | A run in which one greenlet suspends and resumes, and another that calls a NO_TRACE_NESTED function meanwhile has a call logged inside it |
| TracerStray.LinesLost | src/infi/tracing/ctracing.pyx:136-150 | A run in which another greenlet, one of whose NO_TRACE_NESTED functions had returned, calls a function meanwhile, and nothing that function calls is logged |
| TracerSuspend.EnabledByBalance | src/infi/tracing/ctracing.pyx:188-196 | Tracing is on if and only if no stretch up to now has more suspends than resumes; the counter is 1 less the greatest such excess |
| TracerSuspend.SuspendingOnlySilences | src/infi/tracing/ctracing.pyx:122-134 | Suspending leaves stacks and tracked greenlets as the same run without it has them |
| TraceMessage.StrNCpy | src/infi/tracing/trace_message.h:53 | Copies up to the first NUL and pads with NULs |
| TraceMessage.TraceMessage.Assign | src/infi/tracing/trace_message.h:45-54 | The other message's offsets and its bytes up to the first NUL, so the same C string |
| TraceMessage.TraceMessage.Recycle | src/infi/tracing/trace_message.h:56-62 | Empty, unlimited, with the terminating NUL in place |
| TraceMessage.TraceMessage.Limit | src/infi/tracing/trace_message.h:83-87 | A window of at most that size at the write offset, never wider than before; returns the old limit |
| TraceMessage.TraceMessage.Unlimit | src/infi/tracing/trace_message.h:93-95 | Sets the limit within the capacity; the offsets stay in order if and only if it is not below the write offset |
| TraceMessage.TraceMessage.Rewind | src/infi/tracing/trace_message.h:97-100 | Moves back and ends the text there |
| TraceMessage.TraceMessage.Write | src/infi/tracing/trace_message.h:102-112 | Appends all that fits, byte for byte, and nothing past the limit; true if and only if there was room for the NUL too |
| TraceMessage.TraceMessage.Printf | src/infi/tracing/trace_message.h:114-140 | A text longer than the room leaves the offset and all bytes before it as they were, a NUL at it, and is refused; a shorter one is appended with a NUL; an exact fit loses its last character and is reported as success |
| Serializer.StrOrUnicodeRepr | src/infi/tracing/ctracing_log_serialize.pyx:59-109 | Appends the string's repr, cut to the room with its closing quote and length |
| ReprCut.StrText | src/infi/tracing/ctracing_log_serialize.pyx:59-109 | In every room: uncut if it has at most 64 characters and its repr and a NUL fit; the first 64 characters' repr and the length if it has more and they fit; otherwise as many bytes of it as fit before a quote and the length, or nothing if not one does |
| ReprCut.LeafText | src/infi/tracing/ctracing_log_serialize.pyx:32-50 | Every other object without elements, from its unlimited text and the room: whole, with its last character a NUL, partly, with a question mark for its name, or nothing, and what is reported |
| ReprCut.SubDictText | src/infi/tracing/ctracing_log_serialize.pyx:244-247 | A dict subclass is its head, as of a plain object, and the dict in the room left |
| ReprCut.ListText | src/infi/tracing/ctracing_log_serialize.pyx:118-173 | In every room a list is its opening bracket, what its rounds leave, a comma and the element in a window of 64 bytes each, its closing bracket and, if anything was cut, its length; and of the rounds those that leave room for the end |
| ReprCut.DictText | src/infi/tracing/ctracing_log_serialize.pyx:176-241 | The same for dicts, with a comma, the key in 32 bytes, a colon and the value in 64 |
| ReprCut.TooLongFirst | src/infi/tracing/trace_message.h:135-138 | A plain object longer than its window is left out altogether: a list that begins with one is its bracket pair and its length |
| Serializer.NamedRepr | src/infi/tracing/ctracing_log_serialize.pyx:263-276 | Appends the name in brackets, or a question mark in its place when there is no room |
| Serializer.MethodRepr | src/infi/tracing/ctracing_log_serialize.pyx:279-314 | Appends name, class and self, or a question mark for all of them when there is no room |
| Serializer.FinishRepr | src/infi/tracing/ctracing_log_serialize.pyx:162-171 | Appends the closing bracket and, if anything was cut, the length, over the last elements if there is no room after them |
| Serializer.ListOrTupleRepr | src/infi/tracing/ctracing_log_serialize.pyx:118-173 | Appends what ListRepr says, restores the limit, and changes nothing before its start or past the limit |
| Serializer.DictRepr | src/infi/tracing/ctracing_log_serialize.pyx:176-241 | The same for dicts |
| Serializer.FastRepr | src/infi/tracing/ctracing_log_serialize.pyx:353-388 | Appends what Repr says and terminates on every object graph, cyclic ones included, with at most 53 calls nested; restores the limit; never moves back; keeps all earlier bytes; stores at most a NUL at the limit and nothing past it; a message that ended in a NUL still does |
| ReprTheorems.ListEnds | src/infi/tracing/ctracing_log_serialize.pyx:136-173 | A list is refused exactly when its bare minimum does not fit; otherwise it ends, if and only if anything was cut, in its bracket and the complete length after its own opening bracket; never over 258 bytes and the length |
| ReprTheorems.DictEnds | src/infi/tracing/ctracing_log_serialize.pyx:190-241 | The same for dicts, with 393 bytes |
| ReprTheorems.ListLoopSpares | src/infi/tracing/ctracing_log_serialize.pyx:145-160 | The rewind point lies after the opening bracket with room for bracket, length and NUL |
| ReprTheorems.DictLoopSpares | src/infi/tracing/ctracing_log_serialize.pyx:199-229 | The same for dicts |
| ReprTheorems.FittingIsWhole | src/infi/tracing/ctracing_log_serialize.pyx:353-388 | An object nested to any depth in which nothing has to be cut comes out as its unlimited text |
| ReprTheorems.SelfContainingList | src/infi/tracing/ctracing_log_serialize.pyx:118-173 | The exact text, for every size of the buffer, of a list that contains itself |
| ReprNul.LeafNul | src/infi/tracing/trace_message.h:130-140 | An object that does not contain others leaves a NUL in a window if and only if it is an integer or a plain object whose text is exactly as long as the window |
| ReprNul.SubDictNul | src/infi/tracing/ctracing_log_serialize.pyx:244-247 | A dict subclass leaves one if and only if its head fits exactly, or fits and the dict leaves one in the rest of the window |
| ReprNul.ListNul | src/infi/tracing/ctracing_log_serialize.pyx:145-171 | A list of any length in any room leaves one if and only if it is not refused and some round wrote one that was not written over by the closing; which rounds those are |
| ReprNul.DictNul | src/infi/tracing/ctracing_log_serialize.pyx:199-241 | The same for dicts |
| ReprNul.ElementNul | src/infi/tracing/ctracing_log_serialize.pyx:149-160 | The round of any index wrote one if and only if the element leaves one in what the comma leaves of its window |
| ReprNul.EntryNul | src/infi/tracing/ctracing_log_serialize.pyx:206-229 | The same for a dict's entry, by its key or, if that is reached, its value |
| ReprTheorems.NulHidesTheRest | src/infi/tracing/trace_message.h:130-140 | The sole element of a list, a plain object, in 80 bytes or more: a NUL is left if and only if its text has 64 bytes, and then the list's exact text |

## Left out

- Weak memory ordering, the inline assembly, and the ARM and MSVC variants: every atomic access is one sequentially consistent step.
- 64-bit increments on 32-bit x86 are compare-and-exchange loops there; they are one step here. The masking loop is modelled round by round.
- Copying a message inside `pop` is one step, as only the consumer can touch it under the lock.
- RingProtocol.Append: a producer's writing is "append and cut at the capacity"; printf's refusals, limits and rewinds are in `Serializer` and are not combined with the interleavings.
- Producers always commit before they reserve again, and the capacity is at most 2^31, because slot numbers are `int`.
- RingTheorems.OverflowAccounting: assumes fewer than 2^64 overruns in the run, since the counters wrap there.
- The periodic loop of the dump thread, its sleeping and the shutdown flag: any interleaving of pops is allowed instead.
- Timestamps, severities in the output, file output, and the text of `format_message`: the syslog message is given (an empty one is not sent) and assumed to fit its buffer.
- The UNIX-domain socket, which has no framing.
- CPython and greenlet objects, reference counts and the GIL: frames and greenlets are ids, and an environment calls, returns and switches; live frames have distinct addresses, live greenlets differ in the four bytes the map looks at, and dead ones' addresses may be used again.
- TracerBrackets.BracketedSuspension: the body does not let the greenlet's stack below where it was; then the frame that is there afterwards is another one, and `ResumeExactly` and `TrustedIsRight` say what there is to say.
- The storage's map of greenlets is a `map` in `Tracer`, and its cache a list: `UtHash` and `Lru` prove that the pointers behave as these.
- A filter that answers None, counted as NO_TRACE, and one whose answer depends on more than the code object.
- Hash functions: any function of the key bytes. Counts in the table are unbounded, where the source has 32 bits.
- Freeing memory, and what `malloc` does when it fails.
- HASH_SELECT, HASH_REPLACE, bloom filters and HASH_EMIT_KEY, which the tracer does not use.
- UtHashSort.Sort: the comparison depends on the two elements only.
- LRU.Insert: the key is absent and the capacity positive, as its only caller ensures; an empty TraceMessage is excluded likewise.
- `nprintf` with a limit of its own, and the formatting inside printf: the expanded text is given.
- The digits of numbers, string reprs, type names and addresses, which CPython computes, are part of the object; they hold no NUL.
- Lengths over 2^31 in the suffix, which the source prints as `int`.
- Objects that change while they are written: the graph is fixed during one call.
- The text before the arguments of a call, and the loop over arguments, in `ctracing_log.pyx`.
- `wait_and_ensure_exit`, the Python front end and mintsystem: wrappers of the operating system.
