# Netpoll, verified

A Dafny model of the parts of netpoll where bytes, buffers and callbacks can be lost: the zero-copy
link buffer, the lock-word protocol that closes a connection, the sharded write queue of the mux
package, and the operator cache of the poller. `dafny verify dfyconfig.toml` checks all of it.

## How the model is built

**LinkBuffer.** `LinkBuffer.dfy` is the buffer as the source writes it: node objects linked through
`next`, the pointers head, read, flush and write, and loops that move them. Backing arrays are
blocks of a `Memory` object, so nodes, windows and slices held by users alias for real. Two ghost
fields hold the chain as a sequence of nodes and of their contents (`LinkChain.View`). All that is
proved about bytes is proved on those values, in `LinkChain*.dfy`, mostly for every content of memory
at once; bytes that a user stores later through a slice it was given are therefore covered. Two
flat sequences describe a buffer: `Bytes()`, what can be read, and `Tail()`, what the next Flush
makes readable. `Valid()` ties the linked structure, the counter `length` and the peek cache to
them. `Counted()` says that `mallocSize` is what is pending, `Settled` that no appended buffer waits
for a Flush, `Apart` and `Own` that spare memory of the write node, or what a give-back would free,
overlaps nothing in use. Every operation says which of these it keeps.

**Waiting** is waitRead and Until of a connection as functions of what arrives between the loads of the
reader; the class methods `Await` and `AwaitUntil` are proved against it, with deliveries that go
through the poller's book and bookAck.

**NodeCounts** and **NodeChains.** Reference counts. Buffers are chains of nodes; Slice, slice of slice,
Append with its two release loops, MallocAck, Release and Close are walks over them by any number of
goroutines, one atomic addition per step, and each call of a node's Release contains the call on its
origin. `NodeCounts` is the ledger of who holds a reference, `NodeChainsSafety` shows that chains stay
disjoint, so that every step is a legal entry in it.

**InputBuffer.** The same buffer while the poller fills it and the user reads it: a step system with
one load or store of a shared field per step, and any interleaving.

**Connection.** Poller events, hang-ups, callers of Close, Flush and Release, the callback task and one
reader share lock words, two counters and a one-slot channel. Each atomic operation is one step.
One model serves connections and read FIFOs; a configuration says which, and which callbacks were
installed at init. Once the finalizer has given the operator back others may use it, and a Release that
comes late still asks it. Callbacks may panic: OnConnect, OnRequest, OnFifoRead, OnDisconnect and close
callbacks inside a task, where the deferred function then runs, and close callbacks anywhere else,
where the goroutine ends as it is. `Calm` means: no close callback has panicked inside a task, and on a
connection no other callback either.

**ShardQueue.** Any number of goroutines in Add and Close, and the elected task. `ShardQueueSafety` holds
for all runs, `ShardQueueRing` for those without empty Adds, `ShardQueueSingle` for one shard.

**Handler**, **Operators** and **OperatorCache.** The poller's handler with its exits, where every call can
fail; the life of operators under event batches as a step system; and the cache itself as a class
whose methods do to its two lists what the steps do. It is assumed that an owner frees once, detaches
before that, and does not register or free it afterwards, and that epoll reports registered operators
only; do and done of anybody else, a former owner too, are steps like others.

**Output** is iovecs and the output stream under partial writes.

## Where code and documentation differ

The model follows the code in each case.

- Slice is documented to execute a Release; when one node holds the bytes it does not.
- GetBytes without slots is documented to return all readable bytes; `GetAllBytes` states exactly when it does.
- MallocAck is documented to keep the first n bytes; zero keeps what the flush node has (`MallocAck`).
- A read FIFO without a handler can leave a reader asleep: inputAck asks for no wake-up when onProcess
  took the lock and found nothing to run (`WakeupsExactlyIf`).
- The deferred function of a connection's task runs the close callbacks without taking the lock, so a
  panic can make them run twice. The FIFO's locks again, but it also does so when what panicked is a
  close callback, and then runs them a second time (`AtMostOnceExactlyIf`).
- Until returns what is there when its wait fails. The length and the closing word are loaded one after
  the other, so that text can hold the delimiter: it came after the length was found too small
  (`FailedTextExactlyIf`).
- The handler is to close a connection whose peer hung up only if nothing was read any more. A read that
  fails adds its result, -1, to what was read, so that after one byte it does close, and after none it
  does not (`ServedFirstExactlyIf`).
- Release takes do and done of the operator for exclusion against the poller. After the finalizer it asks
  an operator that can be somebody else's by then (`UndisturbedExactlyIf`).
- Add without arguments announces an empty shard; with two shards or more ring entries then repeat and
  can overwrite each other, and a getter is lost for good (`ExactlyOnceIff`).
- Nodes that MallocAck left behind the write node are cut off when something is linked there, and never
  given back; nobody looks at them any more (`CutIsSpare`).

## Model

| member | source | states |
|---|---|---|
| `LinkBuffer.LinkBuffer.constructor` | nocopy_linkbuffer.go:42-51 | a new buffer has nothing readable and nothing pending |
| `LinkBuffer.NewNode` | nocopy_linkbuffer.go:783-796 | sizes up to zero give a read-only node without memory, others at least the size and the minimum, in an array nobody has |
| `LinkBuffer.LinkBuffer.Next` | nocopy_linkbuffer.go:85-120 | fails exactly if fewer than n bytes are readable; else returns the first n and leaves the rest, pending bytes and all existing memory untouched |
| `LinkBuffer.LinkBuffer.ReadBinary` | nocopy_linkbuffer.go:241-293 | as Next, and what it returns is a new array or lies in a node marked never to be recycled |
| `LinkBuffer.LinkBuffer.ReadByte` | nocopy_linkbuffer.go:296-308 | the first readable byte, or failure exactly if there is none |
| `LinkBuffer.LinkBuffer.Skip` | nocopy_linkbuffer.go:183-203 | drops exactly the first n readable bytes, over any number of nodes |
| `LinkBuffer.LinkBuffer.SliceOff` | nocopy_linkbuffer.go:323-368 | the first n readable bytes move to a reader that shares their memory, without copying |
| `LinkBuffer.LinkBuffer.Peek` | nocopy_linkbuffer.go:124-180 | the first n readable bytes, for any history of peeks, reads and flushes; the cache stays a prefix of the readable bytes and only its array is written |
| `LinkBuffer.LinkBuffer.TookNow` | nocopy_linkbuffer.go:727-734 | a reader that took n bytes, lowered `length` and emptied the peek cache leaves a valid buffer: the cache agrees with what is readable now, and nothing pending has changed |
| `LinkBuffer.LinkBuffer.Release` | nocopy_linkbuffer.go:207-226 | drops a prefix of the chain that was read; no readable or pending byte goes |
| `LinkBuffer.LinkBuffer.IsSingleNode` | nocopy_linkbuffer.go:755-765 | ends on a node that is not empty and says whether it holds enough |
| `LinkBuffer.LinkBuffer.IndexByte` | nocopy_linkbuffer.go:693-722 | the least index from skip on that holds the byte, across nodes, or -1 exactly if there is none |
| `LinkBuffer.LinkBuffer.Until` | nocopy_linkbuffer.go:311-317 | the bytes up to and with the first delimiter, or failure exactly if there is none |
| `LinkBuffer.LinkBuffer.AwaitUntil` | connection_impl.go:167-184 | while bytes arrive and the connection is closed between any two loads: a line that is found is exactly the bytes up to the first delimiter of all that is sent; text returned on failure has no delimiter among the bytes searched; nothing is lost, and a next Until can follow |
| `Waiting.FoundIsFirst` | connection_impl.go:167-184 | whatever arrives meanwhile, a found line ends with the first delimiter, although each search starts where the last one ended |
| `Waiting.ThereIsFound` | connection_impl.go:167-184 | a delimiter that was there before the call is found, even if the connection is closed |
| `Waiting.FailedTextExactlyIf` | connection_impl.go:167-184 | text returned on failure holds no delimiter, whatever happens meanwhile, if and only if the delimiter was there before the call or is never sent |
| `LinkBuffer.LinkBuffer.Await` | connection_impl.go:412-436 | loses no byte, and succeeds exactly if a load of the length finds n bytes before a load of the closing word, or the closer's error, ends the wait |
| `Waiting.FailsWithEnough` | connection_impl.go:422-433 | a wait that fails with the n bytes there |
| `ConnectionLimits.WaitFailsWithEnough` | connection_impl.go:422-427 | the same in the lock-word protocol: a reachable state in which the reader is about to fail with its byte there |
| `LinkBuffer.LinkBuffer.GetBytes` | nocopy_linkbuffer.go:613-635 | a prefix of the readable bytes, all of them if a slot is left, and not nothing if there is something |
| `LinkBuffer.LinkBuffer.GetAllBytes` | nocopy_linkbuffer.go:613-635 | without slots: a prefix, and all readable bytes if and only if some node from read to flush is empty |
| `LinkBuffer.LinkBuffer.Malloc` | nocopy_linkbuffer.go:373-380 | n bytes become the end of what is pending, whatever is stored in them later; they overlap no byte of the chain that is readable, pending, or read and not released |
| `LinkBuffer.LinkBuffer.Growth` | nocopy_linkbuffer.go:737-750 | the write node becomes writable with room for n, and no byte is added or lost |
| `LinkBuffer.LinkBuffer.WriteBinary` | nocopy_linkbuffer.go:493-512 | the data is appended to what is pending, copied into own memory or linked in as it is, by the threshold |
| `LinkBuffer.LinkBuffer.Flush` | nocopy_linkbuffer.go:412-431 | readable becomes readable ++ pending, and nothing is pending |
| `LinkBuffer.LinkBuffer.MallocAck` | nocopy_linkbuffer.go:388-409 | keeps exactly the first n pending bytes whatever memory holds, or for zero those of the flush node; mallocSize is right afterwards if and only if these agree |
| `LinkBuffer.LinkBuffer.WriteBuffer` | nocopy_linkbuffer.go:445-481 | pending becomes pending ++ the other's readable ++ the other's pending, and the other is closed |
| `LinkBuffer.LinkBuffer.WriteDirect` | nocopy_linkbuffer.go:515-566 | pending P becomes P[..M-remainLen] ++ extra ++ P[M-remainLen..], whatever memory holds, any number of times |
| `LinkBuffer.LinkBuffer.Book` | nocopy_linkbuffer.go:643-655 | memory behind everything readable that overlaps nothing in use |
| `LinkBuffer.LinkBuffer.BookAck` | nocopy_linkbuffer.go:660-668 | the first n booked bytes become readable and nothing is pending |
| `LinkBuffer.LinkBuffer.Deliver` | connection_reactor.go:86-119 | what the kernel stored is appended to the readable bytes |
| `LinkBuffer.LinkBuffer.OutputAck` | connection_reactor.go:132-141 | exactly n readable bytes go, pending ones stay |
| `LinkBufferLaws.AppendThenFlush` | nocopy_linkbuffer.go:412-481 | readable ++ own pending ++ the other's readable ++ the other's pending |
| `LinkBufferLaws.AckThenFlush` | nocopy_linkbuffer.go:388-431 | for 1 <= n <= MallocLen exactly the first n pending bytes are submitted |
| `LinkBufferLaws.DirectThenFill` | nocopy_linkbuffer.go:373-566 | bytes stored through a Malloc slice after a splice are, after Flush, where they belong on both sides of it |
| `LinkBufferLaws.WriteThenRead` | nocopy_linkbuffer.go:241-512 | what is written and flushed is read back |
| `LinkChain.SettledLen` | nocopy_linkbuffer.go:71-75 | without an Append awaiting Flush, the sum of node lengths that `length` counts is the number of readable bytes |
| `LinkChainWriter.PendingLen` | nocopy_linkbuffer.go:382-385 | and the sum that `mallocSize` counts is the number of pending bytes |
| `LinkChainWriter.MallocPending` | nocopy_linkbuffer.go:842-846 | what a node hands out is the end of what is pending |
| `LinkChainWriter.AckedPending` | nocopy_linkbuffer.go:396-407 | the two loops keep the first n pending bytes, whatever memory holds |
| `LinkChainWriter.SplicedPending` | nocopy_linkbuffer.go:520-557 | the search and the split put the new bytes after exactly the first `at` pending ones |
| `LinkChainWriter.FlushFlat` | nocopy_linkbuffer.go:419-429 | sealing every node gives readable ++ pending and adds the pending count to `length` |
| `LinkChainFrames.MallocHands` | nocopy_linkbuffer.go:373-380 | growth and Malloc add the bytes of the slice they return, whatever memory holds now or later, and change nothing readable |
| `LinkChainFrames.StoreUntouched` | nocopy_linkbuffer.go:508-511 | filling such a slice disturbs neither readable nor pending bytes |
| `LinkChainFrames.AppendSound` | nocopy_linkbuffer.go:449-479 | linking the other chain in adds its readable and then its pending bytes, and both counts |
| `InputBufferSafety.PointersInOrder` | nocopy_linkbuffer.go:643-690 | head <= read <= flush <= write in every reachable state, so no node in use is freed |
| `InputBufferSafety.LengthIsThere` | nocopy_linkbuffer.go:85-226 | `length`, and what was claimed and not passed yet, lie between the read and the flush node |
| `InputBufferSafety.ReadsAreAcked` | nocopy_linkbuffer.go:85-120 | the bytes read are a prefix of the acked ones, and every Next and Peek returned the stretch it should |
| `InputBufferSafety.NextReturns` | nocopy_linkbuffer.go:95-119 | a Next that completes returns exactly the n bytes it consumed, the last of those promised |
| `InputBufferSafety.CacheIsPrefix` | nocopy_linkbuffer.go:139-179 | the peek cache is a prefix of the readable bytes under concurrent acks |
| `InputBufferSafety.ReaderNeverStuck` | nocopy_linkbuffer.go:107-117 | the reader never walks off the chain or reads beyond an array |
| `InputBufferSafety.BookedIsFree` | nocopy_linkbuffer.go:643-668 | the kernel fills memory behind everything readable, inside the array |
| `InputBufferSafety.ResetExcludesBooking` | connection_impl.go:131-151 | resetTail never meets a booking |
| `InputBufferSafety.RunInv` | connection_reactor.go:86-103 | every step of the poller and of the user keeps the invariant these follow from |
| `NodeChainsSafety.ChainsDisjoint` | nocopy_linkbuffer.go:445-481 | no node is in two chains or twice in one, whatever is sliced, appended, released and closed |
| `NodeChainsSafety.ReferIsHolders` | nocopy_linkbuffer.go:850-880 | a count is one for the node's own place, in a chain, cut off, or in its own Release, plus its live windows |
| `NodeChainsSafety.LeavesOnce` | nocopy_linkbuffer.go:207-215 | a node is given back by one walk only and once, and exactly when it is in no chain any more and was not cut off |
| `NodeChainsSafety.DepthAtMostOne` | nocopy_linkbuffer.go:850-861 | windows hang on roots only, so calls of Release nest at most twice |
| `NodeChainsSafety.FreedOnce` | nocopy_linkbuffer.go:866-880 | memory goes back at most once, exactly when the last reference goes, never from a read-only or no-copy-read node |
| `NodeChainsSafety.LinkedIsAlive` | nocopy_linkbuffer.go:323-368 | a node in a chain is not recycled, and neither is the memory a slice looks at |
| `NodeChainsSafety.CutIsSpare` | nocopy_linkbuffer.go:388-409 | a node that was cut off is a root with a count of one that nobody looks at |
| `NodeChainsSafety.WalkGoesOn` | nocopy_linkbuffer.go:866-880 | a walk is never stuck, and every decrement hits a positive count |
| `NodeChainsSafety.WalkComesToEnd` | nocopy_linkbuffer.go:207-215 | and each of its steps leaves less to do |
| `NodeChainsSafety.CloseGivesAllBack` | nocopy_linkbuffer.go:578-592 | over whole runs: from Close on, or from Append for the appended buffer, every node is in the chain exactly as long as it was not released; when the walk is over the chain is empty and each was released once |
| `NodeChainsSafety.ExecKeeps` | nocopy_linkbuffer.go:445-481 | every atomic step of Slice, Append with its two release loops, MallocAck, Release and Close keeps the invariant these follow from |
| `NodeCounts.EntryKeeps` | nocopy_linkbuffer.go:850-880 | every reference taken or dropped is followed by the count |
| `ConnectionRuns.CloseCallbacksAtMostOnce` | connection_onevent.go:180-287 | in every run in which no close callback panics inside a task, and on a connection no other callback does, the close callbacks run at most once |
| `ConnectionRuns.CloseCallbacksExactlyOnce` | connection_reactor.go:27-68 | and exactly once when a closed connection with a handler, or closed by the user, is at rest |
| `ConnectionLimits.AtMostOnceExactlyIf` | fifo_reactor.go:96-141 | over all runs, whichever callback panics: at most once if and only if it is a FIFO to which the user added no close callback, or a connection without OnConnect and OnRequest |
| `ConnectionRuns.CallbackOrder` | connection_onevent.go:121-176 | OnConnect once and before OnRequest, OnDisconnect once and after OnConnect returned |
| `ConnectionRuns.CallbacksNeverOverlap` | connection_onevent.go:180-264 | no two OnConnect or OnRequest calls at a time |
| `ConnectionRuns.NoStrandedInput` | connection_reactor.go:92-119 | an open connection with OnRequest, greeted if OnConnect is installed, has no input left at rest |
| `ConnectionRuns.NoLostWakeup` | connection_impl.go:397-436 | on a connection, or a FIFO with a handler: a parked reader has too little input and nothing is closed, or somebody is on the way to wake it |
| `ConnectionLimits.WakeupsExactlyIf` | fifo_reactor.go:53-82 | no wake-up is lost in any calm run if and only if it is a connection or has a read handler |
| `ConnectionTeardown.TeardownExclusion` | connection_impl.go:385-395 | when the finalizer closes the buffers nobody holds `flushing` (a FIFO has no such lock) and the poller is not between do and done; nor is a Release, unless somebody else has been given the operator |
| `ConnectionTeardown.ShutForGood` | connection_lock.go:77-89 | and for good: `flushing` is never taken again, no event of this connection is handled again, and the operator's word is not taken before somebody else has it |
| `ConnectionTeardown.ReleaseTakesTheWord` | connection_impl.go:131-151 | a run in which Release takes the word of the operator it gave back, and the buffers are closed under it |
| `ConnectionTeardown.UndisturbedExactlyIf` | connection_impl.go:131-151 | over all runs: no Release is between do and done of an operator that was given back, if and only if nobody else gets the operator or Release is neither called nor under way after that |
| `ConnectionRuns.RunKeepsInv` | connection_onevent.go:121-287 | every step of every actor keeps the invariant these follow from |
| `ShardQueueRing.ExactlyOnceAtRest` | mux/shard_queue.go:92-171 | with no empty Add and no Append error, at rest every accepted getter was called once, in shard order; shards are empty and both counters zero |
| `ShardQueueSingle.ExactlyOnceAtRest` | mux/shard_queue.go:92-171 | with one shard the same of the getters, empty Adds or not |
| `ShardQueueSafety.NothingLeftAtRest` | mux/shard_queue.go:122-171 | in any run, at rest no trigger is left and every entry was read; unless an Append failed, what was accepted and not called lies in a shard |
| `ShardQueueSafety.CalledInAddOrder` | mux/shard_queue.go:92-104 | in any run, unless an Append failed, and at any time a shard's calls are the first part of what it accepted |
| `ShardQueueSafety.OneConsumer` | mux/shard_queue.go:135-171 | in any run at most one task consumes |
| `ShardQueueRing.RingNeverOverrun` | mux/shard_queue.go:122-133 | with no empty Add, unread ring entries name distinct non-empty shards and fit in the ring |
| `ShardQueueRing.WriteSlotIsFree` | mux/shard_queue.go:122-133 | and no producer overwrites an unread entry |
| `ShardQueueSafety.TriggersHaveEntries` | mux/shard_queue.go:122-159 | in any run, wherever the task is and with no task: triggers less what it still has to subtract, plus goroutines about to trigger, are the written, unread entries |
| `ShardQueueSafety.ArraysNeverAlias` | mux/shard_queue.go:135-159 | in any run the backing arrays of the shards and the spare one never alias |
| `ShardQueueSafety.RunKeepsInv` | mux/shard_queue.go:92-186 | every step of every goroutine keeps the invariant these follow from |
| `ShardQueueRing.RunKeepsInv` | mux/shard_queue.go:92-133 | and, with no empty Add, that every non-empty shard is announced once |
| `ShardQueueLimits.EmptyAddsLoseGetters` | mux/shard_queue.go:92-104 | for every number of shards from two on, a run in which an accepted getter is never called |
| `ShardQueueLimits.ExactlyOnceIff` | mux/shard_queue.go:92-171 | for a queue of any size: exactly-once delivery in every run if and only if it has one shard or no Add is empty |
| `OperatorsSafety.Partition` | fd_operator_cache.go:30-89 | every operator is on the free chain, on the freelist, or with an owner, and in one place once |
| `OperatorsSafety.NoStaleEvent` | poll_default_linux.go:118-125 | do() for a fetched event meets the owner it was reported for, or an unused operator |
| `OperatorsSafety.NoReuseInBatch` | poll_default_linux.go:91-116 | no operator with a pending event gets a new owner |
| `OperatorsSafety.HandlerHasItAlone` | fd_operator.go:65-89 | between do and done nobody resets, recycles or enters the operator |
| `OperatorsSafety.ResetMeetsNobody` | fd_operator_cache.go:65-72 | a reset operator has nobody between do and done, nor will have before a new owner |
| `Handler.OneDone` | poll_default_linux.go:121-217 | on every way through the handler, whatever the event, the callbacks and what each call gives, done() is called once, and last |
| `Handler.HungUpExactlyIf` | poll_default_linux.go:150-215 | on every way, an operator is hung up if and only if the first read, a send or the error queue failed, or the peer hung up and the reads gave nothing, or one byte and then an errno |
| `Handler.TotalIs` | poll_default.go:69-74 | totalRead is the number of bytes read, less one exactly if a read failed with an errno |
| `Handler.ServedFirstExactlyIf` | poll_default_linux.go:168-184 | a peer's hang-up hangs the operator up exactly if nothing was read, as the source says, if and only if no read of readall fails with an errno when at most one byte has been read |
| `Handler.OneByteIsDropped` | poll_default.go:69-74 | a way on which a byte was read before a reset, and the operator is hung up |
| `Handler.DeadPeerIsKept` | poll_default.go:69-74 | a way on which nothing was read before a reset, and it is not |
| `Handler.PathsEnd` | poll_default.go:58-78 | no event takes more than eleven steps, and two for each read of readall that did not fail |
| `OperatorsSafety.DonesMatch` | poll_default_linux.go:118-217 | over all runs, the operators of the handler's done() are those of its do(), in order and at most one behind |
| `OperatorsSafety.HandlerGoesOn` | poll_default_linux.go:121-217 | between do and done the handler is never stuck, and finds the callbacks of the owner the event was for |
| `OperatorsSafety.HupsAreDetached` | poll_default.go:30-56 | whenever OnHup runs, it is the callback of the owner the event was for, and that owner was deregistered and is not registered again, whoever has the operator by then |
| `OperatorsSafety.OnHupCanBeLate` | poll_default_linux.go:108-114 | a run in which the operator has a new owner before OnHup of the old one has run |
| `OperatorsSafety.ExecKeeps` | poll_default.go:30-34 | every step of owners, users and poller keeps the invariant these follow from |
| `OperatorCache.Cache.Alloc` | fd_operator_cache.go:40-61 | an operator from the chain, filled first when empty, that is on neither list; indices are positions |
| `OperatorCache.Cache.Freeable` | fd_operator_cache.go:65-72 | the operator is unused, reset and last on the freelist |
| `OperatorCache.Cache.Free` | fd_operator_cache.go:74-89 | the freelist goes back to the chain, the last entry first |
| `Output.Iovecs` | sys_exec.go:102-124 | the entries cover exactly the first min(total, 2^31-1) bytes and none is empty |
| `Output.Stream.Send` | connection_impl.go:482-509 | for any partial write, bytes taken by the kernel ++ bytes readable stay what was submitted, and something is offered while something is left |
| `Output.Stream.Submit` | connection_impl.go:228-240 | what was pending is submitted, behind what was |

## Left out

- Sockets, epoll and the other system calls: the kernel is whatever bytes it delivers, accepts or reports.
- Allocators and pools (mcache, dirtmake, sync.Pool, gopool): new arrays and nodes are new; spawned tasks run at some time.
- Timers, timeouts, waitFlush, contexts, logging and the race build: not part of this model.
- The BSD pollers, the poll manager, FIFO writers, dialers, listeners and the rest of the mux package: not part of this model.
- Reference counts are not fields of the class `LinkBuffer`; `NodeChains` treats them on their own, without bytes: how far a reader gets and which nodes a slice covers is left open there.
- LinkBuffer.LinkBuffer.WriteBuffer: the loops that release the other buffer's nodes are not in the class; they are Append in `NodeChains`.
- NodeChainsSafety.ReferIsHolders: takes readers not to pass the flush node, MallocAck not to be called with an Append pending, and WriteDirect not to be used.
- LinkBuffer.LinkBuffer.Next: and all readers of the class require that no Append awaits a Flush; the code then counts bytes it cannot reach.
- LinkBuffer.LinkBuffer.WriteDirect: keeps spare memory apart only if the user's slice is not the buffer's own memory and a read-only last node shares its array with no other; the splice itself is stated without that. It requires remainLen up to MallocLen and no Append pending.
- LinkBuffer.LinkBuffer.MallocAck: requires own, unsplit nodes behind the flush node, that is no Append and no WriteDirect pending.
- LinkBuffer.LinkBuffer.Book: requires what an input buffer is, that only bookings write to it.
- ConnectionRuns.CallbackOrder: and the other theorems of `ConnectionRuns` are about calm runs; those of `ConnectionTeardown` are not.
- ConnectionTeardown.TeardownExclusion: that an event of the connection does not meet its operator in other hands is taken from `OperatorsSafety.NoStaleEvent`.
- A panic of OnDisconnect in onHup, and that an unrecovered panic ends the whole process: not part of this model.
- ConnectionRuns.NoStrandedInput: with OnConnect installed it asks that onConnect was called for the connection.
- ShardQueueRing.ExactlyOnceAtRest: the int32 shard index is taken not to wrap, and a getter's writer is taken to be accepted by the connection.
- ShardQueueLimits.ExactlyOnceIff: for sizes up to 2^31 - 3; the run makes size + 2 calls and the index is not to wrap.
- ReadString, WriteString, WriteByte, Bytes, resetIovecs: thin variants of what is modelled.
- The order of memory operations is sequentially consistent, as Go's atomics give for the words involved; plain stores of one side that the other reads are steps of their own.
