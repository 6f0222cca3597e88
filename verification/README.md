# Verified model of the game server's infrastructure

This project models, in Dafny, the hand-written infrastructure of an IOCP game server and
proves what it promises:

* the lock-free containers: the Michael-Scott queue with tagged tail links and a counter
  gate, the versioned free list, and the versioned stack with a counter gate;
* the scheduler that runs the jobs of one session one at a time and in order;
* the receive and send path: byte ring, scatter list, frame loop, body transform, send
  batching;
* the slot pool with its fresh stacks, recycled stacks and global batches;
* the FlatBuffers table writer on the send path and the reader that must undo it;
* the load generator's bot manager.

`dafny verify dfyconfig.toml` checks the whole project.

## How it is organised

* `LockFreeQ`, `LockFreeQInvariant`, `LockFreeQSteps`, `LockFreeQTheorems`, `LockFreeQSolo`: the queue as a step machine, its invariant, preservation step by step, the promises, uninterrupted calls
* `LockFreeQCalls`: what is enqueued is what `EnQ` was called with
* `LockFreeQUse`, `LockFreeQNullRuns`: how the queue has to be used so that nobody reads a null pointer, and the runs that read one otherwise
* `FreeList`, `FreeListProof`, `FreeListCallers`, `FreeListWitness`: the free list, ABA safety and the twice-free flag, what callers have to keep to, a run that defeats the flag
* `FreeListRuns`: `Alloc` and `Free` left alone, from wherever they are
* `LockFreeStack`, `LockFreeStackProof`, `LockFreeStackRuns`, `LockFreeStackCalls`: the stack, its linearizability, calls left alone, and what is pushed
* `JobDispatcher`, `JobDispatcherProof`, `JobDispatcherRuns`, `JobDispatcherCalls`: job queues and dispatcher threads, what a worker and a `Push` do, and which jobs are run
* `Ledgers`: a record of the calls of a run, each of which takes effect at most once
* `Bytes`, `Cipher`, `RingQ`, `Frames`: bytes, the body transform, the ring, the byte stream as frames
* `Receive`, `ReceiveProof`, `Reception`, `ReceptionRun`, `EndToEnd`, `ReceiveLimits`: the frame loop on the ring and the memory behind it, exactly when it is right, completions, whole runs of transfers, messages from Send to handing over, and where receiving ends
* `SendPath`, `SendPathRuns`: Send, Start and Complete of one session, and how long a batch is in flight
* `VectorDownward`, `FlatTable`, `FlatBuild`, `FlatRoundTrip`, `FlatFinish`, `Scratchpad`, `TableBuilder`, `WholePath`: the downward buffer, the reader, the builder's effect on the bytes, the round trip, the finished buffer and its alignment, what the scratch area holds, the builder object on the buffer, and the path from added field to field read at the other end
* `FlatExample`: the bytes of the smallest message
* `Arith`, `Options`: facts about quotients, and the option type
* `PointerStack`, `SlotPool`, `SlotPoolProof`, `SlotPoolWitness`: the pool allocator, its conservation laws, and a run that drops a slot
* `SlotPoolOrder`: how many slots a page has, which one `Alloc` takes and where `Free` puts it
* `SlotPoolReach`, `SlotPoolPages`: which slots of the pool can be handed out again, and a thread with few slots that makes the pool take page after page
* `BotManager`, `BotManagerTicks`: bots and their totals, and what one `Tick` does to each bot

Concurrent code is a machine whose steps are single reads, writes, interlocked operations and
mutex sections of one thread. A run is any sequence of moves of any threads, and `Exec` gives
the state it leads to, so a statement about `Exec(moves)` holds in every interleaving.
Variables marked as history are read by no step. `Crashed` means that a null pointer was
followed, `Wild` that an address was followed that is no node.

Sequential code that updates things in place is a class or an array method, proved against a
function on sequences.

## What the code does not promise

Each of these has a lemma with a concrete run or input and one that says exactly when it
happens.

* `EnQ` constructs a node, with a null `next`, before it writes the tag. A thread with a stale
  copy of a recycled node can read that null and follow it. Both sides can: a dequeuer at front
  (`DeqNullReadHappens`) and an enqueuer that lost its first CAS (`EnqNullReadHappens`). It
  happens exactly when the stale node is between those two steps in some `EnQ`
  (`DeqNullReadExact`, `EnqNullReadExact`). What callers can do about it: with one `DeQ` at a time
  no dequeuer does (`OneDeQ`), with one `EnQ` at a time no enqueuer does (`OneEnQ`), whatever the
  other side does. And if all that is fixed is which threads may enqueue and which may dequeue,
  one side is safe if and only if a single thread uses that side (`SafeExact`); so a send queue
  with many enqueuers and one dequeuer can still read null in `EnQ`.
* The flag against freeing twice is cleared before `Alloc` returns the block, so a second
  `Free` that arrives in between is taken (`LateFreeIsTaken`, `FairExact`). Callers that free
  only what they hold never get there (`CallersAreSafe`).
* A send task that arrives while a send is in flight is dropped and the queue is not looked
  at again, so a packet can stay behind (`StrandedPacket`; `StrandExact` for a step,
  `StrandedExact` and `NothingStranded` for a run).
* A pool slot that has been freed can be out of reach for good, in two ways. Pushed onto a full
  fresh stack it is dropped; that takes a page that took over a global batch (`PoolSafe`), and
  there is such a run for every page size of at least two (`SlotIsLost`). Or its own thread frees
  it onto a page that the thread has left: `ChunkAlloc` points the thread at a new page when its
  own is empty, and never back, so what is pushed onto the old page stays there. These are the
  only ways (`ReachStep`), nothing undoes them (`GoneForGood`), and every other slot that is not
  live is handed out again by some continuation (`ReachExact`). A thread that never has more than
  one slot beyond a page's worth can make the pool take any number of pages (`PagesPileUp`).
* A ring request for zero bytes leaves position -1 exactly at the last index
  (`RingQ.Ring.Enqueue`, `RingQ.Ring.Dequeue`).
* The frame loop reads header and body through one flat pointer, so a frame that runs over the
  end of the ring is handed over with bytes of whatever lies behind the buffer
  (`FrameOverTheEnd`, `SecondCrosses`), exactly when it is not in one piece (`FlatReadExact`,
  `LoopExact`, `MessagesArrive`).
* A message longer than the ring can hold stops receiving for good (`LongMessageStops`), and
  nothing else fills the ring (`StopExact`, `StopsOnlyThere`, `AlwaysRoom`).
* `FieldIndexToOffset` lets vtable offset 65534 pass, for which the 16-bit vtable size wraps
  to 4; this is the only such offset (`VtableHoldsField`).

## Model

| member | source | states |
|---|---|---|
| `LockFreeQSteps.InitInv` | ServerCore/Memory/LockFreeQ.h:26-49 | The constructor's state, one dummy node that front and rear share, meets the invariant for every capacity |
| `LockFreeQSteps.StepKeeps` | ServerCore/Memory/LockFreeQ.h:96-225 | Every step of every thread in EnQ or DeQ, with torn pair reads, stale copies and recycled nodes, keeps the invariant (distinct tags, linked list from front to tail, each node linked, pooled or held by one thread) |
| `LockFreeQSteps.Cas1OnTrueTail` | ServerCore/Memory/LockFreeQ.h:115-132 | If the expected word of CAS 1 is found in the node, then the pair the thread read is the current rear and its node is the last one linked, however stale or torn the reads were |
| `LockFreeQSteps.FrontBehindRear` | ServerCore/Memory/LockFreeQ.h:149-178 | Front position <= front position plus dequeuers past the gate <= counted enqueues <= rear position, and strictly front < rear while somebody is past the gate |
| `LockFreeQSteps.ExecInv` | ServerCore/Memory/LockFreeQ.h:26-225 | The invariant holds after every run from the constructor |
| `LockFreeQTheorems.LogStep` | ServerCore/Memory/LockFreeQ.h:96-225 | A step changes the abstract queue only as CAS 1 (appending the value the thread carries, which EnQAsCalled shows to be its argument) or as the front CAS (removing the value at the head, which is the one the thread read before the CAS) |
| `LockFreeQCalls.EnQAsCalled` | ServerCore/Memory/LockFreeQ.h:96-163 | In every run the values enqueued are the arguments of EnQ calls, of each call at most once; every call has enqueued its argument or is before its CAS 1 and carries it; no thread carries any other |
| `LockFreeQCalls.NothingInvented` | ServerCore/Memory/LockFreeQ.h:96-225 | In every run what was enqueued, and what was dequeued, is as a multiset among the arguments that EnQ was called with, going by the moves |
| `LockFreeQTheorems.Linearizable` | ServerCore/Memory/LockFreeQ.h:96-225 | In every run the CASes in their order are a legal history of a sequential FIFO queue, and walking the real nodes from front reads exactly its contents; EnQAsCalled ties its values to the calls |
| `LockFreeQTheorems.Delivery` | ServerCore/Memory/LockFreeQ.h:166-225 | Dequeued values are a prefix of enqueued values, which NothingInvented ties to the calls; the k-th successful dequeuer has the k-th enqueued value, and it is the one it returns |
| `LockFreeQTheorems.DeliveredOnce` | ServerCore/Memory/LockFreeQ.h:166-225 | Once a value has been delivered, no step of anybody delivers that position again or changes who got what |
| `LockFreeQTheorems.Safety` | ServerCore/Memory/LockFreeQ.h:96-225 | In every run no thread follows an address that is no node, rear is the last or second-last linked node, and the nodes of front and rear are neither pooled nor held by any thread |
| `LockFreeQTheorems.TagsUnique` | ServerCore/Memory/LockFreeQ.h:107-110 | In every run a tag is in the `next` of at most one node, also after nodes have been recycled |
| `LockFreeQTheorems.RearAdvances` | ServerCore/Memory/LockFreeQ.h:134-156 | A step leaves rear where it is or is a helping CAS or CAS 2 that moves it to the next linked node; rear never goes back |
| `LockFreeQTheorems.DeqNullReadExact` | ServerCore/Memory/LockFreeQ.h:183-199 | A dequeuer follows null at `next` if and only if its front node is one that some EnQ has constructed and not yet tagged |
| `LockFreeQTheorems.EnqNullReadExact` | ServerCore/Memory/LockFreeQ.h:107-147 | The same for an enqueuer that lost CAS 1 and reads the successor of its rear copy |
| `LockFreeQSolo.SoloEnQ` | ServerCore/Memory/LockFreeQ.h:96-163 | In every reachable state an EnQ that starts below capacity and is the only one to move finishes, with its node linked behind the last linked node and rear on it, also when rear lagged behind and had to be helped first |
| `LockFreeQSolo.SoloDeQ` | ServerCore/Memory/LockFreeQ.h:166-225 | In every reachable state with a positive count a DeQ that is the only one to move finishes, with front on the next linked node, the old node pooled and the count lowered |
| `LockFreeQSolo.WholeEnQ` | ServerCore/Memory/LockFreeQ.h:96-163 | In every reachable state, an idle thread that calls EnQ(d) at or below capacity and is left alone leaves a node with d at the tail, rear on it, and is idle again |
| `LockFreeQSolo.FullEnQ` | ServerCore/Memory/LockFreeQ.h:98-102 | Above capacity the call crashes at its first step and changes nothing |
| `LockFreeQSolo.WholeDeQ` | ServerCore/Memory/LockFreeQ.h:166-225 | In every reachable state with a positive count, an idle thread that calls DeQ and is left alone leaves front on the next linked node and the old one pooled |
| `LockFreeQSolo.EmptyDeQ` | ServerCore/Memory/LockFreeQ.h:166-178 | With no positive count the call leaves everything as it was |
| `LockFreeQSolo.AloneIsExec` | ServerCore/Memory/LockFreeQ.h:96-225 | What these two call "the only one to move" is a run all of whose moves are that thread's and none of them a new call |
| `LockFreeQUse.OneDeQ` | ServerCore/Memory/LockFreeQ.h:166-225 | In every run in which DeQ is called only while no DeQ is under way, with any number of enqueuers, no dequeuer follows null at `next`: the node it is at is live and tagged, and its front copy is front at its CAS |
| `LockFreeQUse.OneEnQ` | ServerCore/Memory/LockFreeQ.h:96-163 | In every run in which EnQ is called only while no EnQ is under way, no enqueuer reads a successor at all: its rear copy is rear and its CAS 1 finds the word it expects |
| `LockFreeQUse.SingleUser` | ServerCore/Memory/LockFreeQ.h:96-225 | A single thread on one side is one call of that kind at a time, whatever the moves |
| `LockFreeQNullRuns.DeqNullReadHappens` | ServerCore/Memory/LockFreeQ.h:107-110 | For all sets of threads that enqueue and dequeue with two dequeuers and an enqueuer other than one of them, a run that keeps to them and ends in that dequeuer's null read |
| `LockFreeQNullRuns.EnqNullReadHappens` | ServerCore/Memory/LockFreeQ.h:107-147 | The same for two enqueuers and a dequeuer: an enqueuer that lost CAS 1 follows the null `next` of its stale rear node |
| `LockFreeQNullRuns.SafeExact` | ServerCore/Memory/LockFreeQ.h:96-225 | Given who may enqueue and who may dequeue, no run whatever reads null on a side if and only if exactly one thread uses that side |
| `FreeListProof.PopIsCurrent` | ServerCore/Memory/FreeList.h:225-263 | If the 128-bit CAS of Alloc succeeds, the `next` it installs is the current successor of the current top, although it was read earlier |
| `FreeListProof.ExecInv` | ServerCore/Memory/FreeList.h:163-276 | In every run in which no Free reaches a block between an Alloc's flag reset and its return, every block is on the list, inside one call or out, and the list is the versioned chain |
| `FreeListProof.TwiceFreeExact` | ServerCore/Memory/FreeList.h:177-183 | Free finds the flag set, and throws, if and only if the block is not out |
| `FreeListProof.AbaSafe` | ServerCore/Memory/FreeList.h:163-276 | In every such run Alloc never hands out a block that is out, Free takes exactly the blocks that are out, no thread follows a wild address, and the chain from top is finite, without repetition, and made of blocks that are not out |
| `FreeListProof.FairExact` | ServerCore/Memory/FreeList.h:180-183 | A step keeps the calls legal if and only if it is not a Free of a block whose flag an Alloc has reset and not yet returned |
| `FreeListRuns.SoloAlloc` | ServerCore/Memory/FreeList.h:225-276 | In every state that meets the invariant, an Alloc that is left alone anywhere before its CAS has worked, with a stale copy of top too, hands out the block on top, cleared, and leaves its successor on top; only if there is none, or it has read that there is none, it hands out a new one |
| `FreeListRuns.WholeAlloc` | ServerCore/Memory/FreeList.h:225-276 | The same for the whole call |
| `FreeListRuns.SoloFree` | ServerCore/Memory/FreeList.h:185-221 | A Free past the flag that is left alone, with a stale copy of top too, leaves its block on top of what was the list |
| `FreeListRuns.WholeFree` | ServerCore/Memory/FreeList.h:163-221 | The whole call left alone: nothing for a pointer that is no block, a rejection if the flag is set, else the block, flagged, on top |
| `FreeListRuns.FreeAsCalled` | ServerCore/Memory/FreeList.h:163-221 | In every run a thread in Free works on the block of its last call |
| `FreeListCallers.CallersAreFair` | ServerCore/Memory/FreeList.h:163-276 | If Free is called only for blocks that are out and not while another call gives the same block back, the condition of the other theorems holds over the whole run |
| `FreeListCallers.CallersAreSafe` | ServerCore/Memory/FreeList.h:163-276 | Such callers get the full safety of the list, and none of their calls throws |
| `FreeListWitness.LateFreeIsTaken` | ServerCore/Memory/FreeList.h:266-275 | For every block a run whose calls are: handed out, given back, given back again and taken; that is not a legal history |
| `LockFreeStackProof.ExecInv` | ServerCore/Memory/LockFreeStack.h:66-155 | Every run keeps the invariant: versioned top, chain of nodes, counters, ownership of each node |
| `LockFreeStackProof.NeverEmpty` | ServerCore/Memory/LockFreeStack.h:111-135 | A Pop past the counter gate finds a non-null top that is a node, whatever the others do |
| `LockFreeStackProof.Linearizable` | ServerCore/Memory/LockFreeStack.h:66-155 | In every run the CASes are a legal history of a sequential stack, the real chain from top reads exactly its contents, nobody crashes, and each Pop returns the value its CAS removed |
| `LockFreeStackProof.Conservation` | ServerCore/Memory/LockFreeStack.h:66-155 | In a legal history each value was pushed as often as it was popped plus as often as it is still on the stack |
| `LockFreeStackRuns.SoloPush` | ServerCore/Memory/LockFreeStack.h:66-109 | Wherever a Push is once it has its node, left alone it ends with its value on top of what was the stack and the count raised |
| `LockFreeStackRuns.SoloPop` | ServerCore/Memory/LockFreeStack.h:118-155 | Wherever a Pop is once it is past the gate, with a stale copy of top too, left alone it takes the top, pools its node and returns its value |
| `LockFreeStackRuns.WholePush` | ServerCore/Memory/LockFreeStack.h:66-109 | The whole call, from an idle thread |
| `LockFreeStackRuns.WholePop` | ServerCore/Memory/LockFreeStack.h:111-155 | The whole call takes the top if the count is positive, and otherwise leaves everything as it was |
| `LockFreeStackCalls.PushAsCalled` | ServerCore/Memory/LockFreeStack.h:66-109 | In every run the values pushed are the arguments of Push calls, of each call at most once; every call has pushed its argument or is before its CAS and carries it |
| `LockFreeStackCalls.NothingInvented` | ServerCore/Memory/LockFreeStack.h:66-155 | No value is popped more often than pushed, nor pushed more often than Push was called with it |
| `JobDispatcherProof.ExecInv` | ServerCore/Network/JobDispatcher.cpp:33-91 | Every run of pushers and dispatcher threads keeps the invariant |
| `JobDispatcherProof.Serialized` | ServerCore/Network/JobDispatcher.cpp:69-91 | In every run at most one worker has a queue, a queue that a worker has is not in the active deque, no queue is in the deque twice, and the executed jobs of each queue are a prefix of its pushed jobs |
| `JobDispatcherProof.NoLostWakeUp` | ServerCore/Network/JobQueue.cpp:15-39 | The count is queued plus in-batch jobs, less one while a pusher is between append and fetch_add; it is positive if and only if the queue is in the deque, held by a worker, or about to be pushed; that workers serve the deque is StopsWhenTold and Serves |
| `JobDispatcherProof.BatchNotEmpty` | ServerCore/Network/JobDispatcher.cpp:69-91 | A queue popped from the active deque yields a non-empty batch |
| `JobDispatcherProof.Drained` | ServerCore/Network/JobQueue.cpp:15-39 | When the deque is empty and nobody is inside a call or a batch, every pushed job of every queue has been executed |
| `JobDispatcherRuns.StopsWhenTold` | ServerCore/Network/JobDispatcher.cpp:69-91 | In every run the dispatcher is running if and only if Stop has not been made, and no worker has left its loop unless it has |
| `JobDispatcherRuns.Serves` | ServerCore/Network/JobDispatcher.cpp:42-91 | In every reachable state of a running dispatcher with a non-empty deque, a worker at its test that is left alone, with nobody in a Push to the front queue, takes that queue off the front, runs all its jobs in order, lowers its count by their number, which leaves nothing, and is back at its test; the rest of the deque is as it was |
| `JobDispatcherRuns.Works` | ServerCore/Network/JobDispatcher.cpp:78-83 | From anywhere in a batch a worker left alone runs the rest of it in order |
| `JobDispatcherRuns.Finishes` | ServerCore/Network/JobDispatcher.cpp:85-88 | Then it lowers the count and puts the queue back, behind the others, if and only if the count is still positive |
| `JobDispatcherRuns.Ends` | ServerCore/Network/JobDispatcher.cpp:42-91 | Once Stop has been made, a worker left alone at its test or waiting at an empty deque leaves its loop |
| `JobDispatcherRuns.Pushes` | ServerCore/Network/JobQueue.cpp:15-23 | A Push left alone: the job is behind the queue's others, the count is one higher, and the queue is behind the others in the deque if and only if the count was zero |
| `JobDispatcherCalls.PushAsCalled` | ServerCore/Network/JobQueue.cpp:15-23 | In every run the jobs appended to each queue are those of Push calls for it, each call counting once, in the order of the appends; every call has appended its job or is about to |
| `JobDispatcherCalls.AllPushed` | ServerCore/Network/JobQueue.cpp:15-23 | With no Push under way every job given to Push has been appended to the queue it was given for |
| `Cipher.Convert` | ServerCore/Network/NetworkServer.cpp:32-45 | The in-place loop leaves every byte outside its range as it was, and in its range each bit of a byte differs from what it was if and only if it is set in the key byte of that position, which is the sum over i <= n of (KEY[i % 16] * 253 + 195) * 253^(n - i), modulo 256 |
| `Cipher.ConvertedIs` | ServerCore/Network/NetworkServer.cpp:32-45 | The same bit by bit for the function on sequences that the other results use |
| `Cipher.KeyAtIs` | ServerCore/Network/NetworkServer.cpp:37-41 | The key byte computed from the one before is that sum |
| `Cipher.FirstKeyBytes` | ServerCore/Network/NetworkServer.cpp:34-41 | The first sixteen key bytes, one for each letter of the key: 220, 72, 254, 211 and so on |
| `Cipher.ConvertedTwice` | ServerCore/Network/NetworkServer.cpp:32-45 | The transform keeps the length and is its own inverse, for all bytes and lengths |
| `Cipher.ConvertedPrefix` | ServerCore/Network/NetworkServer.cpp:32-45 | A prefix of the input alone decides that prefix of the output |
| `RingQ.RemIsRemainder` | ServerCore/Memory/RingBuffer.cpp:53-68 | The model's position arithmetic is the C++ remainder, negative operands included, on the range the ring uses |
| `Arith.PosIsRemainder` | ServerCore/Memory/RingBuffer.cpp:53-68 | The function by which positions are advanced is the remainder, for every offset |
| `RingQ.Sizes` | ServerCore/Memory/RingBuffer.cpp:168-205 | Used plus free is always N - 1; direct sizes never exceed them, stay inside the buffer, and what they leave over starts at index 0 |
| `RingQ.Ring.constructor` | ServerCore/Memory/RingBuffer.cpp:12-19 | A new ring holds no bytes |
| `RingQ.Ring.Enqueue` | ServerCore/Memory/RingBuffer.cpp:25-74 | Appends the longest prefix that fits, across one or two copies; zero bytes at the last index leave position -1 |
| `RingQ.Ring.Dequeue` | ServerCore/Memory/RingBuffer.cpp:76-122 | Removes and returns the longest available prefix, leaves the rest of the destination alone; zero bytes at the last index leave position -1 |
| `RingQ.Ring.Peek` | ServerCore/Memory/RingBuffer.cpp:393-438 | Returns the same bytes and changes nothing in the ring |
| `RingQ.Ring.GetDirectEnQData` | ServerCore/Memory/RingBuffer.cpp:243-264 | The loop yields the list of direct segments of the free region |
| `RingQ.ScatterList` | ServerCore/Memory/RingBuffer.cpp:243-264 | That list has at most two segments, and read in order its indices are exactly the free indices after the write position, each once |
| `RingQ.TransferAppends` | ServerCore/Memory/RingBuffer.cpp:318-327 | Filling the first k bytes of the listed segments and moving the write position by k appends exactly those k bytes, for every k |
| `RingQ.Appended` | ServerCore/Memory/RingBuffer.cpp:25-74 | Bytes written after rear, wrapping, and rear moved by their number: the stored sequence is the old one followed by them |
| `RingQ.Dropped` | ServerCore/Memory/RingBuffer.cpp:329-338 | Moving the read position by k removes exactly the k oldest bytes |
| `Frames.FramesPartition` | ServerCore/Network/NetworkTask.cpp:224-248 | The complete frames and the remainder together are the stream, and the remainder holds no complete frame |
| `Frames.FramesAppend` | ServerCore/Network/NetworkTask.cpp:224-248 | Parsing a stream and then the remainder with more bytes is parsing the longer stream |
| `Frames.PacketIsFrame` | ServerCore/Network/NetworkSession.h:54-75 | A packet made by Send is exactly one frame for the receiver, whatever follows it, and opening it restores size and body |
| `Frames.PacketIs` | ServerCore/Network/NetworkSession.h:54-75 | The bytes of a packet: four bytes of size, least significant first, then the body enciphered bit by bit |
| `Frames.WireFrames` | ServerCore/Network/NetworkSession.h:54-75 | Parsing the packets of any sequence of sent bodies gives back exactly those messages, with nothing left over |
| `Receive.ConvertFlat` | ServerCore/Network/NetworkServer.cpp:32-45 | Convert through the flat pointer transforms exactly its range, bit by bit as Convert, whether it ends inside the ring's buffer or behind it |
| `Receive.Turn` | ServerCore/Network/NetworkTask.cpp:230-244 | One turn on the ring and the memory behind it: stop, or hand over the frame the flat pointer sees, with its body transformed in place and the read position moved past it |
| `Receive.FrameLoop` | ServerCore/Network/NetworkTask.cpp:228-248 | The loop ends, and does what its turns say, for every content of the ring and of the memory behind it |
| `ReceiveProof.FlatReadExact` | ServerCore/Network/NetworkTask.cpp:233-242 | The k bytes at the flat pointer are the k oldest bytes of the ring, whatever lies behind the buffer, if and only if they do not run over its end |
| `ReceiveProof.ConsumedBytesDoNotShow` | ServerCore/Network/NetworkTask.cpp:240-243 | Rewriting consumed bytes in the ring alters no unread byte, also when the unread part wraps |
| `ReceiveProof.LoopRight` | ServerCore/Network/NetworkTask.cpp:228-248 | On safe contents the loop hands over exactly the complete frames, opened, leaves exactly the rest in the ring, and leaves the memory behind it alone |
| `ReceiveProof.LoopExact` | ServerCore/Network/NetworkTask.cpp:228-248 | The loop hands over exactly the complete frames, whatever lies behind the buffer, if and only if every complete frame lies in one piece and the header of an incomplete one lies in one piece or is already too large |
| `ReceiveProof.YieldsIs` | ServerCore/Network/NetworkTask.cpp:228-248 | Taking frames off one by one is the same as parsing the stream into frames and rest |
| `ReceiveProof.FrameOverTheEnd` | ServerCore/Network/NetworkTask.cpp:233-242 | In the 7000-byte buffer a five-byte frame whose last byte has wrapped is handed over with a byte of foreign memory in it, whatever that byte is, unless it happens to be the same |
| `Reception.TakeIn` | ServerCore/Network/NetworkTask.cpp:184-225 | A transfer into the segments of GetDirectEnQData, followed by MoveWitePosition, appends exactly its bytes |
| `Reception.Complete` | ServerCore/Network/NetworkTask.cpp:207-252 | Complete on the ring: on safe contents exactly the frames of the old contents and the transfer are handed over and exactly the rest is left; it asks for more if and only if there is room |
| `ReceptionRun.ReceiveChunk` | ServerCore/Network/NetworkTask.cpp:171-252 | The ring does what one transfer of the runs below does, for every transfer: one for which there is no room does not take place, and a run that is spoilt stays spoilt |
| `ReceptionRun.ReceiveAll` | ServerCore/Network/NetworkTask.cpp:171-252 | Any list of transfers into a new ring, one after the other, is such a run, spoilt or not |
| `ReceptionRun.RunIsStream` | ServerCore/Network/NetworkTask.cpp:207-252 | However the stream is cut into transfers that fit the ring, an unspoilt run has handed over exactly the complete frames of all bytes received and holds exactly the rest |
| `EndToEnd.SafeIs` | ServerCore/Network/NetworkTask.cpp:228-248 | Contents are safe if and only if their frames lie in one piece and their rest does no harm, in terms of positions in the stream |
| `EndToEnd.RunExact` | ServerCore/Network/NetworkTask.cpp:207-252 | A transfer leaves a run unspoilt if and only if all frames received so far lie in one piece and the incomplete one does no harm |
| `EndToEnd.MessagesArrive` | ServerCore/Network/NetworkSession.h:54-75 | Once all that was sent has been taken in, in any transfers that fit, the messages have been handed over as sent, in order, with nothing left over, if and only if none of them ran over the end of the ring; which ones do is given by their sizes alone |
| `ReceiveLimits.InTransit` | ServerCore/Network/NetworkTask.cpp:207-252 | Underway, exactly the first messages have been handed over and less than the next one is held |
| `ReceiveLimits.AlwaysRoom` | ServerCore/Network/NetworkTask.cpp:179-182 | Messages of at most N - 5 bytes never fill the ring, so Start always asks for more |
| `ReceiveLimits.StopExact` | ServerCore/Network/NetworkTask.cpp:179-182 | A full ring holds no complete frame, so that receiving stops, if and only if the frame at its head is longer than N - 1 bytes or has a negative size |
| `ReceiveLimits.StopsOnlyThere` | ServerCore/Network/NetworkTask.cpp:179-182 | In every run, a ring that is full after the loop has such a frame at its head |
| `ReceiveLimits.Blocked` | ServerCore/Network/NetworkTask.cpp:228-252 | With such a frame at the head no transfer hands anything over; it only fills the ring |
| `ReceiveLimits.NeverBeyond` | ServerCore/Network/NetworkTask.cpp:179-182 | In no run is a message that does not fit the ring handed over, nor any after it |
| `ReceiveLimits.LongMessageStops` | ServerCore/Network/NetworkTask.cpp:179-182 | For every message too long for the ring a run that leaves the ring full with nothing handed over; for the 7000-byte ring, every body of 6996 bytes or more |
| `ReceiveLimits.SecondCrosses` | ServerCore/Network/NetworkTask.cpp:233-242 | Any two messages of which the second crosses the end of the ring spoil every run that takes them in |
| `SendPath.ExecInv` | ServerCore/Network/NetworkTask.cpp:266-354 | Every run of Send, Start and Complete keeps the invariant |
| `SendPath.OneSendAtATime` | ServerCore/Network/NetworkTask.cpp:266-354 | In every run at most one task is past m_isSending; deleted packets, packets in hand and queued packets, in this order, are exactly the enqueue order; submitted packets are a prefix of it, and only submitted ones are deleted; when they may be is InFlightUntilCompleted |
| `SendPathRuns.QueuedAsGiven` | ServerCore/Network/NetworkSession.h:54-75 | In every run the send queue was given exactly the packets that Send was called with, in this order, and there is one task for every Send that has posted, going by the moves |
| `SendPathRuns.InFlightUntilCompleted` | ServerCore/Network/NetworkTask.cpp:306-337 | From the move in which WSASend accepts a batch, over every continuation without that send's completion: the task is in flight, m_isSending set, no packet deleted and no other batch submitted |
| `SendPathRuns.FailedSend` | ServerCore/Network/NetworkTask.cpp:305-320 | When WSASend fails, the task left alone deletes exactly its batch and releases m_isSending |
| `SendPathRuns.CompletedSend` | ServerCore/Network/NetworkTask.cpp:325-337 | On completion the task left alone deletes exactly its batch and releases m_isSending |
| `SendPathRuns.SoloStart` | ServerCore/Network/NetworkTask.cpp:266-323 | A task that starts while nothing is being sent and is left alone submits the whole queue as one batch, in order, or releases m_isSending if the queue is empty |
| `SendPathRuns.StartWhileSending` | ServerCore/Network/NetworkTask.cpp:274-278 | A task that starts while something is being sent is gone at once and changes nothing else |
| `SendPath.StrandExact` | ServerCore/Network/NetworkTask.cpp:275-303 | A step leaves packets queued with nobody on the way if and only if the last task on the way gives up on a non-empty queue, because m_isSending is set or its DeQ fails |
| `SendPath.StrandedExact` | ServerCore/Network/NetworkTask.cpp:266-354 | After a run packets are stranded if and only if at some step the last task on the way gave up on a non-empty queue and nothing has been queued since |
| `SendPath.NothingStranded` | ServerCore/Network/NetworkTask.cpp:266-354 | When everything has come to rest, every packet has been submitted and deleted if and only if the run left none behind |
| `SendPath.StrandedPacket` | ServerCore/Network/NetworkTask.cpp:337-353 | For all packets p and q a run that comes to rest with q still queued |
| `VectorDownward.MemcpyDownward` | flatbuffers/flatbuffers/allocator.h:57-63 | The new block has the old one's bytes at both ends that are in use |
| `VectorDownward.Vector.Reallocate` | flatbuffers/flatbuffers/vector_downward.h:269-284 | Growth keeps the written bytes and the scratch bytes and leaves at least the requested room between them |
| `VectorDownward.Vector.EnsureSpace` | flatbuffers/flatbuffers/vector_downward.h:141-148 | The same, moving the block only when there is too little room |
| `VectorDownward.Vector.MakeSpace` | flatbuffers/flatbuffers/vector_downward.h:150-157 | Room for len bytes in front of what is written, which stays as it was, as does the scratch area |
| `VectorDownward.Vector.Push` | flatbuffers/flatbuffers/vector_downward.h:195-197 | The bytes are in front of everything written before; scratch unchanged |
| `VectorDownward.Vector.Fill` | flatbuffers/flatbuffers/vector_downward.h:213-216 | That many zeros are in front of everything written before; scratch unchanged |
| `VectorDownward.Vector.Pop` | flatbuffers/flatbuffers/vector_downward.h:224-227 | Removes the bytes written last |
| `VectorDownward.Vector.ScratchPush` | flatbuffers/flatbuffers/vector_downward.h:205-209 | Appends to the scratch area and keeps the written bytes, across a reallocation |
| `VectorDownward.Vector.ScratchPop` | flatbuffers/flatbuffers/vector_downward.h:229-229 | Drops the end of the scratch area and nothing else |
| `VectorDownward.Vector.WriteAt` | flatbuffers/flatbuffers/vector_downward.h:193-193 | A scalar stored through data_at(off) replaces exactly the bytes at that offset from the end |
| `FlatTable.Prepended` | flatbuffers/flatbuffers/vector_downward.h:193-197 | Offsets from the end are stable: whatever is put in front, every read inside the old bytes gives what it gave |
| `FlatTable.FieldStable` | flatbuffers/flatbuffers/table.h:45-56 | GetField and GetPointer that gave an answer give the same one after any later writing in front |
| `FlatTable.FieldOffsetIs` | flatbuffers/flatbuffers/table.h:29-43 | Wherever a table's vtable lies, before or after it, GetOptionalFieldOffset gives that vtable's entry, or 0 past its end |
| `FlatBuild.PaddingBytes` | flatbuffers/flatbuffers/base.h:458-460 | Fewer bytes than the scalar has, and they make the size a multiple of it |
| `FlatBuild.AddedKeeps` | flatbuffers/flatbuffers/flatbuffer_builder.h:325-391 | After each Add call every field so far is as it should be: a scalar is in the buffer where it was tracked, at a multiple of its width, unless it equals its default and defaults are not forced, and a reference unless it is null |
| `FlatBuild.VtableHoldsField` | flatbuffers/flatbuffers/flatbuffer_builder.h:431-434 | The vtable EndTable makes has room for entry id if and only if id is not 65534; for 65534 its size is 4 |
| `FlatBuild.WrittenAt` | flatbuffers/flatbuffers/flatbuffer_builder.h:442-451 | After the loop each vtable entry is the distance to the field tracked for it, and the others are as they were |
| `FlatBuild.VtableSizes` | flatbuffers/flatbuffers/flatbuffer_builder.h:431-440 | The first two entries are the vtable's size and the object's size |
| `FlatBuild.VtableEntry` | flatbuffers/flatbuffers/flatbuffer_builder.h:442-451 | A field's entry is its distance from the table, absent fields have 0 or no entry |
| `FlatRoundTrip.EndedReads` | flatbuffers/flatbuffers/flatbuffer_builder.h:418-484 | After EndTable the reader finds each field where it was tracked and no other, whether the new vtable was kept or an older equal one is shared |
| `FlatRoundTrip.EndedStable` | flatbuffers/flatbuffers/flatbuffer_builder.h:418-484 | EndTable leaves every byte written before readable at its offset |
| `FlatRoundTrip.RoundTrip` | flatbuffers/flatbuffers/flatbuffer_builder.h:409-484 | For every sequence of tables with distinct fields, with defaults forced or not and vtables shared or not, for every table at the end: GetField with the field's default gives the value added, GetPointer gives the child table; the vtable entry at 4 + 2 * index is not 0 if and only if, for a scalar, defaults are forced or the value is not the default, and for a reference, it is not null; such a field lies at a multiple of its width, and every other entry is 0 |
| `FlatRoundTrip.TableFits` | flatbuffers/flatbuffers/flatbuffer_builder.h:435-437 | A table whose fields and padding fit 16 bits is always built while the buffer is well below two gigabytes |
| `FlatRoundTrip.EndedShares` | flatbuffers/flatbuffers/flatbuffer_builder.h:456-473 | With sharing on, EndTable keeps the remembered vtables inside the buffer and pairwise different |
| `FlatRoundTrip.SharesExactly` | flatbuffers/flatbuffers/flatbuffer_builder.h:456-473 | EndTable leaves its vtable out if and only if sharing is on and a remembered vtable has the same bytes, and then uses such a one; otherwise its vtable is in front and remembered |
| `FlatRoundTrip.NoVtableTwice` | flatbuffers/flatbuffers/flatbuffer_builder.h:456-473 | So no run with sharing on stores a vtable twice |
| `FlatExample.BytesOfOne` | flatbuffers/flatbuffers/flatbuffer_builder.h:409-484 | For every value but the default, all twenty bytes of a message of one table with one 32-bit field |
| `FlatExample.BytesOfDefault` | flatbuffers/flatbuffers/flatbuffer_builder.h:333-341 | For the default, all twelve: the vtable has no entry and the table no field |
| `FlatFinish.FinishedRoot` | flatbuffers/flatbuffers/flatbuffer_builder.h:1258-1283 | The first word of the finished buffer leads GetRoot to the root table, and all offsets stay valid |
| `FlatFinish.FinishedRoundTrip` | flatbuffers/flatbuffers/flatbuffer_builder.h:1258-1283 | From the first byte of the finished buffer, with or without room for a size prefix, every field of every table reads back |
| `FlatFinish.AlignIs` | flatbuffers/flatbuffers/flatbuffer_builder.h:285-292 | After any sequence of tables minalign_ is 1, 2, 4 or 8, at least 4 once there is a table, and at least the width of every element stored |
| `FlatFinish.PaddedSize` | flatbuffers/flatbuffers/flatbuffer_builder.h:516-520 | After PreAlign the root's own Align adds nothing, and size prefix, root word and the rest together are a multiple of the alignment |
| `FlatFinish.AllAligned` | flatbuffers/flatbuffers/flatbuffer_builder.h:1258-1283 | In the finished block, its size prefix included, every table and vtable and every stored field of every table lies at a multiple of its width from the first byte, and the block's length is a multiple of minalign_ |
| `VectorDownward.Vector.ReadAt` | flatbuffers/flatbuffers/vector_downward.h:193-193 | Reading through data_at(off) gives the bytes at that offset from the end |
| `Scratchpad.LocReadsBack` | flatbuffers/flatbuffers/flatbuffer_builder.h:1285-1288 | The bytes of a FieldLoc give back its offset and its id |
| `Scratchpad.KeepingNoLocs` | flatbuffers/flatbuffers/flatbuffer_builder.h:508-512 | Dropping the locations from the scratch bytes leaves exactly the remembered vtable offsets |
| `TableBuilder.Builder.TrackField` | flatbuffers/flatbuffers/flatbuffer_builder.h:325-330 | Appends the location to the scratch bytes and keeps max_voffset_ the largest id, across a reallocation of the block |
| `TableBuilder.Builder.ReadLoc` | flatbuffers/flatbuffers/flatbuffer_builder.h:442-444 | The pointer into the scratch area reads the i-th location tracked since StartTable |
| `TableBuilder.Builder.ReadOffset` | flatbuffers/flatbuffers/flatbuffer_builder.h:459-462 | The pointer into the scratch area reads the i-th vtable remembered |
| `TableBuilder.Builder.AddElement` | flatbuffers/flatbuffers/flatbuffer_builder.h:333-341 | A default that is not forced leaves bytes and locations as they were; otherwise the scalar is in front, aligned, and its location is appended. It is the effect the round trip is proved for |
| `TableBuilder.Builder.AddOffset` | flatbuffers/flatbuffers/flatbuffer_builder.h:343-391 | Null leaves bytes and locations as they were; otherwise the distance is in front, aligned, and its location is appended. It is the effect the round trip is proved for |
| `TableBuilder.NotYetWritten` | flatbuffers/flatbuffers/flatbuffer_builder.h:447-449 | With distinct fields the assertion against setting a field twice holds at every turn |
| `TableBuilder.Builder.WriteEntries` | flatbuffers/flatbuffers/flatbuffer_builder.h:442-451 | The loop in place on the buffer writes exactly the entries and nothing behind the vtable |
| `TableBuilder.Builder.FindVtable` | flatbuffers/flatbuffers/flatbuffer_builder.h:458-469 | The search finds the first remembered vtable with the same size and bytes |
| `TableBuilder.Builder.ShareVtable` | flatbuffers/flatbuffers/flatbuffer_builder.h:453-473 | A match pops the new vtable and remembers nothing; otherwise it is kept and remembered; the test vt_use == GetSize tells the two apart |
| `TableBuilder.Builder.EndTable` | flatbuffers/flatbuffers/flatbuffer_builder.h:418-484 | Leaves exactly the bytes, remembered vtables, minalign_ and table offset that the round trip is proved for |
| `TableBuilder.Builder.BuildMessage` | flatbuffers/flatbuffers/flatbuffer_builder.h:409-484 | StartTable, the Add calls and EndTable together are one step of the sequence in the round trip |
| `TableBuilder.Builder.Finish` | flatbuffers/flatbuffers/flatbuffer_builder.h:1258-1283 | Clears the scratch area and leaves exactly the finished bytes that the two properties above are proved for, behind their size if asked for |
| `WholePath.SentFieldsArrive` | ServerCore/Network/NetworkSession.h:54-75 | For every sequence of messages packed and sent and every way to cut them into transfers that fit the ring: as many messages are handed over, and the i-th has the i-th's root, answers every field of every table with what was added and has them at multiples of their widths from its first byte, if and only if none of them ran over the end of the ring |
| `PointerStack.Stack.Push` | ServerCore/Utill/PointerStack.h:10-20 | Appends and says true if there was room, else changes nothing and says false |
| `PointerStack.Stack.Pop` | ServerCore/Utill/PointerStack.h:22-29 | Removes and returns the last element, or says there is none |
| `SlotPool.SlotCountAtLeast64` | ServerCore/Memory/Chunk.h:5-23 | Whatever the object's size, a page has at least 64 slots |
| `SlotPoolOrder.SlotCountFills` | ServerCore/Memory/Chunk.h:5-23 | A page has as many slots as fit 256 KB, 1 MB or 2 MB, by the object's size, and 64 if fewer would fit |
| `SlotPoolProof.AllocKeeps` | ServerCore/Memory/Chunk.h:92-114 | Alloc keeps the invariant, hands out a slot nobody has, stamps the calling thread on it, and makes a new page if and only if the thread has none or its page's stacks and the global batches are empty |
| `SlotPoolProof.FreeKeeps` | ServerCore/Memory/Chunk.h:116-136 | Free keeps the invariant and drops the slot, from every stack and batch, if and only if it comes from the thread that allocated it while its page's fresh stack is full; whether a slot put on a stack can be handed out again is ReachStep |
| `SlotPoolProof.RecycleKeeps` | ServerCore/Memory/ObjectPool.h:144-159 | A foreign slot goes to the caller's recycled stack, which becomes a batch when it fills up; nothing is dropped |
| `SlotPoolProof.StealKeeps` | ServerCore/Memory/ObjectPool.h:161-172 | Taking a batch moves all its slots to the page and none is duplicated |
| `SlotPoolOrder.AllocOrder` | ServerCore/Memory/Chunk.h:92-114 | Alloc takes the top of the page's fresh stack, else of its recycled stack, else of the newest batch, whose rest becomes the fresh stack, and else the last slot of a new page; all other stacks, pages and batches are as they were |
| `SlotPoolOrder.FreeOwn` | ServerCore/Memory/Chunk.h:128-131 | The allocating thread's Free puts the slot on top of the fresh stack of the slot's page if there is room, and changes no other stack |
| `SlotPoolOrder.FreeForeign` | ServerCore/Memory/ObjectPool.h:144-159 | Another thread's Free puts it on top of its own page's recycled stack, which becomes the newest batch if that makes it full |
| `SlotPoolOrder.FreeForeignFirst` | ServerCore/Memory/ObjectPool.h:144-159 | A thread without a page gets a new one for it |
| `SlotPoolOrder.LastInFirstOut` | ServerCore/Memory/Chunk.h:92-136 | A thread that frees a slot of its page gets it back from its next Alloc |
| `SlotPoolProof.RoomUnlessStole` | ServerCore/Memory/Chunk.h:128-131 | The fresh stack of a page that never took a batch has room for every slot it gave out |
| `SlotPoolProof.PoolSafe` | ServerCore/Memory/Chunk.h:92-136 | In every run every slot of every page is in exactly one of live, fresh, recycled, batch and dropped, no recycled stack is full, and only slots of pages that took a batch are dropped; which stacks are still popped is ReachExact |
| `SlotPoolProof.AllocAlways` | ServerCore/Memory/ObjectPool.h:84-118 | After every run Alloc returns a slot that is neither live nor dropped, with at most one new page |
| `SlotPoolWitness.SlotIsLost` | ServerCore/Memory/Chunk.h:128-131 | For every page size of at least two a run of two threads that drops a slot |
| `SlotPoolReach.AllocLeaves` | ServerCore/Memory/ObjectPool.h:111-119 | Alloc takes a page out of all TLS slots if and only if it is the caller's and neither its stacks nor the batches have a slot; that page's stacks are then empty |
| `SlotPoolReach.ReachStep` | ServerCore/Memory/Chunk.h:116-136 | A call puts a slot out of reach if and only if it is a Free of that slot by the thread that allocated it, onto a full fresh stack or onto a page in no TLS slot; no call brings one back |
| `SlotPoolReach.GoneForGood` | ServerCore/Memory/Chunk.h:92-136 | After any run, a slot out of reach is out of reach and not live after every continuation by any threads |
| `SlotPoolReach.HandedOutAgain` | ServerCore/Memory/Chunk.h:92-114 | After any run, for every slot that is neither live nor out of reach a continuation that hands it out |
| `SlotPoolReach.ReachExact` | ServerCore/Memory/Chunk.h:92-136 | So after any run a slot that is not live is out of reach if and only if no continuation ever makes it live |
| `SlotPoolPages.PagesPileUp` | ServerCore/Memory/ObjectPool.h:111-119 | For every page size n and every k a run with at most n + 1 live slots at all times that ends with k + 1 pages, all slots of k of them out of reach, although none was dropped and no batch ever existed |
| `BotManager.ExecLaws` | DummyClient/BotManager.cpp:31-173 | After any number of Ticks connected bots have distinct ids in 1..lastAssigned, lastAssigned = connected + disconnects, disconnects = reconnects + disconnected, and sent and reconnects are the sums over the bots |
| `BotManager.ReconnectingSlots` | DummyClient/BotManager.cpp:94-98 | The reconnecting slots are exactly the first ceil(botCount * rate / 100), at most all of them for a rate from 0 to 100 |
| `BotManagerTicks.JoinsInOrder` | DummyClient/BotManager.cpp:31-51 | The connecting bots get, in order, the ids after the last one, as many as are found without a gap |
| `BotManagerTicks.TurnIs` | DummyClient/BotManager.cpp:112-163 | A bot's turn: when it sends, when it disconnects and when it comes back, and every field and time it is given; no other bot changes |
| `BotManagerTicks.TickIs` | DummyClient/BotManager.cpp:100-173 | One Tick gives out the sessions and then every bot its turn; the errors are the sends that failed; after Stop nothing changes |
| `BotManagerTicks.StartIs` | DummyClient/BotManager.cpp:3-29 | Before the first Tick every bot is connecting, may send at once, and all counts are zero |
| `BotManager.Manager.TryAssignSessionIDs` | DummyClient/BotManager.cpp:31-51 | The loop with its early exit gives the connecting bots, in order, the next ids as long as sessions are found |
| `BotManager.Manager.Tick` | DummyClient/BotManager.cpp:100-173 | One Tick is one step of the runs the laws are proved for |

## Left out

- Heap objects in the concurrent parts: the lock-free containers, the dispatcher, the send tasks and the pool are machines over values, because a run of interleaved steps is not a method call; node memory is a map from addresses, so reuse of addresses is modelled, raw memory is not.
- Weak memory: steps of different threads interleave one at a time.
- Wrap-around of 32- and 64-bit counters, versions, tags and sizes; only `Convert`, vtable offsets and little-endian words are modelled at their width.
- Termination of the CAS loops under contention, and their back-off by yield and sleep; the Solo and Whole results say that an undisturbed call ends.
- That a failed DeQ means an empty queue: another failing DeQ may hold a temporary decrement.
- Node addresses at or above KERNEL_ADDRESS, where a pointer and a tag could be confused.
- FreeListProof.ExecInv: assumes that no Free reaches a block between an Alloc's flag reset and its return; `FreeListProof.FairExact` shows that this is exactly what is needed and `FreeListCallers.CallersAreFair` that callers who free only what they hold meet it. The underflow marks of pointers that never came from the list are not modelled.
- FreeListProof.TwiceFreeExact: the same assumption.
- FreeListProof.AbaSafe: the same assumption; `FreeListCallers.CallersAreSafe` states it for such callers.
- Receive.FrameLoop: the memory behind the buffer is given and as large as the buffer; what else the program keeps there, and what overwriting it does, is not modelled.
- RingQ.Ring.Enqueue: negative sizes are not modelled, nor is using a ring whose position has become -1.
- TableBuilder.Builder.EndTable: is given only tables that pass the source's assertions on sizes; the padding bytes of FieldLoc in the scratch area are taken as zero.
- FlatBuild.AddedKeeps: fields are unsigned words of 1, 2, 4 or 8 bytes compared as such, so floating-point defaults (-0.0, NaN) and structs are not covered; vtable offset 65534 is excluded (see `FlatBuild.VtableHoldsField`).
- Sizes at or above two gigabytes and objects of 64 KB or more: the source asserts against them, the model stops.
- The address of the finished block: offsets from its first byte are proved aligned, that the block itself starts at an aligned address is up to the allocator.
- The `finished` flag of the builder and building again after Clear.
- Strings, vectors, 64-bit offsets, string pooling, sorted vectors, file identifiers and the FlatBuffers verifier.
- SlotPoolProof.PoolSafe: Alloc and Free are atomic, so races on a page's fresh stack are not covered; only live slots are freed, other frees are skipped; requested sizes are not recorded. Threads do not end, so a page stays with the thread that took it until that thread takes another.
- Sockets, completion ports, accept, connect and session removal; a completion is any outcome chosen by the environment, and for a partial send the bytes not sent are not accounted for.
- Destructors and the release of memory.
- The size-class table of the memory pool, the session map, id generators and the template queues: table look-ups, locked containers and counters whose code states what they do.
- Logging, statistics output, profiling, crash dumps, time utilities, database helper and console input.
