# UDM: model and proofs of the file transfer

UDM sends one file from a peer called TX to a peer called RX over UDP. Both peers run the same loop of
states: open, setup and connected for the handshake, then closed and done once for each window. TX cuts the
file into chunks, numbers them with 16-bit capsule ids, sends a window of five and waits for an
acknowledgement; it flags the last chunk FIN. RX files a window's capsules in a map ordered by id, writes them
to the sink in the map's order, and acknowledges.

The project models that transfer and proves what it delivers.

| file | what is in it |
|---|---|
| Capsules.dfy | the packed 14-byte header, and the capsule buffer whose header is overlaid and stripped in place |
| Addresses.dfy, Gateway.dfy | the exchange of address lists, the in-place removal of the loopback, the rotation over the learned list |
| Chunks.dfy | the file cut into chunks: offsets, ids, FIN, and the bounds for the program's own sizes |
| Session.dfy | both peers as functions from state to state, one for each arm of each state |
| Factory.dfy, Sender.dfy, Receiver.dfy | the same as classes that update their fields, queues and window in place, each method proved to compute its function of Session.dfy |
| Windows.dfy, Rounds.dfy | a window divided between channel and map; the flush; the two window loops as wholes |
| Protocol.dfy | both peers and a channel as a step system, and its invariant |
| Delivery.dfy | the results about every run of that system |
| Orders.dfy | the runs there are: each goes on to an end, and which orders of delivery succeed |
| Counters.dfy | the peers' counters on every run, against the widths of their fields |
| Wire.dfy | every datagram of every run, byte for byte, and the address it goes to |
| Play.dfy | the two classes joined by a channel, playing any run of the system |
| Wrappers.dfy | a value that may be absent |
| Queue.dfy | the linked queue on the heap, refining a sequence |
| QueueSteps.dfy | the two-lock queue stepped by any number of threads, refining an atomic queue |

The channel neither loses nor duplicates a datagram and may deliver in any order. File contents, file size,
chunk size, window size and address lists are parameters; the program's own values are 49138 bytes and 5.
Address lists fit the buffer made for one chunk, which the code assumes without a check (session.h:87-93).

What the proofs establish, in short:

- Every run goes on to an end, which the file's size and the address lists decide: both ends complete, TX exits, or one
  end dies. They complete, after the number of windows that cover the chunks and in an exact number of steps, **if and
  only if** the file's size is not a multiple of the chunk size and each end has an address other than the loopback.
- The sink of a completed transfer equals the source **if and only if** FIN was the last capsule RX took. If FIN
  overtakes another capsule of its window, RX stops early and the sink is short; the remark at session.h:513-516 mentions
  that case, and the code does not handle it. Unless FIN is alone in its window some run does that: every order of
  delivery leaves the source in the sink exactly for files whose full chunks make up whole windows.
- An address list that is all loopback leaves the other end's learned list empty, and the next choice of a destination
  divides by its length (gateway.h:229). RX dies so at its acknowledgement of the handshake if TX's list is all
  loopback; TX at its first chunk if RX's is. The other end waits for ever, and nothing is written. An empty list counts
  as all loopback: allocating no slots is taken to give a pointer that is not null.
- When the chunk size divides the file size, no chunk is flagged FIN. TX sends every byte, finds its queue
  empty and exits; RX waits for ever. The sink then holds the whole windows, so it is complete just when the window
  size divides the number of chunks.
- The loopback removal drops one slot and truncates the list by the number of loopbacks. It keeps exactly the other
  addresses if and only if every loopback but the first is at the end of the list.
- RX counts payload and headers in an `int`. With the program's sizes, the count stays in it on every run exactly for
  files of up to 2146871973 bytes, or, for multiples of the chunk size, of fewer than 43695 chunks. TX counts payload
  only, and its count stays in an `int` on every run of every file of up to 2147483647 bytes.
- Every window pointer that RX reads is to a buffer its queue still holds: the methods that read one require it, and the
  two classes, playing any run whatever, never break it. A payload capsule in the setup state would.
- RX computes a FIN flag for its last acknowledgement (session.h:540) that never reaches the capsule, because the copy of
  the flags is commented out (session.h:157). The model follows the code: acknowledgements carry no flags.
- On every run the datagrams of both ends are known byte for byte and in order, headers included, and so is the place in
  the learned list that each goes to: the counter advances before it is used, so the first goes to place 1.
- Every interleaving of the queue's lock operations and memory accesses is linearizable. A pop that compares a stale
  tail still answers for the moment at which it read the tail. A push returns after exactly six steps of its own thread,
  a pop after six or seven; every run goes on to one with all calls returned, and no node is lost.

## Model

| member | source | states |
|---|---|---|
| Delivery.DeliveredIffFinLast | session.h:655-672 | on every run in which RX has stopped: the sink equals the source if and only if the FIN capsule was received when nothing else was under way; otherwise the sink is strictly shorter |
| Orders.EveryOrderDelivers | session.h:655-672 | every order of delivery leaves the source in the sink if and only if the source is empty, or each end has an address other than the loopback and the file's full chunks make up whole windows |
| Orders.SomeOrderDelivers | session.h:655-672 | some run that is over has the source in its sink if and only if the source is empty, or each end has such an address and the file has a short last chunk or its full chunks make up whole windows |
| Orders.EveryOrderSucceeds | session.h:269-281 | both ends leave their loops with the file delivered, in every order, if and only if the file has a short last chunk, each end has such an address, and the full chunks make up whole windows |
| Orders.Overtakes | session.h:513-516 | unless FIN is alone in its window, there is a run in which it overtakes another capsule and RX stops short |
| Orders.AloneComesLast | session.h:655-672 | if FIN is alone in its window it comes last in every run, whatever the channel does |
| Orders.Finishes | session.h:269-281 | every run goes on to one that is over, and can keep FIN last if it has been last so far |
| Orders.SinkAtTheEnd | presentation.h:26-49 | for every run that is over, what decides whether its sink is the source |
| Delivery.SucceedsIff | session.h:269-281 | a run that is over has succeeded at both ends if and only if the file has a short last chunk, each end has an address other than the loopback, and FIN came last |
| Delivery.ProgramDelivers | session.h:269-281 | with 49138-byte chunks and windows of five the same if and only if, and both ends have then gone through (size + 245689) / 245690 windows |
| Delivery.CompletesExactly | session.h:489-558 | a run that is over has both ends out of their loops if and only if the file has a short last chunk and each end has an address other than the loopback; then every chunk is submitted, the exact number of windows flushed, after exactly FullLength steps less the capsules left under way |
| Delivery.AbortsExactly | datafactory.h:138-146 | TX exits if and only if the chunk size divides the file size and no end dies first; then it has sent the last byte and RX waits, the sink is the whole windows and equals the source just when the window size divides the number of chunks |
| Delivery.DiesUnaddressed | gateway.h:223-231 | RX dies if and only if TX's list is all loopback, TX if and only if RX's is, TX's is not and there is a byte to send; nothing has been written, and the run has exactly 5 or 7 steps |
| Delivery.EndsAsFated | session.h:269-281 | every run that is over has ended in the one of the four ways that the file's size and the address lists decide |
| Delivery.Progress | session.h:269-281 | a reachable system can step unless both ends have stopped, TX has exited and nothing is under way, or one end has died for want of an address and nothing is under way to the other; and then it cannot |
| Delivery.StepCounts | session.h:477-487 | every step of every run uses up exactly one of the steps left |
| Delivery.StepsAddUp | session.h:269-281 | the steps of a run and the steps left in the system it reaches always add up to FullLength |
| Delivery.RunsAreBounded | session.h:269-281 | no run is longer than FullLength, whatever the channel does |
| Delivery.PrefixSafety | presentation.h:41-47 | until RX stops the sink is exactly the chunks of the windows flushed and the byte counter is its length plus 14 for each chunk; if FIN comes last the sink is a prefix of the source on every reachable system |
| Delivery.LockStep | session.h:477-508 | what is sent and not flushed is divided between channel and window, each capsule under its own id and once, at most a window of them, and none before the previous window was flushed and acknowledged; a TX that has found no address has sent nothing |
| Delivery.QueueBalance | session.h:523-541 | between steps TX's queues are empty, RX's receive queue has as many entries as its window, and entry j of its send queue is the acknowledgement of window j: a control capsule without payload or flags, on connection 1, with the window size and id j + 2 |
| Delivery.TakesAcks | session.h:493-508 | the capsule TX takes after r windows is the acknowledgement of window r, field by field |
| Delivery.CompleteAfterWindow | session.h:552-558 | on every run an end's completion mark is set just when it has been through a window |
| Delivery.RoundsAgree | session.h:500-506 | TX's acknowledged windows are RX's flushed ones but for the acknowledgement under way |
| Delivery.SameRounds | session.h:544-550 | a completed transfer took both ends through the same number of windows, the one that covers the chunks |
| Delivery.PeersLearned | session.h:161-228 | after the handshake each end's list is the other's without loopbacks, in order, exactly when the other's spare loopbacks are last |
| Delivery.FinStep | session.h:662-672 | FIN is set by the receipt of a FIN capsule and by nothing else, and nothing is sent or taken on the data channel after it |
| Delivery.FinLastIff | session.h:664-667 | at every point of every run, FIN has come last so far exactly if nothing is under way once RX has it |
| Delivery.EndSink | presentation.h:26-49 | when both ends have stopped, the sink is the source if nothing is left under way and shorter if something is |
| Wire.TxOnTheWire | session.h:127-158 | TX's datagrams on every run, byte for byte: its addresses first, then chunk k with id k + 1 in bytes 4 and 5, type 3 in byte 8, FIN in byte 9 just if it is short, and the file's bytes; chunk k goes to place (k + 1) mod n of the learned list |
| Wire.RxOnTheWire | session.h:127-158 | RX's datagrams on every run, byte for byte: the hello, the acknowledgement with its addresses, then the acknowledgement of window j with id j + 2; datagram i goes to place i mod n of the learned list |
| Wire.SentInAll | session.h:489-558 | a completed transfer has sent one datagram for each chunk and one before, and one for each window and two before |
| Wire.ChunksSpread | gateway.h:220-233 | on every run, of the k chunks TX has sent each of the n addresses in RX's list that are not loopbacks has got floor(k/n) or ceil(k/n) |
| Protocol.RunInv | session.h:329-558 | the invariant holds of every system that any run reaches |
| Protocol.InvStep | session.h:329-558 | every step of either peer, with any delivery, keeps it |
| Protocol.SubmitChunk | session.h:609-645 | the turn of TX's loop after k chunks sends chunk k under id k + 1, flagged FIN just if it is the short last one; it stops the program if there is no chunk, or no address to send the first to |
| Protocol.ReceiveChunk | session.h:647-673 | RX's turn files the chunk under its id, and ends the window just when the last chunk of a file with a short one is in |
| Protocol.FinishFull | session.h:520-550 | a full window without the last chunk leaves nothing under way, extends the sink by its stretch of the file, and RX goes round |
| Protocol.FinishLast | session.h:513-550 | with the last chunk in, RX stops; what is still under way is missing from the sink and nothing else is |
| Protocol.AckSends | session.h:436-459 | RX acknowledges the handshake, or dies if TX's list is all loopback |
| Protocol.AckArrives | session.h:418-464 | the handshake ends with TX knowing the window size, the connection id and RX's addresses, and every queue empty |
| Rounds.LoopSends | session.h:466-488 | TX's closed state sends the next window of chunks in order, fewer at the end of the file; it exits if it runs out without FIN, and dies with nothing sent if it has no address |
| Rounds.LoopCollects | session.h:466-488 | RX's closed state keeps the division of the window between map and channel for any arrivals |
| Rounds.ReorderingAbsorbed | session.h:655-667 | a window arriving in any order with FIN last is taken whole, and its flush extends the sink by exactly its stretch of the file |
| Rounds.RoundDelivers | session.h:466-558 | one round of both loops from the same chunk, in any order with FIN last, brings both ends to the next window, or stops both with the sink equal to the source |
| Windows.FlushInOrder | presentation.h:41-47 | flushing by ascending id writes the window's payload in sending order, without the lost capsules, and counts 14 bytes for each |
| Windows.FlushWhole | presentation.h:41-47 | a window with nothing under way is flushed as the file between its two offsets |
| Windows.GreatestIsFin | session.h:655-668 | the capsule with the greatest id is FIN just when the last chunk is in the window |
| Windows.SplitSend | session.h:643-643 | sending the next capsule keeps each capsule in one place |
| Windows.SplitReceive | session.h:599-601 | filing a capsule under its id moves it from the channel to the window and nothing else |
| Windows.SomeLost | presentation.h:41-47 | if a chunk of a stretch is lost, what is written is strictly shorter than the stretch |
| Chunks.ChunksAreTheFile | datafactory.h:198-226 | the chunks joined are the file; all but the last are full; FIN is on the last alone, and only if it is short |
| Chunks.PlanNumbered | session.h:154-156 | chunk k carries id k + 1 in 16 bits, over the whole transfer |
| Chunks.OffEnds | datafactory.h:201-218 | reading stops after exactly NumChunks reads, and only the last can be short |
| Counters.NumbersFit | datafactory.h:130-130 | on every run of the program with a file of up to 2^31 - 1 bytes, TX's byte counter stays in an int, no capsule id of either end wraps, and no rotation counter leaves an int |
| Counters.SenderCounters | datafactory.h:198-226 | on every run TX's byte, capsule and rotation counters are functions of the chunks submitted, within the file's size and the ids |
| Counters.ReceiverFits | presentation.h:19-23 | RX's byte counter stays in an int on every run of the program if and only if an end has no address, or the file has a short last chunk and at most 2146871973 bytes, or no short chunk and fewer than 43695 chunks |
| Counters.ReceiverCounter | presentation.h:19-23 | on every run RX's counter is at most the file and a header for each chunk it can write, and it gets there exactly when RX has stopped with FIN last, or at the end of a run in which TX exits |
| Counters.ReceiverNumbers | session.h:529-543 | on every run RX has numbered at most two capsules and one for each chunk |
| Capsules.Layout | datafactory.h:50-61 | a header's image is the one 14-byte string with the packed layout, stated byte by byte, and decoding reads that layout |
| Capsules.Tests | session.h:163-235 | the tests for payload and FIN read the low bits of byte 8 and byte 9 |
| Capsules.DecodeEncode | datafactory.h:50-61 | decoding an encoded header gives it back, whatever follows it |
| Capsules.EncodeDecode | datafactory.h:50-61 | encoding a decoded 14-byte image gives it back |
| Capsules.FrameBijection | gateway.h:112-122 | framing and stripping undo each other, on every capsule and every datagram of 14 bytes or more |
| Capsules.CapsuleBuffer.OverlayHeader | gateway.h:112-117 | copying the header lays it out over the first 14 bytes of the body, byte by byte, and leaves the rest |
| Capsules.CapsuleBuffer.Send | gateway.h:150-174 | after both header copies the datagram is the frame of the final header and the untouched payload, capSize + 14 bytes long |
| Capsules.CapsuleBuffer.Pull | gateway.h:175-194 | what fits of the datagram is stored, the header read from its layout, and the payload left in place after it |
| Capsules.FrameRoundTrip | presentation.h:54-85 | what one peer sends the other recovers: the final header, and exactly capSize payload bytes for the sink |
| Addresses.KeptIsOthers | session.h:180-194 | the removal keeps the other addresses in order if and only if all loopbacks but the first are last; always with at most one |
| Addresses.TwoLoopbacksKeepOne | session.h:180-194 | two leading loopbacks: one is kept and the only other address is lost |
| Addresses.DecodeEncodeList | session.h:79-95 | the slots read back are the slots written |
| Addresses.ExchangeKeepsOthers | session.h:168-194 | the whole exchange teaches the peer the other addresses under the same condition |
| Addresses.LoopbackSpelt | session.h:180-185 | the slots taken for the loopback are those whose text before the first zero byte is 127.0.0.1, character by character |
| Addresses.ExchangeByText | session.h:168-194 | of a list with that text in one place the peer learns the other slots in order, of a list without it all |
| Addresses.SlotAt | session.h:87-91 | slot i of the encoded list is the 15 bytes from 15 i on |
| Addresses.ExchangeEmpty | session.h:180-194 | the peer has learned an empty list if and only if every address sent is the loopback |
| Addresses.WriteAddresses | session.h:87-93 | the loop writes slot i at offset 14 + 15 i, sets the size to 15 n and touches nothing else |
| Addresses.RemoveLoopback | session.h:211-225 | the in-place shift leaves the kept list in its counted prefix, whatever the cell one past the end holds |
| Addresses.LearnAddresses | session.h:202-225 | allocation, copy and removal together give the learned list |
| Gateway.Selector.Select | gateway.h:220-233 | the counter advances by one and then its remainder by the list's length is the place chosen; before a list is learned the last peer is used; with an empty learned list there is no choice |
| Gateway.RotationFair | gateway.h:220-233 | among k consecutive sends over n addresses each is used floor(k/n) or ceil(k/n) times, and every index is in range |
| Counters.ChunksRotate | gateway.h:220-233 | in every system a run reaches, each of the n addresses TX has learned has been chosen for floor(k/n) or ceil(k/n) of its k chunks |
| Factory.DataFactory.InputFromSource | datafactory.h:198-227 | queues the next read with its size, advances the position, sets FIN and shrinks the chunk size on a short read, and only sets FIN past the end |
| Factory.DataFactory.FetchChunk | datafactory.h:138-146 | takes the front of the queue, or reports that there is none |
| Factory.DataFactory.Fill | datafactory.h:192-197 | a new buffer at the end of the queue, its pointer handed out |
| Factory.DataFactory.FillAndPop | session.h:404-406 | appends a buffer and pops the front, which is the same one only if the queue was empty |
| SenderPeer.Sender.constructor | session.h:292-295 | a new sender is in the initial state |
| SenderPeer.Sender.Send | gateway.h:150-174 | chooses a destination and sends, or stops the program |
| SenderPeer.Sender.OpenState | session.h:333-347 | computes TxOpen in place |
| SenderPeer.Sender.SetupState | session.h:382-402 | computes TxSetup in place and sends its capsule |
| SenderPeer.Sender.ConnectedState | session.h:424-435 | computes TxConnected in place, with the in-place removal |
| SenderPeer.Sender.Turn | session.h:611-646 | computes TxSubmit in place: sends a capsule or stops the program |
| SenderPeer.Sender.Load | datafactory.h:244-287 | computes InputFromSource in place |
| SenderPeer.Sender.SendNext | session.h:614-643 | computes SendNext in place |
| SenderPeer.Sender.ClosedState | session.h:467-488 | the window loop computes TxLoop: state and capsules sent |
| SenderPeer.Sender.DoneState | session.h:493-508 | computes TxDone in place |
| ReceiverPeer.Receiver.constructor | session.h:292-295 | a new receiver is in the initial state and its window owns nothing |
| ReceiverPeer.Receiver.Send | gateway.h:135-149 | chooses a destination and sends, or stops the program |
| ReceiverPeer.Receiver.OpenState | session.h:348-372 | computes RxOpen in place and sends its capsule |
| ReceiverPeer.Receiver.SetupState | session.h:403-412 | computes RxSetup in place; the window's pointers stay owned if the window was empty and the capsule is not payload |
| ReceiverPeer.Receiver.ConnectedState | session.h:436-459 | computes RxConnected in place and sends its capsule |
| ReceiverPeer.Receiver.Receive | session.h:594-601 | queues the capsule and files the pointer to it if it is payload; the window's pointers stay owned by the queue |
| ReceiverPeer.Receiver.Turn | session.h:647-673 | computes RxReceive in place; the window's pointers stay owned by the queue |
| ReceiverPeer.Receiver.Examine | session.h:655-667 | computes RxExamine in place from the map's last entry, which the queue must still hold |
| ReceiverPeer.Receiver.ClosedState | session.h:467-488 | the window loop computes RxLoop on the arrivals; the window's pointers, read at every turn, stay owned |
| ReceiverPeer.Receiver.FlushWindow | presentation.h:26-49 | the loop over the map appends Flush to the sink and adds Counted to the counter; every buffer it reads must still be in the queue |
| ReceiverPeer.Receiver.Write2Source | presentation.h:19-25 | appends the size - 14 bytes of a buffer the queue holds and counts its size |
| ReceiverPeer.Receiver.PopEntries | session.h:524-526 | the loop pops that many entries, or all |
| ReceiverPeer.Receiver.DoneState | session.h:509-552 | computes RxDone in place, flushing before it pops; with one queue entry for each window entry the receive queue is left empty, and no pointer outlives its buffer |
| Play.PlayRun | session.h:269-281 | the two classes and a channel play every run of the protocol: their states and the channel are those of the system it reaches, their datagrams and destinations those of the run, each window pointer is to a buffer RX's queue holds, under its id, and the queue holds no others |
| Play.TxStep | session.h:329-558 | a step of the sender's class is the protocol's step, capsule sent included |
| Play.RxStep | session.h:329-558 | a step of the receiver's class is the protocol's step, capsule sent included, and keeps the window's pointers owned |
| Queue.ThreadsafeQueue.constructor | circular_pipeline.hpp:54-54 | an empty queue is its dummy node |
| Queue.ThreadsafeQueue.Push | circular_pipeline.hpp:99-108 | appends the value, through the dummy and a new dummy; the chain stays free of cycles and full up to its tail |
| Queue.ThreadsafeQueue.PushWithRef | circular_pipeline.hpp:87-98 | the same, returning the stored pointer |
| Queue.ThreadsafeQueue.PopHead | circular_pipeline.hpp:31-41 | unlinks the head node with the first value, or nothing if the queue is empty |
| Queue.ThreadsafeQueue.TryPop | circular_pipeline.hpp:58-61 | the first value and the rest, or none |
| Queue.ThreadsafeQueue.Peek | circular_pipeline.hpp:75-78 | tells whether there was a value, and removes it |
| Queue.ThreadsafeQueue.IsEmpty | circular_pipeline.hpp:79-86 | tells whether the sequence is empty |
| Queue.ThreadsafeQueue.GetCount | circular_pipeline.hpp:109-109 | the length of the sequence |
| QueueSteps.Linearizable | circular_pipeline.hpp:27-108 | every run of any threads has the calls and returns, with arguments and results, of a run of the atomic queue in which each call takes effect once between its call and its return |
| QueueSteps.StepSimulated | circular_pipeline.hpp:27-108 | each lock operation or memory access is one atomic effect or none; a null pop takes effect at the read of the tail, with the queue empty |
| QueueSteps.InvStep | circular_pipeline.hpp:27-108 | every step keeps the chain, the locks, and the privacy of unlinked and unpublished nodes |
| QueueSteps.Conservation | circular_pipeline.hpp:27-108 | on every run of any threads: what has been pushed is what has been popped followed by the chain's values, in order; the values given to push are those pushed and those still in pushers' hands; the values popped are those returned and those still in poppers' hands; so each value is returned at most once, and with no thread in a call the values given are those returned and those in the chain |
| QueueSteps.Discipline | circular_pipeline.hpp:31-41 | each lock has one holder; the node a popper unlinks is not the tail, into which pushers store, nor the head, nor one another popper has |
| QueueSteps.CallsAreBounded | circular_pipeline.hpp:27-108 | on every run of any threads a push returns after exactly six steps of its own thread, a pop after six if it found nothing and seven if it found a value; no call makes more |
| QueueSteps.AllReturn | circular_pipeline.hpp:27-108 | every run goes on, without a new call, to one in which every call has returned |
| QueueSteps.NoLeak | circular_pipeline.hpp:27-108 | on every run each node is in the chain or in the hands of one thread; with no thread in a call the nodes are the chain's, one more than the values |
| QueueSteps.NoDeadlock | circular_pipeline.hpp:27-41 | while a thread is in a call, some thread in a call can go on |

## Left out

- Sockets, name resolution, interface discovery and `inet_ntop`: the channel is a multiset of capsules and the address lists are parameters.
- Loss and duplication of datagrams: the code has no timers or retransmission, so the channel is taken to have neither.
- Datagrams from anyone but the peer: the channel carries only what the two peers send.
- `Session::start` as a loop in code: its condition is Protocol.Running and its dispatch is Protocol.Enabled, because a receive blocks until the other peer has sent; Play.PlayRun runs the classes under it.
- Bytes of datagrams in Protocol: it passes capsules; Capsules.FrameBijection shows that frame and capsule determine each other.
- Factory.DataFactory.Fill: a buffer is filled when it is made, where the code queues it empty and fills it next; and the factories' queue is the sequence that Queue.ThreadsafeQueue refines, not its nodes.
- Gateway.Selector.Select: the counter is unbounded, so its overflow after 2^31 - 1 sends is not modelled; Counters.NumbersFit shows that no transfer of the program gets there.
- Which listed address a datagram goes to: the channel delivers whatever is sent, so a listed address that does not reach the peer, such as a loopback that the removal has kept, is not modelled.
- Counters.NumbersFit: says nothing about files of 2^31 bytes or more, for which the read counter overflows.
- The queue's `count` under concurrent access, its unused capacity and `head_dataref`, the overload of `try_pop` with a reference, and `isEmpty` among the interleaved steps.
- Source and destination ids, which stay 0, and connection numbers past the first connection.
- Write positions of the sink (`curPos`, `curWritePos`) and stream error states: the sink is an append-only byte sequence.
- The worker pool, which starts no thread and is given no work by the session; `inqState`; the empty compressor; logging, timing and counters of traffic; the release of capsule bodies.
