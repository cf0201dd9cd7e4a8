/**
  The two-lock queue of circular_pipeline.hpp run by any number of threads, one lock operation or
  memory access at a time. Every interleaving refines an atomic first-in first-out queue.
 */
module QueueSteps {
  import opened Wrappers

  type Tid = nat
  type Id = nat

  /** A node: its data pointer and the next node it owns. */
  datatype Cell<V> = Cell(data: Option<V>, next: Option<Id>)

  /** Where a thread is in push or in try_pop, with its local variables. */
  datatype Pc<V> =
    | Idle
    // push: called; new node made; tail lock taken; data written; next written; tail moved; lock released
    | PushCalled(v: V) | PushReady(v: V, p: Id) | PushLocked(v: V, p: Id)
    | PushData(v: V, p: Id) | PushNext(v: V, p: Id) | PushTail(v: V) | PushDone(v: V)
    // try_pop: called; head lock taken; tail lock taken too; tail read; tail lock released
    | PopCalled | PopLocked | PopBoth | PopRead(x: Id) | PopCompare(x: Id)
    // the head differed: taken out of the head pointer; head moved on; head lock released
    | PopMoved(out: Id) | PopTaken(out: Id) | PopUnlocked(out: Id)
    // the head was the tail: head lock still held; released
    | PopEmpty | PopNull

  datatype State<V> = State(
    pcs: map<Tid, Pc<V>>, heap: map<Id, Cell<V>>, head: Option<Id>, tail: Id,
    headLock: Option<Tid>, tailLock: Option<Tid>)

  datatype Event<V> =
    | CallPush(t: Tid, v: V) | CallPop(t: Tid)
    | ReturnPush(t: Tid) | ReturnPop(t: Tid, r: Option<V>)
    | Alloc(t: Tid, p: Id) | Internal(t: Tid)

  /** The threads, none of them in a call, and a queue that is just its dummy node 0. */
  function Init<V(!new)>(threads: set<Tid>): State<V> {
    State(map t | t in threads :: Idle, map[0 := Cell(None, None)], Some(0), 0, None, None)
  }

  function At<V>(s: State<V>, t: Tid): Pc<V> {
    if t in s.pcs then s.pcs[t] else Idle
  }

  function Load<V>(s: State<V>, id: Id): Cell<V> {
    if id in s.heap then s.heap[id] else Cell(None, None)
  }

  /** A thread's own step can be taken: only the lock operations wait. */
  predicate Unblocked<V>(s: State<V>, t: Tid) {
    match At(s, t)
    case PushReady(_, _) => s.tailLock == None
    case PopCalled => s.headLock == None
    case PopLocked => s.tailLock == None
    case Idle | PushCalled(_) | PushDone(_) | PopUnlocked(_) | PopNull => false
    case _ => true
  }

  ghost predicate Enabled<V>(s: State<V>, e: Event<V>) {
    && e.t in s.pcs
    && match e
       case CallPush(t, v) => At(s, t).Idle?
       case CallPop(t) => At(s, t).Idle?
       case ReturnPush(t) => At(s, t).PushDone?
       case ReturnPop(t, r) =>
         (At(s, t).PopNull? && r == None) || (At(s, t).PopUnlocked? && r == Load(s, At(s, t).out).data)
       case Alloc(t, p) => At(s, t).PushCalled? && p !in s.heap
       case Internal(t) => Unblocked(s, t)
  }

  function Go<V>(s: State<V>, t: Tid, pc: Pc<V>): State<V> {
    s.(pcs := s.pcs[t := pc])
  }

  function InternalStep<V>(s: State<V>, t: Tid): State<V> {
    match At(s, t)
    case PushReady(v, p) => Go(s, t, PushLocked(v, p)).(tailLock := Some(t))
    case PushLocked(v, p) =>
      Go(s, t, PushData(v, p)).(heap := s.heap[s.tail := Load(s, s.tail).(data := Some(v))])
    case PushData(v, p) =>
      Go(s, t, PushNext(v, p)).(heap := s.heap[s.tail := Load(s, s.tail).(next := Some(p))])
    case PushNext(v, p) => Go(s, t, PushTail(v)).(tail := p)
    case PushTail(v) => Go(s, t, PushDone(v)).(tailLock := None)
    case PopCalled => Go(s, t, PopLocked).(headLock := Some(t))
    case PopLocked => Go(s, t, PopBoth).(tailLock := Some(t))
    case PopBoth => Go(s, t, PopRead(s.tail))
    case PopRead(x) => Go(s, t, PopCompare(x)).(tailLock := None)
    case PopCompare(x) =>
      if s.head == Some(x) || s.head == None then Go(s, t, PopEmpty)
      else Go(s, t, PopMoved(s.head.value)).(head := None)
    case PopMoved(out) =>
      Go(s, t, PopTaken(out)).(head := Load(s, out).next, heap := s.heap[out := Load(s, out).(next := None)])
    case PopTaken(out) => Go(s, t, PopUnlocked(out)).(headLock := None)
    case PopEmpty => Go(s, t, PopNull).(headLock := None)
    case _ => s
  }

  function Take<V>(s: State<V>, e: Event<V>): State<V> {
    match e
    case CallPush(t, v) => Go(s, t, PushCalled(v))
    case CallPop(t) => Go(s, t, PopCalled)
    case ReturnPush(t) => Go(s, t, Idle)
    case ReturnPop(t, r) =>
      var s' := Go(s, t, Idle);
      if At(s, t).PopUnlocked? then s'.(heap := s.heap - {At(s, t).out}) else s'
    case Alloc(t, p) =>
      (match At(s, t)
       case PushCalled(v) => Go(s, t, PushReady(v, p)).(heap := s.heap[p := Cell(None, None)])
       case _ => s)
    case Internal(t) => InternalStep(s, t)
  }

  // ----- the invariant, over the chain of nodes from head to tail -----

  predicate HoldsHead<V>(pc: Pc<V>) {
    pc.PopLocked? || pc.PopBoth? || pc.PopRead? || pc.PopCompare? || pc.PopMoved? || pc.PopTaken? || pc.PopEmpty?
  }

  predicate HoldsTail<V>(pc: Pc<V>) {
    pc.PushLocked? || pc.PushData? || pc.PushNext? || pc.PushTail? || pc.PopBoth? || pc.PopRead?
  }

  /** A lock names the one thread that holds it. */
  ghost predicate Locks<V>(s: State<V>) {
    && (forall t :: t in s.pcs ==> (HoldsHead(s.pcs[t]) <==> s.headLock == Some(t)))
    && (forall t :: t in s.pcs ==> (HoldsTail(s.pcs[t]) <==> s.tailLock == Some(t)))
    && (s.headLock.Some? ==> s.headLock.value in s.pcs)
    && (s.tailLock.Some? ==> s.tailLock.value in s.pcs)
  }

  /** The nodes are linked in order without repetition, and all but the last hold data. */
  ghost predicate Linked<V>(heap: map<Id, Cell<V>>, chain: seq<Id>) {
    && chain != []
    && (forall i :: 0 <= i < |chain| ==> chain[i] in heap)
    && (forall i, j :: 0 <= i < j < |chain| ==> chain[i] != chain[j])
    && (forall i :: 0 <= i < |chain| - 1 ==>
          heap[chain[i]].data.Some? && heap[chain[i]].next == Some(chain[i + 1]))
  }

  /** The node only this thread can reach. */
  function Private<V>(pc: Pc<V>): Option<Id> {
    match pc
    case PushReady(_, p) => Some(p)
    case PushLocked(_, p) => Some(p)
    case PushData(_, p) => Some(p)
    case PushNext(_, p) => Some(p)
    case PopTaken(out) => Some(out)
    case PopUnlocked(out) => Some(out)
    case _ => None
  }

  /** What holds of a thread's local variables. */
  ghost predicate ThreadOk<V>(pc: Pc<V>, heap: map<Id, Cell<V>>, chain: seq<Id>)
    requires chain != []
  {
    && (Private(pc).Some? ==> Private(pc).value in heap && Private(pc).value !in chain)
    && (pc.PushData? || pc.PushNext? ==>
        chain[|chain| - 1] in heap && heap[chain[|chain| - 1]].data == Some(pc.v))
    && (pc.PushNext? ==> heap[chain[|chain| - 1]].next == Some(pc.p))
    && (pc.PopRead? || pc.PopCompare? ==> pc.x in chain)
    && (pc.PopMoved? ==> pc.out == chain[0] && |chain| >= 2)
    && (pc.PopTaken? || pc.PopUnlocked? ==> heap[pc.out].data.Some?)
  }

  ghost predicate ThreadsOk<V>(s: State<V>, chain: seq<Id>)
    requires chain != []
  {
    forall t :: t in s.pcs ==> ThreadOk(s.pcs[t], s.heap, chain)
  }

  /** No two threads share a private node. */
  ghost predicate Apart<V>(pcs: map<Tid, Pc<V>>) {
    forall t, u :: t in pcs && u in pcs && t != u && Private(pcs[t]).Some? ==> Private(pcs[t]) != Private(pcs[u])
  }

  /** The head pointer owns the first node, except while a popper holds it. */
  ghost predicate HeadOk<V>(s: State<V>, chain: seq<Id>)
    requires chain != []
  {
    s.head == if s.headLock.Some? && At(s, s.headLock.value).PopMoved? then None else Some(chain[0])
  }

  ghost predicate Inv<V>(s: State<V>, chain: seq<Id>) {
    && chain != [] && Linked(s.heap, chain) && s.tail == chain[|chain| - 1]
    && HeadOk(s, chain) && Locks(s) && ThreadsOk(s, chain) && Apart(s.pcs)
  }

  /** The chain after an event: a push that moves the tail extends it, a pop that moves the head shortens it. */
  function NextChain<V>(s: State<V>, chain: seq<Id>, e: Event<V>): seq<Id>
    requires chain != []
  {
    if e.Internal? && At(s, e.t).PushNext? then chain + [At(s, e.t).p]
    else if e.Internal? && At(s, e.t).PopMoved? then chain[1..]
    else chain
  }

  // ----- the invariant, step by step -----

  lemma InitInv<V(!new)>(threads: set<Tid>)
    ensures Inv(Init<V>(threads), [0])
  {
  }

  /** The lock field after thread t goes from holding it or not to holding it or not. */
  function Relock(lock: Option<Tid>, t: Tid, held: bool, holds: bool): Option<Tid> {
    if held == holds then lock else if holds then Some(t) else None
  }

  lemma LocksStep<V>(s: State<V>, s': State<V>, t: Tid)
    requires Locks(s) && t in s.pcs && t in s'.pcs && s'.pcs == s.pcs[t := s'.pcs[t]]
    requires s'.headLock == Relock(s.headLock, t, HoldsHead(s.pcs[t]), HoldsHead(s'.pcs[t]))
    requires s'.tailLock == Relock(s.tailLock, t, HoldsTail(s.pcs[t]), HoldsTail(s'.pcs[t]))
    requires !HoldsHead(s.pcs[t]) && HoldsHead(s'.pcs[t]) ==> s.headLock == None
    requires !HoldsTail(s.pcs[t]) && HoldsTail(s'.pcs[t]) ==> s.tailLock == None
    ensures Locks(s')
  {
    hide HoldsHead, HoldsTail;
  }

  /** A step of thread t that only changes its own position, and perhaps a lock. */
  lemma MoveOnly<V>(s: State<V>, s': State<V>, t: Tid, chain: seq<Id>)
    requires Inv(s, chain) && t in s.pcs && t in s'.pcs
    requires s' == s.(pcs := s.pcs[t := s'.pcs[t]], headLock := s'.headLock, tailLock := s'.tailLock)
    requires Locks(s') && ThreadOk(s'.pcs[t], s.heap, chain)
    requires Private(s'.pcs[t]) == None || Private(s'.pcs[t]) == Private(s.pcs[t])
    requires !s.pcs[t].PopMoved? && !s'.pcs[t].PopMoved?
    ensures Inv(s', chain)
  {
    hide ThreadOk, Private, Linked;
    HeadKept(s, s', t, chain);
  }

  lemma HeadKept<V>(s: State<V>, s': State<V>, t: Tid, chain: seq<Id>)
    requires chain != [] && HeadOk(s, chain) && Locks(s) && Locks(s') && t in s.pcs && t in s'.pcs
    requires s'.pcs == s.pcs[t := s'.pcs[t]] && s'.head == s.head
    requires !s.pcs[t].PopMoved? && !s'.pcs[t].PopMoved?
    ensures HeadOk(s', chain)
  {
    if s.headLock.Some? && At(s, s.headLock.value).PopMoved? {
      var u := s.headLock.value;
      assert u != t && s'.pcs[u] == s.pcs[u];
      assert HoldsHead(s'.pcs[u]);
    }
  }

  /** Steps that touch no memory but a lock: calls, returns, lock operations, the read and comparison of the tail. */
  predicate Quiet<V>(s: State<V>, e: Event<V>) {
    match e
    case CallPush(_, _) => true
    case CallPop(_) => true
    case ReturnPush(_) => true
    case ReturnPop(t, _) => At(s, t).PopNull?
    case Alloc(_, _) => false
    case Internal(t) =>
      var pc := At(s, t);
      !(pc.PushLocked? || pc.PushData? || pc.PushNext? || pc.PopMoved? || (pc.PopCompare? && s.head != Some(pc.x)))
  }

  lemma QuietStep<V>(s: State<V>, e: Event<V>, chain: seq<Id>)
    requires Inv(s, chain) && Enabled(s, e) && Quiet(s, e)
    ensures Inv(Take(s, e), chain)
  {
    hide Linked, Locks, HeadOk, ThreadsOk, Apart;
    var s', t := Take(s, e), e.t;
    MyThread(s, t, chain);
    QuietLocks(s, e);
    MoveOnly(s, s', t, chain);
  }

  lemma MyThread<V>(s: State<V>, t: Tid, chain: seq<Id>)
    requires chain != [] && ThreadsOk(s, chain) && t in s.pcs
    ensures ThreadOk(s.pcs[t], s.heap, chain)
  {
  }

  lemma QuietLocks<V>(s: State<V>, e: Event<V>)
    requires Locks(s) && Enabled(s, e) && Quiet(s, e)
    ensures Locks(Take(s, e))
  {
    hide Locks;
    LocksStep(s, Take(s, e), e.t);
  }

  /** The threads other than t keep what they rely on when memory or the chain changes. */
  ghost predicate OthersOk<V>(s: State<V>, s': State<V>, t: Tid, chain: seq<Id>)
    requires chain != []
  {
    forall u :: u in s.pcs && u != t ==> ThreadOk(s.pcs[u], s'.heap, chain)
  }

  lemma Reassemble<V>(s: State<V>, s': State<V>, t: Tid, chain: seq<Id>, chain': seq<Id>)
    requires chain != [] && chain' != [] && ThreadsOk(s, chain) && Apart(s.pcs) && t in s.pcs
    requires t in s'.pcs && s'.pcs == s.pcs[t := s'.pcs[t]]
    requires OthersOk(s, s', t, chain') && ThreadOk(s'.pcs[t], s'.heap, chain')
    requires Private(s'.pcs[t]).Some? && Private(s'.pcs[t]) != Private(s.pcs[t]) ==>
      forall u :: u in s.pcs && u != t ==> Private(s.pcs[u]) != Private(s'.pcs[t])
    ensures ThreadsOk(s', chain') && Apart(s'.pcs)
  {
    hide ThreadOk, Private;
  }

  lemma AllocStep<V>(s: State<V>, t: Tid, p: Id, chain: seq<Id>)
    requires Inv(s, chain) && Enabled(s, Alloc(t, p))
    ensures Inv(Take(s, Alloc(t, p)), chain)
  {
    var s' := Take(s, Alloc(t, p));
    LocksStep(s, s', t);
    HeadKept(s, s', t, chain);
    hide Locks, HeadOk, Linked;
    forall u | u in s.pcs && u != t
      ensures ThreadOk(s.pcs[u], s'.heap, chain) && Private(s.pcs[u]) != Some(p)
    {
      FreshCell(s, u, p, chain);
    }
    InvParts(s, chain);
    Reassemble(s, s', t, chain, chain);
    OtherCell(s.heap, chain, p, Cell(None, None));
  }

  lemma FreshCell<V>(s: State<V>, u: Tid, p: Id, chain: seq<Id>)
    requires Inv(s, chain) && u in s.pcs && p !in s.heap
    ensures ThreadOk(s.pcs[u], s.heap[p := Cell(None, None)], chain) && Private(s.pcs[u]) != Some(p)
  {
    hide Locks, HeadOk;
    assert ThreadOk(s.pcs[u], s.heap, chain);
  }

  lemma OtherCell<V>(heap: map<Id, Cell<V>>, chain: seq<Id>, id: Id, cell: Cell<V>)
    requires Linked(heap, chain) && id !in chain
    ensures Linked(heap[id := cell], chain) && Linked(heap - {id}, chain)
  {
  }

  /** Freeing the node a popper has unlinked and read. */
  lemma FreeStep<V>(s: State<V>, t: Tid, r: Option<V>, chain: seq<Id>)
    requires Inv(s, chain) && Enabled(s, ReturnPop(t, r)) && At(s, t).PopUnlocked?
    ensures Inv(Take(s, ReturnPop(t, r)), chain)
  {
    var s' := Take(s, ReturnPop(t, r));
    LocksStep(s, s', t);
    HeadKept(s, s', t, chain);
    InvParts(s, chain);
    hide Locks, HeadOk, Linked;
    assert ThreadOk(s.pcs[t], s.heap, chain);
    forall u | u in s.pcs && u != t
      ensures ThreadOk(s.pcs[u], s'.heap, chain)
    {
      FreedCell(s, t, u, chain);
    }
    OtherCell(s.heap, chain, s.pcs[t].out, Cell(None, None));
    hide ThreadOk;
    Reassemble(s, s', t, chain, chain);
  }

  lemma FreedCell<V>(s: State<V>, t: Tid, u: Tid, chain: seq<Id>)
    requires Inv(s, chain) && t in s.pcs && u in s.pcs && t != u && s.pcs[t].PopUnlocked?
    ensures ThreadOk(s.pcs[u], s.heap - {s.pcs[t].out}, chain)
  {
    hide Locks, HeadOk;
    assert ThreadOk(s.pcs[u], s.heap, chain) && ThreadOk(s.pcs[t], s.heap, chain);
    assert Private(s.pcs[t]).Some?;
  }

  /** Only the holder of the tail lock is in the middle of a push. */
  lemma OnePusher<V>(s: State<V>, t: Tid, u: Tid)
    requires Locks(s) && t in s.pcs && u in s.pcs && t != u && HoldsTail(s.pcs[t])
    ensures !HoldsTail(s.pcs[u])
  {
  }

  /** Only the holder of the head lock is in the middle of a pop. */
  lemma OnePopper<V>(s: State<V>, t: Tid, u: Tid)
    requires Locks(s) && t in s.pcs && u in s.pcs && t != u && HoldsHead(s.pcs[t])
    ensures !HoldsHead(s.pcs[u])
  {
  }

  /** The pusher's two stores into the old dummy. */
  lemma StoreStep<V>(s: State<V>, t: Tid, chain: seq<Id>)
    requires Inv(s, chain) && t in s.pcs && (s.pcs[t].PushLocked? || s.pcs[t].PushData?)
    ensures Inv(Take(s, Internal(t)), chain)
  {
    var s' := Take(s, Internal(t));
    LocksStep(s, s', t);
    HeadKept(s, s', t, chain);
    assert ThreadOk(s.pcs[t], s.heap, chain);
    StoreLinked(s.heap, chain, s'.heap[s.tail]);
    forall u | u in s.pcs && u != t
      ensures ThreadOk(s.pcs[u], s'.heap, chain)
    {
      assert ThreadOk(s.pcs[u], s.heap, chain);
      OnePusher(s, t, u);
    }
    hide Locks, HeadOk, Linked;
    Reassemble(s, s', t, chain, chain);
  }

  lemma StoreLinked<V>(heap: map<Id, Cell<V>>, chain: seq<Id>, cell: Cell<V>)
    requires Linked(heap, chain)
    ensures Linked(heap[chain[|chain| - 1] := cell], chain)
  {
  }

  /** The pusher moves the tail: the push takes effect. */
  lemma TailStep<V>(s: State<V>, t: Tid, chain: seq<Id>)
    requires Inv(s, chain) && t in s.pcs && s.pcs[t].PushNext?
    ensures Inv(Take(s, Internal(t)), chain + [s.pcs[t].p])
  {
    var s', p := Take(s, Internal(t)), s.pcs[t].p;
    var chain' := chain + [p];
    LocksStep(s, s', t);
    HeadKept(s, s', t, chain);
    assert ThreadOk(s.pcs[t], s.heap, chain);
    ExtendLinked(s.heap, chain, p);
    forall u | u in s.pcs && u != t
      ensures ThreadOk(s.pcs[u], s'.heap, chain')
    {
      assert ThreadOk(s.pcs[u], s.heap, chain);
      OnePusher(s, t, u);
      assert Private(s.pcs[t]).Some?;
    }
    hide Locks, Linked;
    Reassemble(s, s', t, chain, chain');
  }

  lemma ExtendLinked<V>(heap: map<Id, Cell<V>>, chain: seq<Id>, p: Id)
    requires Linked(heap, chain) && p in heap && p !in chain
    requires heap[chain[|chain| - 1]].data.Some? && heap[chain[|chain| - 1]].next == Some(p)
    ensures Linked(heap, chain + [p])
  {
  }

  /** The popper takes the node out of the head pointer: it is not the tail. */
  lemma MovedStep<V>(s: State<V>, t: Tid, chain: seq<Id>)
    requires Inv(s, chain) && t in s.pcs && s.pcs[t].PopCompare? && s.head != Some(s.pcs[t].x)
    ensures Inv(Take(s, Internal(t)), chain)
    ensures Take(s, Internal(t)).pcs[t].PopMoved?
  {
    var s' := Take(s, Internal(t));
    LocksStep(s, s', t);
    assert ThreadOk(s.pcs[t], s.heap, chain);
    assert s.headLock == Some(t);
    assert s.head == Some(chain[0]);
    assert |chain| >= 2;
    forall u | u in s.pcs && u != t
      ensures ThreadOk(s.pcs[u], s'.heap, chain)
    {
      assert ThreadOk(s.pcs[u], s.heap, chain);
    }
    hide Locks, Linked;
    Reassemble(s, s', t, chain, chain);
  }

  /** The popper moves the head on: the pop takes effect. */
  lemma HeadStep<V>(s: State<V>, t: Tid, chain: seq<Id>)
    requires Inv(s, chain) && t in s.pcs && s.pcs[t].PopMoved?
    ensures Inv(Take(s, Internal(t)), chain[1..])
  {
    var s', out := Take(s, Internal(t)), s.pcs[t].out;
    var chain' := chain[1..];
    LocksStep(s, s', t);
    assert ThreadOk(s.pcs[t], s.heap, chain);
    ShortenLinked(s.heap, chain, s'.heap[out]);
    assert s.headLock == Some(t);
    forall u | u in s.pcs && u != t
      ensures ThreadOk(s.pcs[u], s'.heap, chain') && Private(s.pcs[u]) != Some(out)
    {
      assert ThreadOk(s.pcs[u], s.heap, chain);
      OnePopper(s, t, u);
    }
    hide Locks, Linked;
    Reassemble(s, s', t, chain, chain');
  }

  lemma ShortenLinked<V>(heap: map<Id, Cell<V>>, chain: seq<Id>, cell: Cell<V>)
    requires Linked(heap, chain) && |chain| >= 2
    ensures Linked(heap[chain[0] := cell], chain[1..]) && chain[0] !in chain[1..]
    ensures heap[chain[0]].next == Some(chain[1]) && chain[1..][|chain| - 2] == chain[|chain| - 1]
  {
  }

  /** Every event of every interleaving keeps the invariant. */
  lemma InvStep<V>(s: State<V>, e: Event<V>, chain: seq<Id>)
    requires Inv(s, chain) && Enabled(s, e)
    ensures Inv(Take(s, e), NextChain(s, chain, e))
  {
    hide Inv, Take;
    if Quiet(s, e) {
      QuietStep(s, e, chain);
    } else {
      match e
      case Alloc(t, p) => AllocStep(s, t, p, chain);
      case ReturnPop(t, r) => FreeStep(s, t, r, chain);
      case Internal(t) =>
        var pc := At(s, t);
        if pc.PushNext? {
          TailStep(s, t, chain);
        } else if pc.PopMoved? {
          HeadStep(s, t, chain);
        } else if pc.PopCompare? {
          MovedStep(s, t, chain);
        } else {
          StoreStep(s, t, chain);
        }
    }
  }

  // ----- the atomic queue -----

  /** A thread of the atomic queue: in a call before or after the one step in which it takes effect. */
  datatype AtomicPc<V> = AIdle | Pushing(v: V) | Pushed | Popping | Popped(r: Option<V>)

  /** The atomic queue, with every value pushed and every value popped so far. */
  datatype Atomic<V> = Atomic(q: seq<V>, pcs: map<Tid, AtomicPc<V>>, pushed: seq<V>, popped: seq<V>)

  datatype AtomicEvent<V> =
    | ACallPush(t: Tid, v: V) | ACallPop(t: Tid) | AReturnPush(t: Tid) | AReturnPop(t: Tid, r: Option<V>)
    | Effect(t: Tid)

  function AAt<V>(a: Atomic<V>, t: Tid): AtomicPc<V> {
    if t in a.pcs then a.pcs[t] else AIdle
  }

  ghost predicate AEnabled<V>(a: Atomic<V>, e: AtomicEvent<V>) {
    match e
    case ACallPush(t, v) => AAt(a, t).AIdle?
    case ACallPop(t) => AAt(a, t).AIdle?
    case AReturnPush(t) => AAt(a, t).Pushed?
    case AReturnPop(t, r) => AAt(a, t) == Popped(r)
    case Effect(t) => AAt(a, t).Pushing? || AAt(a, t).Popping?
  }

  function ATake<V>(a: Atomic<V>, e: AtomicEvent<V>): Atomic<V> {
    match e
    case ACallPush(t, v) => a.(pcs := a.pcs[t := Pushing(v)])
    case ACallPop(t) => a.(pcs := a.pcs[t := Popping])
    case AReturnPush(t) => a.(pcs := a.pcs[t := AIdle])
    case AReturnPop(t, r) => a.(pcs := a.pcs[t := AIdle])
    case Effect(t) =>
      (match AAt(a, t)
       case Pushing(v) => a.(q := a.q + [v], pushed := a.pushed + [v], pcs := a.pcs[t := Pushed])
       case Popping =>
         if a.q == [] then a.(pcs := a.pcs[t := Popped(None)])
         else a.(q := a.q[1..], popped := a.popped + [a.q[0]], pcs := a.pcs[t := Popped(Some(a.q[0]))])
       case _ => a)
  }

  /** The values in the nodes from head to tail. */
  function Values<V>(heap: map<Id, Cell<V>>, chain: seq<Id>): seq<V>
    requires chain != []
    requires forall i :: 0 <= i < |chain| - 1 ==> chain[i] in heap && heap[chain[i]].data.Some?
  {
    seq(|chain| - 1, i requires 0 <= i < |chain| - 1 => heap[chain[i]].data.value)
  }

  /** How far a thread's call has got. A pop that read the tail equal to the head has found the queue empty there and then. */
  function Progress<V>(pc: Pc<V>, heap: map<Id, Cell<V>>, chain: seq<Id>): AtomicPc<V>
    requires chain != []
  {
    match pc
    case Idle => AIdle
    case PushCalled(v) => Pushing(v)
    case PushReady(v, _) => Pushing(v)
    case PushLocked(v, _) => Pushing(v)
    case PushData(v, _) => Pushing(v)
    case PushNext(v, _) => Pushing(v)
    case PushTail(_) => Pushed
    case PushDone(_) => Pushed
    case PopCalled => Popping
    case PopLocked => Popping
    case PopBoth => Popping
    case PopRead(x) => if x == chain[0] then Popped(None) else Popping
    case PopCompare(x) => if x == chain[0] then Popped(None) else Popping
    case PopMoved(_) => Popping
    case PopTaken(out) => Popped(if out in heap then heap[out].data else None)
    case PopUnlocked(out) => Popped(if out in heap then heap[out].data else None)
    case PopEmpty => Popped(None)
    case PopNull => Popped(None)
  }

  /** The atomic queue holds the chain's values, and its threads are where the queue's threads have got to. */
  ghost predicate Matches<V>(s: State<V>, chain: seq<Id>, a: Atomic<V>)
    requires Inv(s, chain)
  {
    && a.q == Values(s.heap, chain)
    && a.pcs.Keys == s.pcs.Keys
    && forall t :: t in s.pcs ==> a.pcs[t] == Progress(s.pcs[t], s.heap, chain)
  }

  /** The atomic event an event amounts to: calls and returns as they are, three internal steps as the effect, the rest as nothing. */
  function Amounts<V>(s: State<V>, e: Event<V>): Option<AtomicEvent<V>> {
    match e
    case CallPush(t, v) => Some(ACallPush(t, v))
    case CallPop(t) => Some(ACallPop(t))
    case ReturnPush(t) => Some(AReturnPush(t))
    case ReturnPop(t, r) => Some(AReturnPop(t, r))
    case Alloc(_, _) => None
    case Internal(t) =>
      var pc := At(s, t);
      if pc.PushNext? || pc.PopMoved? || (pc.PopBoth? && s.head == Some(s.tail)) then Some(Effect(t)) else None
  }

  function Follow<V>(a: Atomic<V>, e: Option<AtomicEvent<V>>): Atomic<V> {
    if e.None? then a else ATake(a, e.value)
  }

  // ----- refinement -----

  /** The event is what it amounts to on the atomic queue. */
  ghost predicate Simulated<V>(s: State<V>, e: Event<V>, chain: seq<Id>, a: Atomic<V>)
    requires chain != []
  {
    && (Amounts(s, e).Some? ==> AEnabled(a, Amounts(s, e).value))
    && NextChain(s, chain, e) != [] && Inv(Take(s, e), NextChain(s, chain, e))
    && Matches(Take(s, e), NextChain(s, chain, e), Follow(a, Amounts(s, e)))
  }

  /** What is left to check of a simulated event: the values, the thread itself, and the other threads. */
  lemma Check<V>(s: State<V>, s': State<V>, t: Tid, chain: seq<Id>, chain': seq<Id>, a: Atomic<V>, a': Atomic<V>)
    requires Inv(s, chain) && Matches(s, chain, a) && Inv(s', chain')
    requires t in s.pcs && t in s'.pcs && s'.pcs == s.pcs[t := s'.pcs[t]]
    requires a'.q == Values(s'.heap, chain')
    requires t in a'.pcs && a'.pcs == a.pcs[t := a'.pcs[t]] && a'.pcs[t] == Progress(s'.pcs[t], s'.heap, chain')
    requires forall u :: u in s.pcs && u != t ==>
      Progress(s.pcs[u], s'.heap, chain') == Progress(s.pcs[u], s.heap, chain)
    ensures Matches(s', chain', a')
  {
    hide Inv, Progress, Values;
  }

  lemma AtomicAt<V>(s: State<V>, chain: seq<Id>, a: Atomic<V>, t: Tid)
    requires Inv(s, chain) && Matches(s, chain, a) && t in s.pcs
    ensures t in a.pcs && AAt(a, t) == Progress(s.pcs[t], s.heap, chain)
    ensures a.pcs[t := a.pcs[t]] == a.pcs
    ensures ThreadOk(s.pcs[t], s.heap, chain)
  {
    hide Progress, ThreadOk;
  }

  lemma QuietSimulated<V>(s: State<V>, e: Event<V>, chain: seq<Id>, a: Atomic<V>)
    requires Inv(s, chain) && Matches(s, chain, a) && Enabled(s, e) && Quiet(s, e)
    ensures Simulated(s, e, chain, a)
  {
    hide Matches, Values, Quiet, Inv;
    InvStep(s, e, chain);
    AtomicAt(s, chain, a, e.t);
    QuietParts(s, e, chain);
    QuietOwn(s, e, chain, a);
    SameValues(s, chain, a);
    Check(s, Take(s, e), e.t, chain, chain, a, Follow(a, Amounts(s, e)));
  }

  lemma SameValues<V>(s: State<V>, chain: seq<Id>, a: Atomic<V>)
    requires Inv(s, chain) && Matches(s, chain, a)
    ensures a.q == Values(s.heap, chain) && (a.q == [] <==> |chain| == 1)
  {
  }

  lemma QuietParts<V>(s: State<V>, e: Event<V>, chain: seq<Id>)
    requires Inv(s, chain) && Enabled(s, e) && Quiet(s, e)
    ensures var s' := Take(s, e);
      && chain != [] && NextChain(s, chain, e) == chain && s'.heap == s.heap
      && e.t in s.pcs && e.t in s'.pcs && s'.pcs == s.pcs[e.t := s'.pcs[e.t]]
  {
    hide Inv;
    NonEmpty(s, chain);
  }

  lemma NonEmpty<V>(s: State<V>, chain: seq<Id>)
    requires Inv(s, chain)
    ensures chain != []
  {
  }

  /** The head is the tail just when the chain has one node. */
  lemma HeadIsTail<V>(s: State<V>, chain: seq<Id>)
    requires Inv(s, chain)
    ensures s.head.Some? ==> s.head == Some(chain[0]) && (s.head == Some(s.tail) <==> |chain| == 1)
    ensures s.tail == chain[|chain| - 1]
  {
  }

  lemma HeadThere<V>(s: State<V>, chain: seq<Id>, t: Tid)
    requires Inv(s, chain) && t in s.pcs && (s.pcs[t].PopBoth? || s.pcs[t].PopRead? || s.pcs[t].PopCompare?)
    ensures s.head == Some(chain[0])
  {
  }

  /** What a quiet event does to its own thread is what it amounts to on the atomic queue. */
  ghost predicate OwnSimulated<V>(s: State<V>, e: Event<V>, chain: seq<Id>, a: Atomic<V>)
    requires chain != []
  {
    var a', s' := Follow(a, Amounts(s, e)), Take(s, e);
    && (Amounts(s, e).Some? ==> AEnabled(a, Amounts(s, e).value))
    && e.t in s'.pcs && e.t in a'.pcs && a'.pcs == a.pcs[e.t := a'.pcs[e.t]] && a'.q == a.q
    && a'.pcs[e.t] == Progress(s'.pcs[e.t], s.heap, chain)
  }

  lemma QuietOwn<V>(s: State<V>, e: Event<V>, chain: seq<Id>, a: Atomic<V>)
    requires Inv(s, chain) && Matches(s, chain, a) && Enabled(s, e) && Quiet(s, e)
    ensures chain != [] && OwnSimulated(s, e, chain, a)
  {
    hide Inv, Matches, OwnSimulated;
    NonEmpty(s, chain);
    if e.Internal? {
      QuietInternal(s, e.t, chain, a);
    } else {
      QuietCall(s, e, chain, a);
    }
  }

  lemma QuietCall<V>(s: State<V>, e: Event<V>, chain: seq<Id>, a: Atomic<V>)
    requires Inv(s, chain) && Matches(s, chain, a) && Enabled(s, e) && Quiet(s, e) && !e.Internal?
    ensures chain != [] && OwnSimulated(s, e, chain, a)
  {
    hide Inv, Matches, ThreadOk;
    NonEmpty(s, chain);
    AtomicAt(s, chain, a, e.t);
  }

  lemma QuietInternal<V>(s: State<V>, t: Tid, chain: seq<Id>, a: Atomic<V>)
    requires Inv(s, chain) && Matches(s, chain, a) && Enabled(s, Internal(t)) && Quiet(s, Internal(t))
    ensures chain != [] && OwnSimulated(s, Internal(t), chain, a)
  {
    hide Inv, Matches, ThreadOk, OwnSimulated;
    NonEmpty(s, chain);
    if s.pcs[t].PopBoth? || s.pcs[t].PopRead? || s.pcs[t].PopCompare? {
      QuietRead(s, t, chain, a);
    } else {
      QuietLock(s, t, chain, a);
    }
  }

  lemma QuietLock<V>(s: State<V>, t: Tid, chain: seq<Id>, a: Atomic<V>)
    requires Inv(s, chain) && Matches(s, chain, a) && Enabled(s, Internal(t)) && Quiet(s, Internal(t))
    requires !(s.pcs[t].PopBoth? || s.pcs[t].PopRead? || s.pcs[t].PopCompare?)
    ensures chain != [] && OwnSimulated(s, Internal(t), chain, a)
  {
    hide Inv, Matches, ThreadOk;
    NonEmpty(s, chain);
    AtomicAt(s, chain, a, t);
  }

  lemma QuietRead<V>(s: State<V>, t: Tid, chain: seq<Id>, a: Atomic<V>)
    requires Inv(s, chain) && Matches(s, chain, a) && Enabled(s, Internal(t)) && Quiet(s, Internal(t))
    requires s.pcs[t].PopBoth? || s.pcs[t].PopRead? || s.pcs[t].PopCompare?
    ensures chain != [] && OwnSimulated(s, Internal(t), chain, a)
  {
    hide Inv, Matches, ThreadOk;
    NonEmpty(s, chain);
    AtomicAt(s, chain, a, t);
    SameValues(s, chain, a);
    HeadIsTail(s, chain);
    HeadThere(s, chain, t);
  }

  /** The other threads' progress does not change when the first node stays and data elsewhere in the heap stays. */
  lemma OthersProgress<V>(s: State<V>, t: Tid, chain: seq<Id>, heap': map<Id, Cell<V>>, chain': seq<Id>)
    requires Inv(s, chain) && chain' != [] && t in s.pcs
    requires chain'[0] == chain[0] || HoldsHead(s.pcs[t])
    requires forall id :: id in s.heap && id !in chain && Private(s.pcs[t]) != Some(id) ==>
      id in heap' && heap'[id].data == s.heap[id].data
    ensures forall u :: u in s.pcs && u != t ==>
      Progress(s.pcs[u], heap', chain') == Progress(s.pcs[u], s.heap, chain)
  {
    forall u | u in s.pcs && u != t
      ensures Progress(s.pcs[u], heap', chain') == Progress(s.pcs[u], s.heap, chain)
    {
      assert ThreadOk(s.pcs[u], s.heap, chain);
      if HoldsHead(s.pcs[t]) {
        OnePopper(s, t, u);
      }
      assert Private(s.pcs[u]).Some? ==> Private(s.pcs[u]) != Private(s.pcs[t]);
    }
  }

  lemma ValuesKept<V>(heap: map<Id, Cell<V>>, heap': map<Id, Cell<V>>, chain: seq<Id>)
    requires Linked(heap, chain)
    requires forall i :: 0 <= i < |chain| - 1 ==> chain[i] in heap' && heap'[chain[i]].data == heap[chain[i]].data
    ensures Values(heap', chain) == Values(heap, chain)
  {
  }

  lemma AllocKeeps<V>(s: State<V>, t: Tid, p: Id, chain: seq<Id>)
    requires Inv(s, chain) && Enabled(s, Alloc(t, p))
    ensures var s' := Take(s, Alloc(t, p));
      && chain != [] && t in s.pcs && t in s'.pcs && s'.pcs == s.pcs[t := s'.pcs[t]]
      && Linked(s'.heap, chain) && Values(s'.heap, chain) == Values(s.heap, chain)
      && forall u :: u in s.pcs && u != t ==> Progress(s.pcs[u], s'.heap, chain) == Progress(s.pcs[u], s.heap, chain)
  {
    AllocHeap(s, t, p, chain);
    InvParts(s, chain);
    hide Inv, Take, Progress, Values, Linked;
    var heap' := s.heap[p := Cell(None, None)];
    OthersProgress(s, t, chain, heap', chain);
    ValuesKept(s.heap, heap', chain);
  }

  lemma InvParts<V>(s: State<V>, chain: seq<Id>)
    requires Inv(s, chain)
    ensures chain != [] && Linked(s.heap, chain)
    ensures forall i :: 0 <= i < |chain| ==> chain[i] in s.heap
  {
  }

  lemma AllocHeap<V>(s: State<V>, t: Tid, p: Id, chain: seq<Id>)
    requires Inv(s, chain) && Enabled(s, Alloc(t, p))
    ensures var s' := Take(s, Alloc(t, p));
      && t in s.pcs && t in s'.pcs && s'.pcs == s.pcs[t := s'.pcs[t]] && p !in s.heap
      && s'.heap == s.heap[p := Cell(None, None)] && Linked(s'.heap, chain)
  {
    InvStep(s, Alloc(t, p), chain);
  }

  lemma AllocSimulated<V>(s: State<V>, t: Tid, p: Id, chain: seq<Id>, a: Atomic<V>)
    requires Inv(s, chain) && Matches(s, chain, a) && Enabled(s, Alloc(t, p))
    ensures Simulated(s, Alloc(t, p), chain, a)
  {
    hide Inv, Matches, Values, Linked;
    InvStep(s, Alloc(t, p), chain);
    AtomicAt(s, chain, a, t);
    AllocKeeps(s, t, p, chain);
    SameValues(s, chain, a);
    Check(s, Take(s, Alloc(t, p)), t, chain, chain, a, a);
  }

  lemma FreeKeeps<V>(s: State<V>, t: Tid, r: Option<V>, chain: seq<Id>)
    requires Inv(s, chain) && Enabled(s, ReturnPop(t, r)) && At(s, t).PopUnlocked?
    ensures var s' := Take(s, ReturnPop(t, r));
      && chain != [] && t in s.pcs && t in s'.pcs && s'.pcs == s.pcs[t := s'.pcs[t]]
      && Linked(s'.heap, chain) && Values(s'.heap, chain) == Values(s.heap, chain)
      && forall u :: u in s.pcs && u != t ==> Progress(s.pcs[u], s'.heap, chain) == Progress(s.pcs[u], s.heap, chain)
  {
    var s' := Take(s, ReturnPop(t, r));
    NonEmpty(s, chain);
    InvStep(s, ReturnPop(t, r), chain);
    OthersProgress(s, t, chain, s'.heap, chain);
    ValuesKept(s.heap, s'.heap, chain);
  }

  lemma FreeSimulated<V>(s: State<V>, t: Tid, r: Option<V>, chain: seq<Id>, a: Atomic<V>)
    requires Inv(s, chain) && Matches(s, chain, a) && Enabled(s, ReturnPop(t, r)) && At(s, t).PopUnlocked?
    ensures Simulated(s, ReturnPop(t, r), chain, a)
  {
    hide Inv, Matches, Values, Linked;
    InvStep(s, ReturnPop(t, r), chain);
    AtomicAt(s, chain, a, t);
    FreeKeeps(s, t, r, chain);
    SameValues(s, chain, a);
    Check(s, Take(s, ReturnPop(t, r)), t, chain, chain, a, ATake(a, AReturnPop(t, r)));
  }

  lemma StoreKeeps<V>(s: State<V>, t: Tid, chain: seq<Id>)
    requires Inv(s, chain) && t in s.pcs && (s.pcs[t].PushLocked? || s.pcs[t].PushData?)
    ensures var s' := Take(s, Internal(t));
      && chain != [] && t in s.pcs && t in s'.pcs && s'.pcs == s.pcs[t := s'.pcs[t]]
      && Linked(s'.heap, chain) && Values(s'.heap, chain) == Values(s.heap, chain)
      && forall u :: u in s.pcs && u != t ==> Progress(s.pcs[u], s'.heap, chain) == Progress(s.pcs[u], s.heap, chain)
  {
    var s' := Take(s, Internal(t));
    NonEmpty(s, chain);
    InvStep(s, Internal(t), chain);
    OthersProgress(s, t, chain, s'.heap, chain);
    ValuesKept(s.heap, s'.heap, chain);
  }

  lemma StoreSimulated<V>(s: State<V>, t: Tid, chain: seq<Id>, a: Atomic<V>)
    requires Inv(s, chain) && Matches(s, chain, a) && t in s.pcs && (s.pcs[t].PushLocked? || s.pcs[t].PushData?)
    ensures Simulated(s, Internal(t), chain, a)
  {
    hide Inv, Matches, Values, Linked;
    InvStep(s, Internal(t), chain);
    AtomicAt(s, chain, a, t);
    StoreKeeps(s, t, chain);
    SameValues(s, chain, a);
    Check(s, Take(s, Internal(t)), t, chain, chain, a, a);
  }

  lemma TailKeeps<V>(s: State<V>, t: Tid, chain: seq<Id>)
    requires Inv(s, chain) && t in s.pcs && s.pcs[t].PushNext?
    ensures var s', chain' := Take(s, Internal(t)), chain + [s.pcs[t].p];
      && chain != [] && Linked(s.heap, chain) && Linked(s'.heap, chain')
      && Values(s'.heap, chain') == Values(s.heap, chain) + [s.pcs[t].v]
      && forall u :: u in s.pcs && u != t ==> Progress(s.pcs[u], s'.heap, chain') == Progress(s.pcs[u], s.heap, chain)
  {
    InvStep(s, Internal(t), chain);
    assert ThreadOk(s.pcs[t], s.heap, chain);
    OthersProgress(s, t, chain, s.heap, chain + [s.pcs[t].p]);
  }

  lemma TailSimulated<V>(s: State<V>, t: Tid, chain: seq<Id>, a: Atomic<V>)
    requires Inv(s, chain) && Matches(s, chain, a) && t in s.pcs && s.pcs[t].PushNext?
    ensures Simulated(s, Internal(t), chain, a)
  {
    hide Inv, Matches, Values, Linked;
    InvStep(s, Internal(t), chain);
    AtomicAt(s, chain, a, t);
    TailKeeps(s, t, chain);
    SameValues(s, chain, a);
    Check(s, Take(s, Internal(t)), t, chain, chain + [s.pcs[t].p], a, ATake(a, Effect(t)));
  }

  lemma MovedSimulated<V>(s: State<V>, t: Tid, chain: seq<Id>, a: Atomic<V>)
    requires Inv(s, chain) && Matches(s, chain, a) && t in s.pcs
    requires s.pcs[t].PopCompare? && s.head != Some(s.pcs[t].x)
    ensures Simulated(s, Internal(t), chain, a)
  {
    hide Inv, Matches, Values, Linked;
    InvStep(s, Internal(t), chain);
    AtomicAt(s, chain, a, t);
    HeadThere(s, chain, t);
    NonEmpty(s, chain);
    SameValues(s, chain, a);
    Check(s, Take(s, Internal(t)), t, chain, chain, a, a);
  }

  lemma HeadSimulated<V>(s: State<V>, t: Tid, chain: seq<Id>, a: Atomic<V>)
    requires Inv(s, chain) && Matches(s, chain, a) && t in s.pcs && s.pcs[t].PopMoved?
    ensures Simulated(s, Internal(t), chain, a)
  {
    hide Inv, Matches, Values, Linked;
    InvStep(s, Internal(t), chain);
    AtomicAt(s, chain, a, t);
    HeadOthers(s, t, chain);
    SameValues(s, chain, a);
    HeadValues(s, t, chain);
    Check(s, Take(s, Internal(t)), t, chain, chain[1..], a, ATake(a, Effect(t)));
  }

  lemma HeadOthers<V>(s: State<V>, t: Tid, chain: seq<Id>)
    requires Inv(s, chain) && t in s.pcs && s.pcs[t].PopMoved?
    ensures |chain| >= 2
    ensures forall u :: u in s.pcs && u != t ==>
      Progress(s.pcs[u], Take(s, Internal(t)).heap, chain[1..]) == Progress(s.pcs[u], s.heap, chain)
  {
    assert ThreadOk(s.pcs[t], s.heap, chain);
    OthersProgress(s, t, chain, Take(s, Internal(t)).heap, chain[1..]);
  }

  lemma HeadValues<V>(s: State<V>, t: Tid, chain: seq<Id>)
    requires Inv(s, chain) && t in s.pcs && s.pcs[t].PopMoved?
    ensures var heap' := Take(s, Internal(t)).heap;
      && |chain| >= 2 && Linked(heap', chain[1..])
      && Values(heap', chain[1..]) == Values(s.heap, chain)[1..]
      && chain[0] in heap' && heap'[chain[0]].data == Some(Values(s.heap, chain)[0])
  {
    assert ThreadOk(s.pcs[t], s.heap, chain);
    ShortenLinked(s.heap, chain, Take(s, Internal(t)).heap[chain[0]]);
  }

  /** Every event of every interleaving is what it amounts to on the atomic queue. */
  lemma StepSimulated<V>(s: State<V>, e: Event<V>, chain: seq<Id>, a: Atomic<V>)
    requires Inv(s, chain) && Matches(s, chain, a) && Enabled(s, e)
    ensures Simulated(s, e, chain, a)
  {
    hide Inv, Take, Matches;
    NonEmpty(s, chain);
    if Quiet(s, e) {
      QuietSimulated(s, e, chain, a);
    } else {
      match e
      case Alloc(t, p) => AllocSimulated(s, t, p, chain, a);
      case ReturnPop(t, r) => FreeSimulated(s, t, r, chain, a);
      case Internal(t) =>
        var pc := At(s, t);
        if pc.PushNext? {
          TailSimulated(s, t, chain, a);
        } else if pc.PopMoved? {
          HeadSimulated(s, t, chain, a);
        } else if pc.PopCompare? {
          MovedSimulated(s, t, chain, a);
        } else {
          StoreSimulated(s, t, chain, a);
        }
    }
  }

  // ----- whole runs -----

  /** The state after a sequence of events. */
  ghost function After<V(!new)>(threads: set<Tid>, events: seq<Event<V>>): State<V> {
    if events == [] then Init(threads)
    else Take(After(threads, events[..|events| - 1]), events[|events| - 1])
  }

  ghost predicate Run<V(!new)>(threads: set<Tid>, events: seq<Event<V>>) {
    events == [] ||
    (Run(threads, events[..|events| - 1]) && Enabled(After(threads, events[..|events| - 1]), events[|events| - 1]))
  }

  /** The atomic events a sequence of events amounts to. */
  ghost function Trace<V(!new)>(threads: set<Tid>, events: seq<Event<V>>): seq<AtomicEvent<V>> {
    if events == [] then []
    else
      var before := events[..|events| - 1];
      var e := Amounts(After(threads, before), events[|events| - 1]);
      Trace(threads, before) + if e.Some? then [e.value] else []
  }

  function AInit<V(!new)>(threads: set<Tid>): Atomic<V> {
    Atomic([], map t | t in threads :: AIdle, [], [])
  }

  function AAfter<V(!new)>(threads: set<Tid>, trace: seq<AtomicEvent<V>>): Atomic<V> {
    if trace == [] then AInit(threads) else ATake(AAfter(threads, trace[..|trace| - 1]), trace[|trace| - 1])
  }

  ghost predicate ARun<V(!new)>(threads: set<Tid>, trace: seq<AtomicEvent<V>>) {
    trace == [] ||
    (ARun(threads, trace[..|trace| - 1]) && AEnabled(AAfter(threads, trace[..|trace| - 1]), trace[|trace| - 1]))
  }

  /** The calls and returns of a run, in order. */
  function Outside<V>(events: seq<Event<V>>): seq<AtomicEvent<V>> {
    if events == [] then []
    else
      Outside(events[..|events| - 1]) +
      match events[|events| - 1]
      case CallPush(t, v) => [ACallPush(t, v)]
      case CallPop(t) => [ACallPop(t)]
      case ReturnPush(t) => [AReturnPush(t)]
      case ReturnPop(t, r) => [AReturnPop(t, r)]
      case Alloc(_, _) => []
      case Internal(_) => []
  }

  /** The calls and returns of an atomic run, in order. */
  function AOutside<V>(trace: seq<AtomicEvent<V>>): seq<AtomicEvent<V>> {
    if trace == [] then []
    else AOutside(trace[..|trace| - 1]) + if trace[|trace| - 1].Effect? then [] else [trace[|trace| - 1]]
  }

  /**
    Linearizability: every run, whatever its interleaving, has the calls and returns, arguments and
    results included, of a run of the atomic queue, in which each call takes effect in one step
    between its call and its return.
   */
  lemma {:induction false} Linearizable<V(!new)>(threads: set<Tid>, events: seq<Event<V>>) returns (chain: seq<Id>)
    requires Run(threads, events)
    ensures ARun(threads, Trace(threads, events))
    ensures AOutside(Trace(threads, events)) == Outside(events)
    ensures Inv(After(threads, events), chain)
    ensures Matches(After(threads, events), chain, AAfter(threads, Trace(threads, events)))
  {
    if events == [] {
      chain := [0];
      InitInv<V>(threads);
    } else {
      hide Inv, Take, Enabled, Matches, ARun, AAfter, AOutside, Outside, Trace, Amounts, Follow;
      var before, e := events[..|events| - 1], events[|events| - 1];
      assert before + [e] == events;
      var chain0 := Linearizable(threads, before);
      var s, a := After(threads, before), AAfter(threads, Trace(threads, before));
      StepSimulated(s, e, chain0, a);
      chain := NextChain(s, chain0, e);
      Extend(threads, before, e);
    }
  }

  /** A call or return shows outside as what it amounts to. */
  lemma ShowsOutside<V>(s: State<V>, before: seq<Event<V>>, e: Event<V>)
    ensures var m := Amounts(s, e);
      Outside(before + [e]) == Outside(before) + if m.Some? && !m.value.Effect? then [m.value] else []
  {
    assert (before + [e])[..|before|] == before;
  }

  lemma Extend<V(!new)>(threads: set<Tid>, before: seq<Event<V>>, e: Event<V>)
    requires ARun(threads, Trace(threads, before))
    requires AOutside(Trace(threads, before)) == Outside(before)
    requires var a := AAfter(threads, Trace(threads, before));
      var m := Amounts(After(threads, before), e);
      m.Some? ==> AEnabled(a, m.value)
    ensures var events := before + [e];
      && ARun(threads, Trace(threads, events))
      && AOutside(Trace(threads, events)) == Outside(events)
      && AAfter(threads, Trace(threads, events)) ==
         Follow(AAfter(threads, Trace(threads, before)), Amounts(After(threads, before), e))
  {
    ShowsOutside(After(threads, before), before, e);
    hide AEnabled, ATake, After, ARun, AAfter, AOutside, Outside, Amounts;
    var events := before + [e];
    assert events[..|events| - 1] == before;
    var m := Amounts(After(threads, before), e);
    var trace := Trace(threads, before);
    if m.Some? {
      AExtend(threads, trace, m.value);
    } else {
      assert trace + [] == trace;
    }
  }

  lemma AExtend<V(!new)>(threads: set<Tid>, trace: seq<AtomicEvent<V>>, e: AtomicEvent<V>)
    requires ARun(threads, trace) && AEnabled(AAfter(threads, trace), e)
    ensures ARun(threads, trace + [e])
    ensures AAfter(threads, trace + [e]) == ATake(AAfter(threads, trace), e)
    ensures AOutside(trace + [e]) == AOutside(trace) + if e.Effect? then [] else [e]
  {
    hide AEnabled, ATake;
    assert (trace + [e])[..|trace|] == trace;
  }

  // ----- conservation -----

  /** The values the calls of push were given. */
  ghost function Pushes<V>(events: seq<Event<V>>): multiset<V> {
    if events == [] then multiset{}
    else
      Pushes(events[..|events| - 1]) +
      if events[|events| - 1].CallPush? then multiset{events[|events| - 1].v} else multiset{}
  }

  /** The values that pops have returned. */
  ghost function Pops<V>(events: seq<Event<V>>): multiset<V> {
    if events == [] then multiset{}
    else
      Pops(events[..|events| - 1]) +
      if events[|events| - 1].ReturnPop? then Value(events[|events| - 1].r) else multiset{}
  }

  ghost function Value<V>(r: Option<V>): multiset<V> {
    if r.Some? then multiset{r.value} else multiset{}
  }

  /** The value a thread is still to push. */
  ghost function Pushing1<V>(pc: AtomicPc<V>): multiset<V> {
    if pc.Pushing? then multiset{pc.v} else multiset{}
  }

  /** The value a thread has popped and is still to return. */
  ghost function Popped1<V>(pc: AtomicPc<V>): multiset<V> {
    if pc.Popped? then Value(pc.r) else multiset{}
  }

  ghost function PushHand<V>(pcs: map<Tid, AtomicPc<V>>, t: Tid): multiset<V> {
    if t in pcs then Pushing1(pcs[t]) else multiset{}
  }

  ghost function PopHand<V>(pcs: map<Tid, AtomicPc<V>>, t: Tid): multiset<V> {
    if t in pcs then Popped1(pcs[t]) else multiset{}
  }

  /** The values that threads below n are still to push. */
  ghost function ToPush<V>(pcs: map<Tid, AtomicPc<V>>, n: nat): multiset<V> {
    if n == 0 then multiset{}
    else ToPush(pcs, n - 1) + PushHand(pcs, n - 1)
  }

  /** The values that threads below n have popped and are still to return. */
  ghost function ToReturn<V>(pcs: map<Tid, AtomicPc<V>>, n: nat): multiset<V> {
    if n == 0 then multiset{}
    else ToReturn(pcs, n - 1) + PopHand(pcs, n - 1)
  }

  lemma {:induction false} PushesInHand<V>(pcs: map<Tid, AtomicPc<V>>, t: Tid, pc: AtomicPc<V>, n: nat)
    requires t in pcs
    ensures t >= n ==> ToPush(pcs[t := pc], n) == ToPush(pcs, n)
    ensures t < n ==> ToPush(pcs[t := pc], n) + Pushing1(pcs[t]) == ToPush(pcs, n) + Pushing1(pc)
  {
    hide Pushing1;
    if n > 0 {
      PushesInHand(pcs, t, pc, n - 1);
      if t == n - 1 {
        Swap(ToPush(pcs, n - 1), Pushing1(pc), Pushing1(pcs[t]));
      } else if t < n {
        Carry(ToPush(pcs[t := pc], n - 1), ToPush(pcs, n - 1), Pushing1(pcs[t]), Pushing1(pc), PushHand(pcs, n - 1));
      }
    }
  }

  lemma {:induction false} PopsInHand<V>(pcs: map<Tid, AtomicPc<V>>, t: Tid, pc: AtomicPc<V>, n: nat)
    requires t in pcs
    ensures t >= n ==> ToReturn(pcs[t := pc], n) == ToReturn(pcs, n)
    ensures t < n ==> ToReturn(pcs[t := pc], n) + Popped1(pcs[t]) == ToReturn(pcs, n) + Popped1(pc)
  {
    hide Popped1;
    if n > 0 {
      PopsInHand(pcs, t, pc, n - 1);
      if t == n - 1 {
        Swap(ToReturn(pcs, n - 1), Popped1(pc), Popped1(pcs[t]));
      } else if t < n {
        Carry(ToReturn(pcs[t := pc], n - 1), ToReturn(pcs, n - 1), Popped1(pcs[t]), Popped1(pc), PopHand(pcs, n - 1));
      }
    }
  }

  lemma Swap<V>(a: multiset<V>, b: multiset<V>, c: multiset<V>)
    ensures a + b + c == a + c + b
  {
  }

  lemma Carry<V>(a: multiset<V>, b: multiset<V>, x: multiset<V>, y: multiset<V>, c: multiset<V>)
    requires a + x == b + y
    ensures a + c + x == b + c + y
  {
    Swap(a, c, x);
    Swap(b, c, y);
  }

  /** The accounts of the queue: what has been pushed, popped, returned, and what is in the threads' hands. */
  ghost predicate Balanced<V>(a: Atomic<V>, pushes: multiset<V>, pops: multiset<V>, n: nat) {
    && a.pushed == a.popped + a.q
    && pushes == multiset(a.pushed) + ToPush(a.pcs, n)
    && multiset(a.popped) == pops + ToReturn(a.pcs, n)
  }

  /** The values an atomic event pushes, and those it pops. */
  ghost function Added<V>(a: Atomic<V>, e: AtomicEvent<V>): multiset<V> {
    if e.Effect? then Pushing1(AAt(a, e.t)) else multiset{}
  }

  ghost function Removed<V>(a: Atomic<V>, e: AtomicEvent<V>): multiset<V> {
    if e.Effect? && AAt(a, e.t).Popping? && a.q != [] then multiset{a.q[0]} else multiset{}
  }

  /** The values a call of push is given, and those a pop returns. */
  ghost function Given<V>(e: AtomicEvent<V>): multiset<V> {
    if e.ACallPush? then multiset{e.v} else multiset{}
  }

  ghost function Got<V>(e: AtomicEvent<V>): multiset<V> {
    if e.AReturnPop? then Value(e.r) else multiset{}
  }

  /** What goes through the hands of the thread: a value it is given it pushes, a value it pops it returns. */
  lemma ThroughHands<V>(a: Atomic<V>, e: AtomicEvent<V>)
    requires AEnabled(a, e) && e.t in a.pcs
    ensures var was, now := a.pcs[e.t], ATake(a, e).pcs[e.t];
      && Given(e) + Pushing1(was) == Added(a, e) + Pushing1(now)
      && Removed(a, e) + Popped1(was) == Got(e) + Popped1(now)
    ensures ATake(a, e).pcs == a.pcs[e.t := ATake(a, e).pcs[e.t]]
  {
    match e
    case Effect(t) => EffectHands(a, t);
    case _ => hide Value;
  }

  lemma EffectHands<V>(a: Atomic<V>, t: Tid)
    requires AEnabled(a, Effect(t)) && t in a.pcs
    ensures var was, now := a.pcs[t], ATake(a, Effect(t)).pcs[t];
      && Pushing1(was) == Added(a, Effect(t)) + Pushing1(now)
      && Removed(a, Effect(t)) + Popped1(was) == Popped1(now)
  {
    var was, now := a.pcs[t], ATake(a, Effect(t)).pcs[t];
    if was.Pushing? {
      assert now == Pushed;
      assert Pushing1(was) + multiset{} == Pushing1(was);
    } else {
      assert was.Popping? && now == Popped(if a.q == [] then None else Some(a.q[0]));
      assert Removed(a, Effect(t)) == Popped1(now);
    }
  }

  lemma Logged<V>(a: Atomic<V>, e: AtomicEvent<V>)
    requires AEnabled(a, e)
    ensures multiset(ATake(a, e).pushed) == multiset(a.pushed) + Added(a, e)
    ensures multiset(ATake(a, e).popped) == multiset(a.popped) + Removed(a, e)
  {
  }

  lemma InOrder<V>(a: Atomic<V>, e: AtomicEvent<V>)
    requires a.pushed == a.popped + a.q
    ensures ATake(a, e).pushed == ATake(a, e).popped + ATake(a, e).q
  {
    if a.q != [] {
      assert a.q == [a.q[0]] + a.q[1..];
    }
  }

  /** An account stays balanced if what comes in and goes out balances with what changes hands. */
  lemma Account<V>(total: multiset<V>, done: multiset<V>, hands: multiset<V>, hands': multiset<V>,
                   coming: multiset<V>, going: multiset<V>, before: multiset<V>, after: multiset<V>)
    requires total == done + hands && hands' + before == hands + after && coming + before == going + after
    ensures total + coming == done + going + hands'
  {
    forall x: V
      ensures (total + coming)[x] == (done + going + hands')[x]
    {
      assert (hands' + before)[x] == (hands + after)[x] && (coming + before)[x] == (going + after)[x];
    }
  }

  lemma BalancedStep<V>(a: Atomic<V>, e: AtomicEvent<V>, pushes: multiset<V>, pops: multiset<V>, n: nat)
    requires Balanced(a, pushes, pops, n) && AEnabled(a, e) && e.t in a.pcs && e.t < n
    ensures Balanced(ATake(a, e), pushes + Given(e), pops + Got(e), n)
  {
    ThroughHands(a, e);
    Logged(a, e);
    InOrder(a, e);
    hide ATake, AEnabled, Given, Got, Added, Removed, Pushing1, Popped1, ToPush, ToReturn;
    var a' := ATake(a, e);
    PushesInHand(a.pcs, e.t, a'.pcs[e.t], n);
    PopsInHand(a.pcs, e.t, a'.pcs[e.t], n);
    Account(pushes, multiset(a.pushed), ToPush(a.pcs, n), ToPush(a'.pcs, n),
            Given(e), Added(a, e), Pushing1(a.pcs[e.t]), Pushing1(a'.pcs[e.t]));
    Account(multiset(a.popped), pops, ToReturn(a.pcs, n), ToReturn(a'.pcs, n),
            Removed(a, e), Got(e), Popped1(a.pcs[e.t]), Popped1(a'.pcs[e.t]));
  }

  lemma Effective<V>(s: State<V>, e: Event<V>, chain: seq<Id>, a: Atomic<V>)
    requires chain != [] && Simulated(s, e, chain, a)
    ensures Amounts(s, e).Some? ==> AEnabled(a, Amounts(s, e).value)
  {
    hide Inv, Take, Matches, AEnabled;
  }

  /** What an event adds to the values given and returned is what it amounts to adds. */
  lemma Told<V>(s: State<V>, before: seq<Event<V>>, e: Event<V>)
    ensures var m := Amounts(s, e);
      && Pushes(before + [e]) == Pushes(before) + (if m.Some? then Given(m.value) else multiset{})
      && Pops(before + [e]) == Pops(before) + (if m.Some? then Got(m.value) else multiset{})
  {
    assert (before + [e])[..|before|] == before;
    hide Value;
  }

  lemma AccountsStep<V(!new)>(threads: set<Tid>, s: State<V>, chain: seq<Id>, e: Event<V>, a: Atomic<V>,
                              before: seq<Event<V>>, n: nat)
    requires Inv(s, chain) && Matches(s, chain, a) && Enabled(s, e) && Simulated(s, e, chain, a)
    requires s.pcs.Keys == threads && forall t :: t in threads ==> t < n
    requires Balanced(a, Pushes(before), Pops(before), n)
    ensures Take(s, e).pcs.Keys == threads
    ensures Balanced(Follow(a, Amounts(s, e)), Pushes(before + [e]), Pops(before + [e]), n)
  {
    KeysKept(s, e, chain, a);
    Told(s, before, e);
    Effective(s, e, chain, a);
    hide Inv, Take, Matches, Balanced, ATake, AEnabled, Enabled, Amounts, Simulated, Pushes, Pops, Given, Got;
    var m := Amounts(s, e);
    if m.Some? {
      BalancedStep(a, m.value, Pushes(before), Pops(before), n);
    }
  }

  lemma AccountsMore<V(!new)>(threads: set<Tid>, before: seq<Event<V>>, e: Event<V>, n: nat)
    requires Run(threads, before) && Enabled(After(threads, before), e) && forall t :: t in threads ==> t < n
    requires After(threads, before).pcs.Keys == threads
    requires Balanced(AAfter(threads, Trace(threads, before)), Pushes(before), Pops(before), n)
    ensures Take(After(threads, before), e).pcs.Keys == threads
    ensures Balanced(AAfter(threads, Trace(threads, before + [e])), Pushes(before + [e]), Pops(before + [e]), n)
  {
    hide Run, After, Inv, Take, Enabled, Matches, Balanced, ATake, AEnabled, ARun, AAfter, Trace, Pushes, Pops, Follow,
      Amounts, Simulated, AOutside, Outside;
    var chain := Linearizable(threads, before);
    var s, a := After(threads, before), AAfter(threads, Trace(threads, before));
    NonEmpty(s, chain);
    StepSimulated(s, e, chain, a);
    Effective(s, e, chain, a);
    Extend(threads, before, e);
    AccountsStep(threads, s, chain, e, a, before, n);
  }

  lemma {:induction false} Accounts<V(!new)>(threads: set<Tid>, events: seq<Event<V>>, n: nat)
    requires Run(threads, events) && forall t :: t in threads ==> t < n
    ensures After(threads, events).pcs.Keys == threads
    ensures Balanced(AAfter(threads, Trace(threads, events)), Pushes(events), Pops(events), n)
  {
    if events == [] {
      NoneInHand(AInit<V>(threads).pcs, n);
    } else {
      hide Take, Enabled, Balanced, AAfter, Trace, Pushes, Pops;
      var before, e := events[..|events| - 1], events[|events| - 1];
      assert before + [e] == events;
      Accounts(threads, before, n);
      AccountsMore(threads, before, e, n);
    }
  }

  lemma KeysKept<V>(s: State<V>, e: Event<V>, chain: seq<Id>, a: Atomic<V>)
    requires Inv(s, chain) && Matches(s, chain, a) && Enabled(s, e)
    ensures Take(s, e).pcs.Keys == s.pcs.Keys == a.pcs.Keys && e.t in s.pcs
    ensures Amounts(s, e).Some? ==> Amounts(s, e).value.t == e.t
  {
    hide Inv;
  }

  lemma {:induction false} NoneInHand<V>(pcs: map<Tid, AtomicPc<V>>, n: nat)
    requires forall t :: t in pcs ==> pcs[t] == AIdle
    ensures ToPush(pcs, n) == multiset{} && ToReturn(pcs, n) == multiset{}
  {
    if n > 0 {
      NoneInHand(pcs, n - 1);
    }
  }

  /**
    First in, first out, nothing lost or duplicated, on every run of any threads: what has been pushed is what
    has been popped, then what is in the queue, in order; the values given to push are those pushed and those
    that threads in push are still to add; the values popped are those returned and those that threads in pop
    are still to return. So each value is returned at most once, and with no thread in a call the values given
    are those returned and those in the queue.
   */
  lemma Conservation<V(!new)>(threads: set<Tid>, events: seq<Event<V>>, n: nat) returns (chain: seq<Id>)
    requires Run(threads, events) && forall t :: t in threads ==> t < n
    ensures Inv(After(threads, events), chain)
    ensures var a := AAfter(threads, Trace(threads, events));
      && a.pushed == a.popped + a.q && a.q == Values(After(threads, events).heap, chain)
      && Pushes(events) == multiset(a.pushed) + ToPush(a.pcs, n)
      && multiset(a.popped) == Pops(events) + ToReturn(a.pcs, n)
      && Pops(events) <= Pushes(events)
      && ((forall t :: t in threads ==> At(After(threads, events), t).Idle?) ==>
          Pushes(events) == Pops(events) + multiset(a.q))
  {
    hide Run, After, Trace, AAfter, Pushes, Pops, Inv, ToPush, ToReturn;
    chain := Linearizable(threads, events);
    Accounts(threads, events, n);
    var s, a := After(threads, events), AAfter(threads, Trace(threads, events));
    Sums(a, Pushes(events), Pops(events), n);
    if forall t :: t in threads ==> At(s, t).Idle? {
      NoneInHand(a.pcs, n);
    }
  }

  lemma Sums<V>(a: Atomic<V>, pushes: multiset<V>, pops: multiset<V>, n: nat)
    requires Balanced(a, pushes, pops, n)
    ensures pops <= pushes
    ensures ToPush(a.pcs, n) == multiset{} && ToReturn(a.pcs, n) == multiset{} ==> pushes == pops + multiset(a.q)
  {
    hide ToPush, ToReturn;
    assert multiset(a.pushed) == multiset(a.popped) + multiset(a.q);
  }

  // ----- locks -----

  /** A thread that is unlinking a node or has unlinked one. */
  predicate Unlinking<V>(pc: Pc<V>) {
    pc.PopMoved? || pc.PopTaken? || pc.PopUnlocked?
  }

  /**
    Lock discipline on every reachable state: no two threads hold the same lock, and the node a popper
    unlinks is never the tail, which is the one that pushers store into, nor the head the queue goes on with,
    nor one that another popper has unlinked.
   */
  lemma Discipline<V(!new)>(threads: set<Tid>, events: seq<Event<V>>, t: Tid, u: Tid)
    requires Run(threads, events)
    requires var s := After(threads, events); t in s.pcs && u in s.pcs && t != u
    ensures var s := After(threads, events);
      && !(HoldsHead(s.pcs[t]) && HoldsHead(s.pcs[u]))
      && !(HoldsTail(s.pcs[t]) && HoldsTail(s.pcs[u]))
      && (Unlinking(s.pcs[t]) ==> s.tail != s.pcs[t].out && s.head != Some(s.pcs[t].out))
      && (Unlinking(s.pcs[t]) && Unlinking(s.pcs[u]) ==> s.pcs[t].out != s.pcs[u].out)
  {
    var chain := Linearizable(threads, events);
    var s := After(threads, events);
    hide After, Run, Matches;
    Disciplined(s, chain, t, u);
  }

  lemma Disciplined<V>(s: State<V>, chain: seq<Id>, t: Tid, u: Tid)
    requires Inv(s, chain) && t in s.pcs && u in s.pcs && t != u
    ensures !(HoldsHead(s.pcs[t]) && HoldsHead(s.pcs[u]))
    ensures !(HoldsTail(s.pcs[t]) && HoldsTail(s.pcs[u]))
    ensures Unlinking(s.pcs[t]) ==> s.tail != s.pcs[t].out && s.head != Some(s.pcs[t].out)
    ensures Unlinking(s.pcs[t]) && Unlinking(s.pcs[u]) ==> s.pcs[t].out != s.pcs[u].out
  {
    assert ThreadOk(s.pcs[t], s.heap, chain) && ThreadOk(s.pcs[u], s.heap, chain);
    assert Private(s.pcs[t]).Some? ==> Private(s.pcs[t]) != Private(s.pcs[u]);
  }

  lemma {:induction false} Bounded(ids: set<Id>) returns (b: Id)
    ensures forall id :: id in ids ==> id < b
    decreases |ids|
  {
    if ids == {} {
      b := 0;
    } else {
      var x :| x in ids;
      b := Bounded(ids - {x});
      assert forall id :: id in ids ==> id == x || id in ids - {x};
      b := if x < b then b else x + 1;
    }
  }

  /** A thread in a call can go on: it is not waiting for a lock. */
  ghost predicate CanGoOn<V(!new)>(s: State<V>, t: Tid) {
    t in s.pcs && !s.pcs[t].Idle? && exists e: Event<V> :: e.t == t && Enabled(s, e)
  }

  /** No deadlock: as long as a thread is in a call, some thread in a call can go on. */
  lemma NoDeadlock<V(!new)>(threads: set<Tid>, events: seq<Event<V>>, t: Tid)
    requires Run(threads, events)
    requires t in After(threads, events).pcs && !After(threads, events).pcs[t].Idle?
    ensures exists u :: CanGoOn(After(threads, events), u)
  {
    var chain := Linearizable(threads, events);
    var s := After(threads, events);
    hide After, Run, Matches;
    var u := SomeoneGoesOn(s, chain, t);
  }

  lemma SomeoneGoesOn<V(!new)>(s: State<V>, chain: seq<Id>, t: Tid) returns (u: Tid)
    requires Inv(s, chain) && t in s.pcs && !s.pcs[t].Idle?
    ensures CanGoOn(s, u)
  {
    hide Linked, HeadOk, ThreadsOk, Apart, InternalStep;
    u := if s.tailLock.Some? then s.tailLock.value else if s.headLock.Some? then s.headLock.value else t;
    match s.pcs[u]
    case PushCalled(_) =>
      var p := Bounded(s.heap.Keys);
      assert Enabled(s, Alloc(u, p));
    case PushDone(_) => assert Enabled(s, ReturnPush(u));
    case PopNull => assert Enabled(s, ReturnPop(u, None));
    case PopUnlocked(out) => assert Enabled(s, ReturnPop(u, Load(s, out).data));
    case Idle => assert false;
    case _ => assert Enabled(s, Internal(u));
  }

  // ----- every call returns -----

  /** The allocations, lock operations and memory accesses a thread has made since its last call; none once it has returned. */
  ghost function OwnSteps<V>(events: seq<Event<V>>, t: Tid): nat {
    if events == [] then 0
    else
      var before, e := events[..|events| - 1], events[|events| - 1];
      if e.t != t then OwnSteps(before, t)
      else if e.Alloc? || e.Internal? then OwnSteps(before, t) + 1
      else 0
  }

  /** How many steps a thread has made when it is at this point of its call. */
  function Made<V>(pc: Pc<V>): (n: nat)
    ensures n <= 7
  {
    match pc
    case Idle => 0
    case PushCalled(_) => 0
    case PushReady(_, _) => 1
    case PushLocked(_, _) => 2
    case PushData(_, _) => 3
    case PushNext(_, _) => 4
    case PushTail(_) => 5
    case PushDone(_) => 6
    case PopCalled => 0
    case PopLocked => 1
    case PopBoth => 2
    case PopRead(_) => 3
    case PopCompare(_) => 4
    case PopMoved(_) => 5
    case PopEmpty => 5
    case PopTaken(_) => 6
    case PopNull => 6
    case PopUnlocked(_) => 7
  }

  /** Every step of a thread in a call brings it on by one, and no step of another thread moves it. */
  lemma MovesOn<V>(s: State<V>, e: Event<V>, t: Tid)
    requires Enabled(s, e) && t in s.pcs
    ensures Take(s, e).pcs.Keys == s.pcs.Keys
    ensures e.t != t ==> Take(s, e).pcs[t] == s.pcs[t]
    ensures e.t == t ==> Made(Take(s, e).pcs[t]) == if e.Alloc? || e.Internal? then Made(s.pcs[t]) + 1 else 0
    ensures e.t == t && (e.Alloc? || e.Internal?) ==> !Take(s, e).pcs[t].Idle? && !s.pcs[t].Idle?
    ensures e.t == t && (e.ReturnPush? || e.ReturnPop?) ==> Take(s, e).pcs[t].Idle?
  {
  }

  lemma {:induction false} StepsMade<V(!new)>(threads: set<Tid>, events: seq<Event<V>>, t: Tid)
    requires Run(threads, events) && t in threads
    ensures After(threads, events).pcs.Keys == threads
    ensures OwnSteps(events, t) == Made(After(threads, events).pcs[t])
  {
    if events != [] {
      hide Take, Enabled;
      var before, e := events[..|events| - 1], events[|events| - 1];
      StepsMade(threads, before, t);
      MovesOn(After(threads, before), e, t);
    }
  }

  /**
    On every run of any threads, a call of push returns after exactly six steps of its own thread, a call of
    try_pop after exactly six if it found nothing and seven if it found a value; no call makes more.
   */
  lemma CallsAreBounded<V(!new)>(threads: set<Tid>, events: seq<Event<V>>, e: Event<V>)
    requires Run(threads, events) && Enabled(After(threads, events), e)
    ensures OwnSteps(events, e.t) <= if e.Alloc? || e.Internal? then 6 else 7
    ensures e.ReturnPush? ==> OwnSteps(events, e.t) == 6
    ensures e.ReturnPop? ==> OwnSteps(events, e.t) == if e.r == None then 6 else 7
  {
    SameThreads(threads, events);
    Known(After(threads, events), e);
    StepsMade(threads, events, e.t);
    var chain := Linearizable(threads, events);
    var s := After(threads, events);
    hide Run, After, Matches, OwnSteps;
    BoundedAt(s, chain, e);
  }

  lemma BoundedAt<V>(s: State<V>, chain: seq<Id>, e: Event<V>)
    requires Inv(s, chain) && Enabled(s, e)
    ensures Made(s.pcs[e.t]) <= if e.Alloc? || e.Internal? then 6 else 7
    ensures e.ReturnPush? ==> Made(s.pcs[e.t]) == 6
    ensures e.ReturnPop? ==> Made(s.pcs[e.t]) == if e.r == None then 6 else 7
  {
    hide Linked, HeadOk, Locks, Apart;
    assert ThreadOk(s.pcs[e.t], s.heap, chain);
  }

  /** A bound on what a thread's call still has to do, its return included. */
  function Left<V>(pc: Pc<V>): nat {
    if pc.Idle? then 0 else 8 - Made(pc)
  }

  /** The sum over the threads below n. */
  function TotalLeft<V>(pcs: map<Tid, Pc<V>>, n: nat): nat {
    if n == 0 then 0 else TotalLeft(pcs, n - 1) + if n - 1 in pcs then Left(pcs[n - 1]) else 0
  }

  lemma {:induction false} LeftAt<V>(pcs: map<Tid, Pc<V>>, pcs': map<Tid, Pc<V>>, t: Tid, n: nat)
    requires t in pcs && pcs'.Keys == pcs.Keys && forall u :: u in pcs && u != t ==> pcs'[u] == pcs[u]
    ensures t >= n ==> TotalLeft(pcs', n) == TotalLeft(pcs, n)
    ensures t < n ==> TotalLeft(pcs', n) + Left(pcs[t]) == TotalLeft(pcs, n) + Left(pcs'[t])
  {
    hide Left;
    if n > 0 {
      LeftAt(pcs, pcs', t, n - 1);
    }
  }

  lemma LessLeft<V>(s: State<V>, e: Event<V>, n: nat)
    requires Enabled(s, e) && e.t < n && !e.CallPush? && !e.CallPop?
    ensures TotalLeft(Take(s, e).pcs, n) < TotalLeft(s.pcs, n)
  {
    hide Enabled, Take, TotalLeft;
    forall u | u in s.pcs
      ensures Take(s, e).pcs.Keys == s.pcs.Keys && (u != e.t ==> Take(s, e).pcs[u] == s.pcs[u])
    {
      MovesOn(s, e, u);
    }
    assert e.t in s.pcs by { Known(s, e); }
    MovesOn(s, e, e.t);
    LeftAt(s.pcs, Take(s, e).pcs, e.t, n);
    LessOwn(s, e);
  }

  lemma Known<V>(s: State<V>, e: Event<V>)
    requires Enabled(s, e)
    ensures e.t in s.pcs
  {
  }

  lemma LessOwn<V>(s: State<V>, e: Event<V>)
    requires Enabled(s, e) && !e.CallPush? && !e.CallPop?
    ensures e.t in Take(s, e).pcs && Left(Take(s, e).pcs[e.t]) < Left(s.pcs[e.t])
  {
  }

  lemma OneMore<V(!new)>(threads: set<Tid>, events: seq<Event<V>>, e: Event<V>)
    requires Run(threads, events) && Enabled(After(threads, events), e)
    ensures Run(threads, events + [e]) && After(threads, events + [e]) == Take(After(threads, events), e)
  {
    hide Take, Enabled;
    assert (events + [e])[..|events|] == events;
  }

  /** No thread is in a call. */
  predicate AllIdle<V>(s: State<V>) {
    forall t :: t in s.pcs ==> s.pcs[t].Idle?
  }

  /** Every run goes on, without a new call, to one in which every call has returned. */
  lemma {:induction false} AllReturn<V(!new)>(threads: set<Tid>, events: seq<Event<V>>, n: nat)
    returns (more: seq<Event<V>>)
    requires Run(threads, events) && forall t :: t in threads ==> t < n
    ensures Run(threads, events + more) && AllIdle(After(threads, events + more))
    ensures forall i :: 0 <= i < |more| ==> !more[i].CallPush? && !more[i].CallPop?
    ensures |more| <= TotalLeft(After(threads, events).pcs, n)
    decreases TotalLeft(After(threads, events).pcs, n)
  {
    hide Run, After, Take, Enabled, TotalLeft;
    var s := After(threads, events);
    if AllIdle(s) {
      more := [];
      assert events + more == events;
    } else {
      var e := Going(threads, events);
      OneMore(threads, events, e);
      LessLeft(s, e, n);
      var rest := AllReturn(threads, events + [e], n);
      more := [e] + rest;
      assert events + more == events + [e] + rest;
    }
  }

  /** While a thread is in a call, a call can go on. */
  lemma Going<V(!new)>(threads: set<Tid>, events: seq<Event<V>>) returns (e: Event<V>)
    requires Run(threads, events) && !AllIdle(After(threads, events))
    ensures Enabled(After(threads, events), e) && !e.CallPush? && !e.CallPop? && e.t in threads
  {
    var s := After(threads, events);
    var t :| t in s.pcs && !s.pcs[t].Idle?;
    NoDeadlock(threads, events, t);
    var u :| CanGoOn(s, u);
    e :| e.t == u && Enabled(s, e);
    SameThreads(threads, events);
    hide Run, After;
  }

  lemma {:induction false} SameThreads<V(!new)>(threads: set<Tid>, events: seq<Event<V>>)
    requires Run(threads, events)
    ensures After(threads, events).pcs.Keys == threads
  {
    if events != [] {
      var before, e := events[..|events| - 1], events[|events| - 1];
      SameThreads(threads, before);
      hide Take, Enabled;
      Known(After(threads, before), e);
      MovesOn(After(threads, before), e, e.t);
    }
  }

  // ----- no node is lost -----

  /** Every node is in the chain or in the hands of one thread. */
  ghost predicate NoGarbage<V>(s: State<V>, chain: seq<Id>) {
    forall id :: id in s.heap ==> id in chain || InHands(s, id)
  }

  ghost predicate InHands<V>(s: State<V>, id: Id) {
    exists t :: t in s.pcs && Private(s.pcs[t]) == Some(id)
  }

  ghost function Ids(chain: seq<Id>): set<Id> {
    set id | id in chain
  }

  lemma GarbageStep<V>(s: State<V>, e: Event<V>, chain: seq<Id>)
    requires Inv(s, chain) && NoGarbage(s, chain) && Enabled(s, e)
    ensures NoGarbage(Take(s, e), NextChain(s, chain, e))
  {
    var s', chain' := Take(s, e), NextChain(s, chain, e);
    MovesOn(s, e, e.t);
    forall id | id in s'.heap
      ensures id in chain' || InHands(s', id)
    {
      if id in s.heap && id !in chain {
        var t :| t in s.pcs && Private(s.pcs[t]) == Some(id);
        StillHeld(s, e, chain, t, id);
      } else {
        NewlyHeld(s, e, chain, id);
      }
    }
  }

  lemma StillHeld<V>(s: State<V>, e: Event<V>, chain: seq<Id>, t: Tid, id: Id)
    requires Inv(s, chain) && Enabled(s, e) && t in s.pcs && Private(s.pcs[t]) == Some(id) && id in Take(s, e).heap
    ensures id in NextChain(s, chain, e) || InHands(Take(s, e), id)
  {
    hide Inv;
    var s' := Take(s, e);
    MovesOn(s, e, t);
    if e.t == t && Private(s'.pcs[t]) != Some(id) {
      assert id in NextChain(s, chain, e) by { NonEmpty(s, chain); }
    } else {
      assert t in s'.pcs && Private(s'.pcs[t]) == Some(id);
    }
  }

  lemma NewlyHeld<V>(s: State<V>, e: Event<V>, chain: seq<Id>, id: Id)
    requires Inv(s, chain) && Enabled(s, e) && id in Take(s, e).heap && (id in chain || id !in s.heap)
    ensures id in NextChain(s, chain, e) || InHands(Take(s, e), id)
  {
    hide Locks, HeadOk, Apart;
    var s' := Take(s, e);
    assert ThreadOk(s.pcs[e.t], s.heap, chain);
    if id !in s.heap {
      assert e.Alloc? && Private(s'.pcs[e.t]) == Some(id);
    } else if id !in NextChain(s, chain, e) {
      assert At(s, e.t).PopMoved? && id == chain[0];
      assert Private(s'.pcs[e.t]) == Some(id);
    }
  }

  /** On every run no node is lost: with no thread in a call, the nodes are the chain's, one more than the values. */
  lemma {:induction false} NoLeak<V(!new)>(threads: set<Tid>, events: seq<Event<V>>) returns (chain: seq<Id>)
    requires Run(threads, events)
    ensures Inv(After(threads, events), chain) && NoGarbage(After(threads, events), chain)
    ensures AllIdle(After(threads, events)) ==>
      var heap := After(threads, events).heap;
      heap.Keys == Ids(chain) && |heap| == |Values(heap, chain)| + 1
  {
    if events == [] {
      chain := [0];
      InitInv<V>(threads);
    } else {
      hide Inv, Take, Enabled, NoGarbage, Values, AllIdle;
      var before, e := events[..|events| - 1], events[|events| - 1];
      var chain0 := NoLeak(threads, before);
      var s := After(threads, before);
      InvStep(s, e, chain0);
      GarbageStep(s, e, chain0);
      chain := NextChain(s, chain0, e);
    }
    Clean(After(threads, events), chain);
  }

  lemma Clean<V>(s: State<V>, chain: seq<Id>)
    requires Inv(s, chain) && NoGarbage(s, chain)
    ensures AllIdle(s) ==> s.heap.Keys == Ids(chain) && |s.heap| == |Values(s.heap, chain)| + 1
  {
    if AllIdle(s) {
      assert s.heap.Keys == Ids(chain);
      Distinct(chain);
    }
  }

  lemma {:induction false} Distinct(chain: seq<Id>)
    requires forall i, j :: 0 <= i < j < |chain| ==> chain[i] != chain[j]
    ensures |Ids(chain)| == |chain|
  {
    if chain != [] {
      var front, last := chain[..|chain| - 1], chain[|chain| - 1];
      Distinct(front);
      assert last !in Ids(front);
      assert Ids(chain) == Ids(front) + {last} by {
        assert chain == front + [last];
      }
    }
  }
}
