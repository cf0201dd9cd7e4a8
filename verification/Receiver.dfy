/**
  The receiving end of a session (session.h) with the flush of the presentation layer
  (presentation.h), updating its fields, its gateway, its factories and the window map in place. The
  window holds pointers to buffers that belong to the receive queue; no method reads one that the
  queue has given up.
 */
module ReceiverPeer {
  import opened Capsules
  import opened Addresses
  import opened Chunks
  import opened Gateway
  import opened Session
  import opened Wrappers
  import opened Factory

  /** The capsules a window of pointers stands for. */
  ghost function Held(window: map<U16, MemBuff>): map<U16, Capsule>
  {
    map k | k in window :: window[k].capsule
  }

  lemma HeldWith(window: map<U16, MemBuff>, k: U16, m: MemBuff)
    ensures Held(window[k := m]) == Held(window)[k := m.capsule]
  {
  }

  lemma HeldWithout(window: map<U16, MemBuff>, k: U16)
    ensures Held(window - {k}) == Held(window) - {k}
  {
  }

  lemma HeldKeys(window: map<U16, MemBuff>)
    ensures Held(window).Keys == window.Keys && |Held(window)| == |window|
    ensures Held(window) == map[] <==> window == map[]
    ensures forall k :: k in window ==> Held(window)[k] == window[k].capsule
  {
    assert Held(window).Keys == window.Keys;
  }

  lemma Concat(a: seq<U8>, b: seq<U8>, c: seq<U8>)
    ensures a + (b + c) == a + b + c
  {
  }

  lemma FewerKeys(w: map<U16, MemBuff>, k: U16)
    requires k in w
    ensures |w - {k}| < |w|
  {
    assert (w - {k}).Keys == w.Keys - {k};
  }

  lemma FlushNothing(sink: seq<U8>)
    ensures sink + Flush(map[]) == sink && Counted(map[]) == 0
  {
  }

  /** The first step of a flush. */
  lemma FlushFirst(w: map<U16, Capsule>, k: U16)
    requires k in w && forall j :: j in w ==> k <= j
    ensures Flush(w) == (if IsPayload(w[k].header) then w[k].payload else []) + Flush(w - {k})
    ensures Counted(w) == (if IsPayload(w[k].header) then |w[k].payload| + HEADER_SPACE else 0) + Counted(w - {k})
  {
    assert w != map[];
    assert k == MinKey(w);
  }

  class Receiver {
    const cfg: Config
    const txFactory: DataFactory
    const rxFactory: DataFactory
    const gateway: Selector
    var next: StateCode
    var complete: bool
    var crashed: bool
    var winSize: nat
    var capsuleId: nat
    var connId: U16
    var window: map<U16, MemBuff>
    var sink: seq<U8>

    ghost predicate Valid()
      reads this
    {
      && Chunks.Valid(cfg) && txFactory != rxFactory
      && forall k :: k in window ==> window[k].size == HEADER_SPACE + |window[k].capsule.payload|
    }

    /** Each pointer in the window is to a buffer that the receive queue still holds, under that buffer's id. */
    ghost predicate Owned()
      reads this`window, rxFactory`buffer
    {
      forall k :: k in window ==> window[k] in rxFactory.buffer && window[k].capsule.header.capid == k
    }

    /** The receiver's fields, its gateway's, the capsules in its queues and those its window points to. */
    ghost function State(): Rx
      reads this, gateway, txFactory, rxFactory
    {
      Rx(next, complete, crashed, winSize, capsuleId, connId, gateway.peers, gateway.counter,
         rxFactory.fin, rxFactory.curSize,
         Held(window), sink, txFactory.Queued(), rxFactory.Queued())
    }

    constructor (cfg: Config)
      requires Chunks.Valid(cfg)
      ensures Valid() && Owned() && this.cfg == cfg && State() == InitRx()
      ensures fresh(txFactory) && fresh(rxFactory) && fresh(gateway)
    {
      this.cfg := cfg;
      txFactory := new DataFactory(cfg.chunk + HEADER_SPACE);
      rxFactory := new DataFactory(cfg.chunk + HEADER_SPACE);
      gateway := new Selector();
      next, complete, crashed, winSize, capsuleId, connId := Open, false, false, 0, 0, 0;
      window, sink := map[], [];
    }

    /** Sends a capsule to the next destination; there being none stops the program. */
    method Send(c: Capsule) returns (sent: Option<Datagram>)
      requires Valid()
      modifies this`crashed, gateway`counter
      ensures Valid() && Reports(RxSend(old(State()), c), State(), sent)
    {
      hide Held;
      var d := gateway.Select();
      if d == DivideByZero {
        crashed := true;
        return None;
      }
      sent := Some(Datagram(c, d));
    }

    /** Sends the hello capsule. */
    method OpenState() returns (sent: Option<Datagram>)
      requires Valid()
      modifies this, gateway`counter, txFactory`buffer
      ensures Valid() && Reports(RxOpen(old(State())), State(), sent)
      ensures window == old(window) && rxFactory.buffer == old(rxFactory.buffer)
    {
      hide Values, Held;
      var hello := Capsule(Header(0, 0, 0, CapId(capsuleId), 0, PAYLD, 0, 0, 0, 0), []);
      capsuleId := capsuleId + 1;
      var chunk := txFactory.Fill(hello);
      sent := Send(hello);
      if sent != None {
        var popped := txFactory.FetchChunk();
        next := Setup;
      }
    }

    /** Pulls a capsule into a new buffer at the end of the receive queue, and files it if it is payload. */
    method Receive(c: Capsule)
      requires Valid() && Owned()
      modifies this`window, rxFactory`buffer
      ensures Valid() && Owned()
      ensures State() == RxFile(old(State()), c)
      ensures !IsPayload(c.header) ==> window == old(window)
    {
      hide Values, Held;
      var res := rxFactory.Fill(c);
      if IsPayload(res.capsule.header) {
        HeldWith(window, res.capsule.header.capid, res);
        window := window[res.capsule.header.capid := res];
      }
    }

    /**
      Pulls the sender's capsule, pops the front of the queue and learns its addresses. A capsule that is
      payload would leave its pointer in the window after its buffer is popped.
     */
    method SetupState(c: Capsule)
      requires Valid() && Owned()
      modifies this, gateway`peers, rxFactory`buffer
      ensures Valid() && State() == RxSetup(old(State()), c)
      ensures old(window) == map[] && !IsPayload(c.header) ==> Owned()
    {
      hide Values, Held, Learned;
      Receive(c);
      var popped := rxFactory.FetchChunk();
      var list, count := LearnAddresses(popped.value.capsule.payload);
      gateway.peers := Some(list[..count]);
      next := Connected;
    }

    /** Sends the acknowledgement with the window size and the receiver's addresses. */
    method ConnectedState() returns (sent: Option<Datagram>)
      requires Valid()
      modifies this, gateway`counter, txFactory`buffer
      ensures Valid() && Reports(RxConnected(cfg, old(State())), State(), sent)
      ensures window == old(window) && rxFactory.buffer == old(rxFactory.buffer)
    {
      hide Values, Held, EncodeList;
      connId := 1;
      var ack := Capsule(
        Header(0, 0, 1, CapId(capsuleId), SLOT * |cfg.rxAddrs|, CTRL, 0, cfg.window, 0, 0), EncodeList(cfg.rxAddrs));
      capsuleId := capsuleId + 1;
      winSize := cfg.window;
      var chunk := txFactory.Fill(ack);
      sent := Send(ack);
      if sent != None {
        var popped := txFactory.FetchChunk();
        next := Closed;
      }
    }

    /** One turn of the window loop: pulls and files a capsule, and looks for FIN on the one with the greatest id. */
    method Turn(c: Capsule)
      requires Valid() && Owned()
      modifies this, rxFactory
      ensures Valid() && Owned() && State() == RxReceive(old(State()), c)
    {
      hide Values, Held, RxExamine, RxFile;
      Receive(c);
      Examine();
    }

    /** The last key of a window in the map's order. */
    method Greatest(w: map<U16, MemBuff>) returns (k: U16)
      requires w != map[]
      ensures k in w && Held(w) != map[] && k == MaxKey(Held(w))
    {
      hide Held;
      HeldKeys(w);
      HasMaxBelow(w.Keys, 0x1_0000);
      k :| k in w.Keys && forall j :: j in w.Keys ==> j <= k;
    }

    /** The first key of a window in the map's order. */
    method Least(w: map<U16, MemBuff>) returns (k: U16)
      requires w != map[]
      ensures k in w && forall j :: j in w ==> k <= j
    {
      HasMinFrom(w.Keys, 0);
      k :| k in w.Keys && forall j :: j in w.Keys ==> k <= j;
    }

    /** Looks at the capsule with the greatest id. */
    method Examine()
      requires Valid() && Owned()
      modifies this`window, this`winSize, rxFactory`fin
      ensures Valid() && Owned() && State() == RxExamine(old(State()))
    {
      hide Values, Held, MaxKey, RxLook;
      HeldKeys(window);
      if window == map[] {
        CountTurn();
      } else {
        var k := Greatest(window);
        Look(k);
      }
    }

    /** Files a capsule of the window again, takes FIN from it, and counts the turn. */
    method Look(k: U16)
      requires Valid() && Owned() && k in window
      modifies this`window, this`winSize, rxFactory`fin
      ensures Valid() && Owned() && State() == RxLook(old(State()), old(window)[k].capsule)
    {
      hide Values, Held, IsFin, IsPayload;
      var last := window[k];
      Refile(last, k);
      EndWindow(IsFin(last.capsule.header));
      CountTurn();
    }

    /** Records FIN, and ends the window once it is set. */
    method EndWindow(fin: bool)
      modifies this`winSize, rxFactory`fin
      ensures rxFactory.fin == (old(rxFactory.fin) || fin)
      ensures winSize == if rxFactory.fin then 0 else old(winSize)
    {
      if fin {
        rxFactory.fin := true;
      }
      if rxFactory.fin {
        winSize := 0;
      }
    }

    /** Counts a turn of the window loop, unless the window has ended. */
    method CountTurn()
      modifies this`winSize
      ensures winSize == Less1(old(winSize))
    {
      if winSize > 0 {
        winSize := winSize - 1;
      }
    }

    /** Files a capsule of the window under its own id, if it is payload. */
    method Refile(last: MemBuff, ghost k: U16)
      requires Valid() && Owned() && k in window && last == window[k]
      modifies this`window
      ensures Valid() && Owned()
      ensures Held(window) == if IsPayload(last.capsule.header)
        then Held(old(window))[last.capsule.header.capid := last.capsule] else Held(old(window))
    {
      hide Held, IsPayload;
      if IsPayload(last.capsule.header) {
        HeldWith(window, last.capsule.header.capid, last);
        window := window[last.capsule.header.capid := last];
      }
    }

    /** Collects a window from the arrivals: turns until the window is used up or FIN is in, waiting when they run out. */
    method ClosedState(arrivals: seq<Capsule>) returns (used: nat)
      requires Valid() && Owned()
      modifies this, rxFactory
      ensures Valid() && Owned() && (State(), used) == RxLoop(old(State()), arrivals)
    {
      hide Values, Held, RxReceive;
      used := 0;
      while winSize > 0 && used < |arrivals|
        invariant Valid() && Owned() && used <= |arrivals|
        invariant RxLoop(State(), arrivals[used..]).0 == RxLoop(old(State()), arrivals).0
        invariant used + RxLoop(State(), arrivals[used..]).1 == RxLoop(old(State()), arrivals).1
        decreases |arrivals| - used
      {
        assert arrivals[used..][1..] == arrivals[used + 1..];
        Turn(arrivals[used]);
        used := used + 1;
      }
      if winSize == 0 {
        Leave();
      }
    }

    /** The window loop is over. */
    method Leave()
      requires Valid()
      modifies this`next
      ensures Valid() && State() == RxLeave(old(State()))
    {
      next := Done;
    }

    /** Writes the payload of a buffer that the receive queue holds to the sink. */
    method Write2Source(chunk: MemBuff)
      requires chunk in rxFactory.buffer
      requires chunk.size == HEADER_SPACE + |chunk.capsule.payload|
      modifies this`sink, rxFactory`curSize
      ensures sink == old(sink) + chunk.capsule.payload
      ensures rxFactory.curSize == old(rxFactory.curSize) + HEADER_SPACE + |chunk.capsule.payload|
    {
      sink := sink + chunk.capsule.payload[..chunk.size - HEADER_SPACE];
      rxFactory.curSize := rxFactory.curSize + chunk.size;
    }

    /** Writes one buffer of the window to the sink, unless it is not payload. */
    method FlushOne(buffer: MemBuff)
      requires buffer in rxFactory.buffer
      requires buffer.size == HEADER_SPACE + |buffer.capsule.payload|
      modifies this`sink, rxFactory`curSize
      ensures sink == old(sink) + if IsPayload(buffer.capsule.header) then buffer.capsule.payload else []
      ensures rxFactory.curSize ==
        old(rxFactory.curSize) + if IsPayload(buffer.capsule.header) then |buffer.capsule.payload| + HEADER_SPACE else 0
    {
      if IsPayload(buffer.capsule.header) {
        Write2Source(buffer);
      }
    }

    /** Buffers that the receive queue holds, with the sizes they were received with. */
    ghost predicate Readable(w: map<U16, MemBuff>)
      reads rxFactory`buffer
    {
      forall k :: k in w ==> w[k] in rxFactory.buffer && w[k].size == HEADER_SPACE + |w[k].capsule.payload|
    }

    /** Writes the buffer with the least id to the sink. */
    method FlushLeast(rest: map<U16, MemBuff>, ghost left: map<U16, Capsule>) returns (k: U16)
      requires rest != map[] && Readable(rest) && left == Held(rest)
      modifies this`sink, rxFactory`curSize
      ensures k in rest && Readable(rest - {k}) && left - {k} == Held(rest - {k})
      ensures sink + Flush(left - {k}) == old(sink) + Flush(left)
      ensures rxFactory.curSize + Counted(left - {k}) == old(rxFactory.curSize) + Counted(left)
    {
      hide Held, Flush, Counted;
      k := Least(rest);
      HeldKeys(rest);
      FlushFirst(left, k);
      Concat(sink, if IsPayload(rest[k].capsule.header) then rest[k].capsule.payload else [], Flush(left - {k}));
      FlushOne(rest[k]);
      HeldWithout(rest, k);
    }

    /** Flushes the window to the sink in ascending order of id. */
    method FlushWindow(ghost caps: map<U16, Capsule>)
      requires Valid() && Owned() && caps == Held(window)
      modifies this`sink, rxFactory`curSize
      ensures State() == old(State()).(
        sink := old(sink) + Flush(caps), curSize := old(rxFactory.curSize) + Counted(caps))
    {
      hide Held, Flush, Counted, Readable;
      AllReadable();
      var rest := window;
      ghost var left := caps;
      HeldKeys(window);
      while rest != map[]
        invariant left == Held(rest) && Readable(rest)
        invariant sink + Flush(left) == old(sink) + Flush(caps)
        invariant rxFactory.curSize + Counted(left) == old(rxFactory.curSize) + Counted(caps)
        decreases |rest|
      {
        var k := FlushLeast(rest, left);
        FewerKeys(rest, k);
        rest, left := rest - {k}, left - {k};
      }
      HeldKeys(rest);
      FlushNothing(sink);
    }

    lemma AllReadable()
      requires Valid() && Owned()
      ensures Readable(window)
    {
    }

    /** Flushes the window and releases it, sends the acknowledgement, and goes round or stops. */
    method DoneState() returns (sent: Option<Datagram>)
      requires Valid() && Owned()
      modifies this, gateway`counter, rxFactory, txFactory`buffer
      ensures Valid() && Owned() && Reports(RxDone(cfg, old(State())), State(), sent)
      ensures window == map[]
      ensures |old(window)| == |old(rxFactory.buffer)| ==> rxFactory.buffer == []
    {
      hide Values, Held, Ok, RxFlush;
      var ok := FlushAndRelease();
      sent := Send(ok);
      if sent != None {
        GoRound();
      }
    }

    /** Flushes the window, makes its acknowledgement, and releases it. */
    method FlushAndRelease() returns (ok: Capsule)
      requires Valid() && Owned()
      modifies this`window, this`sink, this`capsuleId, rxFactory, txFactory`buffer
      ensures Valid() && Owned() && window == map[]
      ensures State() == RxFlush(cfg, old(State())) && ok == Ok(cfg, old(capsuleId))
      ensures |old(window)| == |old(rxFactory.buffer)| ==> rxFactory.buffer == []
    {
      hide Values, Held, Flush, Counted, Ok, Popped;
      HeldKeys(window);
      FlushWindow(Held(window));
      ok := Settle();
    }

    /** Acknowledges the flushed window and releases it. */
    method Settle() returns (ok: Capsule)
      requires Valid()
      modifies this`window, this`capsuleId, rxFactory`buffer, txFactory`buffer
      ensures Valid() && Owned() && window == map[] && ok == Ok(cfg, old(capsuleId))
      ensures State() == old(State()).(
        txQueue := old(State()).txQueue + [ok], capsuleId := old(capsuleId) + 1,
        rxQueue := Popped(old(State()).rxQueue, |old(window)|), window := map[])
      ensures |old(window)| == |old(rxFactory.buffer)| ==> rxFactory.buffer == []
    {
      hide Values, Held, Ok, Popped;
      ok := Acknowledge();
      Release();
    }

    /** Puts the acknowledgement in the send queue, where it stays, and numbers it. */
    method Acknowledge() returns (ok: Capsule)
      requires Valid()
      modifies this`capsuleId, txFactory`buffer
      ensures Valid() && ok == Ok(cfg, old(capsuleId))
      ensures State() == old(State()).(txQueue := old(State()).txQueue + [ok], capsuleId := old(capsuleId) + 1)
    {
      hide Values, Held, Ok;
      ok := Ok(cfg, capsuleId);
      capsuleId := capsuleId + 1;
      var chunk := txFactory.Fill(ok);
    }

    /** Pops as many entries as the flushed window has pointers, and drops the pointers. */
    method Release()
      requires Valid()
      modifies this`window, rxFactory`buffer
      ensures Valid() && Owned() && window == map[]
      ensures State() == old(State()).(
        rxQueue := Popped(old(State()).rxQueue, |old(window)|), window := map[])
      ensures |old(window)| == |old(rxFactory.buffer)| ==> rxFactory.buffer == []
    {
      hide Values, Held, Popped;
      PopEntries(|window|);
      window := map[];
      HeldKeys(window);
    }

    /** Chooses the state after a window. */
    method GoRound()
      requires Valid()
      modifies this`next, this`winSize, this`complete
      ensures Valid() && State() == RxGoRound(cfg, old(State()))
    {
      hide Values, Held;
      if rxFactory.fin {
        next := Connected;
      } else {
        winSize := cfg.window;
        next := Closed;
      }
      complete := true;
    }

    /** Pops n entries of the receive queue, or all there are. */
    method PopEntries(n: nat)
      requires Valid()
      modifies rxFactory`buffer
      ensures State() == old(State()).(rxQueue := Popped(old(State()).rxQueue, n))
      ensures rxFactory.buffer == if n <= |old(rxFactory.buffer)| then old(rxFactory.buffer)[n..] else []
    {
      hide Values, Held;
      for i := 0 to n
        invariant rxFactory.Queued() == Popped(old(rxFactory.Queued()), i)
        invariant rxFactory.buffer == if i <= |old(rxFactory.buffer)| then old(rxFactory.buffer)[i..] else []
      {
        var popped := rxFactory.FetchChunk();
      }
    }
  }
}
