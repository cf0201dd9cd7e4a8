/** The sending end of a session (session.h), updating its fields, its gateway and its factories in place. */
module SenderPeer {
  import opened Capsules
  import opened Addresses
  import opened Chunks
  import opened Gateway
  import opened Session
  import opened Wrappers
  import opened Factory

  class Sender {
    const cfg: Config
    const txFactory: DataFactory
    const rxFactory: DataFactory
    const gateway: Selector
    var next: StateCode
    var complete: bool
    var aborted: bool
    var crashed: bool
    var winSize: nat
    var capsuleId: nat
    var connId: U16

    ghost predicate Valid()
      reads this, txFactory
    {
      Chunks.Valid(cfg) && txFactory != rxFactory && txFactory.chunkSize >= HEADER_SPACE
    }

    /** The sender's fields, its gateway's, and the capsules in its queues. */
    ghost function State(): Tx
      reads this, gateway, txFactory, rxFactory
    {
      Tx(next, complete, aborted, crashed, winSize, capsuleId, connId, gateway.peers, gateway.counter,
         txFactory.fin, txFactory.curSize, txFactory.chunkSize, txFactory.Queued(), rxFactory.Queued())
    }

    constructor (cfg: Config)
      requires Chunks.Valid(cfg)
      ensures Valid() && this.cfg == cfg && State() == InitTx(cfg)
      ensures fresh(txFactory) && fresh(rxFactory) && fresh(gateway)
    {
      this.cfg := cfg;
      txFactory := new DataFactory(cfg.chunk + HEADER_SPACE);
      rxFactory := new DataFactory(cfg.chunk + HEADER_SPACE);
      gateway := new Selector();
      next, complete, aborted, crashed, winSize, capsuleId, connId := Open, false, false, false, 0, 0, 0;
    }

    /** Sends a capsule to the next destination; there being none stops the program. */
    method Send(c: Capsule) returns (sent: Option<Datagram>)
      requires Valid()
      modifies this`crashed, gateway`counter
      ensures Valid() && Reports(TxSend(old(State()), c), State(), sent)
    {
      var d := gateway.Select();
      if d == DivideByZero {
        crashed := true;
        return None;
      }
      sent := Some(Datagram(c, d));
    }

    /** Takes the hello capsule. */
    method OpenState(c: Capsule)
      requires Valid()
      modifies this, rxFactory`buffer
      ensures Valid() && State() == TxOpen(old(State()), c)
    {
      var front := rxFactory.FillAndPop(c);
      next := Setup;
    }

    /** Sends the sender's addresses. */
    method SetupState() returns (sent: Option<Datagram>)
      requires Valid()
      modifies this, gateway`counter, txFactory`buffer
      ensures Valid() && Reports(TxSetup(cfg, old(State())), State(), sent)
    {
      hide Values, EncodeList;
      var hi := Capsule(
        Header(0, 0, 0, CapId(capsuleId), SLOT * |cfg.txAddrs|, CTRL, 0, 0, 0, 0), EncodeList(cfg.txAddrs));
      capsuleId := capsuleId + 1;
      var chunk := txFactory.Fill(hi);
      sent := Send(hi);
      if sent != None {
        var popped := txFactory.FetchChunk();
        next := Connected;
      }
    }

    /** Takes the window size, the receiver's addresses and the connection id. */
    method ConnectedState(c: Capsule)
      requires Valid()
      modifies this, gateway`peers, rxFactory`buffer
      ensures Valid() && State() == TxConnected(old(State()), c)
    {
      hide Values, Learned;
      var front := rxFactory.FillAndPop(c);
      winSize := front.header.capWinSiz;
      var list, count := LearnAddresses(front.payload);
      gateway.peers := Some(list[..count]);
      connId := front.header.connid;
      next := Closed;
    }

    /** One turn of the window loop: loads, takes a chunk, flags it FIN if it is the last, numbers and sends it. */
    method Turn() returns (sent: Option<Datagram>)
      requires Valid()
      modifies this, gateway`counter, txFactory
      ensures Valid() && Reports(TxSubmit(cfg, old(State())), State(), sent)
    {
      hide Values, Session.InputFromSource, Session.SendNext;
      Load();
      sent := SendNext();
    }

    /** Loads the next read of the file into the send queue. */
    method Load()
      requires Valid()
      modifies txFactory
      ensures Valid() && State() == InputFromSource(cfg, old(State()))
    {
      txFactory.InputFromSource(cfg.source);
    }

    /** Takes the next chunk out of the queue, flags it FIN if it is the last, numbers and sends it. */
    method SendNext() returns (sent: Option<Datagram>)
      requires Valid()
      modifies this, gateway`counter, txFactory`buffer
      ensures Valid() && Reports(Session.SendNext(old(State())), State(), sent)
    {
      hide Values;
      var popped := txFactory.FetchChunk();
      if popped == None {
        aborted := true;
        return None;
      }
      var front := popped.value.capsule;
      var header := front.header;
      if txFactory.fin && txFactory.buffer == [] {
        header := header.(capFlags := FIN);
        winSize := 0;
      }
      header := header.(connid := connId, capid := CapId(capsuleId), capPriority := 0, capType := PAYLD);
      capsuleId := capsuleId + 1;
      sent := Send(Capsule(header, front.payload));
      if sent != None && winSize > 0 {
        winSize := winSize - 1;
      }
    }

    /** Sends a window: turns until the window is used up, the last chunk is sent, or the program stops. */
    method ClosedState() returns (sent: seq<Capsule>)
      requires Valid()
      modifies this, gateway`counter, txFactory
      ensures Valid() && (State(), sent) == TxLoop(cfg, old(State()))
    {
      hide Values, TxSubmit;
      sent := [];
      assert [] + TxLoop(cfg, State()).1 == TxLoop(cfg, State()).1;
      while winSize > 0
        invariant Valid()
        invariant TxLoop(cfg, State()).0 == TxLoop(cfg, old(State())).0
        invariant sent + TxLoop(cfg, State()).1 == TxLoop(cfg, old(State())).1
        decreases winSize
      {
        ghost var t := State();
        var c := Turn();
        if c == None {
          assert sent + [] == sent;
          return;
        }
        SubmitShrinks(cfg, t);
        assert TxLoop(cfg, t).1 == [c.value.capsule] + TxLoop(cfg, State()).1;
        assert sent + ([c.value.capsule] + TxLoop(cfg, State()).1) == sent + [c.value.capsule] + TxLoop(cfg, State()).1;
        sent := sent + [c.value.capsule];
      }
      Leave();
      assert sent + [] == sent;
    }

    /** The window loop is over. */
    method Leave()
      requires Valid()
      modifies this`next
      ensures Valid() && State() == TxLeave(old(State()))
    {
      next := Done;
    }

    /** Takes the acknowledgement, and goes round or stops. */
    method DoneState(c: Capsule)
      requires Valid()
      modifies this, rxFactory`buffer
      ensures Valid() && State() == TxDone(cfg, old(State()), c)
    {
      hide Values;
      var front := rxFactory.FillAndPop(c);
      if txFactory.fin {
        next := Connected;
      } else {
        winSize := cfg.window;
        next := Closed;
      }
      complete := true;
    }
  }
}
