/**
  The two classes joined by a channel: they play any run of module Protocol, step for step, and in every
  system a run reaches the receiver's window points only to buffers that its queue still holds.
 */
module Play {
  import opened Capsules
  import opened Chunks
  import opened Session
  import opened Protocol
  import opened Delivery
  import opened Wire
  import opened Wrappers
  import opened Factory
  import opened ReceiverPeer
  import opened SenderPeer

  /** What a step of either end adds to the channel. */
  function Added(sent: Option<Datagram>): multiset<Capsule> {
    if sent.Some? then multiset{sent.value.capsule} else multiset{}
  }

  /** The datagram of a step as a log entry. */
  function Entry(sent: Option<Datagram>): seq<Datagram> {
    if sent.Some? then [sent.value] else []
  }

  predicate OfTx(step: Step) {
    step.TxOpens? || step.TxSetsUp? || step.TxConnects? || step.TxSubmits? || step.TxLeaves? || step.TxFinishes?
  }

  /** A step of the sender, with the datagram it sends. */
  method TxStep(tx: Sender, step: Step, ghost s: System) returns (sent: Option<Datagram>)
    requires tx.Valid() && tx.State() == s.tx && OfTx(step) && Enabled(s, step)
    modifies tx, tx.gateway, tx.txFactory, tx.rxFactory
    ensures tx.Valid()
    ensures var s' := Take(tx.cfg, s, step);
      s'.tx == tx.State() && s'.rx == s.rx && s'.toRx == s.toRx + Added(sent) && s'.toTx == s.toTx - Taken(step)
    ensures Entry(sent) == TxMade(tx.cfg, s, step)
  {
    hide TxSubmit, TxSetup, TxConnected, Values;
    sent := None;
    match step
    case TxOpens(c) => tx.OpenState(c);
    case TxSetsUp => sent := tx.SetupState();
    case TxConnects(c) => tx.ConnectedState(c);
    case TxSubmits => sent := tx.Turn();
    case TxLeaves => tx.Leave();
    case TxFinishes(c) => tx.DoneState(c);
  }

  /** What a step takes out of the channel. */
  function Taken(step: Step): multiset<Capsule> {
    match step
    case TxOpens(c) => multiset{c}
    case TxConnects(c) => multiset{c}
    case TxFinishes(c) => multiset{c}
    case RxSetsUp(c) => multiset{c}
    case RxReceives(c) => multiset{c}
    case _ => multiset{}
  }

  /** A step of the receiver, with the datagram it sends. The window's pointers are read and stay owned. */
  method RxStep(rx: Receiver, step: Step, ghost s: System) returns (sent: Option<Datagram>)
    requires rx.Valid() && rx.Owned() && rx.State() == s.rx && !OfTx(step) && Enabled(s, step) && Inv(rx.cfg, s)
    modifies rx, rx.gateway, rx.txFactory, rx.rxFactory
    ensures rx.Valid() && rx.Owned()
    ensures var s' := Take(rx.cfg, s, step);
      s'.rx == rx.State() && s'.tx == s.tx && s'.toTx == s.toTx + Added(sent) && s'.toRx == s.toRx - Taken(step)
    ensures Entry(sent) == RxMade(rx.cfg, s, step)
  {
    hide Take, Enabled, Inv, Values, Held;
    if step.RxSetsUp? || step.RxReceives? || step.RxLeaves? {
      RxTakes(rx, step, s);
      sent := None;
    } else {
      sent := RxSays(rx, step, s);
    }
  }

  /** The receiver's steps that send nothing. */
  method RxTakes(rx: Receiver, step: Step, ghost s: System)
    requires rx.Valid() && rx.Owned() && rx.State() == s.rx && Enabled(s, step) && Inv(rx.cfg, s)
    requires step.RxSetsUp? || step.RxReceives? || step.RxLeaves?
    modifies rx, rx.gateway, rx.rxFactory
    ensures rx.Valid() && rx.Owned()
    ensures var s' := Take(rx.cfg, s, step);
      s'.rx == rx.State() && s'.tx == s.tx && s'.toTx == s.toTx && s'.toRx == s.toRx - Taken(step)
  {
    hide RxReceive, RxSetup, Values, Held, Inv;
    match step
    case RxSetsUp(c) =>
      NothingFiled(rx.cfg, s, c);
      HeldKeys(rx.window);
      rx.SetupState(c);
    case RxReceives(c) => rx.Turn(c);
    case RxLeaves => rx.Leave();
  }

  /** The receiver's steps that send. */
  method RxSays(rx: Receiver, step: Step, ghost s: System) returns (sent: Option<Datagram>)
    requires rx.Valid() && rx.Owned() && rx.State() == s.rx && Enabled(s, step)
    requires step.RxOpens? || step.RxConnects? || step.RxFinishes?
    modifies rx, rx.gateway, rx.txFactory, rx.rxFactory
    ensures rx.Valid() && rx.Owned()
    ensures var s' := Take(rx.cfg, s, step);
      s'.rx == rx.State() && s'.tx == s.tx && s'.toTx == s.toTx + Added(sent) && s'.toRx == s.toRx
    ensures Entry(sent) == RxMade(rx.cfg, s, step)
  {
    hide RxOpen, RxConnected, RxDone, Values, Held;
    match step
    case RxOpens => sent := rx.OpenState();
    case RxConnects => sent := rx.ConnectedState();
    case RxFinishes => sent := rx.DoneState();
  }

  /** The capsule the receiver takes in its setup state is never payload, and its window is empty. */
  lemma NothingFiled(cfg: Config, s: System, c: Capsule)
    requires Valid(cfg) && Inv(cfg, s) && Enabled(s, RxSetsUp(c))
    ensures !IsPayload(c.header) && s.rx.window == map[]
  {
  }

  /** The two ends share nothing but the channel. */
  predicate Apart(tx: Sender, rx: Receiver) {
    {tx.gateway, tx.txFactory, tx.rxFactory} !! {rx.gateway, rx.txFactory, rx.rxFactory}
  }

  /**
    The two objects play a run: whatever its interleaving and its deliveries, they and the channel end up
    as the system the run reaches, and they have sent the run's datagrams, to their destinations; each window
    pointer is to a buffer that the receive queue holds under the pointer's id, and the queue holds no others.
   */
  method PlayRun(cfg: Config, steps: seq<Step>)
    returns (tx: Sender, rx: Receiver, toRx: multiset<Capsule>, toTx: multiset<Capsule>,
             txLog: seq<Datagram>, rxLog: seq<Datagram>)
    requires Valid(cfg) && Run(cfg, steps)
    ensures fresh(tx) && fresh(rx) && tx.Valid() && rx.Valid()
    ensures System(tx.State(), rx.State(), toRx, toTx) == After(cfg, steps)
    ensures txLog == TxSent(cfg, steps) && rxLog == RxSent(cfg, steps)
    ensures rx.Owned() && |rx.window| == |rx.rxFactory.buffer|
  {
    hide Take, Enabled, Inv, Values, Held, TxMade, RxMade;
    tx := new Sender(cfg);
    rx := new Receiver(cfg);
    toRx, toTx := multiset{}, multiset{};
    txLog, rxLog := [], [];
    for i := 0 to |steps|
      invariant fresh(tx) && fresh(tx.gateway) && fresh(tx.txFactory) && fresh(tx.rxFactory) && tx.cfg == cfg
      invariant fresh(rx) && fresh(rx.gateway) && fresh(rx.txFactory) && fresh(rx.rxFactory) && rx.cfg == cfg
      invariant Apart(tx, rx) && tx.Valid() && rx.Valid() && rx.Owned()
      invariant System(tx.State(), rx.State(), toRx, toTx) == After(cfg, steps[..i])
      invariant txLog == TxSent(cfg, steps[..i]) && rxLog == RxSent(cfg, steps[..i])
    {
      NextStep(cfg, steps, i);
      var sent: Option<Datagram>;
      toRx, toTx, sent := PlayStep(tx, rx, steps[i], toRx, toTx, After(cfg, steps[..i]));
      NextSent(cfg, steps, i);
      if OfTx(steps[i]) {
        txLog := txLog + Entry(sent);
      } else {
        rxLog := rxLog + Entry(sent);
      }
    }
    assert steps[..|steps|] == steps;
    Sizes(cfg, steps, rx);
  }

  /** A step of either object, with what it does to the channel. */
  method PlayStep(tx: Sender, rx: Receiver, step: Step,
                  toRx: multiset<Capsule>, toTx: multiset<Capsule>, ghost s: System)
    returns (toRx': multiset<Capsule>, toTx': multiset<Capsule>, sent: Option<Datagram>)
    requires Apart(tx, rx) && tx.Valid() && rx.Valid() && rx.Owned() && rx.cfg == tx.cfg
    requires s == System(tx.State(), rx.State(), toRx, toTx) && Enabled(s, step) && Inv(tx.cfg, s)
    modifies tx, tx.gateway, tx.txFactory, tx.rxFactory, rx, rx.gateway, rx.txFactory, rx.rxFactory
    ensures tx.Valid() && rx.Valid() && rx.Owned()
    ensures System(tx.State(), rx.State(), toRx', toTx') == Take(tx.cfg, s, step)
    ensures Entry(sent) == if OfTx(step) then TxMade(tx.cfg, s, step) else RxMade(tx.cfg, s, step)
  {
    hide Take, Enabled, Inv, Values, Held, TxMade, RxMade, Entry, Added, Taken, OfTx;
    if OfTx(step) {
      sent := TxStep(tx, step, s);
      toRx', toTx' := toRx + Added(sent), toTx - Taken(step);
    } else {
      sent := RxStep(rx, step, s);
      toRx', toTx' := toRx - Taken(step), toTx + Added(sent);
    }
  }

  /** A run up to its step i, which can be taken there. */
  lemma {:induction false} NextStep(cfg: Config, steps: seq<Step>, i: nat)
    requires Valid(cfg) && Run(cfg, steps) && i < |steps|
    ensures Run(cfg, steps[..i]) && Inv(cfg, After(cfg, steps[..i]))
    ensures Enabled(After(cfg, steps[..i]), steps[i])
    ensures After(cfg, steps[..i + 1]) == Take(cfg, After(cfg, steps[..i]), steps[i])
    decreases |steps|
  {
    hide Take, Enabled, Inv;
    var front := steps[..|steps| - 1];
    if i < |front| {
      NextStep(cfg, front, i);
      assert front[..i] == steps[..i] && front[..i + 1] == steps[..i + 1];
    } else {
      RunInv(cfg, front);
      assert steps[..i] == front && steps[..i + 1] == steps;
    }
  }

  /** The logs after its step i: each end's grows by what that end sends. */
  lemma NextSent(cfg: Config, steps: seq<Step>, i: nat)
    requires Valid(cfg) && i < |steps|
    ensures TxSent(cfg, steps[..i + 1]) == TxSent(cfg, steps[..i]) +
      if OfTx(steps[i]) then TxMade(cfg, After(cfg, steps[..i]), steps[i]) else []
    ensures RxSent(cfg, steps[..i + 1]) == RxSent(cfg, steps[..i]) +
      if OfTx(steps[i]) then [] else RxMade(cfg, After(cfg, steps[..i]), steps[i])
  {
    hide After, TxSetup, TxSubmit, RxOpen, RxConnected, RxDone;
    assert steps[..i + 1][..i] == steps[..i];
  }

  /** The receive queue holds one buffer for each pointer. */
  lemma Sizes(cfg: Config, steps: seq<Step>, rx: Receiver)
    requires Valid(cfg) && Run(cfg, steps) && rx.State() == After(cfg, steps).rx
    ensures |rx.window| == |rx.rxFactory.buffer|
  {
    hide After, Run, Values, Held;
    QueueBalance(cfg, steps);
    HeldKeys(rx.window);
  }
}
