/**
  The two ends of a session as functions from state to state: one function for every state
  function of session.h and each of its two arms, with the presentation layer's flush. The classes
  of modules SenderPeer and ReceiverPeer compute these functions in place; module Protocol composes
  them over a channel.
 */
module Session {
  import opened Capsules
  import opened Addresses
  import opened Chunks
  import opened Gateway
  import opened Wrappers

  datatype StateCode = Open | Setup | Connected | Closed | Done

  /**
    The sending end: the session's fields, its gateway's list and counter, and its factories' fields.
    `aborted` is the program's exit when it finds no chunk, `crashed` its end when it finds no address.
   */
  datatype Tx = Tx(
    next: StateCode, complete: bool, aborted: bool, crashed: bool,
    winSize: nat, capsuleId: nat, connId: U16, peers: Option<seq<Slot>>, sends: nat,
    fin: bool, curSize: nat, chunkSize: nat,
    txQueue: seq<Capsule>, rxQueue: seq<Capsule>)

  /** The receiving end, with the window being collected and the bytes written to the sink. */
  datatype Rx = Rx(
    next: StateCode, complete: bool, crashed: bool,
    winSize: nat, capsuleId: nat, connId: U16, peers: Option<seq<Slot>>, sends: nat,
    fin: bool, curSize: nat,
    window: map<U16, Capsule>, sink: seq<U8>,
    txQueue: seq<Capsule>, rxQueue: seq<Capsule>)

  function InitTx(cfg: Config): Tx {
    Tx(Open, false, false, false, 0, 0, 0, None, 0, false, 0, cfg.chunk + HEADER_SPACE, [], [])
  }

  function InitRx(): Rx {
    Rx(Open, false, false, 0, 0, 0, None, 0, false, 0, map[], [], [], [])
  }

  /** The loop of Session::start goes on. */
  predicate Running(next: StateCode, complete: bool) {
    next != Connected || !complete
  }

  /** The low 16 bits of the running capsule counter. */
  function CapId(capsuleId: nat): U16 {
    capsuleId % 0x1_0000
  }

  /** What a state that sends does: it sends a capsule, or stops the program. */
  datatype Outcome<End> = Sent(now: End, capsule: Capsule, to: Destination) | Stopped(now: End)

  /** A capsule on its way to a destination. */
  datatype Datagram = Datagram(capsule: Capsule, to: Destination)

  /** What a method that computes such a step leaves behind: the end it is, and the datagram if one was sent. */
  predicate Reports<End(==)>(o: Outcome<End>, now: End, sent: Option<Datagram>) {
    now == o.now && sent == if o.Sent? then Some(Datagram(o.capsule, o.to)) else None
  }

  // ----- the receiving end -----

  /** Chooses a destination and sends; with no address left in the learned list the program stops. */
  function RxSend(rx: Rx, c: Capsule): Outcome<Rx> {
    var rx' := rx.(sends := Advanced(rx.peers, rx.sends));
    if CanSend(rx.peers) then Sent(rx', c, Destined(rx'.peers, rx'.sends)) else Stopped(rx'.(crashed := true))
  }

  /** RX, open: sends the hello capsule. */
  function RxOpen(rx: Rx): Outcome<Rx> {
    var hello := Capsule(Header(0, 0, 0, CapId(rx.capsuleId), 0, PAYLD, 0, 0, 0, 0), []);
    match RxSend(rx.(capsuleId := rx.capsuleId + 1, txQueue := rx.txQueue + [hello]), hello)
    case Stopped(r) => Stopped(r)
    case Sent(r, c, to) => Sent(r.(next := Setup, txQueue := r.txQueue[1..]), c, to)
  }

  /** RX, setup: pulls the sender's capsule and learns its addresses. */
  function RxSetup(rx: Rx, c: Capsule): Rx {
    var q := rx.rxQueue + [c];
    rx.(next := Connected, rxQueue := q[1..], peers := Some(Learned(q[0].payload)),
        window := if IsPayload(c.header) then rx.window[c.header.capid := c] else rx.window)
  }

  /** RX, connected: sends the acknowledgement with the window size and its own addresses. */
  function RxConnected(cfg: Config, rx: Rx): Outcome<Rx>
    requires Valid(cfg)
  {
    var ack := Capsule(
      Header(0, 0, 1, CapId(rx.capsuleId), SLOT * |cfg.rxAddrs|, CTRL, 0, cfg.window, 0, 0),
      EncodeList(cfg.rxAddrs));
    match RxSend(rx.(connId := 1, capsuleId := rx.capsuleId + 1, winSize := cfg.window,
                     txQueue := rx.txQueue + [ack]), ack)
    case Stopped(r) => Stopped(r)
    case Sent(r, c, to) => Sent(r.(next := Closed, txQueue := r.txQueue[1..]), c, to)
  }

  /** The greatest key of a non-empty window. */
  ghost function MaxKey(w: map<U16, Capsule>): (k: U16)
    requires w != map[]
    ensures k in w && forall j :: j in w ==> j <= k
  {
    HasMaxBelow(w.Keys, 0x1_0000);
    var k :| k in w.Keys && forall j :: j in w.Keys ==> j <= k;
    k
  }

  lemma {:induction false} HasMaxBelow(s: set<U16>, bound: nat)
    requires s != {} && bound <= 0x1_0000 && forall j :: j in s ==> j < bound
    ensures exists k :: k in s && forall j :: j in s ==> j <= k
    decreases bound
  {
    if bound > 0 && bound - 1 !in s {
      HasMaxBelow(s, bound - 1);
    }
  }

  /** Pulls a capsule into the queue and files it under its id if it is payload. */
  function RxFile(rx: Rx, c: Capsule): Rx {
    rx.(rxQueue := rx.rxQueue + [c],
        window := if IsPayload(c.header) then rx.window[c.header.capid := c] else rx.window)
  }

  /** Files a capsule again, takes FIN from it, and counts the turn. */
  function RxLook(rx: Rx, last: Capsule): Rx {
    var fin := rx.fin || IsFin(last.header);
    rx.(window := if IsPayload(last.header) then rx.window[last.header.capid := last] else rx.window,
        fin := fin, winSize := if fin then 0 else Less1(rx.winSize))
  }

  /** Looks at the capsule with the greatest id; with none there the turn is only counted. */
  ghost function RxExamine(rx: Rx): Rx {
    if rx.window == map[] then rx.(winSize := Less1(rx.winSize)) else RxLook(rx, rx.window[MaxKey(rx.window)])
  }

  /** RX, closed, one turn of the window loop. */
  ghost function RxReceive(rx: Rx, c: Capsule): Rx {
    RxExamine(RxFile(rx, c))
  }

  /** `if (n) n--` */
  function Less1(n: nat): nat {
    if n > 0 then n - 1 else 0
  }

  /** RX, closed: the window loop is over. */
  function RxLeave(rx: Rx): Rx {
    rx.(next := Done)
  }

  /** The least key of a non-empty window. */
  ghost function MinKey(w: map<U16, Capsule>): (k: U16)
    requires w != map[]
    ensures k in w && forall j :: j in w ==> k <= j
  {
    HasMinFrom(w.Keys, 0);
    var k :| k in w.Keys && forall j :: j in w.Keys ==> k <= j;
    k
  }

  lemma {:induction false} HasMinFrom(s: set<U16>, bound: nat)
    requires s != {} && bound <= 0x1_0000 && forall j :: j in s ==> bound <= j
    ensures exists k :: k in s && forall j :: j in s ==> k <= j
    decreases 0x1_0000 - bound
  {
    if bound < 0x1_0000 && bound !in s {
      HasMinFrom(s, bound + 1);
    }
  }

  /** The bytes a window contributes to the sink: its payload capsules in ascending order of key. */
  ghost function Flush(w: map<U16, Capsule>): seq<U8>
    decreases |w|
  {
    if w == map[] then []
    else
      var k := MinKey(w);
      Smaller(w, k);
      (if IsPayload(w[k].header) then w[k].payload else []) + Flush(w - {k})
  }

  /** What the flush adds to the receiver's byte counter: every payload capsule with its header. */
  ghost function Counted(w: map<U16, Capsule>): nat
    decreases |w|
  {
    if w == map[] then 0
    else
      var k := MinKey(w);
      Smaller(w, k);
      (if IsPayload(w[k].header) then |w[k].payload| + HEADER_SPACE else 0) + Counted(w - {k})
  }

  lemma Smaller(w: map<U16, Capsule>, k: U16)
    requires k in w
    ensures |w - {k}| == |w| - 1
  {
    assert (w - {k}).Keys == w.Keys - {k};
  }

  /** A queue after n pops. */
  function Popped(q: seq<Capsule>, n: nat): seq<Capsule> {
    if n <= |q| then q[n..] else []
  }

  /** The acknowledgement of a window. Its flags are never filled in. */
  function Ok(cfg: Config, capsuleId: nat): Capsule
    requires Valid(cfg)
  {
    Capsule(Header(0, 0, 1, CapId(capsuleId), 0, CTRL, 0, cfg.window, 0, 0), [])
  }

  /** RX, done: flushes the window, pops as many queue entries, acknowledges, and goes round or stops. */
  ghost function RxDone(cfg: Config, rx: Rx): Outcome<Rx>
    requires Valid(cfg)
  {
    match RxSend(RxFlush(cfg, rx), Ok(cfg, rx.capsuleId))
    case Stopped(r) => Stopped(r)
    case Sent(r, c, to) => Sent(RxGoRound(cfg, r), c, to)
  }

  /** Flushes the window, pops as many queue entries, and queues and numbers the acknowledgement, which stays queued. */
  ghost function RxFlush(cfg: Config, rx: Rx): Rx
    requires Valid(cfg)
  {
    rx.(sink := rx.sink + Flush(rx.window), curSize := rx.curSize + Counted(rx.window),
        rxQueue := Popped(rx.rxQueue, |rx.window|), window := map[],
        txQueue := rx.txQueue + [Ok(cfg, rx.capsuleId)], capsuleId := rx.capsuleId + 1)
  }

  /** Chooses the state after a window: the next one, or the end if FIN has been taken. */
  function RxGoRound(cfg: Config, rx: Rx): Rx {
    rx.(complete := true, next := if rx.fin then Connected else Closed,
        winSize := if rx.fin then rx.winSize else cfg.window)
  }

  // ----- the sending end -----

  /** TX, open: takes the hello capsule. */
  function TxOpen(tx: Tx, c: Capsule): Tx {
    tx.(next := Setup, rxQueue := (tx.rxQueue + [c])[1..])
  }

  /** Chooses a destination and sends; with no address left in the learned list the program stops. */
  function TxSend(tx: Tx, c: Capsule): Outcome<Tx> {
    var tx' := tx.(sends := Advanced(tx.peers, tx.sends));
    if CanSend(tx.peers) then Sent(tx', c, Destined(tx'.peers, tx'.sends)) else Stopped(tx'.(crashed := true))
  }

  /** TX, setup: sends its addresses. */
  function TxSetup(cfg: Config, tx: Tx): Outcome<Tx>
    requires Valid(cfg)
  {
    var hi := Capsule(
      Header(0, 0, 0, CapId(tx.capsuleId), SLOT * |cfg.txAddrs|, CTRL, 0, 0, 0, 0),
      EncodeList(cfg.txAddrs));
    match TxSend(tx.(capsuleId := tx.capsuleId + 1, txQueue := tx.txQueue + [hi]), hi)
    case Stopped(t) => Stopped(t)
    case Sent(t, c, to) => Sent(t.(next := Connected, txQueue := t.txQueue[1..]), c, to)
  }

  /** TX, connected: takes the window size, the receiver's addresses and the connection id. */
  function TxConnected(tx: Tx, c: Capsule): Tx {
    var q := tx.rxQueue + [c];
    tx.(next := Closed, rxQueue := q[1..], winSize := q[0].header.capWinSiz,
        peers := Some(Learned(q[0].payload)), connId := q[0].header.connid)
  }

  /**
    Loads the next read of the file into the queue. Past the end of the file it only sets FIN; a
    short read sets FIN too, and shrinks the chunk size to what was read.
   */
  function InputFromSource(cfg: Config, tx: Tx): Tx {
    if |cfg.source| <= tx.curSize then tx.(fin := true)
    else
      var room := if tx.chunkSize >= HEADER_SPACE then tx.chunkSize - HEADER_SPACE else 0;
      var end := if tx.curSize + room <= |cfg.source| then tx.curSize + room else |cfg.source|;
      var bytes := cfg.source[tx.curSize..end];
      var c := Capsule(Header(0, 0, 0, 0, |bytes| % 0x1_0000, CTRL, 0, 0, 0, 0), bytes);
      var tx' := if |bytes| < room then tx.(chunkSize := |bytes| + HEADER_SPACE, fin := true) else tx;
      tx'.(txQueue := tx.txQueue + [c], curSize := tx.curSize + |bytes|)
  }

  /**
    TX, closed, one turn of the window loop: loads, takes a chunk (there being none stops the
    program), flags it FIN and ends the window if it is the last, numbers it and sends it.
   */
  function TxSubmit(cfg: Config, tx: Tx): Outcome<Tx> {
    SendNext(InputFromSource(cfg, tx))
  }

  function SendNext(t: Tx): Outcome<Tx> {
    if t.txQueue == [] then Stopped(t.(aborted := true))
    else
      var c, rest := t.txQueue[0], t.txQueue[1..];
      var last := t.fin && rest == [];
      var flags := if last then FIN else c.header.capFlags;
      var header := c.header.(connid := t.connId, capid := CapId(t.capsuleId),
                              capPriority := 0, capType := PAYLD, capFlags := flags);
      match TxSend(t.(txQueue := rest, capsuleId := t.capsuleId + 1, winSize := if last then 0 else t.winSize),
                   c.(header := header))
      case Stopped(t') => Stopped(t')
      case Sent(t', c', to) => Sent(t'.(winSize := Less1(t'.winSize)), c', to)
  }

  /** TX, closed: the window loop is over. */
  function TxLeave(tx: Tx): Tx {
    tx.(next := Done)
  }

  /** TX, done: takes the acknowledgement and goes round, or stops if FIN has been set. */
  function TxDone(cfg: Config, tx: Tx, c: Capsule): Tx {
    tx.(rxQueue := (tx.rxQueue + [c])[1..], complete := true,
        next := if tx.fin then Connected else Closed,
        winSize := if tx.fin then tx.winSize else cfg.window)
  }

  lemma SubmitShrinks(cfg: Config, tx: Tx)
    requires tx.winSize > 0 && TxSubmit(cfg, tx).Sent?
    ensures TxSubmit(cfg, tx).now.winSize < tx.winSize
  {
  }

  /** TX, closed: the whole window loop, with the capsules it sends. */
  function TxLoop(cfg: Config, tx: Tx): (Tx, seq<Capsule>)
    decreases tx.winSize
  {
    if tx.winSize == 0 then (TxLeave(tx), [])
    else
      match TxSubmit(cfg, tx)
      case Stopped(t) => (t, [])
      case Sent(t, c, _) => var (t', cs) := TxLoop(cfg, t); (t', [c] + cs)
  }

  /** RX, closed: the window loop on these arrivals, and how many it takes; it waits when they run out. */
  ghost function RxLoop(rx: Rx, arrivals: seq<Capsule>): (r: (Rx, nat))
    ensures r.1 <= |arrivals|
    decreases |arrivals|
  {
    if rx.winSize == 0 then (RxLeave(rx), 0)
    else if arrivals == [] then (rx, 0)
    else var (rx', n) := RxLoop(RxReceive(rx, arrivals[0]), arrivals[1..]); (rx', n + 1)
  }
}
