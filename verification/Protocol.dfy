/**
  The two peers of a transfer joined by a channel that neither loses nor duplicates but may
  deliver in any order. Everything here is about every run of that system.
 */
module Protocol {
  import opened Capsules
  import opened Addresses
  import opened Chunks
  import opened Gateway
  import opened Session
  import opened Windows
  import opened Wrappers

  /** Both peers and the capsules under way in each direction. */
  datatype System = System(tx: Tx, rx: Rx, toRx: multiset<Capsule>, toTx: multiset<Capsule>)

  /** The steps of a run: one for each capsule sent or received and each end of a window loop. */
  datatype Step =
    | RxOpens | TxOpens(c: Capsule) | TxSetsUp | RxSetsUp(c: Capsule) | RxConnects | TxConnects(c: Capsule)
    | TxSubmits | TxLeaves | TxFinishes(c: Capsule)
    | RxReceives(c: Capsule) | RxLeaves | RxFinishes

  function Init(cfg: Config): System {
    System(InitTx(cfg), InitRx(), multiset{}, multiset{})
  }

  predicate TxAt(s: System, code: StateCode) {
    !s.tx.aborted && !s.tx.crashed && Running(s.tx.next, s.tx.complete) && s.tx.next == code
  }

  predicate RxAt(s: System, code: StateCode) {
    !s.rx.crashed && Running(s.rx.next, s.rx.complete) && s.rx.next == code
  }

  /** The step can be taken: its peer is in that state, and a capsule it receives is under way. */
  predicate Enabled(s: System, step: Step) {
    match step
    case RxOpens => RxAt(s, Open)
    case TxOpens(c) => TxAt(s, Open) && c in s.toTx
    case TxSetsUp => TxAt(s, Setup)
    case RxSetsUp(c) => RxAt(s, Setup) && c in s.toRx
    case RxConnects => RxAt(s, Connected)
    case TxConnects(c) => TxAt(s, Connected) && c in s.toTx
    case TxSubmits => TxAt(s, Closed) && s.tx.winSize > 0
    case TxLeaves => TxAt(s, Closed) && s.tx.winSize == 0
    case TxFinishes(c) => TxAt(s, Done) && c in s.toTx
    case RxReceives(c) => RxAt(s, Closed) && s.rx.winSize > 0 && c in s.toRx
    case RxLeaves => RxAt(s, Closed) && s.rx.winSize == 0
    case RxFinishes => RxAt(s, Done)
  }

  /** The sender has sent a capsule, or its program has stopped. */
  function TxSays(s: System, o: Outcome<Tx>): System {
    match o
    case Sent(tx, c, _) => s.(tx := tx, toRx := s.toRx + multiset{c})
    case Stopped(tx) => s.(tx := tx)
  }

  /** The receiver has sent a capsule, or its program has stopped. */
  function RxSays(s: System, o: Outcome<Rx>): System {
    match o
    case Sent(rx, c, _) => s.(rx := rx, toTx := s.toTx + multiset{c})
    case Stopped(rx) => s.(rx := rx)
  }

  function TakeSubmit(cfg: Config, s: System): System {
    TxSays(s, TxSubmit(cfg, s.tx))
  }

  ghost function TakeReceive(s: System, c: Capsule): System {
    s.(rx := RxReceive(s.rx, c), toRx := s.toRx - multiset{c})
  }

  ghost function TakeFinish(cfg: Config, s: System): System
    requires Valid(cfg)
  {
    RxSays(s, RxDone(cfg, s.rx))
  }

  ghost function Take(cfg: Config, s: System, step: Step): System
    requires Valid(cfg)
  {
    match step
    case RxOpens => RxSays(s, RxOpen(s.rx))
    case TxOpens(c) => s.(tx := TxOpen(s.tx, c), toTx := s.toTx - multiset{c})
    case TxSetsUp => TxSays(s, TxSetup(cfg, s.tx))
    case RxSetsUp(c) => s.(rx := RxSetup(s.rx, c), toRx := s.toRx - multiset{c})
    case RxConnects => RxSays(s, RxConnected(cfg, s.rx))
    case TxConnects(c) => s.(tx := TxConnected(s.tx, c), toTx := s.toTx - multiset{c})
    case TxSubmits => TakeSubmit(cfg, s)
    case TxLeaves => s.(tx := TxLeave(s.tx))
    case TxFinishes(c) => s.(tx := TxDone(cfg, s.tx, c), toTx := s.toTx - multiset{c})
    case RxReceives(c) => TakeReceive(s, c)
    case RxLeaves => s.(rx := RxLeave(s.rx))
    case RxFinishes => TakeFinish(cfg, s)
  }

  /** The system after a sequence of steps. */
  ghost function After(cfg: Config, steps: seq<Step>): System
    requires Valid(cfg)
  {
    if steps == [] then Init(cfg) else Take(cfg, After(cfg, steps[..|steps| - 1]), steps[|steps| - 1])
  }

  /** A run: every step was enabled when it was taken. */
  ghost predicate Run(cfg: Config, steps: seq<Step>)
    requires Valid(cfg)
  {
    steps == [] ||
    (Run(cfg, steps[..|steps| - 1]) && Enabled(After(cfg, steps[..|steps| - 1]), steps[|steps| - 1]))
  }

  ghost predicate CanStep(s: System) {
    exists step :: Enabled(s, step)
  }

  predicate TxFinished(s: System) {
    !Running(s.tx.next, s.tx.complete)
  }

  predicate RxFinished(s: System) {
    !Running(s.rx.next, s.rx.complete)
  }

  // ----- the invariant -----

  /** Chunks submitted, once the handshake is over. */
  function Submits(s: System): int {
    s.tx.capsuleId - 1
  }

  /** Windows flushed, once the handshake is over. */
  function Rounds(s: System): int {
    s.rx.capsuleId - 2
  }

  function Hello(): Capsule {
    Capsule(Header(0, 0, 0, 0, 0, PAYLD, 0, 0, 0, 0), [])
  }

  function Hi(cfg: Config): Capsule
    requires Valid(cfg)
  {
    Capsule(Header(0, 0, 0, 0, SLOT * |cfg.txAddrs|, CTRL, 0, 0, 0, 0), EncodeList(cfg.txAddrs))
  }

  function Ack(cfg: Config): Capsule
    requires Valid(cfg)
  {
    Capsule(Header(0, 0, 1, 1, SLOT * |cfg.rxAddrs|, CTRL, 0, cfg.window, 0, 0), EncodeList(cfg.rxAddrs))
  }

  /** The peers before the first data capsule, all but their progress through the handshake. */
  predicate Untouched(cfg: Config, s: System) {
    && s.tx == InitTx(cfg).(next := s.tx.next, capsuleId := s.tx.capsuleId)
    && s.rx == InitRx().(next := s.rx.next, capsuleId := s.rx.capsuleId, winSize := s.rx.winSize,
                         connId := s.rx.connId, peers := s.rx.peers, sends := s.rx.sends)
  }

  datatype Phase = Start | HelloSent | HelloTaken | HiSent | HiTaken | AckSent

  function NextPhase(p: Phase): Phase {
    match p
    case Start => HelloSent
    case HelloSent => HelloTaken
    case HelloTaken => HiSent
    case HiSent => HiTaken
    case _ => AckSent
  }

  /** The handshake goes through these six states, in this order. */
  predicate Handshake(cfg: Config, s: System, p: Phase)
    requires Valid(cfg)
  {
    && Untouched(cfg, s)
    && s.tx.next == (if p.Start? || p.HelloSent? then Open else if p.HelloTaken? then Setup else Connected)
    && s.rx.next == (if p.Start? then Open else if p.HiTaken? then Connected else if p.AckSent? then Closed else Setup)
    && s.tx.capsuleId == (if p.HiSent? || p.HiTaken? || p.AckSent? then 1 else 0)
    && s.rx.capsuleId == (if p.Start? then 0 else if p.AckSent? then 2 else 1)
    && s.rx.winSize == (if p.AckSent? then cfg.window else 0)
    && s.rx.connId == (if p.AckSent? then 1 else 0)
    && s.rx.peers == (if p.HiTaken? || p.AckSent? then Some(Learned(EncodeList(cfg.txAddrs))) else None)
    && s.rx.sends == (if p.AckSent? then 1 else 0)
    && (p.AckSent? ==> !AllLoopback(cfg.txAddrs))
    && s.toTx == (if p.HelloSent? then multiset{Hello()} else if p.AckSent? then multiset{Ack(cfg)} else multiset{})
    && s.toRx == (if p.HiSent? then multiset{Hi(cfg)} else multiset{})
  }

  /** The sender after `sent` chunks. */
  predicate TxInv(cfg: Config, tx: Tx, sent: int)
    requires Valid(cfg)
  {
    && 0 <= sent <= NumChunks(cfg) && tx.capsuleId == sent + 1
    && tx.connId == 1 && tx.txQueue == [] && tx.rxQueue == []
    && tx.peers == Some(Learned(EncodeList(cfg.rxAddrs))) && tx.sends == sent
    && !tx.crashed && (sent > 0 ==> !AllLoopback(cfg.rxAddrs))
    && tx.curSize == Off(cfg, sent)
    && (tx.aborted ==> tx.next == Closed && !HasTail(cfg) && sent == NumChunks(cfg))
    && (!tx.aborted ==> (tx.fin <==> HasTail(cfg) && sent == NumChunks(cfg)))
    && (!tx.fin ==> tx.chunkSize == cfg.chunk + HEADER_SPACE)
  }

  /** Where the sender stands in the window that starts at chunk lo. */
  predicate TxWindow(cfg: Config, tx: Tx, sent: int, lo: int) {
    match tx.next
    case Closed => lo <= sent <= lo + cfg.window && (!tx.aborted ==> tx.winSize == if tx.fin then 0 else lo + cfg.window - sent)
                   && (tx.aborted ==> sent < lo + cfg.window)
    case Done => lo <= sent <= lo + cfg.window && tx.winSize == 0 && (tx.fin || sent == lo + cfg.window)
    case Connected => tx.complete && tx.fin
    case _ => false
  }

  /** The receiver at work on the window that starts at chunk lo, of which the sender has sent up to hi. */
  ghost predicate RxInv(cfg: Config, rx: Rx, lo: int, hi: int, toRx: multiset<Capsule>)
    requires Valid(cfg)
  {
    && 0 <= lo <= hi <= NumChunks(cfg)
    && Split(Plan(cfg), lo, hi, rx.window, toRx)
    && |rx.rxQueue| == |rx.window| <= cfg.window
    && rx.sink == cfg.source[..Off(cfg, lo)]
    && rx.curSize == Off(cfg, lo) + HEADER_SPACE * lo
    && (rx.fin <==> HasTail(cfg) && NumChunks(cfg) in rx.window)
    && (match rx.next
        case Closed => rx.winSize == if rx.fin then 0 else cfg.window - |rx.window|
        case Done => rx.winSize == 0 && (rx.fin || |rx.window| == cfg.window)
        case _ => false)
  }

  /** The receiver once it has stopped: chunks of the last window still under way are missing from the sink. */
  ghost predicate RxEnd(cfg: Config, rx: Rx, lo: int, toRx: multiset<Capsule>)
    requires Valid(cfg)
  {
    && rx.next == Connected && rx.complete && rx.fin && HasTail(cfg)
    && rx.window == map[] && rx.rxQueue == []
    && 0 <= lo < NumChunks(cfg) <= lo + cfg.window
    && Lost(Plan(cfg), lo, toRx)
    && rx.sink == cfg.source[..Off(cfg, lo)] + Survivors(Plan(cfg), lo, NumChunks(cfg), toRx)
    && rx.curSize == |rx.sink| + HEADER_SPACE * (NumChunks(cfg) - |toRx|)
  }

  /** Facts of the receiver that hold from the acknowledgement of the handshake on. */
  predicate RxConnection(cfg: Config, rx: Rx)
    requires Valid(cfg)
  {
    && rx.capsuleId >= 2 && KeepsOks(cfg, rx.txQueue) && |rx.txQueue| == rx.capsuleId - 2
    && rx.connId == 1 && rx.peers == Some(Learned(EncodeList(cfg.txAddrs))) && rx.sends == rx.capsuleId - 1
    && !rx.crashed && !AllLoopback(cfg.txAddrs)
  }

  /** A send queue that has kept the acknowledgements of the windows, in order, under the ids 2, 3, ... */
  predicate KeepsOks(cfg: Config, q: seq<Capsule>)
    requires Valid(cfg)
  {
    forall j :: 0 <= j < |q| ==> q[j] == Ok(cfg, j + 2)
  }

  /** The receiver is collecting the window the sender is sending, or has just sent. */
  ghost predicate Collecting(cfg: Config, s: System, lo: int)
    requires Valid(cfg)
  {
    && s.toTx == multiset{} && RxConnection(cfg, s.rx)
    && TxInv(cfg, s.tx, Submits(s)) && s.tx.next != Connected && TxWindow(cfg, s.tx, Submits(s), lo)
    && RxInv(cfg, s.rx, lo, Submits(s), s.toRx)
    && (HasTail(cfg) ==> lo < NumChunks(cfg))
  }

  /** The receiver has flushed that window and is back to collecting; its acknowledgement is under way. */
  ghost predicate Acknowledged(cfg: Config, s: System, lo: int)
    requires Valid(cfg)
  {
    && 0 <= lo && RxConnection(cfg, s.rx) && s.toTx == multiset{Ok(cfg, s.rx.capsuleId - 1)}
    && TxInv(cfg, s.tx, Submits(s)) && s.tx.next != Connected && !s.tx.aborted && !s.tx.fin
    && Submits(s) == lo + cfg.window && s.tx.winSize == 0 && (s.tx.next == Closed || s.tx.next == Done)
    && s.toRx == multiset{} && s.rx.window == map[] && s.rx.next == Closed
    && RxInv(cfg, s.rx, lo + cfg.window, Submits(s), s.toRx)
  }

  /** The receiver has flushed the last window and stopped; its acknowledgement is under way or has been taken. */
  ghost predicate Ended(cfg: Config, s: System, lo: int)
    requires Valid(cfg)
  {
    && RxConnection(cfg, s.rx) && s.rx.capsuleId >= 3
    && TxInv(cfg, s.tx, Submits(s)) && Submits(s) == NumChunks(cfg) && !s.tx.aborted && s.tx.winSize == 0
    && RxEnd(cfg, s.rx, lo, s.toRx)
    && (if s.tx.next == Connected then s.tx.complete && s.toTx == multiset{}
        else (s.tx.next == Closed || s.tx.next == Done) && s.toTx == multiset{Ok(cfg, s.rx.capsuleId - 1)})
  }

  /** The handshake is under way. */
  ghost predicate Shaking(cfg: Config, s: System)
    requires Valid(cfg)
  {
    exists p :: Handshake(cfg, s, p)
  }

  /** The receiver has found no address to send its acknowledgement to; the sender waits for it. */
  predicate RxLost(cfg: Config, s: System)
    requires Valid(cfg)
  {
    && AllLoopback(cfg.txAddrs)
    && s.tx == InitTx(cfg).(next := Connected, capsuleId := 1)
    && s.rx == InitRx().(next := Connected, crashed := true, capsuleId := 2, winSize := cfg.window, connId := 1,
                         peers := Some(Learned(EncodeList(cfg.txAddrs))), sends := 1, txQueue := [Ack(cfg)])
    && s.toRx == multiset{} && s.toTx == multiset{}
  }

  /** The receiver when the first window is about to be sent. */
  predicate RxBegun(cfg: Config, rx: Rx)
    requires Valid(cfg)
  {
    && !AllLoopback(cfg.txAddrs)
    && rx == InitRx().(next := Closed, capsuleId := 2, winSize := cfg.window, connId := 1,
                       peers := Some(Learned(EncodeList(cfg.txAddrs))), sends := 1)
  }

  /** The receiver waits for the first capsule of the first window. */
  predicate RxWaits(cfg: Config, rx: Rx)
    requires Valid(cfg)
  {
    && RxConnection(cfg, rx) && rx.capsuleId == 2 && rx.next == Closed && rx.winSize == cfg.window && !rx.fin
    && rx.sink == [] && rx.curSize == 0 && rx.window == map[] && rx.rxQueue == []
  }

  /** The sender has found no address to send its first chunk to; the receiver waits for it. */
  predicate TxLost(cfg: Config, s: System)
    requires Valid(cfg)
  {
    && AllLoopback(cfg.rxAddrs) && NumChunks(cfg) > 0 && RxWaits(cfg, s.rx)
    && s.tx.next == Closed && s.tx.crashed && !s.tx.aborted
    && s.tx.capsuleId == 2 && s.tx.sends == 1 && s.tx.curSize == Off(cfg, 1)
    && s.tx.peers == Some(Learned(EncodeList(cfg.rxAddrs))) && s.tx.txQueue == [] && s.tx.rxQueue == []
    && s.toRx == multiset{} && s.toTx == multiset{}
  }

  /** What holds of every system a run reaches. */
  ghost predicate Inv(cfg: Config, s: System)
    requires Valid(cfg)
  {
    || RxLost(cfg, s)
    || TxLost(cfg, s)
    || Shaking(cfg, s)
    || Collecting(cfg, s, Rounds(s) * cfg.window)
    || Acknowledged(cfg, s, (Rounds(s) - 1) * cfg.window)
    || Ended(cfg, s, (Rounds(s) - 1) * cfg.window)
  }

  // ----- one step -----

  lemma HelloSends(cfg: Config, s: System, step: Step)
    requires Valid(cfg) && Handshake(cfg, s, Start) && Enabled(s, step)
    ensures Handshake(cfg, Take(cfg, s, step), HelloSent)
  {
    assert step == RxOpens;
    assert [Hello()][1..] == [];
  }

  lemma HelloArrives(cfg: Config, s: System, step: Step)
    requires Valid(cfg) && Handshake(cfg, s, HelloSent) && Enabled(s, step)
    ensures Handshake(cfg, Take(cfg, s, step), HelloTaken)
  {
    assert step == TxOpens(Hello());
    assert [Hello()][1..] == [];
  }

  lemma HiSends(cfg: Config, s: System, step: Step)
    requires Valid(cfg) && Handshake(cfg, s, HelloTaken) && Enabled(s, step)
    ensures Handshake(cfg, Take(cfg, s, step), HiSent)
  {
    assert step == TxSetsUp;
    assert [Hi(cfg)][1..] == [];
  }

  lemma HiArrives(cfg: Config, s: System, step: Step)
    requires Valid(cfg) && Handshake(cfg, s, HiSent) && Enabled(s, step)
    ensures Handshake(cfg, Take(cfg, s, step), HiTaken)
  {
    assert step == RxSetsUp(Hi(cfg));
    assert [Hi(cfg)][1..] == [];
  }

  /** The receiver acknowledges, unless the sender has given it no address but loopbacks: then it stops. */
  lemma AckSends(cfg: Config, s: System, step: Step)
    requires Valid(cfg) && Handshake(cfg, s, HiTaken) && Enabled(s, step)
    ensures !AllLoopback(cfg.txAddrs) ==> Handshake(cfg, Take(cfg, s, step), AckSent)
    ensures AllLoopback(cfg.txAddrs) ==> RxLost(cfg, Take(cfg, s, step))
  {
    hide Learned, EncodeList, AllLoopback, NumChunks;
    assert step == RxConnects;
    ExchangeEmpty(cfg.txAddrs);
    assert [Ack(cfg)][1..] == [];
    assert s.rx.txQueue + [Ack(cfg)] == [Ack(cfg)];
  }

  /** The system when the first window is about to be sent. */
  predicate Begun(cfg: Config, s: System)
    requires Valid(cfg)
  {
    && s.tx == InitTx(cfg).(next := Closed, capsuleId := 1, winSize := cfg.window, connId := 1,
                            peers := Some(Learned(EncodeList(cfg.rxAddrs))))
    && RxBegun(cfg, s.rx)
    && s.toRx == multiset{} && s.toTx == multiset{}
  }

  lemma AckArrives(cfg: Config, s: System, step: Step)
    requires Valid(cfg) && Handshake(cfg, s, AckSent) && Enabled(s, step)
    ensures Begun(cfg, Take(cfg, s, step))
  {
    hide Learned, EncodeList, NumChunks;
    assert step == TxConnects(Ack(cfg));
    var tx := TxConnected(s.tx, Ack(cfg));
    assert [Ack(cfg)][1..] == [];
    assert tx == s.tx.(next := Closed, winSize := cfg.window, connId := 1,
                       peers := Some(Learned(EncodeList(cfg.rxAddrs))));
  }

  lemma BeginsCollecting(cfg: Config, s: System)
    requires Valid(cfg) && Begun(cfg, s)
    ensures Rounds(s) == 0 && Collecting(cfg, s, 0)
  {
    BeginsRx(cfg, s.rx);
    BeginsTx(cfg, s.tx);
    hide Learned, EncodeList, RxInv, TxInv;
  }

  lemma BeginsTx(cfg: Config, tx: Tx)
    requires Valid(cfg)
    requires tx == InitTx(cfg).(next := Closed, capsuleId := 1, winSize := cfg.window, connId := 1,
                                peers := Some(Learned(EncodeList(cfg.rxAddrs))))
    ensures TxInv(cfg, tx, 0)
  {
    OffEnds(cfg, 0);
    hide Learned, EncodeList, Off, NumChunks;
  }

  lemma BeginsRx(cfg: Config, rx: Rx)
    requires Valid(cfg)
    requires RxBegun(cfg, rx)
    ensures RxInv(cfg, rx, 0, 0, multiset{})
  {
    OffEnds(cfg, 0);
    SplitEmpty(Plan(cfg), 0);
    hide Split, Plan, Off, NumChunks;
  }

  /**
    A turn of the sender's loop before its last chunk sends the next one, if the receiver has given it an
    address to send to, and otherwise stops the program; after the last chunk, the program stops.
   */
  lemma SubmitChunk(cfg: Config, tx: Tx, sent: int)
    requires Valid(cfg) && TxInv(cfg, tx, sent) && !tx.fin && tx.next == Closed && !tx.aborted
    ensures var r := TxSubmit(cfg, tx);
      if sent == NumChunks(cfg) then
        r.Stopped? && TxInv(cfg, r.now, sent) && r.now.aborted && r.now.next == Closed
      else if AllLoopback(cfg.rxAddrs) then
        sent == 0 && r.Stopped? && r.now.crashed && TxKept(cfg, tx, r.now)
      else
        && r.Sent? && r.capsule == Chunk(cfg, sent) && TxInv(cfg, r.now, sent + 1) && !r.now.aborted
        && r.now.next == Closed && (r.now.winSize == if r.now.fin then 0 else Less1(tx.winSize))
        && tx.peers.Some? && |tx.peers.value| > 0 && r.to == Listed((sent + 1) % |tx.peers.value|)
  {
    hide Learned, EncodeList, AllLoopback;
    ExchangeEmpty(cfg.rxAddrs);
    OffEnds(cfg, sent);
    if sent < NumChunks(cfg) {
      OffStep(cfg, sent);
      OffMonotone(cfg, sent, sent + 1);
    }
  }

  /** What the sender has done when it finds no address for its first chunk. */
  predicate TxKept(cfg: Config, tx: Tx, tx': Tx) {
    && tx'.next == Closed && !tx'.aborted && tx'.capsuleId == 2 && tx'.sends == 1
    && tx'.curSize == Off(cfg, 1) && tx'.peers == tx.peers && tx'.txQueue == [] && tx'.rxQueue == []
  }

  /** A chunk's arrival files it, and ends the window loop just when the last chunk of a file with a tail is in. */
  lemma ReceiveChunk(cfg: Config, rx: Rx, lo: int, hi: int, toRx: multiset<Capsule>, c: Capsule)
    requires Valid(cfg) && RxInv(cfg, rx, lo, hi, toRx) && c in toRx
    requires rx.next == Closed && rx.winSize > 0
    ensures var rx' := RxReceive(rx, c);
      && RxInv(cfg, rx', lo, hi, toRx - multiset{c})
      && rx' == rx.(rxQueue := rx.rxQueue + [c], window := rx.window[c.header.capid := c],
                    fin := rx'.fin, winSize := rx'.winSize)
  {
    hide Split, Numbered, Plan, RxReceive, Off, HasTail, NumChunks;
    var plan, tail := Plan(cfg), HasTail(cfg);
    PlanNumbered(cfg);
    SplitFind(plan, lo, hi, rx.window, toRx, c);
    SplitReceive(plan, tail, lo, hi, rx.window, toRx, c);
    Moved(rx.window, toRx, c.header.capid, c);
    SplitSmall(plan, lo, hi, rx.window, toRx);
    ReceiveValue(rx, c, plan, tail, lo, hi, toRx - multiset{c});
  }

  lemma ReceiveValue(rx: Rx, c: Capsule, plan: seq<Capsule>, tail: bool, lo: int, hi: int, left: multiset<Capsule>)
    requires Numbered(plan, tail) && 0 <= lo <= hi <= |plan| && IsPayload(c.header)
    requires Split(plan, lo, hi, rx.window[c.header.capid := c], left)
    ensures var fin := rx.fin || (tail && |plan| in rx.window[c.header.capid := c]);
      RxReceive(rx, c) == rx.(rxQueue := rx.rxQueue + [c], window := rx.window[c.header.capid := c],
                              fin := fin, winSize := if fin then 0 else Less1(rx.winSize))
  {
    hide Split, Numbered, IsFin;
    var window := rx.window[c.header.capid := c];
    assert c.header.capid in window;
    GreatestIsFin(plan, tail, lo, hi, window, left);
    assert window[MaxKey(window) := window[MaxKey(window)]] == window;
  }

  /** The next submission finds no address to send to. */
  predicate Doomed(cfg: Config, s: System)
    requires Valid(cfg)
  {
    AllLoopback(cfg.rxAddrs) && Submits(s) < NumChunks(cfg)
  }

  lemma CollectSubmits(cfg: Config, s: System, lo: int)
    requires Valid(cfg) && Collecting(cfg, s, lo) && Enabled(s, TxSubmits)
    ensures TakeSubmit(cfg, s).rx == s.rx
    ensures !Doomed(cfg, s) ==> Collecting(cfg, TakeSubmit(cfg, s), lo)
    ensures Doomed(cfg, s) && lo == Rounds(s) * cfg.window ==> TxLost(cfg, TakeSubmit(cfg, s))
    ensures Doomed(cfg, s) ==> TakeSubmit(cfg, s).toRx == s.toRx == multiset{}
  {
    hide Split, Numbered, Plan, TxSubmit, Off, NumChunks, HasTail, Chunk, Learned, EncodeList, AllLoopback, KeepsOks;
    var sent := Submits(s);
    SubmitChunk(cfg, s.tx, sent);
    if Doomed(cfg, s) {
      NothingYet(cfg, s, lo);
    } else if sent < NumChunks(cfg) {
      PlanNumbered(cfg);
      PlanAt(cfg, sent);
      SplitSend(Plan(cfg), HasTail(cfg), lo, sent, s.rx.window, s.toRx);
    }
  }

  /** Before the first submission the receiver has nothing and waits. */
  lemma NothingYet(cfg: Config, s: System, lo: int)
    requires Valid(cfg) && Collecting(cfg, s, lo) && Submits(s) == 0
    ensures s.toRx == multiset{}
    ensures lo == Rounds(s) * cfg.window ==> RxWaits(cfg, s.rx)
  {
    hide Split, Plan, NumChunks, HasTail, Learned, EncodeList, AllLoopback, KeepsOks, TxInv;
    SplitSmall(Plan(cfg), lo, 0, s.rx.window, s.toRx);
    if lo == Rounds(s) * cfg.window {
      Zero(Rounds(s), cfg.window);
    }
    assert s.rx.window == map[];
  }

  lemma Zero(r: int, w: nat)
    requires w > 0 && r * w == 0
    ensures r == 0
  {
  }

  lemma CollectReceives(cfg: Config, s: System, lo: int, c: Capsule)
    requires Valid(cfg) && Collecting(cfg, s, lo) && Enabled(s, RxReceives(c))
    ensures Collecting(cfg, TakeReceive(s, c), lo)
    ensures TakeReceive(s, c).tx == s.tx && Rounds(TakeReceive(s, c)) == Rounds(s)
  {
    hide RxInv;
    ReceiveChunk(cfg, s.rx, lo, Submits(s), s.toRx, c);
  }

  lemma CollectLeaves(cfg: Config, s: System, lo: int, step: Step)
    requires Valid(cfg) && Collecting(cfg, s, lo) && Enabled(s, step) && (step.TxLeaves? || step.RxLeaves?)
    ensures Collecting(cfg, Take(cfg, s, step), lo)
  {
  }

  /** A full window without the last chunk: nothing is under way, and the receiver goes round. */
  lemma FinishFull(cfg: Config, rx: Rx, lo: int, hi: int, toRx: multiset<Capsule>)
    requires Valid(cfg) && RxInv(cfg, rx, lo, hi, toRx) && rx.next == Done && !rx.fin && hi <= lo + cfg.window
    requires CanSend(rx.peers)
    ensures toRx == multiset{} && hi == lo + cfg.window && !(HasTail(cfg) && hi == NumChunks(cfg))
    ensures RxDone(cfg, rx).Sent? && RxInv(cfg, RxDone(cfg, rx).now, hi, hi, multiset{})
  {
    hide Plan, Off, NumChunks, HasTail, Split, Flush, Counted;
    SplitSmall(Plan(cfg), lo, hi, rx.window, toRx);
    FlushWhole(cfg, lo, hi, rx.window);
    SplitEmpty(Plan(cfg), hi);
    if hi == NumChunks(cfg) {
      LastIsFiled(Plan(cfg), lo, rx.window);
    }
    assert cfg.source[..Off(cfg, lo)] + cfg.source[Off(cfg, lo)..Off(cfg, hi)] == cfg.source[..Off(cfg, hi)];
  }

  /** The window with the last chunk: the receiver stops, and leaves behind what is still under way. */
  lemma FinishLast(cfg: Config, rx: Rx, lo: int, hi: int, toRx: multiset<Capsule>)
    requires Valid(cfg) && RxInv(cfg, rx, lo, hi, toRx) && rx.next == Done && rx.fin && hi <= lo + cfg.window
    requires CanSend(rx.peers)
    ensures HasTail(cfg) && hi == NumChunks(cfg)
    ensures RxDone(cfg, rx).Sent? && RxEnd(cfg, RxDone(cfg, rx).now, lo, toRx)
  {
    hide Plan, Off, NumChunks, HasTail, Split, Flush, Counted, Numbered, Holds, Lost;
    PlanNumbered(cfg);
    FiledSent(Plan(cfg), lo, hi, rx.window, toRx);
    LeftOver(Plan(cfg), lo, rx.window, toRx);
    SplitSmall(Plan(cfg), lo, hi, rx.window, toRx);
    SplitHolds(Plan(cfg), lo, hi, rx.window, toRx);
    FlushInOrder(Plan(cfg), HasTail(cfg), lo, hi, rx.window, toRx);
  }

  lemma CollectFinishes(cfg: Config, s: System, lo: int)
    requires Valid(cfg) && Collecting(cfg, s, lo) && Enabled(s, RxFinishes)
    ensures Rounds(TakeFinish(cfg, s)) == Rounds(s) + 1
    ensures s.rx.fin ==> Ended(cfg, TakeFinish(cfg, s), lo)
    ensures !s.rx.fin ==> Acknowledged(cfg, TakeFinish(cfg, s), lo)
  {
    hide RxInv, RxEnd, Flush, Counted, HasTail, NumChunks, Off, Learned, EncodeList, AllLoopback, KeepsOks;
    var sent := Submits(s);
    AtDone(cfg, s, lo);
    assert lo >= 0 by { AtLo(cfg, s.rx, lo, sent, s.toRx); }
    RxCanSend(cfg, s.rx);
    OksKept(cfg, s.rx);
    if s.rx.fin {
      FinishLast(cfg, s.rx, lo, sent, s.toRx);
    } else {
      FinishFull(cfg, s.rx, lo, sent, s.toRx);
    }
  }

  /** A connected receiver has an address to send to. */
  lemma RxCanSend(cfg: Config, rx: Rx)
    requires Valid(cfg) && RxConnection(cfg, rx)
    ensures CanSend(rx.peers)
  {
    hide Learned, EncodeList, AllLoopback, KeepsOks;
    ExchangeEmpty(cfg.txAddrs);
  }

  lemma OksKept(cfg: Config, rx: Rx)
    requires Valid(cfg) && RxConnection(cfg, rx)
    ensures KeepsOks(cfg, rx.txQueue + [Ok(cfg, rx.capsuleId)])
  {
    hide Learned, EncodeList, AllLoopback;
  }

  lemma AtLo(cfg: Config, rx: Rx, lo: int, hi: int, toRx: multiset<Capsule>)
    requires Valid(cfg) && RxInv(cfg, rx, lo, hi, toRx)
    ensures 0 <= lo
  {
  }

  lemma AtDone(cfg: Config, s: System, lo: int)
    requires Valid(cfg) && Collecting(cfg, s, lo) && s.rx.next == Done
    ensures RxInv(cfg, s.rx, lo, Submits(s), s.toRx) && Submits(s) <= lo + cfg.window
  {
    hide RxInv;
  }

  lemma AckLeaves(cfg: Config, s: System, lo: int)
    requires Valid(cfg) && Acknowledged(cfg, s, lo) && Enabled(s, TxLeaves)
    ensures Acknowledged(cfg, Take(cfg, s, TxLeaves), lo)
  {
    hide RxInv, HasTail, NumChunks, Off, Learned, EncodeList;
  }

  lemma AckTaken(cfg: Config, s: System, lo: int, c: Capsule)
    requires Valid(cfg) && Acknowledged(cfg, s, lo) && Enabled(s, TxFinishes(c))
    ensures Collecting(cfg, Take(cfg, s, TxFinishes(c)), lo + cfg.window)
  {
    hide RxInv, HasTail, NumChunks, Off, Learned, EncodeList;
    assert [c][1..] == [];
    AckBelow(cfg, s, lo);
  }

  lemma AckBelow(cfg: Config, s: System, lo: int)
    requires Valid(cfg) && Acknowledged(cfg, s, lo)
    ensures HasTail(cfg) ==> lo + cfg.window < NumChunks(cfg)
  {
  }

  lemma EndLeaves(cfg: Config, s: System, lo: int)
    requires Valid(cfg) && Ended(cfg, s, lo) && Enabled(s, TxLeaves)
    ensures Ended(cfg, Take(cfg, s, TxLeaves), lo)
  {
    hide RxEnd, HasTail, NumChunks, Off, Learned, EncodeList;
  }

  lemma EndTaken(cfg: Config, s: System, lo: int, c: Capsule)
    requires Valid(cfg) && Ended(cfg, s, lo) && Enabled(s, TxFinishes(c))
    ensures Ended(cfg, Take(cfg, s, TxFinishes(c)), lo)
    ensures TxFinished(Take(cfg, s, TxFinishes(c)))
  {
    hide RxEnd, HasTail, Off, Learned, EncodeList;
    assert [c][1..] == [];
    EndFin(cfg, s, lo);
  }

  lemma EndFin(cfg: Config, s: System, lo: int)
    requires Valid(cfg) && Ended(cfg, s, lo)
    ensures HasTail(cfg) && s.tx.fin && RxFinished(s)
  {
  }

  lemma CollectStep(cfg: Config, s: System, step: Step)
    requires Valid(cfg) && Collecting(cfg, s, Rounds(s) * cfg.window) && Enabled(s, step)
    ensures Inv(cfg, Take(cfg, s, step))
  {
    hide Collecting, Acknowledged, Ended, Shaking, TakeSubmit, TakeReceive, TakeFinish;
    var lo := Rounds(s) * cfg.window;
    CollectEnables(cfg, s, lo, step);
    match step
    case TxSubmits => SubmitKeeps(cfg, s);
    case RxReceives(c) => CollectReceives(cfg, s, lo, c);
    case RxFinishes => CollectFinishes(cfg, s, lo);
    case _ => CollectLeaves(cfg, s, lo, step);
  }

  lemma SubmitKeeps(cfg: Config, s: System)
    requires Valid(cfg) && Collecting(cfg, s, Rounds(s) * cfg.window) && Enabled(s, TxSubmits)
    ensures Inv(cfg, TakeSubmit(cfg, s))
  {
    hide Collecting, TxLost, TakeSubmit;
    CollectSubmits(cfg, s, Rounds(s) * cfg.window);
  }

  lemma CollectEnables(cfg: Config, s: System, lo: int, step: Step)
    requires Valid(cfg) && Collecting(cfg, s, lo) && Enabled(s, step)
    ensures step.TxSubmits? || step.TxLeaves? || step.RxReceives? || step.RxLeaves? || step.RxFinishes?
  {
    hide TxInv;
  }

  lemma AckStep(cfg: Config, s: System, step: Step)
    requires Valid(cfg) && Acknowledged(cfg, s, (Rounds(s) - 1) * cfg.window) && Enabled(s, step)
    ensures Inv(cfg, Take(cfg, s, step))
  {
    hide Collecting, Acknowledged, Ended, Shaking;
    var lo := (Rounds(s) - 1) * cfg.window;
    assert lo + cfg.window == Rounds(s) * cfg.window;
    AckEnables(cfg, s, lo, step);
    match step
    case TxFinishes(c) => AckTaken(cfg, s, lo, c);
    case _ => AckLeaves(cfg, s, lo);
  }

  lemma AckEnables(cfg: Config, s: System, lo: int, step: Step)
    requires Valid(cfg) && Acknowledged(cfg, s, lo) && Enabled(s, step)
    ensures step.TxFinishes? || step.TxLeaves?
  {
    hide TxInv;
  }

  lemma EndStep(cfg: Config, s: System, step: Step)
    requires Valid(cfg) && Ended(cfg, s, (Rounds(s) - 1) * cfg.window) && Enabled(s, step)
    ensures Inv(cfg, Take(cfg, s, step))
  {
    hide Collecting, Acknowledged, Ended, Shaking;
    var lo := (Rounds(s) - 1) * cfg.window;
    EndEnables(cfg, s, lo, step);
    match step
    case TxFinishes(c) => EndTaken(cfg, s, lo, c);
    case _ => EndLeaves(cfg, s, lo);
  }

  lemma EndEnables(cfg: Config, s: System, lo: int, step: Step)
    requires Valid(cfg) && Ended(cfg, s, lo) && Enabled(s, step)
    ensures step.TxFinishes? || step.TxLeaves?
  {
    hide TxInv;
  }

  /** A step of the handshake goes to its next phase, begins the first window, or finds no address to send to. */
  ghost predicate Shaken(cfg: Config, p: Phase, s': System)
    requires Valid(cfg)
  {
    if p.AckSent? then Begun(cfg, s')
    else if p.HiTaken? && AllLoopback(cfg.txAddrs) then RxLost(cfg, s')
    else Handshake(cfg, s', NextPhase(p))
  }

  lemma ShakeStep(cfg: Config, s: System, p: Phase, step: Step)
    requires Valid(cfg) && Handshake(cfg, s, p) && Enabled(s, step)
    ensures Shaken(cfg, p, Take(cfg, s, step))
  {
    hide Handshake, Begun, RxLost, Take;
    match p
    case Start => HelloSends(cfg, s, step);
    case HelloSent => HelloArrives(cfg, s, step);
    case HelloTaken => HiSends(cfg, s, step);
    case HiSent => HiArrives(cfg, s, step);
    case HiTaken => AckSends(cfg, s, step);
    case AckSent => AckArrives(cfg, s, step);
  }

  /** Once a program has stopped for want of an address, nothing can happen any more. */
  lemma LostQuiet(cfg: Config, s: System)
    requires Valid(cfg) && (RxLost(cfg, s) || TxLost(cfg, s))
    ensures !CanStep(s) && !TxFinished(s) && !RxFinished(s)
  {
    hide Learned, EncodeList, AllLoopback, KeepsOks, NumChunks, Off;
    forall step
      ensures !Enabled(s, step)
    {
    }
  }

  /** Every step of every run keeps the invariant. */
  lemma InvStep(cfg: Config, s: System, step: Step)
    requires Valid(cfg) && Inv(cfg, s) && Enabled(s, step)
    ensures Inv(cfg, Take(cfg, s, step))
  {
    hide Collecting, Acknowledged, Ended, Handshake, Begun, RxLost, TxLost, Take, Enabled;
    if RxLost(cfg, s) || TxLost(cfg, s) {
      LostQuiet(cfg, s);
    } else if Shaking(cfg, s) {
      var p :| Handshake(cfg, s, p);
      ShakeStep(cfg, s, p, step);
      if p.AckSent? {
        BeginsCollecting(cfg, Take(cfg, s, step));
      }
    } else if Collecting(cfg, s, Rounds(s) * cfg.window) {
      CollectStep(cfg, s, step);
    } else if Acknowledged(cfg, s, (Rounds(s) - 1) * cfg.window) {
      AckStep(cfg, s, step);
    } else {
      EndStep(cfg, s, step);
    }
  }

  lemma {:induction false} RunInv(cfg: Config, steps: seq<Step>)
    requires Valid(cfg) && Run(cfg, steps)
    ensures Inv(cfg, After(cfg, steps))
  {
    hide Inv, Take, Enabled;
    if steps == [] {
      InitInv(cfg);
    } else {
      RunInv(cfg, steps[..|steps| - 1]);
      InvStep(cfg, After(cfg, steps[..|steps| - 1]), steps[|steps| - 1]);
    }
  }

  lemma InitInv(cfg: Config)
    requires Valid(cfg)
    ensures Inv(cfg, Init(cfg))
  {
    assert Handshake(cfg, Init(cfg), Start);
  }
}
