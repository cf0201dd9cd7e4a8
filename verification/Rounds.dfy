/**
  The window loops as wholes: what the sender's loop sends, what the receiver's loop makes of it in
  whatever order it arrives, and one round of the two together.
 */
module Rounds {
  import opened Capsules
  import opened Addresses
  import opened Gateway
  import opened Chunks
  import opened Session
  import opened Windows
  import opened Protocol

  function Min(a: nat, b: nat): nat {
    if a <= b then a else b
  }

  /**
    The sender's loop sends the next winSize chunks of the plan, in order, or what is left of it; if it
    runs out of chunks without having flagged FIN, the program stops. Without an address to send to the
    program stops at the first chunk.
   */
  predicate SendsWindow(cfg: Config, tx: Tx, sent: nat)
    requires Valid(cfg) && sent <= NumChunks(cfg)
  {
    var (tx', cs) := TxLoop(cfg, tx);
    var hi := Min(sent + tx.winSize, NumChunks(cfg));
    if AllLoopback(cfg.rxAddrs) && sent < hi then tx'.crashed && cs == []
    else
      && cs == Plan(cfg)[sent..hi] && TxInv(cfg, tx', hi)
      && (tx'.aborted <==> !HasTail(cfg) && sent + tx.winSize > NumChunks(cfg))
      && (!tx'.aborted ==> tx'.next == Done && tx'.winSize == 0)
  }

  /** From any reachable point, the sender's loop does that. */
  lemma {:induction false} LoopSends(cfg: Config, tx: Tx, sent: nat)
    requires Valid(cfg) && TxInv(cfg, tx, sent) && tx.next == Closed && !tx.aborted
    requires tx.fin ==> tx.winSize == 0
    ensures SendsWindow(cfg, tx, sent)
    decreases tx.winSize
  {
    hide TxSubmit, Off, AllLoopback, Learned, EncodeList;
    if tx.winSize > 0 {
      SubmitChunk(cfg, tx, sent);
      if sent < NumChunks(cfg) && !AllLoopback(cfg.rxAddrs) {
        SentNext(cfg, tx, sent);
      }
    }
  }

  lemma {:induction false} SentNext(cfg: Config, tx: Tx, sent: nat)
    requires Valid(cfg) && TxInv(cfg, tx, sent) && tx.next == Closed && !tx.aborted && !tx.fin
    requires tx.winSize > 0 && sent < NumChunks(cfg) && !AllLoopback(cfg.rxAddrs)
    ensures SendsWindow(cfg, tx, sent)
    decreases tx.winSize, 0
  {
    hide TxSubmit, Plan, Off, NumChunks, HasTail, AllLoopback, Learned, EncodeList;
    SubmitChunk(cfg, tx, sent);
    var r := TxSubmit(cfg, tx);
    LoopSends(cfg, r.now, sent + 1);
    PlanAt(cfg, sent);
    var hi := Min(sent + tx.winSize, NumChunks(cfg));
    FinAtEnd(cfg, r.now, sent + 1);
    assert [Plan(cfg)[sent]] + Plan(cfg)[sent + 1..hi] == Plan(cfg)[sent..hi];
  }

  lemma FinAtEnd(cfg: Config, tx: Tx, sent: nat)
    requires Valid(cfg) && TxInv(cfg, tx, sent) && !tx.aborted
    ensures tx.fin <==> HasTail(cfg) && sent == NumChunks(cfg)
  {
  }

  /** The receiver's loop keeps the window's invariant, whatever order the capsules come in. */
  lemma {:induction false} LoopCollects(cfg: Config, rx: Rx, lo: nat, hi: nat, arrivals: seq<Capsule>)
    requires Valid(cfg) && RxInv(cfg, rx, lo, hi, multiset(arrivals)) && rx.next == Closed
    ensures var (rx', used) := RxLoop(rx, arrivals);
      && RxInv(cfg, rx', lo, hi, multiset(arrivals[used..]))
      && (rx'.next == Done || (used == |arrivals| && rx'.next == Closed && rx'.winSize > 0))
    decreases |arrivals|
  {
    hide RxInv, RxReceive;
    if rx.winSize == 0 {
      assert arrivals[0..] == arrivals;
      LeaveInv(cfg, rx, lo, hi, multiset(arrivals));
    } else if arrivals == [] {
      assert arrivals[0..] == arrivals;
    } else {
      var c, rest := arrivals[0], arrivals[1..];
      assert arrivals == [c] + rest;
      assert multiset(arrivals) - multiset{c} == multiset(rest);
      ReceiveChunk(cfg, rx, lo, hi, multiset(arrivals), c);
      LoopCollects(cfg, RxReceive(rx, c), lo, hi, rest);
      var used := RxLoop(RxReceive(rx, c), rest).1;
      assert arrivals[used + 1..] == rest[used..];
    }
  }

  lemma LeaveInv(cfg: Config, rx: Rx, lo: nat, hi: nat, toRx: multiset<Capsule>)
    requires Valid(cfg) && RxInv(cfg, rx, lo, hi, toRx) && rx.next == Closed && rx.winSize == 0
    ensures RxInv(cfg, RxLeave(rx), lo, hi, toRx)
  {
    hide Split, Off, NumChunks, HasTail, Plan;
  }

  /** The capsules of a window in any order, the FIN capsule, if there is one, last. */
  predicate AnyOrder(sent: seq<Capsule>, arrivals: seq<Capsule>) {
    && multiset(arrivals) == multiset(sent)
    && forall i :: 0 <= i < |arrivals| && IsFin(arrivals[i].header) ==> i == |arrivals| - 1
  }

  lemma {:induction false} SplitFresh(plan: seq<Capsule>, tail: bool, lo: nat, hi: nat)
    requires Numbered(plan, tail) && lo <= hi <= |plan|
    ensures Split(plan, lo, hi, map[], multiset(plan[lo..hi]))
    decreases hi
  {
    hide Split, Numbered;
    if lo == hi {
      SplitEmpty(plan, lo);
      assert plan[lo..hi] == [];
    } else {
      SplitFresh(plan, tail, lo, hi - 1);
      SplitSend(plan, tail, lo, hi - 1, map[], multiset(plan[lo..hi - 1]));
      assert plan[lo..hi] == plan[lo..hi - 1] + [plan[hi - 1]];
    }
  }

  lemma SentToFresh(cfg: Config, rx: Rx, lo: nat, hi: nat)
    requires Valid(cfg) && RxInv(cfg, rx, lo, lo, multiset{}) && rx.window == map[] && lo <= hi <= NumChunks(cfg)
    ensures RxInv(cfg, rx, lo, hi, multiset(Plan(cfg)[lo..hi]))
  {
    hide Split, Plan, Off, NumChunks, HasTail;
    PlanNumbered(cfg);
    SplitFresh(Plan(cfg), HasTail(cfg), lo, hi);
  }

  lemma LastStays(arrivals: seq<Capsule>, used: nat)
    requires used <= |arrivals|
    ensures used < |arrivals| ==> arrivals[|arrivals| - 1] in multiset(arrivals[used..])
  {
    if used < |arrivals| {
      assert arrivals[used..][|arrivals| - 1 - used] == arrivals[|arrivals| - 1];
    }
  }

  /** The last chunk of a file with a tail, once filed, is not among the capsules still to come. */
  lemma FinNotLeft(cfg: Config, rx: Rx, lo: nat, hi: nat, arrivals: seq<Capsule>, used: nat)
    requires Valid(cfg) && used <= |arrivals| && lo <= hi <= NumChunks(cfg)
    requires AnyOrder(Plan(cfg)[lo..hi], arrivals)
    requires RxInv(cfg, rx, lo, hi, multiset(arrivals[used..])) && rx.fin
    ensures used == |arrivals|
  {
    var plan, n := Plan(cfg), NumChunks(cfg);
    PlanNumbered(cfg);
    hide Plan, Off, NumChunks, HasTail;
    FiledSent(plan, lo, hi, rx.window, multiset(arrivals[used..]));
    var c := plan[n - 1];
    assert plan[lo..hi][n - 1 - lo] == c;
    assert c in multiset(plan[lo..hi]);
    assert c in arrivals;
    var i :| 0 <= i < |arrivals| && arrivals[i] == c;
    assert multiset(arrivals[used..])[plan[n - 1]] == if n - 1 + 1 in rx.window then 0 else 1;
    LastStays(arrivals, used);
  }

  /**
    Reordering is absorbed: the receiver takes a window's capsules in any order that leaves FIN last,
    every one of them, and if they fill the window or end the file, its flush extends the sink by exactly
    their stretch of the file.
   */
  lemma ReorderingAbsorbed(cfg: Config, rx: Rx, lo: nat, hi: nat, arrivals: seq<Capsule>)
    requires Valid(cfg) && RxInv(cfg, rx, lo, lo, multiset{}) && rx.window == map[] && rx.next == Closed
    requires lo <= hi <= NumChunks(cfg) && hi <= lo + cfg.window
    requires AnyOrder(Plan(cfg)[lo..hi], arrivals)
    ensures var (rx', used) := RxLoop(rx, arrivals);
      && used == |arrivals|
      && ((hi == lo + cfg.window || (lo < hi && HasTail(cfg) && hi == NumChunks(cfg))) ==>
          rx'.next == Done && RxDone(cfg, rx').now.sink == cfg.source[..Off(cfg, hi)])
  {
    hide RxInv, AnyOrder, Plan, Off, NumChunks, HasTail, RxDone, RxLoop;
    SentToFresh(cfg, rx, lo, hi);
    SameMultiset(Plan(cfg)[lo..hi], arrivals);
    LoopCollects(cfg, rx, lo, hi, arrivals);
    var (rx', used) := RxLoop(rx, arrivals);
    TakesAll(cfg, rx', lo, hi, arrivals, used);
    assert arrivals[|arrivals|..] == [];
    if hi == lo + cfg.window || (lo < hi && HasTail(cfg) && hi == NumChunks(cfg)) {
      FullOrLast(cfg, rx', lo, hi);
      FlushesStretch(cfg, rx', lo, hi);
    }
  }

  lemma SameMultiset(sent: seq<Capsule>, arrivals: seq<Capsule>)
    requires AnyOrder(sent, arrivals)
    ensures multiset(arrivals) == multiset(sent)
  {
  }

  lemma TakesAll(cfg: Config, rx: Rx, lo: nat, hi: nat, arrivals: seq<Capsule>, used: nat)
    requires Valid(cfg) && lo <= hi <= NumChunks(cfg) && hi <= lo + cfg.window && used <= |arrivals|
    requires AnyOrder(Plan(cfg)[lo..hi], arrivals)
    requires RxInv(cfg, rx, lo, hi, multiset(arrivals[used..]))
    requires rx.next == Done || used == |arrivals|
    ensures used == |arrivals|
  {
    hide AnyOrder, Split, Plan, Off, NumChunks, HasTail;
    SplitSmall(Plan(cfg), lo, hi, rx.window, multiset(arrivals[used..]));
    assert |multiset(arrivals[used..])| == |arrivals| - used;
    if rx.fin {
      FinNotLeft(cfg, rx, lo, hi, arrivals, used);
    }
  }

  lemma FullOrLast(cfg: Config, rx: Rx, lo: nat, hi: nat)
    requires Valid(cfg) && RxInv(cfg, rx, lo, hi, multiset{})
    requires hi == lo + cfg.window || (lo < hi && HasTail(cfg) && hi == NumChunks(cfg))
    requires rx.next == Done || (rx.next == Closed && rx.winSize > 0)
    ensures rx.next == Done
  {
    hide Split, Plan, Off, NumChunks, HasTail;
    SplitSmall(Plan(cfg), lo, hi, rx.window, multiset{});
    if lo < hi && hi == NumChunks(cfg) {
      LastIsFiled(Plan(cfg), lo, rx.window);
    }
  }

  lemma FlushesStretch(cfg: Config, rx: Rx, lo: nat, hi: nat)
    requires Valid(cfg) && RxInv(cfg, rx, lo, hi, multiset{}) && rx.next == Done
    ensures RxDone(cfg, rx).now.sink == cfg.source[..Off(cfg, hi)]
  {
    hide Split, Plan, Off, NumChunks, HasTail, Flush, Counted;
    FlushWhole(cfg, lo, hi, rx.window);
  }

  /**
    One round of the two loops, with the acknowledgement: from both ends at chunk lo, in whatever order
    that leaves FIN last the window arrives, both ends are at the next window, or have both stopped, with
    the window's stretch of the file in the sink.
   */
  lemma RoundDelivers(cfg: Config, tx: Tx, rx: Rx, lo: nat, arrivals: seq<Capsule>)
    requires Valid(cfg) && HasTail(cfg)
    requires TxInv(cfg, tx, lo) && tx.next == Closed && !tx.aborted && !tx.fin && tx.winSize == cfg.window
    requires RxInv(cfg, rx, lo, lo, multiset{}) && rx.window == map[] && rx.next == Closed
    requires !AllLoopback(cfg.rxAddrs) && CanSend(rx.peers)
    requires AnyOrder(TxLoop(cfg, tx).1, arrivals)
    ensures var hi := Min(lo + cfg.window, NumChunks(cfg));
      var done := RxDone(cfg, RxLoop(rx, arrivals).0);
      && done.Sent?
      && var rx', tx' := done.now, TxDone(cfg, TxLoop(cfg, tx).0, done.capsule);
      && lo < hi && rx'.sink == cfg.source[..Off(cfg, hi)]
      && (hi < NumChunks(cfg) ==> tx'.next == rx'.next == Closed && tx'.winSize == rx'.winSize == cfg.window)
      && (hi == NumChunks(cfg) ==> tx'.next == rx'.next == Connected && rx'.sink == cfg.source)
  {
    hide TxInv, RxInv, AnyOrder, Plan, Off, NumChunks, HasTail, RxLoop, TxLoop, Flush, Counted, AllLoopback, CanSend;
    LoopKeepsPeers(rx, arrivals);
    var hi := Min(lo + cfg.window, NumChunks(cfg));
    LoopSends(cfg, tx, lo);
    NotAtEnd(cfg, tx, lo);
    ReorderingAbsorbed(cfg, rx, lo, hi, arrivals);
    OffEnds(cfg, hi);
    var tx1 := TxLoop(cfg, tx).0;
    FinAtEnd(cfg, tx1, hi);
    SentToFresh(cfg, rx, lo, hi);
    SameMultiset(Plan(cfg)[lo..hi], arrivals);
    LoopCollects(cfg, rx, lo, hi, arrivals);
    assert arrivals[|arrivals|..] == [];
    FinWithLast(cfg, RxLoop(rx, arrivals).0, lo, hi);
    assert cfg.source[..|cfg.source|] == cfg.source;
  }

  lemma {:induction false} LoopKeepsPeers(rx: Rx, arrivals: seq<Capsule>)
    ensures RxLoop(rx, arrivals).0.peers == rx.peers
    decreases |arrivals|
  {
    if rx.winSize > 0 && arrivals != [] {
      LoopKeepsPeers(RxReceive(rx, arrivals[0]), arrivals[1..]);
    }
  }

  lemma NotAtEnd(cfg: Config, tx: Tx, lo: nat)
    requires Valid(cfg) && HasTail(cfg) && TxInv(cfg, tx, lo) && !tx.aborted && !tx.fin
    ensures lo < NumChunks(cfg)
  {
  }

  lemma FinWithLast(cfg: Config, rx: Rx, lo: nat, hi: nat)
    requires Valid(cfg) && HasTail(cfg) && lo < hi && RxInv(cfg, rx, lo, hi, multiset{})
    ensures rx.fin <==> hi == NumChunks(cfg)
  {
    hide Off;
    if hi == NumChunks(cfg) {
      LastIsFiled(Plan(cfg), lo, rx.window);
    }
  }
}
