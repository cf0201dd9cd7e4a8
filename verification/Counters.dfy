/**
  The peers' counters over whole runs, against the widths of the fields that hold them: the bytes read and
  written, the capsule ids, and the rotation over the learned addresses.
 */
module Counters {
  import opened Capsules
  import opened Addresses
  import opened Chunks
  import opened Gateway
  import opened Session
  import opened Windows
  import opened Protocol
  import opened Delivery
  import opened Orders
  import opened Wrappers

  // ----- the sender -----

  /** The read position and the rotation counter are those after the chunks submitted. */
  predicate SentSoFar(cfg: Config, tx: Tx) {
    tx.capsuleId >= 1 && tx.curSize == Off(cfg, tx.capsuleId - 1) && tx.sends == tx.capsuleId - 1
  }

  /**
    On every run the sender has read no more than the file, numbered no more than one capsule for each chunk
    and one before them, and once it sends chunks each counter is a function of the chunks submitted.
   */
  lemma SenderCounters(cfg: Config, steps: seq<Step>)
    requires Valid(cfg) && Run(cfg, steps)
    ensures var tx := After(cfg, steps).tx;
      && tx.curSize <= |cfg.source| && tx.capsuleId <= NumChunks(cfg) + 1 <= 0xFFFF + 1
      && tx.sends <= NumChunks(cfg)
      && (tx.peers.Some? ==> SentSoFar(cfg, tx))
  {
    hide After, Run, Inv, NumChunks, SentSoFar;
    RunInv(cfg, steps);
    SenderCounts(cfg, After(cfg, steps));
  }

  lemma SenderCounts(cfg: Config, s: System)
    requires Valid(cfg) && Inv(cfg, s)
    ensures s.tx.curSize <= |cfg.source| && s.tx.capsuleId <= NumChunks(cfg) + 1 && s.tx.sends <= NumChunks(cfg)
    ensures s.tx.peers.Some? ==> SentSoFar(cfg, s.tx)
  {
    hide RxInv, RxEnd, KeepsOks, AllLoopback, Learned, EncodeList, NumChunks, HasTail, Off, TxWindow;
  }

  /**
    The program's own sizes, on every run: the sender's byte counter stays in an int; the capsules that either
    end has numbered have all got different ids of 16 bits; and neither end's rotation counter leaves an int.
   */
  lemma NumbersFit(cfg: Config, steps: seq<Step>)
    requires Program(cfg) && Run(cfg, steps)
    ensures var tx, rx := After(cfg, steps).tx, After(cfg, steps).rx;
      && tx.curSize <= INT_MAX && tx.capsuleId <= 43705 < 0x1_0000 && tx.sends <= 43704 < INT_MAX
      && rx.capsuleId <= 43706 < 0x1_0000 && rx.sends <= 43705 < INT_MAX
  {
    hide After, Run, NumChunks;
    ProgramFits(cfg);
    SenderCounters(cfg, steps);
    ReceiverNumbers(cfg, steps);
  }

  /**
    Rotation over a transfer: in every system a run reaches, each of the n addresses the sender has learned
    has been chosen for floor(k/n) or ceil(k/n) of its k chunks.
   */
  lemma ChunksRotate(cfg: Config, steps: seq<Step>, a: nat)
    requires Valid(cfg) && Run(cfg, steps)
    requires var tx := After(cfg, steps).tx; tx.peers.Some? && a < |tx.peers.value|
    ensures var tx := After(cfg, steps).tx;
      var n, k := |tx.peers.value|, tx.capsuleId - 1;
      0 <= k && k / n <= Uses(Picks(0, k, n), a) <= (k + n - 1) / n && tx.sends == k
  {
    hide After, Run;
    SenderCounters(cfg, steps);
    var tx := After(cfg, steps).tx;
    RotationFair(0, tx.sends, |tx.peers.value|, a);
  }

  // ----- the receiver -----

  /** On every run the receiver has numbered no more than two capsules and an acknowledgement for each chunk. */
  lemma ReceiverNumbers(cfg: Config, steps: seq<Step>)
    requires Valid(cfg) && Run(cfg, steps)
    ensures var rx := After(cfg, steps).rx;
      rx.capsuleId <= NumChunks(cfg) + 2 && rx.sends <= NumChunks(cfg) + 1
  {
    hide After, Run, Inv, NumChunks;
    RunInv(cfg, steps);
    NumberedRounds(cfg, After(cfg, steps));
  }

  lemma NumberedRounds(cfg: Config, s: System)
    requires Valid(cfg) && Inv(cfg, s)
    ensures s.rx.capsuleId <= NumChunks(cfg) + 2 && s.rx.sends <= NumChunks(cfg) + 1
  {
    hide NumChunks, RxFinished, Ended, Collecting, Acknowledged;
    SendsCounted(cfg, s);
    if Ended(cfg, s, (Rounds(s) - 1) * cfg.window) {
      EndSpan(cfg, s, (Rounds(s) - 1) * cfg.window);
      Product(Rounds(s) - 1, cfg.window);
    } else {
      NotEnded(cfg, s);
      FlushedBelow(cfg, s);
      Product(Flushed(s), cfg.window);
    }
  }

  lemma NotEnded(cfg: Config, s: System)
    requires Valid(cfg) && Inv(cfg, s) && !Ended(cfg, s, (Rounds(s) - 1) * cfg.window)
    ensures !RxFinished(s)
  {
    hide Ended, RxFinished;
    if RxFinished(s) {
      OnlyEnded(cfg, s);
    }
  }

  lemma SendsCounted(cfg: Config, s: System)
    requires Valid(cfg) && Inv(cfg, s)
    ensures s.rx.capsuleId >= 2 ==> s.rx.sends == s.rx.capsuleId - 1
    ensures s.rx.capsuleId < 2 ==> s.rx.sends == 0
    ensures Ended(cfg, s, (Rounds(s) - 1) * cfg.window) ==> s.rx.capsuleId >= 3
  {
    hide RxInv, RxEnd, TxInv, KeepsOks, AllLoopback, Learned, EncodeList, NumChunks, HasTail, Off, TxWindow;
  }

  lemma Product(r: int, w: nat)
    requires w > 0
    ensures r >= 0 ==> r <= r * w
  {
    if r >= 0 {
      assert r * w == r + r * (w - 1);
    }
  }

  /** The receiver's byte counter with all written that it is going to write: each chunk's payload and a header. */
  function FinalCount(cfg: Config): nat
    requires Valid(cfg)
  {
    if HasTail(cfg) then |cfg.source| + HEADER_SPACE * NumChunks(cfg)
    else Off(cfg, WholeWindows(cfg)) + HEADER_SPACE * WholeWindows(cfg)
  }

  /** What the receiver has counted with the first k chunks written. */
  function CountTo(cfg: Config, k: nat): nat {
    Off(cfg, k) + HEADER_SPACE * k
  }

  lemma CountBelow(cfg: Config, r: nat)
    requires Valid(cfg) && r * cfg.window <= NumChunks(cfg)
    ensures CountTo(cfg, r * cfg.window) <= FinalCount(cfg)
  {
    hide NumChunks, HasTail, Off;
    if !HasTail(cfg) {
      AtLeast(r, NumChunks(cfg), cfg.window);
      assert NumChunks(cfg) == NumChunks(cfg) / cfg.window * cfg.window + NumChunks(cfg) % cfg.window;
      Times(r, NumChunks(cfg) / cfg.window, cfg.window);
      OffMonotone(cfg, r * cfg.window, WholeWindows(cfg));
    }
  }

  /**
    On every run the receiver's counter is at most FinalCount. It gets there exactly when the receiver has
    stopped having taken FIN last, or, in a file without a tail, when the sender has exited and the run is over.
   */
  lemma ReceiverCounter(cfg: Config, steps: seq<Step>)
    requires Valid(cfg) && Run(cfg, steps)
    ensures After(cfg, steps).rx.curSize <= FinalCount(cfg)
    ensures RxFinished(After(cfg, steps)) ==>
      (After(cfg, steps).rx.curSize == FinalCount(cfg) <==> FinLast(cfg, steps))
    ensures Over(cfg, steps) && After(cfg, steps).tx.aborted ==> After(cfg, steps).rx.curSize == FinalCount(cfg)
  {
    hide After, Run, Inv, FinLast, Over, NumChunks, Off, HasTail, AllLoopback, RxFinished, FinalCount, CanStep, Ended;
    var s := After(cfg, steps);
    RunInv(cfg, steps);
    if RxFinished(s) {
      OnlyEnded(cfg, s);
      EndCount(cfg, s, (Rounds(s) - 1) * cfg.window);
      FinLastIff(cfg, steps);
      EndSink(cfg, s, (Rounds(s) - 1) * cfg.window);
    } else {
      RunningCount(cfg, s);
    }
    if Over(cfg, steps) && s.tx.aborted {
      AbortsExactly(cfg, steps);
      ExitCount(cfg, s);
    }
  }

  lemma ExitCount(cfg: Config, s: System)
    requires Valid(cfg) && ExitState(cfg, s) && !HasTail(cfg)
    ensures s.rx.curSize == FinalCount(cfg)
  {
    hide NumChunks, HasTail, Off;
  }

  lemma EndCount(cfg: Config, s: System, lo: int)
    requires Valid(cfg) && Ended(cfg, s, lo)
    ensures s.rx.curSize <= FinalCount(cfg)
    ensures s.rx.curSize == FinalCount(cfg) <==> s.toRx == multiset{}
  {
    EndSink(cfg, s, lo);
    EndFin(cfg, s, lo);
    hide TxInv, NumChunks, HasTail, Off, Lost, KeepsOks, AllLoopback, Learned, EncodeList;
    assert s.toRx != multiset{} ==> |s.toRx| > 0;
  }

  lemma RunningCount(cfg: Config, s: System)
    requires Valid(cfg) && Inv(cfg, s) && !RxFinished(s)
    ensures s.rx.curSize <= FinalCount(cfg)
  {
    hide Inv, Off, NumChunks, HasTail, FinalCount, RxFinished;
    Unfinished(cfg, s);
    FlushedBelow(cfg, s);
    CountBelow(cfg, Flushed(s));
    OffUpTo(cfg, FlushedChunks(cfg, s));
  }

  lemma OffUpTo(cfg: Config, k: nat)
    ensures |cfg.source[..Off(cfg, k)]| == Off(cfg, k)
  {
  }

  lemma FlushedBelow(cfg: Config, s: System)
    requires Valid(cfg) && Inv(cfg, s) && !RxFinished(s)
    ensures Flushed(s) * cfg.window <= NumChunks(cfg)
  {
    hide Split, Ended, Off, NumChunks, HasTail, TxInv, Learned, EncodeList, AllLoopback, KeepsOks;
    if Shaking(cfg, s) || RxLost(cfg, s) || TxLost(cfg, s) {
      assert 0 * cfg.window == 0;
    } else if Ended(cfg, s, (Rounds(s) - 1) * cfg.window) {
      EndFin(cfg, s, (Rounds(s) - 1) * cfg.window);
    } else {
      assert (Rounds(s) - 1) * cfg.window + cfg.window == Rounds(s) * cfg.window;
    }
  }

  /** The largest file with a tail whose count fits an int; and the least number of full chunks whose count does not. */
  const MAX_WITH_TAIL := 2146871973
  const CHUNKS_TOO_MANY := 43695

  /** The file is small enough for the receiver's counter. */
  predicate CountFits(cfg: Config)
    requires Valid(cfg)
  {
    if HasTail(cfg) then |cfg.source| <= MAX_WITH_TAIL else NumChunks(cfg) < CHUNKS_TOO_MANY
  }

  lemma CountFitsIff(cfg: Config)
    requires Program(cfg)
    ensures FinalCount(cfg) <= INT_MAX <==> CountFits(cfg)
  {
    if !HasTail(cfg) {
      OffEnds(cfg, NumChunks(cfg));
      assert WholeWindows(cfg) * PAYLOAD <= |cfg.source|;
    }
  }

  /**
    The program's own sizes: the receiver's byte counter stays in an int on every run if and only if one
    end has no address to send to, in which case nothing is written, or the file is at most 2146871973 bytes
    long, or has no tail and fewer than 43695 chunks.
   */
  lemma ReceiverFits(cfg: Config)
    requires Program(cfg)
    ensures (forall steps :: Run(cfg, steps) ==> After(cfg, steps).rx.curSize <= INT_MAX) <==>
      !Addressable(cfg) || CountFits(cfg)
  {
    hide After, Run, FinalCount, CountFits, Over, FinLast, AllLoopback, NumChunks;
    CountFitsIff(cfg);
    forall steps | Run(cfg, steps)
      ensures After(cfg, steps).rx.curSize <= FinalCount(cfg)
      ensures !Addressable(cfg) ==> After(cfg, steps).rx.curSize == 0
    {
      ReceiverCounter(cfg, steps);
      if !Addressable(cfg) {
        NothingCounted(cfg, steps);
      }
    }
    if Addressable(cfg) {
      var steps := CountReached(cfg);
      assert Run(cfg, steps);
    }
  }

  /** Some run takes the counter to FinalCount. */
  lemma CountReached(cfg: Config) returns (steps: seq<Step>)
    requires Valid(cfg) && Addressable(cfg)
    ensures Run(cfg, steps) && After(cfg, steps).rx.curSize == FinalCount(cfg)
  {
    hide After, Run, FinalCount, Over, FinLast, AllLoopback, NumChunks, HasTail, RxFinished, TxFinished, Ended,
      ExitState;
    steps := SomeEnd(cfg);
    OverRuns(cfg, steps);
    ReceiverCounter(cfg, steps);
    CompletesExactly(cfg, steps);
    AbortsExactly(cfg, steps);
  }

  /** Without an address at one end nothing is written. */
  lemma NothingCounted(cfg: Config, steps: seq<Step>)
    requires Valid(cfg) && Run(cfg, steps) && !Addressable(cfg)
    ensures After(cfg, steps).rx.curSize == 0
  {
    hide After, Run, Inv, AllLoopback;
    RunInv(cfg, steps);
    CountsNothing(cfg, After(cfg, steps));
  }

  lemma CountsNothing(cfg: Config, s: System)
    requires Valid(cfg) && Inv(cfg, s) && !Addressable(cfg)
    ensures s.rx.curSize == 0
  {
    hide Collecting, Acknowledged, Ended, RxLost, TxLost, Shaking, AllLoopback;
    if Collecting(cfg, s, Rounds(s) * cfg.window) {
      CollectsNothing(cfg, s, Rounds(s) * cfg.window);
    } else if Acknowledged(cfg, s, (Rounds(s) - 1) * cfg.window) {
      AckAddressable(cfg, s, (Rounds(s) - 1) * cfg.window);
    } else if Ended(cfg, s, (Rounds(s) - 1) * cfg.window) {
      EndAddressable(cfg, s, (Rounds(s) - 1) * cfg.window);
    } else {
      EarlyNothing(cfg, s);
    }
  }

  lemma EarlyNothing(cfg: Config, s: System)
    requires Valid(cfg) && (Shaking(cfg, s) || RxLost(cfg, s) || TxLost(cfg, s))
    ensures s.rx.curSize == 0
  {
    hide AllLoopback, Learned, EncodeList, NumChunks, Off, KeepsOks;
  }

  lemma CollectsNothing(cfg: Config, s: System, lo: int)
    requires Valid(cfg) && Collecting(cfg, s, lo) && !Addressable(cfg) && lo == Rounds(s) * cfg.window
    ensures s.rx.curSize == 0
  {
    NoneSubmitted(cfg, s, lo);
    NothingYet(cfg, s, lo);
    hide Collecting, AllLoopback;
  }

  lemma NoneSubmitted(cfg: Config, s: System, lo: int)
    requires Valid(cfg) && Collecting(cfg, s, lo) && !Addressable(cfg)
    ensures Submits(s) == 0
  {
    hide RxInv, AllLoopback, Learned, EncodeList, NumChunks, Off, KeepsOks, HasTail;
  }

  lemma AckAddressable(cfg: Config, s: System, lo: int)
    requires Valid(cfg) && Acknowledged(cfg, s, lo)
    ensures Addressable(cfg)
  {
    hide RxInv, AllLoopback, Learned, EncodeList, NumChunks, Off, KeepsOks, HasTail;
  }

  lemma EndAddressable(cfg: Config, s: System, lo: int)
    requires Valid(cfg) && Ended(cfg, s, lo)
    ensures Addressable(cfg)
  {
    EndFin(cfg, s, lo);
    TailChunks(cfg);
    hide RxEnd, AllLoopback, Learned, EncodeList, NumChunks, Off, KeepsOks, HasTail;
  }
}
