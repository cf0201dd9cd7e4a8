/**
  What the protocol delivers, on every run: safety of the sink, lock-step of the windows, the exact
  length of a run, where runs stop, and exactly when the sink ends up equal to the source.
 */
module Delivery {
  import opened Capsules
  import opened Addresses
  import opened Chunks
  import opened Gateway
  import opened Session
  import opened Windows
  import opened Protocol
  import opened Wrappers

  // ----- progress -----

  /**
    Both ends have left their loops; or the sender has exited and the receiver waits for capsules that
    never come; or one end has found no address to send to, and the other waits for its capsule.
   */
  predicate Stopped(s: System) {
    || (TxFinished(s) && RxFinished(s))
    || (s.tx.aborted && s.toRx == multiset{} && !RxFinished(s))
    || (s.tx.crashed && s.toRx == multiset{} && !RxFinished(s))
    || (s.rx.crashed && s.toTx == multiset{} && !TxFinished(s))
  }

  /** No reachable system is stuck, unless it has stopped in one of these ways; they are final. */
  lemma Progress(cfg: Config, steps: seq<Step>)
    requires Valid(cfg) && Run(cfg, steps)
    ensures CanStep(After(cfg, steps)) <==> !Stopped(After(cfg, steps))
  {
    hide Take, Enabled, CanStep, Stopped, Collecting, Acknowledged, Ended, RxLost, TxLost;
    RunInv(cfg, steps);
    var s := After(cfg, steps);
    if RxLost(cfg, s) || TxLost(cfg, s) {
      LostStopped(cfg, s);
    } else if Shaking(cfg, s) {
      ShakeProgress(cfg, s);
    } else if Collecting(cfg, s, Rounds(s) * cfg.window) {
      CollectProgress(cfg, s, Rounds(s) * cfg.window);
    } else if Acknowledged(cfg, s, (Rounds(s) - 1) * cfg.window) {
      AckProgress(cfg, s, (Rounds(s) - 1) * cfg.window);
    } else {
      EndProgress(cfg, s, (Rounds(s) - 1) * cfg.window);
    }
  }

  lemma LostStopped(cfg: Config, s: System)
    requires Valid(cfg) && (RxLost(cfg, s) || TxLost(cfg, s))
    ensures !CanStep(s) && Stopped(s)
  {
    LostQuiet(cfg, s);
    hide CanStep, Learned, EncodeList, AllLoopback, KeepsOks, NumChunks, Off;
  }

  lemma ShakeProgress(cfg: Config, s: System)
    requires Valid(cfg) && Shaking(cfg, s)
    ensures CanStep(s) && !Stopped(s)
  {
    var p :| Handshake(cfg, s, p);
    var step := match p
      case Start => RxOpens
      case HelloSent => TxOpens(Hello())
      case HelloTaken => TxSetsUp
      case HiSent => RxSetsUp(Hi(cfg))
      case HiTaken => RxConnects
      case AckSent => TxConnects(Ack(cfg));
    assert Enabled(s, step);
  }

  lemma CollectProgress(cfg: Config, s: System, lo: int)
    requires Valid(cfg) && Collecting(cfg, s, lo)
    ensures CanStep(s) <==> !Stopped(s)
  {
    hide Split, Off, HasTail, NumChunks, Plan;
    SplitSmall(Plan(cfg), lo, Submits(s), s.rx.window, s.toRx);
    if s.tx.next == Closed && !s.tx.aborted {
      assert Enabled(s, if s.tx.winSize > 0 then TxSubmits else TxLeaves);
    } else if s.rx.next == Done {
      assert Enabled(s, RxFinishes);
      AtDone(cfg, s, lo);
      if s.tx.aborted {
        AbortedPartial(cfg, s, lo);
      }
    } else if s.rx.winSize == 0 {
      assert Enabled(s, RxLeaves);
      if s.tx.aborted {
        AbortedPartial(cfg, s, lo);
      }
    } else if s.toRx != multiset{} {
      var c :| c in s.toRx;
      assert Enabled(s, RxReceives(c));
    } else {
      Starved(cfg, s, lo);
      Quiet(cfg, s, lo);
    }
  }

  /** After the sender's exit the window stays short of full and without FIN. */
  lemma AbortedPartial(cfg: Config, s: System, lo: int)
    requires Valid(cfg) && Collecting(cfg, s, lo) && s.tx.aborted
    ensures s.rx.next == Closed && s.rx.winSize > 0 && !HasTail(cfg)
  {
    hide Split, Off, NumChunks, Plan;
    SplitSmall(Plan(cfg), lo, Submits(s), s.rx.window, s.toRx);
  }

  /** The receiver waits with nothing under way only after the sender's exit. */
  lemma Starved(cfg: Config, s: System, lo: int)
    requires Valid(cfg) && Collecting(cfg, s, lo)
    requires s.rx.next == Closed && s.rx.winSize > 0 && s.toRx == multiset{}
    requires s.tx.next == Done || s.tx.aborted
    ensures s.tx.aborted
  {
    hide Split, Off, Plan;
    SplitSmall(Plan(cfg), lo, Submits(s), s.rx.window, s.toRx);
    if s.tx.next == Done && s.tx.fin {
      LastIsFiled(Plan(cfg), lo, s.rx.window);
    }
  }

  lemma Quiet(cfg: Config, s: System, lo: int)
    requires Valid(cfg) && Collecting(cfg, s, lo) && s.tx.aborted
    requires s.rx.next == Closed && s.rx.winSize > 0 && s.toRx == multiset{}
    ensures !CanStep(s)
  {
    hide RxInv, TxInv;
    forall step
      ensures !Enabled(s, step)
    {
    }
  }

  lemma AckProgress(cfg: Config, s: System, lo: int)
    requires Valid(cfg) && Acknowledged(cfg, s, lo)
    ensures CanStep(s) && !Stopped(s)
  {
    AckFound(cfg, s, lo);
    hide RxInv, TxInv, KeepsOks, AllLoopback, Learned, EncodeList, SenderLost;
    assert Enabled(s, if s.tx.next == Closed then TxLeaves else TxFinishes(Ok(cfg, s.rx.capsuleId - 1)));
  }

  lemma EndProgress(cfg: Config, s: System, lo: int)
    requires Valid(cfg) && Ended(cfg, s, lo)
    ensures CanStep(s) <==> !Stopped(s)
  {
    EndFin(cfg, s, lo);
    hide RxEnd, TxInv, NumChunks, HasTail;
    if s.tx.next == Connected {
      forall step
        ensures !Enabled(s, step)
      {
      }
    } else {
      assert Enabled(s, if s.tx.next == Closed then TxLeaves else TxFinishes(Ok(cfg, s.rx.capsuleId - 1)));
    }
  }

  // ----- the length of a run -----

  /** The windows the two ends go through: all the chunks', or one more that the sender's exit cuts short. */
  function TotalRounds(cfg: Config): nat
    requires Valid(cfg)
  {
    if HasTail(cfg) then (NumChunks(cfg) + cfg.window - 1) / cfg.window else NumChunks(cfg) / cfg.window + 1
  }

  /** The sender has a chunk to send and no address to send it to. */
  predicate SenderLost(cfg: Config)
    requires Valid(cfg)
  {
    AllLoopback(cfg.rxAddrs) && NumChunks(cfg) > 0
  }

  /** The length of a run in which nothing is left under way. */
  function FullLength(cfg: Config): int
    requires Valid(cfg)
  {
    if AllLoopback(cfg.txAddrs) then 5 else if SenderLost(cfg) then 7 else WholeLength(cfg)
  }

  /** That length when both ends have an address to send to, or the sender nothing to send. */
  function WholeLength(cfg: Config): int
    requires Valid(cfg)
  {
    6 + 2 * NumChunks(cfg) + 4 * TotalRounds(cfg) - if HasTail(cfg) then 0 else 3
  }

  function StepsLeftInHandshake(s: System): int {
    if s.rx.next == Open then 6
    else if s.toTx != multiset{} then (if s.tx.next == Open then 5 else 1)
    else if s.tx.next == Setup then 4
    else if s.toRx != multiset{} then 3
    else 2
  }

  function TxPart(tx: Tx): int {
    if tx.next == Connected then 0 else if tx.aborted || tx.next == Done then 1 else 2
  }

  function RxPart(s: System): int {
    if s.toTx != multiset{} || s.rx.next == Connected then 0 else if s.rx.next == Done then -3 else -2
  }

  /**
    The steps a run still has to make: what is left of the handshake; a submission and a receipt
    for each chunk not yet sent, a receipt for each one under way; and four steps for each window.
   */
  function StepsLeft(cfg: Config, s: System): int
    requires Valid(cfg)
  {
    if s.tx.crashed || s.rx.crashed then 0
    else if s.tx.next == Open || s.tx.next == Setup || (s.tx.next == Connected && !s.tx.complete)
    then FullLength(cfg) - 6 + StepsLeftInHandshake(s)
    else if SenderLost(cfg) then 1
    else DataLeft(cfg, s)
  }

  function DataLeft(cfg: Config, s: System): int
    requires Valid(cfg)
  {
    2 * (NumChunks(cfg) - Submits(s)) + |s.toRx| + 4 * (TotalRounds(cfg) - Rounds(s))
    - (if HasTail(cfg) then 0 else 3) + TxPart(s.tx) + RxPart(s)
  }

  lemma CollectData(cfg: Config, s: System, lo: int)
    requires Valid(cfg) && Collecting(cfg, s, lo) && !SenderLost(cfg)
    ensures StepsLeft(cfg, s) == DataLeft(cfg, s)
  {
    CollectSigns(cfg, s, lo);
    hide RxInv, TxInv, DataLeft, SenderLost, FullLength, KeepsOks, AllLoopback, Learned, EncodeList;
  }

  lemma AckData(cfg: Config, s: System, lo: int)
    requires Valid(cfg) && Acknowledged(cfg, s, lo)
    ensures StepsLeft(cfg, s) == DataLeft(cfg, s)
  {
    AckFound(cfg, s, lo);
    hide RxInv, TxInv, DataLeft, SenderLost, FullLength, KeepsOks, AllLoopback, Learned, EncodeList;
  }

  lemma EndData(cfg: Config, s: System, lo: int)
    requires Valid(cfg) && Ended(cfg, s, lo)
    ensures StepsLeft(cfg, s) == DataLeft(cfg, s)
  {
    EndFound(cfg, s, lo);
    hide RxEnd, TxInv, DataLeft, SenderLost, FullLength, KeepsOks, AllLoopback, Learned, EncodeList;
  }

  /** Every step makes exactly one of the steps left. */
  lemma StepCounts(cfg: Config, s: System, step: Step)
    requires Valid(cfg) && Inv(cfg, s) && Enabled(s, step)
    ensures StepsLeft(cfg, Take(cfg, s, step)) == StepsLeft(cfg, s) - 1
  {
    hide Collecting, Acknowledged, Ended, Shaking, RxLost, TxLost, SenderLost, Take, Enabled, StepsLeft;
    if RxLost(cfg, s) || TxLost(cfg, s) {
      LostQuiet(cfg, s);
    } else if Shaking(cfg, s) {
      ShakeCounts(cfg, s, step);
    } else if Collecting(cfg, s, Rounds(s) * cfg.window) {
      if SenderLost(cfg) {
        LostCounts(cfg, s, Rounds(s) * cfg.window, step);
      } else {
        CollectCounts(cfg, s, Rounds(s) * cfg.window, step);
      }
    } else if Acknowledged(cfg, s, (Rounds(s) - 1) * cfg.window) {
      AckCounts(cfg, s, (Rounds(s) - 1) * cfg.window, step);
    } else {
      EndCounts(cfg, s, (Rounds(s) - 1) * cfg.window, step);
    }
  }

  lemma ShakeCounts(cfg: Config, s: System, step: Step)
    requires Valid(cfg) && Shaking(cfg, s) && Enabled(s, step)
    ensures StepsLeft(cfg, Take(cfg, s, step)) == StepsLeft(cfg, s) - 1
  {
    hide Take, Enabled, FullLength, StepsLeft, Handshake, Begun, RxLost;
    var p :| Handshake(cfg, s, p);
    ShakeStep(cfg, s, p, step);
    ShakeLeft(cfg, s, p);
    if p.AckSent? {
      BegunLeft(cfg, Take(cfg, s, step));
    } else if p.HiTaken? && AllLoopback(cfg.txAddrs) {
      LostLeft(cfg, Take(cfg, s, step));
    } else {
      ShakeLeft(cfg, Take(cfg, s, step), NextPhase(p));
    }
  }

  /** Steps left in the handshake, by phase. */
  function ShakeSteps(p: Phase): int {
    match p
    case Start => 6
    case HelloSent => 5
    case HelloTaken => 4
    case HiSent => 3
    case HiTaken => 2
    case AckSent => 1
  }

  lemma ShakeLeft(cfg: Config, s: System, p: Phase)
    requires Valid(cfg) && Handshake(cfg, s, p)
    ensures StepsLeft(cfg, s) == FullLength(cfg) - 6 + ShakeSteps(p)
  {
    hide FullLength, NumChunks, TotalRounds, HasTail, Learned, EncodeList;
  }

  lemma BegunLeft(cfg: Config, s: System)
    requires Valid(cfg) && Begun(cfg, s)
    ensures StepsLeft(cfg, s) == FullLength(cfg) - 6
  {
    hide NumChunks, TotalRounds, HasTail, Learned, EncodeList, AllLoopback;
  }

  lemma LostLeft(cfg: Config, s: System)
    requires Valid(cfg) && RxLost(cfg, s)
    ensures StepsLeft(cfg, s) == 0 && FullLength(cfg) == 5
  {
    hide NumChunks, TotalRounds, HasTail, Learned, EncodeList, AllLoopback;
  }

  /** Without an address to send to, the sender's first submission is the only step, and the last. */
  lemma LostCounts(cfg: Config, s: System, lo: int, step: Step)
    requires Valid(cfg) && Collecting(cfg, s, lo) && lo == Rounds(s) * cfg.window
    requires SenderLost(cfg) && Enabled(s, step)
    ensures step == TxSubmits && TxLost(cfg, Take(cfg, s, step))
    ensures StepsLeft(cfg, s) == 1 && StepsLeft(cfg, Take(cfg, s, step)) == 0
  {
    LostTurn(cfg, s, lo, step);
    hide Collecting, TakeSubmit, FullLength, NumChunks, TotalRounds, HasTail;
    CollectSubmits(cfg, s, lo);
    LostSteps(cfg, s, lo);
  }

  lemma LostTurn(cfg: Config, s: System, lo: int, step: Step)
    requires Valid(cfg) && Collecting(cfg, s, lo) && lo == Rounds(s) * cfg.window
    requires SenderLost(cfg) && Enabled(s, step)
    ensures step == TxSubmits && Doomed(cfg, s)
  {
    CollectEnables(cfg, s, lo, step);
    NothingSent(cfg, s, lo);
    NothingYet(cfg, s, lo);
    hide RxInv, KeepsOks, NumChunks, HasTail, Off, AllLoopback, Learned, EncodeList;
  }

  lemma NothingSent(cfg: Config, s: System, lo: int)
    requires Valid(cfg) && Collecting(cfg, s, lo) && SenderLost(cfg)
    ensures Submits(s) == 0
  {
    hide RxInv, NumChunks, HasTail, Off, AllLoopback, Learned, EncodeList, KeepsOks;
  }

  lemma LostSteps(cfg: Config, s: System, lo: int)
    requires Valid(cfg) && Collecting(cfg, s, lo) && SenderLost(cfg)
    ensures StepsLeft(cfg, s) == 1
  {
    hide RxInv, NumChunks, HasTail, Off, AllLoopback, Learned, EncodeList, KeepsOks, FullLength, TotalRounds;
  }

  /** Once a chunk has been sent, the sender has an address to send to. */
  lemma SentFound(cfg: Config, tx: Tx, sent: int)
    requires Valid(cfg) && TxInv(cfg, tx, sent) && sent > 0
    ensures !SenderLost(cfg)
  {
    hide NumChunks, HasTail, Off, AllLoopback, Learned, EncodeList;
  }

  lemma CollectCounts(cfg: Config, s: System, lo: int, step: Step)
    requires Valid(cfg) && Collecting(cfg, s, lo) && Enabled(s, step) && !SenderLost(cfg)
    ensures StepsLeft(cfg, Take(cfg, s, step)) == StepsLeft(cfg, s) - 1
  {
    hide Collecting, Enabled, SenderLost, FullLength, TotalRounds, NumChunks, HasTail, RxInv, TxInv, TakeSubmit,
      TakeReceive, TakeFinish, StepsLeft;
    CollectEnables(cfg, s, lo, step);
    match step
    case TxSubmits => SubmitCounts(cfg, s, lo);
    case RxReceives(c) => ReceiveCounts(cfg, s, lo, c);
    case RxFinishes => FinishCounts(cfg, s, lo);
    case _ => LeaveCounts(cfg, s, lo, step);
  }

  lemma SubmitCounts(cfg: Config, s: System, lo: int)
    requires Valid(cfg) && Collecting(cfg, s, lo) && Enabled(s, TxSubmits) && !SenderLost(cfg)
    ensures StepsLeft(cfg, TakeSubmit(cfg, s)) == StepsLeft(cfg, s) - 1
  {
    CollectData(cfg, s, lo);
    SubmitGoesOn(cfg, s, lo);
    CollectData(cfg, TakeSubmit(cfg, s), lo);
    SubmitData(cfg, s, lo);
  }

  lemma SubmitGoesOn(cfg: Config, s: System, lo: int)
    requires Valid(cfg) && Collecting(cfg, s, lo) && Enabled(s, TxSubmits) && !SenderLost(cfg)
    ensures Collecting(cfg, TakeSubmit(cfg, s), lo)
  {
    hide Collecting, TakeSubmit, NumChunks;
    NotDoomed(cfg, s, lo);
    CollectSubmits(cfg, s, lo);
  }

  lemma NotDoomed(cfg: Config, s: System, lo: int)
    requires Valid(cfg) && Collecting(cfg, s, lo) && !SenderLost(cfg)
    ensures !Doomed(cfg, s)
  {
    hide RxInv, AllLoopback, NumChunks, Learned, EncodeList;
  }

  lemma SubmitData(cfg: Config, s: System, lo: int)
    requires Valid(cfg) && Collecting(cfg, s, lo) && Enabled(s, TxSubmits) && !SenderLost(cfg)
    ensures DataLeft(cfg, TakeSubmit(cfg, s)) == DataLeft(cfg, s) - 1
  {
    hide RxInv, TxSubmit, TotalRounds, NumChunks, Off, Chunk, Plan, Learned, EncodeList, AllLoopback, FullLength,
      KeepsOks;
    SubmitChunk(cfg, s.tx, Submits(s));
  }

  lemma ReceiveCounts(cfg: Config, s: System, lo: int, c: Capsule)
    requires Valid(cfg) && Collecting(cfg, s, lo) && Enabled(s, RxReceives(c)) && !SenderLost(cfg)
    ensures StepsLeft(cfg, TakeReceive(s, c)) == StepsLeft(cfg, s) - 1
  {
    hide StepsLeft, DataLeft, Collecting, TakeReceive, Enabled;
    CollectData(cfg, s, lo);
    CollectReceives(cfg, s, lo, c);
    CollectData(cfg, TakeReceive(s, c), lo);
    ReceiveKeeps(cfg, s, lo, c);
    ReceiveData(cfg, s, c);
  }

  /** A receipt changes neither the receiver's state nor its numbering. */
  lemma ReceiveKeeps(cfg: Config, s: System, lo: int, c: Capsule)
    requires Valid(cfg) && Collecting(cfg, s, lo) && Enabled(s, RxReceives(c))
    ensures RxReceive(s.rx, c).next == s.rx.next && RxReceive(s.rx, c).capsuleId == s.rx.capsuleId && c in s.toRx
  {
    hide RxInv, TxInv, NumChunks, RxConnection, RxReceive;
    ReceiveChunk(cfg, s.rx, lo, Submits(s), s.toRx, c);
  }

  lemma ReceiveData(cfg: Config, s: System, c: Capsule)
    requires Valid(cfg) && c in s.toRx
    requires RxReceive(s.rx, c).next == s.rx.next && RxReceive(s.rx, c).capsuleId == s.rx.capsuleId
    ensures DataLeft(cfg, TakeReceive(s, c)) == DataLeft(cfg, s) - 1
  {
    hide RxReceive, TotalRounds, NumChunks, HasTail;
  }

  lemma FinishCounts(cfg: Config, s: System, lo: int)
    requires Valid(cfg) && Collecting(cfg, s, lo) && Enabled(s, RxFinishes) && !SenderLost(cfg)
    ensures StepsLeft(cfg, TakeFinish(cfg, s)) == StepsLeft(cfg, s) - 1
  {
    CollectData(cfg, s, lo);
    FinishGoesOn(cfg, s, lo);
    FinishData(cfg, s, lo);
  }

  lemma FinishGoesOn(cfg: Config, s: System, lo: int)
    requires Valid(cfg) && Collecting(cfg, s, lo) && Enabled(s, RxFinishes)
    ensures StepsLeft(cfg, TakeFinish(cfg, s)) == DataLeft(cfg, TakeFinish(cfg, s))
  {
    hide Collecting, Acknowledged, Ended, TakeFinish, StepsLeft, DataLeft;
    CollectFinishes(cfg, s, lo);
    if s.rx.fin {
      EndData(cfg, TakeFinish(cfg, s), lo);
    } else {
      AckData(cfg, TakeFinish(cfg, s), lo);
    }
  }

  lemma FinishData(cfg: Config, s: System, lo: int)
    requires Valid(cfg) && Collecting(cfg, s, lo) && Enabled(s, RxFinishes)
    ensures DataLeft(cfg, TakeFinish(cfg, s)) == DataLeft(cfg, s) - 1
  {
    hide RxInv, TxInv, NumChunks, RxConnection, RxDone, DataLeft, TakeFinish, Enabled;
    RxCanSend(cfg, s.rx);
    DoneSends(cfg, s.rx);
    DoneData(cfg, s);
  }

  /** The receiver's state and numbering after it has acknowledged a window. */
  lemma DoneSends(cfg: Config, rx: Rx)
    requires Valid(cfg) && CanSend(rx.peers)
    ensures var r := RxDone(cfg, rx);
      r.Sent? && r.now.capsuleId == rx.capsuleId + 1 && r.now.next == if rx.fin then Connected else Closed
  {
    hide Flush, Counted, CanSend, Popped;
  }

  lemma DoneData(cfg: Config, s: System)
    requires Valid(cfg) && s.toTx == multiset{} && Enabled(s, RxFinishes)
    requires var r := RxDone(cfg, s.rx);
      r.Sent? && r.now.capsuleId == s.rx.capsuleId + 1 && (r.now.next == Connected || r.now.next == Closed)
    ensures DataLeft(cfg, TakeFinish(cfg, s)) == DataLeft(cfg, s) - 1
  {
    hide RxDone, TotalRounds, NumChunks, HasTail;
  }

  lemma LeaveCounts(cfg: Config, s: System, lo: int, step: Step)
    requires Valid(cfg) && Collecting(cfg, s, lo) && Enabled(s, step) && (step.TxLeaves? || step.RxLeaves?)
    requires !SenderLost(cfg)
    ensures StepsLeft(cfg, Take(cfg, s, step)) == StepsLeft(cfg, s) - 1
  {
    CollectData(cfg, s, lo);
    CollectLeaves(cfg, s, lo, step);
    CollectData(cfg, Take(cfg, s, step), lo);
    hide StepsLeft, DataLeft, RxInv, TxInv, NumChunks, RxConnection, SenderLost;
    LeaveData(cfg, s, step);
  }

  lemma LeaveData(cfg: Config, s: System, step: Step)
    requires Valid(cfg) && s.toTx == multiset{} && Enabled(s, step)
    requires (step.TxLeaves? && !s.tx.aborted) || step.RxLeaves?
    ensures DataLeft(cfg, Take(cfg, s, step)) == DataLeft(cfg, s) - 1
  {
    hide TotalRounds, NumChunks, HasTail;
  }

  lemma AckCounts(cfg: Config, s: System, lo: int, step: Step)
    requires Valid(cfg) && Acknowledged(cfg, s, lo) && Enabled(s, step)
    ensures StepsLeft(cfg, Take(cfg, s, step)) == StepsLeft(cfg, s) - 1
  {
    AckEnables(cfg, s, lo, step);
    AckFound(cfg, s, lo);
    hide RxInv, TxInv, TotalRounds, NumChunks, HasTail, SenderLost, FullLength, KeepsOks;
  }

  lemma AckFound(cfg: Config, s: System, lo: int)
    requires Valid(cfg) && Acknowledged(cfg, s, lo)
    ensures !SenderLost(cfg) && !s.tx.crashed
  {
    hide RxInv, NumChunks, HasTail, Off, AllLoopback, Learned, EncodeList, KeepsOks, SenderLost;
    SentFound(cfg, s.tx, Submits(s));
  }

  lemma EndFound(cfg: Config, s: System, lo: int)
    requires Valid(cfg) && Ended(cfg, s, lo)
    ensures !SenderLost(cfg) && !s.tx.crashed
  {
    hide RxEnd, Off, AllLoopback, Learned, EncodeList, KeepsOks, SenderLost;
    TailChunks(cfg);
    EndFin(cfg, s, lo);
    SentFound(cfg, s.tx, Submits(s));
  }

  lemma EndCounts(cfg: Config, s: System, lo: int, step: Step)
    requires Valid(cfg) && Ended(cfg, s, lo) && Enabled(s, step)
    ensures StepsLeft(cfg, Take(cfg, s, step)) == StepsLeft(cfg, s) - 1
  {
    EndEnables(cfg, s, lo, step);
    EndFin(cfg, s, lo);
    EndRx(cfg, s, lo);
    EndFound(cfg, s, lo);
    hide RxEnd, TxInv, TotalRounds, NumChunks, HasTail, SenderLost, FullLength, KeepsOks, AllLoopback, Learned,
      EncodeList,
      Ok;
  }

  lemma EndRx(cfg: Config, s: System, lo: int)
    requires Valid(cfg) && Ended(cfg, s, lo)
    ensures s.rx.next == Connected
  {
  }

  lemma {:induction false} StepsAddUp(cfg: Config, steps: seq<Step>)
    requires Valid(cfg) && Run(cfg, steps)
    ensures |steps| + StepsLeft(cfg, After(cfg, steps)) == FullLength(cfg)
  {
    if steps != [] {
      hide Take, Enabled, Inv, StepsLeft;
      var before := steps[..|steps| - 1];
      StepsAddUp(cfg, before);
      RunInv(cfg, before);
      StepCounts(cfg, After(cfg, before), steps[|steps| - 1]);
    }
  }

  // ----- where a run ends -----

  /** A run is over: no step can be taken. */
  ghost predicate Over(cfg: Config, steps: seq<Step>)
    requires Valid(cfg)
  {
    Run(cfg, steps) && !CanStep(After(cfg, steps))
  }

  /** Both ends agree on the number of windows: it is the one that covers the chunks. */
  lemma EndRounds(cfg: Config, r: int)
    requires Valid(cfg) && HasTail(cfg) && r >= 1
    requires (r - 1) * cfg.window < NumChunks(cfg) <= (r - 1) * cfg.window + cfg.window
    ensures r == TotalRounds(cfg)
  {
    hide NumChunks, HasTail;
    Divides((NumChunks(cfg) - 1) - (r - 1) * cfg.window, r - 1, cfg.window);
    Divides(NumChunks(cfg) - 1 - (r - 1) * cfg.window, r, cfg.window);
    assert r * cfg.window == (r - 1) * cfg.window + cfg.window;
    assert NumChunks(cfg) + cfg.window - 1 == r * cfg.window + (NumChunks(cfg) - 1 - (r - 1) * cfg.window);
  }

  /** Quotient of q * w + x. */
  lemma Divides(x: int, q: int, w: nat)
    requires w > 0 && 0 <= x < w
    ensures (q * w + x) / w == q
  {
    var z := (q * w + x) / w;
    var y := (q * w + x) % w;
    assert q * w + x == z * w + y;
    assert (z + 1) * w == z * w + w && (q + 1) * w == q * w + w;
    Times(z + 1, q, w);
    Times(q + 1, z, w);
  }

  /** Where every run that is over has ended, as the file's size and the address lists decide. */
  datatype Fate = RxDies | TxDies | TxExits | Completes

  function FateOf(cfg: Config): Fate
    requires Valid(cfg)
  {
    if AllLoopback(cfg.txAddrs) then RxDies
    else if SenderLost(cfg) then TxDies
    else if HasTail(cfg) then Completes
    else TxExits
  }

  /** The four ways to end, no two of which can hold of one system. */
  ghost predicate EndsAs(cfg: Config, s: System, fate: Fate)
    requires Valid(cfg)
  {
    match fate
    case RxDies => RxLost(cfg, s)
    case TxDies => TxLost(cfg, s)
    case TxExits => Collecting(cfg, s, Rounds(s) * cfg.window) && s.tx.aborted && s.toRx == multiset{}
    case Completes => Ended(cfg, s, (Rounds(s) - 1) * cfg.window) && TxFinished(s)
  }

  lemma EndsAsFated(cfg: Config, steps: seq<Step>)
    requires Valid(cfg) && Over(cfg, steps)
    ensures EndsAs(cfg, After(cfg, steps), FateOf(cfg))
  {
    hide Take, Enabled, CanStep, Inv, Stopped, EndsAs, FateOf;
    Progress(cfg, steps);
    RunInv(cfg, steps);
    StoppedAsFated(cfg, After(cfg, steps));
  }

  lemma StoppedAsFated(cfg: Config, s: System)
    requires Valid(cfg) && Inv(cfg, s) && Stopped(s)
    ensures EndsAs(cfg, s, FateOf(cfg))
  {
    hide Collecting, Acknowledged, Ended, Shaking, RxLost, TxLost, Stopped, SenderLost, HasTail, NumChunks, AllLoopback;
    if RxLost(cfg, s) || TxLost(cfg, s) {
      LostFate(cfg, s);
    } else if Shaking(cfg, s) {
      ShakeProgress(cfg, s);
    } else if Collecting(cfg, s, Rounds(s) * cfg.window) {
      CollectFate(cfg, s, Rounds(s) * cfg.window);
    } else if Acknowledged(cfg, s, (Rounds(s) - 1) * cfg.window) {
      AckProgress(cfg, s, (Rounds(s) - 1) * cfg.window);
    } else {
      EndFate(cfg, s, (Rounds(s) - 1) * cfg.window);
    }
  }

  lemma LostFate(cfg: Config, s: System)
    requires Valid(cfg) && (RxLost(cfg, s) || TxLost(cfg, s))
    ensures RxLost(cfg, s) ==> FateOf(cfg) == RxDies
    ensures TxLost(cfg, s) ==> FateOf(cfg) == TxDies
  {
    hide AllLoopback, NumChunks, Learned, EncodeList, HasTail, Off, KeepsOks;
  }

  lemma CollectFate(cfg: Config, s: System, lo: int)
    requires Valid(cfg) && Collecting(cfg, s, lo) && Stopped(s)
    ensures s.tx.aborted && s.toRx == multiset{} && FateOf(cfg) == TxExits
  {
    hide RxInv, NumChunks, HasTail, Off, AllLoopback, Learned, EncodeList, KeepsOks;
  }

  lemma EndFate(cfg: Config, s: System, lo: int)
    requires Valid(cfg) && Ended(cfg, s, lo) && Stopped(s)
    ensures TxFinished(s) && FateOf(cfg) == Completes
  {
    EndFin(cfg, s, lo);
    EndFound(cfg, s, lo);
    hide RxEnd, NumChunks, HasTail, Off, AllLoopback, Learned, EncodeList, KeepsOks, SenderLost;
  }

  /** Each way to end can be told from the peers' fields alone. */
  lemma Signs(cfg: Config, s: System, fate: Fate)
    requires Valid(cfg) && EndsAs(cfg, s, fate)
    ensures s.rx.crashed <==> fate == RxDies
    ensures s.tx.crashed <==> fate == TxDies
    ensures s.tx.aborted <==> fate == TxExits
    ensures TxFinished(s) <==> fate == Completes
    ensures RxFinished(s) <==> fate == Completes
  {
    hide Collecting, Ended, RxLost, TxLost;
    match fate
    case RxDies => LostSigns(cfg, s);
    case TxDies => LostSigns(cfg, s);
    case TxExits => CollectSigns(cfg, s, Rounds(s) * cfg.window);
    case Completes =>
      EndFin(cfg, s, (Rounds(s) - 1) * cfg.window);
      EndFound(cfg, s, (Rounds(s) - 1) * cfg.window);
      EndSigns(cfg, s, (Rounds(s) - 1) * cfg.window);
  }

  lemma LostSigns(cfg: Config, s: System)
    requires Valid(cfg) && (RxLost(cfg, s) || TxLost(cfg, s))
    ensures !TxFinished(s) && !RxFinished(s) && !s.tx.aborted
    ensures RxLost(cfg, s) ==> s.rx.crashed && !s.tx.crashed
    ensures TxLost(cfg, s) ==> s.tx.crashed && !s.rx.crashed
  {
    hide AllLoopback, NumChunks, Learned, EncodeList, Off, KeepsOks;
  }

  lemma CollectSigns(cfg: Config, s: System, lo: int)
    requires Valid(cfg) && Collecting(cfg, s, lo)
    ensures !TxFinished(s) && !RxFinished(s) && !s.tx.crashed && !s.rx.crashed
  {
    hide Split, AllLoopback, NumChunks, Learned, EncodeList, Off, KeepsOks, HasTail, Plan;
  }

  lemma EndSigns(cfg: Config, s: System, lo: int)
    requires Valid(cfg) && Ended(cfg, s, lo)
    ensures !s.tx.aborted && !s.rx.crashed
  {
    hide RxEnd, TxInv, AllLoopback, NumChunks, Learned, EncodeList, KeepsOks;
  }

  /**
    Termination with the exact count: a run that is over has both ends out of their loops if and only if
    the file has a tail and each end has an address to send to. Then they have gone through TotalRounds
    windows, in FullLength steps less one for each capsule left under way, and every chunk has been sent.
   */
  lemma CompletesExactly(cfg: Config, steps: seq<Step>)
    requires Valid(cfg) && Over(cfg, steps)
    ensures var s := After(cfg, steps);
      TxFinished(s) && RxFinished(s) <==> HasTail(cfg) && Addressable(cfg)
    ensures HasTail(cfg) && Addressable(cfg) ==>
      var s := After(cfg, steps);
      && !s.tx.aborted && Rounds(s) == TotalRounds(cfg) && Submits(s) == NumChunks(cfg)
      && |steps| == FullLength(cfg) - |s.toRx|
      && Ended(cfg, s, (Rounds(s) - 1) * cfg.window)
  {
    hide Take, Enabled, CanStep, NumChunks, HasTail, FullLength, EndsAs, StepsLeft, AllLoopback, RxFinished, TxFinished,
      After, Run, Over, TotalRounds, Ended;
    EndsAsFated(cfg, steps);
    OverRuns(cfg, steps);
    StepsAddUp(cfg, steps);
    TailChunks(cfg);
    var s := After(cfg, steps);
    Signs(cfg, s, FateOf(cfg));
    if FateOf(cfg) == Completes {
      Completed(cfg, s);
    }
  }

  lemma TailChunks(cfg: Config)
    requires Valid(cfg)
    ensures HasTail(cfg) ==> NumChunks(cfg) > 0
    ensures NumChunks(cfg) > 0 <==> |cfg.source| > 0
  {
    OffEnds(cfg, 0);
  }

  lemma Completed(cfg: Config, s: System)
    requires Valid(cfg) && EndsAs(cfg, s, Completes)
    ensures !s.tx.aborted && Rounds(s) == TotalRounds(cfg) && Submits(s) == NumChunks(cfg)
    ensures StepsLeft(cfg, s) == |s.toRx| && Ended(cfg, s, (Rounds(s) - 1) * cfg.window)
  {
    hide Ended, NumChunks, HasTail, TotalRounds, StepsLeft;
    var lo := (Rounds(s) - 1) * cfg.window;
    EndFin(cfg, s, lo);
    AtEnd(cfg, s, lo);
    EndRounds(cfg, Rounds(s));
  }

  /**
    A program dies for want of an address if and only if the other end's list is all loopback: RX at its
    acknowledgement of the handshake, TX at its first chunk if it has one. Nothing has been delivered.
   */
  lemma DiesUnaddressed(cfg: Config, steps: seq<Step>)
    requires Valid(cfg) && Over(cfg, steps)
    ensures var s := After(cfg, steps);
      && (s.rx.crashed <==> AllLoopback(cfg.txAddrs))
      && (s.tx.crashed <==> !AllLoopback(cfg.txAddrs) && AllLoopback(cfg.rxAddrs) && |cfg.source| > 0)
      && (s.rx.crashed || s.tx.crashed ==>
          s.rx.sink == [] && !TxFinished(s) && !RxFinished(s) && |steps| == if s.rx.crashed then 5 else 7)
  {
    hide Take, Enabled, CanStep, NumChunks, HasTail, FullLength, EndsAs, StepsLeft, AllLoopback;
    EndsAsFated(cfg, steps);
    OverRuns(cfg, steps);
    StepsAddUp(cfg, steps);
    TailChunks(cfg);
    var s := After(cfg, steps);
    Signs(cfg, s, FateOf(cfg));
    if FateOf(cfg) == RxDies || FateOf(cfg) == TxDies {
      LostSink(cfg, s, FateOf(cfg));
      LostLength(cfg);
    }
  }

  lemma LostSink(cfg: Config, s: System, fate: Fate)
    requires Valid(cfg) && EndsAs(cfg, s, fate) && (fate == RxDies || fate == TxDies)
    ensures s.rx.sink == [] && s.rx.curSize == 0 && StepsLeft(cfg, s) == 0
  {
    hide AllLoopback, NumChunks, Learned, EncodeList, Off, KeepsOks, HasTail, FullLength, TotalRounds;
  }

  lemma LostLength(cfg: Config)
    requires Valid(cfg)
    ensures FateOf(cfg) == RxDies ==> FullLength(cfg) == 5
    ensures FateOf(cfg) == TxDies ==> FullLength(cfg) == 7
  {
    hide AllLoopback, NumChunks, HasTail, WholeLength;
  }

  lemma AtEnd(cfg: Config, s: System, lo: int)
    requires Valid(cfg) && Ended(cfg, s, lo) && Stopped(s)
    ensures HasTail(cfg) && TxFinished(s) && RxFinished(s) && !s.tx.aborted && Rounds(s) >= 1
    ensures Submits(s) == NumChunks(cfg) && lo < NumChunks(cfg) <= lo + cfg.window
    ensures StepsLeft(cfg, s) == |s.toRx| + 4 * (TotalRounds(cfg) - Rounds(s))
  {
    EndFin(cfg, s, lo);
    EndFound(cfg, s, lo);
    hide NumChunks, Off, TotalRounds, SenderLost, AllLoopback, Learned, EncodeList, KeepsOks, FullLength;
  }

  /** The largest multiple of w up to n. */
  function WholeOf(n: nat, w: nat): (k: nat)
    requires w > 0
    ensures k <= n
  {
    n - n % w
  }

  /** The chunks that make up whole windows. */
  function WholeWindows(cfg: Config): nat
    requires Valid(cfg)
  {
    WholeOf(NumChunks(cfg), cfg.window)
  }

  /** The state in which the sender's exit leaves the two ends. */
  predicate ExitState(cfg: Config, s: System)
    requires Valid(cfg)
  {
    && s.tx.curSize == |cfg.source| && !RxFinished(s) && s.toRx == multiset{}
    && Rounds(s) == NumChunks(cfg) / cfg.window && |s.rx.window| == NumChunks(cfg) % cfg.window
    && s.rx.sink == cfg.source[..Off(cfg, WholeWindows(cfg))]
    && s.rx.curSize == Off(cfg, WholeWindows(cfg)) + HEADER_SPACE * WholeWindows(cfg)
    && (s.rx.sink == cfg.source <==> NumChunks(cfg) % cfg.window == 0)
  }

  /**
    The sender exits if and only if the chunk size divides the file size, the receiver has an address to
    send to, and the sender has one too or nothing to send. It has never flagged FIN and has sent every
    byte; the receiver is left waiting with the whole windows in the sink. The sink then equals the source
    exactly when the window size divides the number of chunks.
   */
  lemma AbortsExactly(cfg: Config, steps: seq<Step>)
    requires Valid(cfg) && Over(cfg, steps)
    ensures var s := After(cfg, steps);
      && (s.tx.aborted <==> !HasTail(cfg) && (Addressable(cfg) || (cfg.source == [] && !AllLoopback(cfg.txAddrs))))
      && (s.tx.aborted ==> ExitState(cfg, s) && |steps| == FullLength(cfg))
  {
    hide Take, Enabled, CanStep, NumChunks, HasTail, FullLength, EndsAs, StepsLeft, AllLoopback, ExitState;
    EndsAsFated(cfg, steps);
    OverRuns(cfg, steps);
    StepsAddUp(cfg, steps);
    TailChunks(cfg);
    var s := After(cfg, steps);
    Signs(cfg, s, FateOf(cfg));
    if FateOf(cfg) == TxExits {
      Exited(cfg, s);
    }
  }

  lemma Exited(cfg: Config, s: System)
    requires Valid(cfg) && EndsAs(cfg, s, TxExits) && FateOf(cfg) == TxExits
    ensures ExitState(cfg, s) && StepsLeft(cfg, s) == 0
  {
    hide NumChunks, HasTail, Collecting, StepsLeft, SenderLost, AllLoopback, Off;
    AtAbort(cfg, s, Rounds(s) * cfg.window);
    CollectRunning(cfg, s, Rounds(s) * cfg.window);
    AbortPoint(cfg, Rounds(s), Rounds(s) * cfg.window);
    RoundsAtExit(cfg, Rounds(s));
  }

  lemma RoundsAtExit(cfg: Config, r: int)
    requires Valid(cfg) && !HasTail(cfg) && r == NumChunks(cfg) / cfg.window
    ensures TotalRounds(cfg) == r + 1
  {
    hide NumChunks, HasTail;
  }

  lemma AbortPoint(cfg: Config, r: nat, lo: nat)
    requires Valid(cfg) && lo == r * cfg.window && lo <= NumChunks(cfg) < lo + cfg.window
    ensures r == NumChunks(cfg) / cfg.window && NumChunks(cfg) - lo == NumChunks(cfg) % cfg.window
    ensures lo == WholeWindows(cfg) && Off(cfg, NumChunks(cfg)) == |cfg.source|
    ensures cfg.source[..Off(cfg, lo)] == cfg.source <==> NumChunks(cfg) % cfg.window == 0
  {
    OffEnds(cfg, lo);
    OffEnds(cfg, NumChunks(cfg));
    hide NumChunks, Off;
    var n, w := NumChunks(cfg), cfg.window;
    Divides(n - lo, r, w);
    assert n == n / w * w + n % w;
  }

  lemma ShakeRunning(cfg: Config, s: System)
    requires Valid(cfg) && Shaking(cfg, s)
    ensures !RxFinished(s) && !TxFinished(s)
  {
  }

  lemma CollectRunning(cfg: Config, s: System, lo: int)
    requires Valid(cfg) && Collecting(cfg, s, lo)
    ensures !RxFinished(s) && Rounds(s) >= 0
  {
    hide Split;
  }

  lemma AtAbort(cfg: Config, s: System, lo: int)
    requires Valid(cfg) && Collecting(cfg, s, lo) && s.tx.aborted && s.toRx == multiset{}
    ensures s.tx.curSize == Off(cfg, NumChunks(cfg)) && 0 <= lo <= NumChunks(cfg) < lo + cfg.window
    ensures s.rx.sink == cfg.source[..Off(cfg, lo)] && |s.rx.window| == NumChunks(cfg) - lo
    ensures s.rx.curSize == Off(cfg, lo) + HEADER_SPACE * lo
    ensures !HasTail(cfg) && !SenderLost(cfg) ==> StepsLeft(cfg, s) == 4 * (TotalRounds(cfg) - 1 - Rounds(s))
  {
    hide Split, Off, NumChunks, TotalRounds, SenderLost, AllLoopback, Learned, EncodeList, KeepsOks, FullLength;
    SplitSmall(Plan(cfg), lo, Submits(s), s.rx.window, s.toRx);
    AbortedPartial(cfg, s, lo);
  }

  // ----- what is delivered -----

  /** The receiver takes a FIN capsule only once nothing else is under way. */
  ghost predicate FinLast(cfg: Config, steps: seq<Step>)
    requires Valid(cfg)
  {
    steps == [] ||
    var before, step := steps[..|steps| - 1], steps[|steps| - 1];
    && FinLast(cfg, before)
    && (step.RxReceives? && IsFin(step.c.header) ==> After(cfg, before).toRx == multiset{step.c})
  }

  /** FIN is set by the receipt of a FIN capsule and nothing else, and nothing is sent or taken after it. */
  lemma FinStep(cfg: Config, s: System, step: Step)
    requires Valid(cfg) && Inv(cfg, s) && Enabled(s, step)
    ensures var s' := Take(cfg, s, step);
      && (s.rx.fin ==> s'.rx.fin && s'.toRx == s.toRx && !step.RxReceives?)
      && (!s.rx.fin ==> (s'.rx.fin <==> step.RxReceives? && IsFin(step.c.header)))
      && (step.RxReceives? ==> step.c in s.toRx && s'.toRx == s.toRx - multiset{step.c})
  {
    hide Collecting, Acknowledged, Ended, Handshake, Begun, RxLost, TxLost, Take, Enabled, IsFin;
    if RxLost(cfg, s) || TxLost(cfg, s) {
      LostQuiet(cfg, s);
    } else if Shaking(cfg, s) {
      var p :| Handshake(cfg, s, p);
      ShakeStep(cfg, s, p, step);
      ShakeFin(cfg, s, p, step);
    } else if Collecting(cfg, s, Rounds(s) * cfg.window) {
      CollectFin(cfg, s, Rounds(s) * cfg.window, step);
    } else if Acknowledged(cfg, s, (Rounds(s) - 1) * cfg.window) {
      AckFin(cfg, s, (Rounds(s) - 1) * cfg.window, step);
    } else {
      EndFinStep(cfg, s, (Rounds(s) - 1) * cfg.window, step);
    }
  }

  lemma ShakeFin(cfg: Config, s: System, p: Phase, step: Step)
    requires Valid(cfg) && Handshake(cfg, s, p) && Enabled(s, step)
    requires Shaken(cfg, p, Take(cfg, s, step))
    ensures !s.rx.fin && !Take(cfg, s, step).rx.fin && !step.RxReceives?
  {
    hide Take, Learned, EncodeList, AllLoopback, NumChunks;
  }

  lemma CollectFin(cfg: Config, s: System, lo: int, step: Step)
    requires Valid(cfg) && Collecting(cfg, s, lo) && Enabled(s, step)
    ensures var s' := Take(cfg, s, step);
      && (s.rx.fin ==> s'.rx.fin && s'.toRx == s.toRx && !step.RxReceives?)
      && (!s.rx.fin ==> (s'.rx.fin <==> step.RxReceives? && IsFin(step.c.header)))
      && (step.RxReceives? ==> step.c in s.toRx && s'.toRx == s.toRx - multiset{step.c})
  {
    hide Collecting, IsFin, RxReceive, TakeSubmit, Flush, Counted;
    CollectEnables(cfg, s, lo, step);
    FinMeansSent(cfg, s, lo);
    match step
    case TxSubmits => SubmitFin(cfg, s, lo);
    case RxReceives(c) => ReceiveFin(cfg, s, lo, c);
    case _ =>
  }

  lemma SubmitFin(cfg: Config, s: System, lo: int)
    requires Valid(cfg) && Collecting(cfg, s, lo) && Enabled(s, TxSubmits)
    ensures TakeSubmit(cfg, s).rx == s.rx
  {
    hide TakeSubmit, Collecting;
    CollectSubmits(cfg, s, lo);
  }

  lemma FinMeansSent(cfg: Config, s: System, lo: int)
    requires Valid(cfg) && Collecting(cfg, s, lo)
    ensures s.rx.fin ==> s.rx.winSize == 0 && (TxAt(s, Closed) ==> s.tx.winSize == 0)
  {
    if s.rx.fin {
      hide Split, Off, Plan, NumChunks, HasTail;
      FiledSent(Plan(cfg), lo, Submits(s), s.rx.window, s.toRx);
    }
  }

  lemma ReceiveFin(cfg: Config, s: System, lo: int, c: Capsule)
    requires Valid(cfg) && Collecting(cfg, s, lo) && Enabled(s, RxReceives(c)) && !s.rx.fin
    ensures RxReceive(s.rx, c).fin <==> IsFin(c.header)
  {
    hide Split, RxReceive, Off, Plan, IsFin, HasTail, NumChunks;
    ReceiveChunk(cfg, s.rx, lo, Submits(s), s.toRx, c);
    SplitFind(Plan(cfg), lo, Submits(s), s.rx.window, s.toRx, c);
    PlanNumbered(cfg);
  }

  lemma AckFin(cfg: Config, s: System, lo: int, step: Step)
    requires Valid(cfg) && Acknowledged(cfg, s, lo) && Enabled(s, step)
    ensures var s' := Take(cfg, s, step);
      !s.rx.fin && !s'.rx.fin && !step.RxReceives?
  {
    AckEnables(cfg, s, lo, step);
    hide Split, TxInv;
  }

  lemma EndFinStep(cfg: Config, s: System, lo: int, step: Step)
    requires Valid(cfg) && Ended(cfg, s, lo) && Enabled(s, step)
    ensures var s' := Take(cfg, s, step);
      s.rx.fin && s'.rx.fin && s'.toRx == s.toRx && !step.RxReceives?
  {
    EndEnables(cfg, s, lo, step);
    hide TxInv, Lost, Off;
  }

  /** FIN has come last so far just when nothing is under way once the receiver has it. */
  lemma {:induction false} FinLastIff(cfg: Config, steps: seq<Step>)
    requires Valid(cfg) && Run(cfg, steps)
    ensures var s := After(cfg, steps);
      FinLast(cfg, steps) <==> (s.rx.fin ==> s.toRx == multiset{})
  {
    if steps != [] {
      hide Take, Enabled, Inv, IsFin;
      var before, step := steps[..|steps| - 1], steps[|steps| - 1];
      var s := After(cfg, before);
      FinLastIff(cfg, before);
      RunInv(cfg, before);
      FinStep(cfg, s, step);
      if step.RxReceives? {
        LastOne(s.toRx, step.c);
      }
    }
  }

  lemma LastOne(m: multiset<Capsule>, c: Capsule)
    requires c in m
    ensures m == multiset{c} <==> m - multiset{c} == multiset{}
  {
    if m - multiset{c} == multiset{} {
      assert m == (m - multiset{c}) + multiset{c};
    }
  }

  /**
    Delivery: once the receiver has stopped, the sink equals the source if and only if the receiver
    took FIN last. Otherwise the sink is shorter than the source.
   */
  lemma DeliveredIffFinLast(cfg: Config, steps: seq<Step>)
    requires Valid(cfg) && Run(cfg, steps) && RxFinished(After(cfg, steps))
    ensures After(cfg, steps).rx.sink == cfg.source <==> FinLast(cfg, steps)
    ensures After(cfg, steps).rx.sink != cfg.source ==> |After(cfg, steps).rx.sink| < |cfg.source|
  {
    hide Take, Enabled, RxEnd, Ended, Inv, Off, NumChunks;
    RunInv(cfg, steps);
    FinLastIff(cfg, steps);
    var s := After(cfg, steps);
    OnlyEnded(cfg, s);
    EndSink(cfg, s, (Rounds(s) - 1) * cfg.window);
  }

  lemma OnlyEnded(cfg: Config, s: System)
    requires Valid(cfg) && Inv(cfg, s) && RxFinished(s)
    ensures Ended(cfg, s, (Rounds(s) - 1) * cfg.window)
  {
    hide Ended, Collecting, Shaking, RxLost, TxLost;
    if RxLost(cfg, s) || TxLost(cfg, s) {
      LostQuiet(cfg, s);
    } else if Shaking(cfg, s) {
      ShakeRunning(cfg, s);
    } else if Collecting(cfg, s, Rounds(s) * cfg.window) {
      CollectRunning(cfg, s, Rounds(s) * cfg.window);
    }
  }

  lemma EndSink(cfg: Config, s: System, lo: int)
    requires Valid(cfg) && Ended(cfg, s, lo)
    ensures s.rx.fin
    ensures s.toRx == multiset{} ==> s.rx.sink == cfg.source
    ensures s.toRx != multiset{} ==> |s.rx.sink| < |cfg.source|
  {
    EndFin(cfg, s, lo);
    hide RxEnd, TxInv;
    SinkAtEnd(cfg, s.rx, lo, s.toRx);
  }

  lemma SinkAtEnd(cfg: Config, rx: Rx, lo: int, toRx: multiset<Capsule>)
    requires Valid(cfg) && RxEnd(cfg, rx, lo, toRx)
    ensures rx.fin
    ensures toRx == multiset{} ==> rx.sink == cfg.source
    ensures toRx != multiset{} ==> |rx.sink| < |cfg.source|
  {
    OffEnds(cfg, NumChunks(cfg));
    hide Off, NumChunks, Plan, HasTail;
    var n := NumChunks(cfg);
    SpanIsSlice(cfg, lo, n);
    if toRx == multiset{} {
      NoneLost(cfg, lo, n, toRx);
    } else {
      SomeLost(cfg, lo, n, toRx);
      var c :| c in toRx;
      assert Plan(cfg)[c.header.capid - 1] in toRx;
    }
  }

  // ----- on every reachable system -----

  /** Windows flushed so far: none during the handshake. */
  function Flushed(s: System): nat {
    if s.rx.capsuleId < 2 then 0 else s.rx.capsuleId - 2
  }

  /** The chunks of those windows, while the receiver runs. */
  function FlushedChunks(cfg: Config, s: System): nat {
    Flushed(s) * cfg.window
  }

  /** The sink holds exactly those chunks, and the receiver has counted each with its header. */
  predicate SinkHoldsFlushed(cfg: Config, s: System) {
    && s.rx.sink == cfg.source[..Off(cfg, FlushedChunks(cfg, s))]
    && s.rx.curSize == |s.rx.sink| + HEADER_SPACE * FlushedChunks(cfg, s)
  }

  /**
    Prefix safety: until it stops, the receiver has written exactly the chunks of the windows it has
    flushed, and counted them with their headers. If FIN comes last the sink is a prefix of the
    source in every system reached.
   */
  lemma PrefixSafety(cfg: Config, steps: seq<Step>)
    requires Valid(cfg) && Run(cfg, steps)
    ensures !RxFinished(After(cfg, steps)) ==> SinkHoldsFlushed(cfg, After(cfg, steps))
    ensures FinLast(cfg, steps) ==> After(cfg, steps).rx.sink <= cfg.source
  {
    RunInv(cfg, steps);
    var s := After(cfg, steps);
    hide After, Run, FinLast, Ended, Collecting, Acknowledged, Shaking, Off;
    if RxFinished(s) {
      DeliveredIffFinLast(cfg, steps);
    } else {
      Unfinished(cfg, s);
    }
  }

  lemma Unfinished(cfg: Config, s: System)
    requires Valid(cfg) && Inv(cfg, s) && !RxFinished(s)
    ensures SinkHoldsFlushed(cfg, s)
  {
    hide RxInv, Ended, Off, NumChunks, HasTail, TxInv, Learned, EncodeList, AllLoopback, KeepsOks;
    if Shaking(cfg, s) || RxLost(cfg, s) || TxLost(cfg, s) {
      OffEnds(cfg, 0);
      assert 0 * cfg.window == 0;
    } else if Ended(cfg, s, (Rounds(s) - 1) * cfg.window) {
      EndFin(cfg, s, (Rounds(s) - 1) * cfg.window);
    } else {
      assert (Rounds(s) - 1) * cfg.window + cfg.window == Rounds(s) * cfg.window;
      Written(cfg, s.rx, Rounds(s) * cfg.window, Submits(s), s.toRx);
    }
  }

  lemma Written(cfg: Config, rx: Rx, lo: int, hi: int, toRx: multiset<Capsule>)
    requires Valid(cfg) && RxInv(cfg, rx, lo, hi, toRx)
    ensures lo >= 0 && rx.sink == cfg.source[..Off(cfg, lo)] && rx.curSize == |rx.sink| + HEADER_SPACE * lo
  {
    hide Split, Off, NumChunks, HasTail;
  }

  /** The sender's loop of windows has begun. */
  predicate Sending(s: System) {
    s.tx.next == Closed || s.tx.next == Done || s.tx.complete
  }

  /** The chunks sent and not flushed, and where they are. */
  ghost predicate InStep(cfg: Config, s: System)
    requires Valid(cfg)
  {
    var lo := FlushedChunks(cfg, s);
    && lo <= Submits(s) <= NumChunks(cfg) && Submits(s) <= lo + cfg.window
    && Split(Plan(cfg), lo, Submits(s), s.rx.window, s.toRx)
    && |s.toRx| + |s.rx.window| <= cfg.window
    && (Submits(s) > lo ==> s.toTx == multiset{})
  }

  /**
    Lock-step: while the receiver runs, the chunks sent and not flushed are divided between its
    window and the channel, each under its own id, at most a window of them; nothing of a window is
    sent before every window before it has been flushed and its acknowledgement taken. A sender that
    has found no address has sent nothing.
   */
  lemma LockStep(cfg: Config, steps: seq<Step>)
    requires Valid(cfg) && Run(cfg, steps) && Sending(After(cfg, steps)) && !RxFinished(After(cfg, steps))
    ensures !After(cfg, steps).tx.crashed ==> InStep(cfg, After(cfg, steps))
    ensures After(cfg, steps).tx.crashed ==>
      After(cfg, steps).toRx == multiset{} && After(cfg, steps).rx.window == map[]
  {
    RunInv(cfg, steps);
    var s := After(cfg, steps);
    hide After, Run;
    InLockStep(cfg, s);
  }

  lemma InLockStep(cfg: Config, s: System)
    requires Valid(cfg) && Inv(cfg, s) && Sending(s) && !RxFinished(s)
    ensures !s.tx.crashed ==> InStep(cfg, s)
    ensures s.tx.crashed ==> s.toRx == multiset{} && s.rx.window == map[]
  {
    hide Split, Ended, Off, NumChunks, HasTail, Plan, Learned, EncodeList, Shaking, AllLoopback, KeepsOks;
    if RxLost(cfg, s) || TxLost(cfg, s) {
    } else if Shaking(cfg, s) {
      ShakeNotSending(cfg, s);
    } else if Ended(cfg, s, (Rounds(s) - 1) * cfg.window) {
      EndFin(cfg, s, (Rounds(s) - 1) * cfg.window);
    } else {
      assert (Rounds(s) - 1) * cfg.window + cfg.window == Rounds(s) * cfg.window;
      SplitSmall(Plan(cfg), Flushed(s) * cfg.window, Submits(s), s.rx.window, s.toRx);
    }
  }

  lemma ShakeNotSending(cfg: Config, s: System)
    requires Valid(cfg) && Shaking(cfg, s)
    ensures !Sending(s)
  {
  }

  /**
    The acknowledgement of window j, field by field: a control capsule without payload or flags on connection
    1, numbered j + 2, with the window size.
   */
  predicate AcksWindow(cfg: Config, c: Capsule, j: nat) {
    && c.payload == [] && c.header.capSize == 0 && c.header.capType == 0 && c.header.capFlags == 0
    && c.header.srcid == 0 && c.header.destid == 0 && c.header.capPriority == 0 && c.header.capopts == 0
    && c.header.connid == 1 && c.header.capWinSiz == cfg.window
    && c.header.capid == (if j + 2 < 65536 then j + 2 else (j + 2) % 65536)
  }

  /**
    Queue balance: between its steps the sender's queues are empty; the receiver's receive queue
    holds as many entries as its window, none once it has stopped, and its send queue keeps the
    acknowledgement of each window flushed, in order; if it has died, its last capsule instead.
   */
  lemma QueueBalance(cfg: Config, steps: seq<Step>)
    requires Valid(cfg) && Run(cfg, steps)
    ensures var s := After(cfg, steps);
      && s.tx.txQueue == [] && s.tx.rxQueue == []
      && |s.rx.rxQueue| == |s.rx.window|
      && (RxFinished(s) ==> s.rx.window == map[])
      && (if s.rx.crashed then s.rx.txQueue == [Ack(cfg)]
          else |s.rx.txQueue| == Flushed(s) && forall j :: 0 <= j < Flushed(s) ==> AcksWindow(cfg, s.rx.txQueue[j], j))
  {
    RunInv(cfg, steps);
    var s := After(cfg, steps);
    hide After, Run;
    Balanced(cfg, s);
    if !s.rx.crashed {
      KeptAcks(cfg, s.rx.txQueue);
    }
    hide Inv, AcksWindow, Ok, KeepsOks;
  }

  lemma KeptAcks(cfg: Config, q: seq<Capsule>)
    requires Valid(cfg) && KeepsOks(cfg, q)
    ensures forall j :: 0 <= j < |q| ==> AcksWindow(cfg, q[j], j)
  {
    hide AcksWindow, Ok;
    forall j | 0 <= j < |q|
      ensures AcksWindow(cfg, q[j], j)
    {
      OkFields(cfg, j);
    }
  }

  lemma OkFields(cfg: Config, j: nat)
    requires Valid(cfg)
    ensures AcksWindow(cfg, Ok(cfg, j + 2), j)
  {
    hide NumChunks, FullSlots;
  }

  /** The acknowledgement that TX takes after r windows is that of window r. */
  lemma TakesAcks(cfg: Config, steps: seq<Step>, c: Capsule)
    requires Valid(cfg) && Run(cfg, steps) && Enabled(After(cfg, steps), TxFinishes(c))
    ensures AcksWindow(cfg, c, TxRounds(steps))
  {
    hide After, Run, TxRounds, RxRounds, Inv, Enabled, AcksWindow, Ok;
    RunInv(cfg, steps);
    RoundsAgree(cfg, steps);
    TakesLast(cfg, After(cfg, steps), c);
    OkFields(cfg, TxRounds(steps));
  }

  lemma TakesLast(cfg: Config, s: System, c: Capsule)
    requires Valid(cfg) && Inv(cfg, s) && Enabled(s, TxFinishes(c))
    ensures Pending(s) == 1 && Flushed(s) >= 1 && c == Ok(cfg, Flushed(s) + 1)
  {
    hide Learned, EncodeList, AllLoopback, NumChunks, HasTail, Off, KeepsOks, RxInv, RxEnd, TxInv, Ok;
  }

  lemma Balanced(cfg: Config, s: System)
    requires Valid(cfg) && Inv(cfg, s)
    ensures s.tx.txQueue == [] && s.tx.rxQueue == [] && |s.rx.rxQueue| == |s.rx.window|
    ensures RxFinished(s) ==> s.rx.window == map[]
    ensures s.rx.crashed ==> s.rx.txQueue == [Ack(cfg)]
    ensures !s.rx.crashed ==> |s.rx.txQueue| == Flushed(s) && KeepsOks(cfg, s.rx.txQueue)
  {
    hide Split, Lost, Off, NumChunks, HasTail, Learned, EncodeList, AllLoopback;
  }

  /**
    Once the handshake is over, each end's list is the other's addresses without the loopback, in order,
    exactly when all but the first of the other's loopbacks are at the end of its list.
   */
  lemma PeersLearned(cfg: Config, steps: seq<Step>)
    requires Valid(cfg) && Run(cfg, steps) && Sending(After(cfg, steps))
    ensures var s := After(cfg, steps);
      && (s.tx.peers == Some(Others(cfg.rxAddrs)) <==> SpareLoopbacksLast(cfg.rxAddrs))
      && (s.rx.peers == Some(Others(cfg.txAddrs)) <==> SpareLoopbacksLast(cfg.txAddrs))
  {
    RunInv(cfg, steps);
    var s := After(cfg, steps);
    hide After, Run;
    PeersKnown(cfg, s);
    ExchangeKeepsOthers(cfg.rxAddrs);
    ExchangeKeepsOthers(cfg.txAddrs);
  }

  lemma PeersKnown(cfg: Config, s: System)
    requires Valid(cfg) && Inv(cfg, s) && Sending(s)
    ensures s.tx.peers == Some(Learned(EncodeList(cfg.rxAddrs)))
    ensures s.rx.peers == Some(Learned(EncodeList(cfg.txAddrs)))
  {
    hide Split, Lost, Off, NumChunks, HasTail, Learned, EncodeList, RxEnd, RxInv, AllLoopback, KeepsOks;
  }

  /** The sender's completed windows in a run: the acknowledgements it has taken. */
  function TxRounds(steps: seq<Step>): nat {
    if steps == [] then 0 else TxRounds(steps[..|steps| - 1]) + if steps[|steps| - 1].TxFinishes? then 1 else 0
  }

  /** The receiver's completed windows in a run: the flushes it has made. */
  function RxRounds(steps: seq<Step>): nat {
    if steps == [] then 0 else RxRounds(steps[..|steps| - 1]) + if steps[|steps| - 1].RxFinishes? then 1 else 0
  }

  /** Acknowledgements under way. */
  function Pending(s: System): nat {
    if Sending(s) then |s.toTx| else 0
  }

  lemma PendingStep(cfg: Config, s: System, step: Step)
    requires Valid(cfg) && Inv(cfg, s) && Enabled(s, step)
    ensures var s' := Take(cfg, s, step);
      && Pending(s') == Pending(s) + (if step.RxFinishes? then 1 else 0) - (if step.TxFinishes? then 1 else 0)
      && Flushed(s') == Flushed(s) + (if step.RxFinishes? then 1 else 0)
  {
    hide Collecting, Acknowledged, Ended, Handshake, Begun, RxLost, TxLost, Take, Enabled, Pending, Flushed;
    if RxLost(cfg, s) || TxLost(cfg, s) {
      LostQuiet(cfg, s);
    } else if Shaking(cfg, s) {
      var p :| Handshake(cfg, s, p);
      ShakeStep(cfg, s, p, step);
      ShakePending(cfg, s, p, step);
    } else if Collecting(cfg, s, Rounds(s) * cfg.window) {
      CollectPending(cfg, s, Rounds(s) * cfg.window, step);
    } else if Acknowledged(cfg, s, (Rounds(s) - 1) * cfg.window) {
      AckPending(cfg, s, (Rounds(s) - 1) * cfg.window, step);
    } else {
      EndPending(cfg, s, (Rounds(s) - 1) * cfg.window, step);
    }
  }

  lemma ShakePending(cfg: Config, s: System, p: Phase, step: Step)
    requires Valid(cfg) && Handshake(cfg, s, p) && Enabled(s, step)
    requires Shaken(cfg, p, Take(cfg, s, step))
    ensures Pending(s) == Pending(Take(cfg, s, step)) == Flushed(s) == Flushed(Take(cfg, s, step)) == 0
    ensures !step.RxFinishes? && !step.TxFinishes?
  {
    ShakeEnables(cfg, s, p, step);
    hide Take, Enabled, Handshake, Begun, RxLost;
    ShakeNone(cfg, s, p);
    if p.AckSent? {
      BegunNone(cfg, Take(cfg, s, step));
    } else if p.HiTaken? && AllLoopback(cfg.txAddrs) {
      LostNone(cfg, Take(cfg, s, step));
    } else {
      ShakeNone(cfg, Take(cfg, s, step), NextPhase(p));
    }
  }

  lemma ShakeEnables(cfg: Config, s: System, p: Phase, step: Step)
    requires Valid(cfg) && Handshake(cfg, s, p) && Enabled(s, step)
    ensures !step.RxFinishes? && !step.TxFinishes?
  {
    hide Learned, EncodeList;
  }

  lemma ShakeNone(cfg: Config, s: System, p: Phase)
    requires Valid(cfg) && Handshake(cfg, s, p)
    ensures Pending(s) == 0 && Flushed(s) == 0
  {
    hide Learned, EncodeList;
  }

  lemma BegunNone(cfg: Config, s: System)
    requires Valid(cfg) && Begun(cfg, s)
    ensures Pending(s) == 0 && Flushed(s) == 0
  {
    hide Learned, EncodeList;
  }

  lemma LostNone(cfg: Config, s: System)
    requires Valid(cfg) && RxLost(cfg, s)
    ensures Pending(s) == 0 && Flushed(s) == 0
  {
    hide Learned, EncodeList;
  }

  lemma CollectPending(cfg: Config, s: System, lo: int, step: Step)
    requires Valid(cfg) && Collecting(cfg, s, lo) && Enabled(s, step)
    ensures var s' := Take(cfg, s, step);
      && Pending(s') == Pending(s) + (if step.RxFinishes? then 1 else 0)
      && Flushed(s') == Flushed(s) + (if step.RxFinishes? then 1 else 0)
      && !step.TxFinishes?
  {
    hide Collecting, TxInv, TakeSubmit, TakeReceive, TakeFinish;
    CollectEnables(cfg, s, lo, step);
    match step
    case TxSubmits => SubmitPending(cfg, s, lo);
    case RxReceives(c) => ReceivePending(cfg, s, lo, c);
    case RxFinishes => FinishPending(cfg, s, lo);
    case _ => LeavePending(cfg, s, lo, step);
  }

  lemma SubmitPending(cfg: Config, s: System, lo: int)
    requires Valid(cfg) && Collecting(cfg, s, lo) && Enabled(s, TxSubmits)
    ensures var s' := TakeSubmit(cfg, s); Pending(s') == Pending(s) && Flushed(s') == Flushed(s)
  {
    SubmitChunk(cfg, s.tx, Submits(s));
    hide RxInv, TxSubmit, NumChunks, Off, AllLoopback, Learned, EncodeList, KeepsOks;
  }

  lemma ReceivePending(cfg: Config, s: System, lo: int, c: Capsule)
    requires Valid(cfg) && Collecting(cfg, s, lo) && Enabled(s, RxReceives(c))
    ensures var s' := TakeReceive(s, c); Pending(s') == Pending(s) && Flushed(s') == Flushed(s)
  {
    hide RxInv, TxInv;
    ReceiveChunk(cfg, s.rx, lo, Submits(s), s.toRx, c);
  }

  lemma FinishPending(cfg: Config, s: System, lo: int)
    requires Valid(cfg) && Collecting(cfg, s, lo) && Enabled(s, RxFinishes)
    ensures var s' := TakeFinish(cfg, s); Pending(s') == Pending(s) + 1 && Flushed(s') == Flushed(s) + 1
  {
    RxCanSend(cfg, s.rx);
    hide CanSend, KeepsOks, RxInv, TxInv, Flush, Counted;
  }

  lemma LeavePending(cfg: Config, s: System, lo: int, step: Step)
    requires Valid(cfg) && Collecting(cfg, s, lo) && Enabled(s, step) && (step.TxLeaves? || step.RxLeaves?)
    ensures var s' := Take(cfg, s, step); Pending(s') == Pending(s) && Flushed(s') == Flushed(s)
  {
    hide RxInv, TxInv;
  }

  lemma AckPending(cfg: Config, s: System, lo: int, step: Step)
    requires Valid(cfg) && Acknowledged(cfg, s, lo) && Enabled(s, step)
    ensures var s' := Take(cfg, s, step);
      && Pending(s') == Pending(s) - (if step.TxFinishes? then 1 else 0) && Flushed(s') == Flushed(s)
      && !step.RxFinishes?
  {
    AckEnables(cfg, s, lo, step);
    hide RxInv, TxInv;
  }

  lemma EndPending(cfg: Config, s: System, lo: int, step: Step)
    requires Valid(cfg) && Ended(cfg, s, lo) && Enabled(s, step)
    ensures var s' := Take(cfg, s, step);
      && Pending(s') == Pending(s) - (if step.TxFinishes? then 1 else 0) && Flushed(s') == Flushed(s)
      && !step.RxFinishes?
  {
    EndEnables(cfg, s, lo, step);
    hide RxEnd, TxInv;
  }

  /** The sender's completed windows follow the receiver's flushes, one acknowledgement behind at most. */
  lemma {:induction false} RoundsAgree(cfg: Config, steps: seq<Step>)
    requires Valid(cfg) && Run(cfg, steps)
    ensures RxRounds(steps) == Flushed(After(cfg, steps))
    ensures RxRounds(steps) == TxRounds(steps) + Pending(After(cfg, steps))
  {
    if steps != [] {
      hide Take, Enabled, Inv, Pending, Flushed;
      var before := steps[..|steps| - 1];
      RoundsAgree(cfg, before);
      RunInv(cfg, before);
      PendingStep(cfg, After(cfg, before), steps[|steps| - 1]);
    }
  }

  /** A completed transfer took both ends through the same number of windows. */
  lemma SameRounds(cfg: Config, steps: seq<Step>)
    requires Valid(cfg) && Over(cfg, steps) && HasTail(cfg) && Addressable(cfg)
    ensures TxRounds(steps) == RxRounds(steps) == TotalRounds(cfg)
  {
    hide NumChunks, TotalRounds, HasTail, CanStep, Ended, Pending, Flushed, After, Run, TxRounds, RxRounds;
    RoundsAgree(cfg, steps);
    CompletesExactly(cfg, steps);
    NonePending(cfg, After(cfg, steps), (Rounds(After(cfg, steps)) - 1) * cfg.window);
  }

  lemma NonePending(cfg: Config, s: System, lo: int)
    requires Valid(cfg) && Ended(cfg, s, lo) && TxFinished(s)
    ensures Pending(s) == 0 && Flushed(s) == Rounds(s)
  {
    hide TxInv, RxEnd;
  }

  // ----- every run is finite -----

  /** Windows still to come after r full ones. */
  lemma RoundsAhead(cfg: Config, r: int)
    requires Valid(cfg) && r >= 0
    ensures HasTail(cfg) && r * cfg.window < NumChunks(cfg) ==> r + 1 <= TotalRounds(cfg)
    ensures !HasTail(cfg) && r * cfg.window <= NumChunks(cfg) ==> r + 1 <= TotalRounds(cfg)
    ensures !HasTail(cfg) && r * cfg.window + cfg.window <= NumChunks(cfg) ==> r + 2 <= TotalRounds(cfg)
  {
    hide NumChunks, HasTail;
    var n, w := NumChunks(cfg), cfg.window;
    AtLeast(r, n + w - 1, w);
    AtLeast(r + 1, n + w - 1, w);
    AtLeast(r, n, w);
    AtLeast(r + 1, n, w);
    assert (r + 1) * w == r * w + w;
  }

  lemma AtLeast(q: int, x: nat, w: nat)
    requires w > 0
    ensures q * w <= x ==> q <= x / w
  {
    var z := x / w;
    assert x == z * w + x % w;
    assert (z + 1) * w == z * w + w;
    Times(z + 1, q, w);
  }

  lemma CollectLeft(cfg: Config, s: System, lo: int)
    requires Valid(cfg) && Collecting(cfg, s, lo) && Rounds(s) >= 0 && lo == Rounds(s) * cfg.window
    ensures StepsLeft(cfg, s) >= 0
  {
    RoundsAhead(cfg, Rounds(s));
    hide Split, Off, NumChunks, TotalRounds, HasTail, SenderLost, AllLoopback, Learned, EncodeList, KeepsOks,
      FullLength;
    SplitSmall(Plan(cfg), lo, Submits(s), s.rx.window, s.toRx);
  }

  lemma AckLeft(cfg: Config, s: System, lo: int)
    requires Valid(cfg) && Acknowledged(cfg, s, lo) && lo + cfg.window == Rounds(s) * cfg.window
    ensures StepsLeft(cfg, s) >= 0
  {
    AckBelow(cfg, s, lo);
    RoundsAhead(cfg, Rounds(s));
    hide RxInv, Off, NumChunks, TotalRounds, HasTail, SenderLost, AllLoopback, Learned, EncodeList, KeepsOks,
      FullLength;
  }

  lemma EndLeft(cfg: Config, s: System)
    requires Valid(cfg) && Ended(cfg, s, (Rounds(s) - 1) * cfg.window)
    ensures StepsLeft(cfg, s) >= 0
  {
    hide Ended, StepsLeft, NumChunks, TotalRounds, HasTail;
    EndLeftAt(cfg, s, (Rounds(s) - 1) * cfg.window);
    EndRounds(cfg, Rounds(s));
  }

  lemma EndLeftAt(cfg: Config, s: System, lo: int)
    requires Valid(cfg) && Ended(cfg, s, lo)
    ensures HasTail(cfg) && Rounds(s) >= 1 && lo < NumChunks(cfg) <= lo + cfg.window
    ensures Rounds(s) == TotalRounds(cfg) ==> StepsLeft(cfg, s) >= 0
  {
    EndFin(cfg, s, lo);
    EndRx(cfg, s, lo);
    EndSpan(cfg, s, lo);
    hide RxEnd, Off, NumChunks, TotalRounds, HasTail, SenderLost, AllLoopback, Learned, EncodeList, KeepsOks,
      FullLength;
  }

  lemma EndSpan(cfg: Config, s: System, lo: int)
    requires Valid(cfg) && Ended(cfg, s, lo)
    ensures lo < NumChunks(cfg) <= lo + cfg.window
  {
  }

  lemma ShakeLeftOver(cfg: Config, s: System)
    requires Valid(cfg) && Shaking(cfg, s)
    ensures StepsLeft(cfg, s) >= 0
  {
    hide Handshake, NumChunks, StepsLeft, FullLength;
    var p :| Handshake(cfg, s, p);
    ShakeLeft(cfg, s, p);
    HandshakeFits(cfg);
    AckMeansFound(cfg, s, p);
  }

  lemma AckMeansFound(cfg: Config, s: System, p: Phase)
    requires Valid(cfg) && Handshake(cfg, s, p)
    ensures p.AckSent? ==> !AllLoopback(cfg.txAddrs)
  {
    hide AllLoopback, Learned, EncodeList, NumChunks;
  }

  lemma HandshakeFits(cfg: Config)
    requires Valid(cfg)
    ensures FullLength(cfg) >= if AllLoopback(cfg.txAddrs) then 5 else 6
  {
    hide NumChunks, HasTail;
  }

  lemma LostLeftOver(cfg: Config, s: System)
    requires Valid(cfg) && (RxLost(cfg, s) || TxLost(cfg, s))
    ensures StepsLeft(cfg, s) == 0
  {
    hide AllLoopback, Learned, EncodeList, NumChunks, Off, KeepsOks, FullLength, TotalRounds, HasTail;
  }

  lemma LeftOverSteps(cfg: Config, s: System)
    requires Valid(cfg) && Inv(cfg, s)
    ensures StepsLeft(cfg, s) >= 0
  {
    hide Collecting, Acknowledged, Ended, Shaking, RxLost, TxLost, StepsLeft;
    if RxLost(cfg, s) || TxLost(cfg, s) {
      LostLeftOver(cfg, s);
    } else if Shaking(cfg, s) {
      ShakeLeftOver(cfg, s);
    } else if Collecting(cfg, s, Rounds(s) * cfg.window) {
      CollectRunning(cfg, s, Rounds(s) * cfg.window);
      CollectLeft(cfg, s, Rounds(s) * cfg.window);
    } else if Acknowledged(cfg, s, (Rounds(s) - 1) * cfg.window) {
      assert (Rounds(s) - 1) * cfg.window + cfg.window == Rounds(s) * cfg.window;
      AckLeft(cfg, s, (Rounds(s) - 1) * cfg.window);
    } else {
      EndLeft(cfg, s);
    }
  }

  /** Termination: no run is longer than FullLength, whatever the channel does. */
  lemma RunsAreBounded(cfg: Config, steps: seq<Step>)
    requires Valid(cfg) && Run(cfg, steps)
    ensures |steps| <= FullLength(cfg)
  {
    hide FullLength, StepsLeft, Inv, Take, Enabled;
    StepsAddUp(cfg, steps);
    RunInv(cfg, steps);
    LeftOverSteps(cfg, After(cfg, steps));
  }

  /** The transfer has succeeded: both ends have left their loops, and the sink is the source. */
  ghost predicate Succeeds(cfg: Config, steps: seq<Step>)
    requires Valid(cfg)
  {
    var s := After(cfg, steps);
    TxFinished(s) && RxFinished(s) && s.rx.sink == cfg.source
  }

  /**
    Success: a run that is over has succeeded if and only if the chunk size does not divide the file
    size, each end has an address other than the loopback, and FIN came last.
   */
  lemma SucceedsIff(cfg: Config, steps: seq<Step>)
    requires Valid(cfg) && Over(cfg, steps)
    ensures Succeeds(cfg, steps) <==> HasTail(cfg) && Addressable(cfg) && FinLast(cfg, steps)
  {
    hide NumChunks, After, Over, FinLast, Run, CanStep, Ended, HasTail, AllLoopback, RxFinished, TxFinished;
    OverRuns(cfg, steps);
    CompletesExactly(cfg, steps);
    if RxFinished(After(cfg, steps)) {
      DeliveredIffFinLast(cfg, steps);
    }
  }

  /**
    The program's own sizes: the same, and both ends have then gone through one window for each 245690 bytes
    of the file and one for the rest.
   */
  lemma ProgramDelivers(cfg: Config, steps: seq<Step>)
    requires Program(cfg) && Over(cfg, steps)
    ensures Succeeds(cfg, steps) <==> |cfg.source| % PAYLOAD != 0 && Addressable(cfg) && FinLast(cfg, steps)
    ensures Succeeds(cfg, steps) ==>
      RxRounds(steps) == TxRounds(steps) == (|cfg.source| + 245689) / 245690
  {
    hide NumChunks, TotalRounds, HasTail, After, Over, FinLast, Run, CanStep, Ended, AllLoopback, RxFinished, TxFinished, Succeeds;
    SucceedsIff(cfg, steps);
    TailByPayload(cfg);
    if Succeeds(cfg, steps) {
      SameRounds(cfg, steps);
      ProgramRounds(cfg);
    }
  }

  lemma TailByPayload(cfg: Config)
    requires Program(cfg)
    ensures HasTail(cfg) <==> |cfg.source| % PAYLOAD != 0
  {
    hide FullSlots;
  }

  lemma ProgramRounds(cfg: Config)
    requires Program(cfg) && HasTail(cfg)
    ensures TotalRounds(cfg) == (|cfg.source| + 245689) / 245690
  {
    hide FullSlots;
  }

  /** An end has its completion mark set just when it has been through a window. */
  lemma {:induction false} CompleteAfterWindow(cfg: Config, steps: seq<Step>)
    requires Valid(cfg) && Run(cfg, steps)
    ensures After(cfg, steps).tx.complete <==> TxRounds(steps) > 0
    ensures After(cfg, steps).rx.complete <==> RxRounds(steps) > 0
  {
    if steps != [] {
      hide Take, Enabled, Inv;
      var before, step := steps[..|steps| - 1], steps[|steps| - 1];
      CompleteAfterWindow(cfg, before);
      RunInv(cfg, before);
      CompleteStep(cfg, After(cfg, before), step);
    }
  }

  lemma CompleteStep(cfg: Config, s: System, step: Step)
    requires Valid(cfg) && Inv(cfg, s) && Enabled(s, step)
    ensures Take(cfg, s, step).tx.complete == (s.tx.complete || step.TxFinishes?)
    ensures Take(cfg, s, step).rx.complete == (s.rx.complete || step.RxFinishes?)
  {
    hide Inv, RxDone, RxReceive, Learned;
    TxMark(cfg, s, step);
    if step.RxFinishes? {
      FinishCompletes(cfg, s);
    } else {
      RxMark(cfg, s, step);
    }
  }

  lemma TxMark(cfg: Config, s: System, step: Step)
    requires Valid(cfg)
    ensures Take(cfg, s, step).tx.complete == (s.tx.complete || step.TxFinishes?)
  {
    hide RxOpen, RxConnected, RxDone, RxReceive, TxSubmit, Learned, EncodeList;
    SubmitMark(cfg, s.tx);
  }

  lemma SubmitMark(cfg: Config, tx: Tx)
    ensures TxSubmit(cfg, tx).now.complete == tx.complete
  {
  }

  lemma RxMark(cfg: Config, s: System, step: Step)
    requires Valid(cfg) && !step.RxFinishes?
    ensures Take(cfg, s, step).rx.complete == s.rx.complete
  {
    hide RxOpen, RxConnected, RxReceive, RxDone, TxSetup, TxSubmit, TxDone, Learned, EncodeList, IsPayload;
    match step
    case RxOpens => OpenMark(s.rx);
    case RxConnects => ConnectMark(cfg, s.rx);
    case RxReceives(c) => ReceiveMark(s.rx, c);
    case _ =>
  }

  lemma OpenMark(rx: Rx)
    ensures RxOpen(rx).now.complete == rx.complete
  {
  }

  lemma ConnectMark(cfg: Config, rx: Rx)
    requires Valid(cfg)
    ensures RxConnected(cfg, rx).now.complete == rx.complete
  {
    hide EncodeList, NumChunks;
  }

  lemma ReceiveMark(rx: Rx, c: Capsule)
    ensures RxReceive(rx, c).complete == rx.complete
  {
    hide MaxKey, IsFin, IsPayload;
  }

  lemma FinishCompletes(cfg: Config, s: System)
    requires Valid(cfg) && Inv(cfg, s) && Enabled(s, RxFinishes)
    ensures RxDone(cfg, s.rx).Sent? && RxDone(cfg, s.rx).now.complete
  {
    hide Collecting, Acknowledged, Ended, RxLost, TxLost, Handshake, RxConnection, Flush, Counted, CanSend;
    if RxLost(cfg, s) || TxLost(cfg, s) {
      LostQuiet(cfg, s);
    } else if Shaking(cfg, s) {
      var p :| Handshake(cfg, s, p);
      ShakeEnables(cfg, s, p, RxFinishes);
    } else if Collecting(cfg, s, Rounds(s) * cfg.window) {
      Connection(cfg, s, Rounds(s) * cfg.window);
      RxCanSend(cfg, s.rx);
    } else if Acknowledged(cfg, s, (Rounds(s) - 1) * cfg.window) {
      AckEnables(cfg, s, (Rounds(s) - 1) * cfg.window, RxFinishes);
    } else {
      EndEnables(cfg, s, (Rounds(s) - 1) * cfg.window, RxFinishes);
    }
  }

  lemma Connection(cfg: Config, s: System, lo: int)
    requires Valid(cfg) && Collecting(cfg, s, lo)
    ensures RxConnection(cfg, s.rx)
  {
    hide RxConnection, RxInv, TxInv;
  }

  lemma OverRuns(cfg: Config, steps: seq<Step>)
    requires Valid(cfg) && Over(cfg, steps)
    ensures Run(cfg, steps)
  {
  }
}
