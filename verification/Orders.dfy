/**
  The runs there are: every run goes on to an end, some run puts FIN last, and, unless FIN is alone in
  its window, some run has FIN overtake another capsule. With them, for which transfers every order of
  delivery succeeds, and for which some order does.
 */
module Orders {
  import opened Capsules
  import opened Addresses
  import opened Chunks
  import opened Gateway
  import opened Session
  import opened Windows
  import opened Protocol
  import opened Delivery

  // ----- every run goes on to an end -----

  /** The step does not let FIN overtake another capsule. */
  predicate Polite(s: System, step: Step) {
    step.RxReceives? && IsFin(step.c.header) ==> s.toRx == multiset{step.c}
  }

  lemma Longer(cfg: Config, steps: seq<Step>, step: Step)
    requires Valid(cfg) && Run(cfg, steps) && Enabled(After(cfg, steps), step)
    ensures Run(cfg, steps + [step])
    ensures After(cfg, steps + [step]) == Take(cfg, After(cfg, steps), step)
    ensures FinLast(cfg, steps + [step]) <==> FinLast(cfg, steps) && Polite(After(cfg, steps), step)
  {
    hide Take, Enabled, IsFin;
    assert (steps + [step])[..|steps|] == steps;
  }

  /** Every run goes on to one that is over, and can keep FIN last if it is so far. */
  lemma {:induction false} Finishes(cfg: Config, steps: seq<Step>) returns (more: seq<Step>)
    requires Valid(cfg) && Run(cfg, steps)
    ensures Over(cfg, steps + more)
    ensures FinLast(cfg, steps) ==> FinLast(cfg, steps + more)
    decreases StepsLeft(cfg, After(cfg, steps))
  {
    hide Take, Enabled, Inv, StepsLeft, After, Run, FinLast, CanStep, Polite;
    var s := After(cfg, steps);
    RunInv(cfg, steps);
    LeftOverSteps(cfg, s);
    if CanStep(s) {
      var step := PoliteStep(cfg, s);
      Longer(cfg, steps, step);
      StepCounts(cfg, s, step);
      var rest := Finishes(cfg, steps + [step]);
      more := [step] + rest;
      assert steps + more == steps + [step] + rest;
    } else {
      more := [];
      assert steps + more == steps;
    }
  }

  lemma PoliteStep(cfg: Config, s: System) returns (step: Step)
    requires Valid(cfg) && Inv(cfg, s) && CanStep(s)
    ensures Enabled(s, step) && Polite(s, step)
  {
    hide Inv, Enabled, IsFin;
    step :| Enabled(s, step);
    if step.RxReceives? && IsFin(step.c.header) && s.toRx != multiset{step.c} {
      Receiving(cfg, s, step.c);
      var d := Another(cfg, s, Rounds(s) * cfg.window, step.c);
      step := RxReceives(d);
    }
  }

  lemma Receiving(cfg: Config, s: System, c: Capsule)
    requires Valid(cfg) && Inv(cfg, s) && Enabled(s, RxReceives(c))
    ensures Collecting(cfg, s, Rounds(s) * cfg.window)
  {
    hide Collecting, Acknowledged, Ended, RxLost, TxLost, Handshake;
    if RxLost(cfg, s) || TxLost(cfg, s) {
      LostQuiet(cfg, s);
    } else if Shaking(cfg, s) {
      var p :| Handshake(cfg, s, p);
      ShakeTakes(cfg, s, p, c);
    } else if Collecting(cfg, s, Rounds(s) * cfg.window) {
    } else if Acknowledged(cfg, s, (Rounds(s) - 1) * cfg.window) {
      AckEnables(cfg, s, (Rounds(s) - 1) * cfg.window, RxReceives(c));
    } else {
      EndEnables(cfg, s, (Rounds(s) - 1) * cfg.window, RxReceives(c));
    }
  }

  lemma ShakeTakes(cfg: Config, s: System, p: Phase, c: Capsule)
    requires Valid(cfg) && Handshake(cfg, s, p)
    ensures !Enabled(s, RxReceives(c))
  {
    hide Learned, EncodeList, AllLoopback, NumChunks;
  }

  /** There is one FIN capsule under way at most: another capsule that could be taken is not FIN. */
  lemma Another(cfg: Config, s: System, lo: int, c: Capsule) returns (d: Capsule)
    requires Valid(cfg) && Collecting(cfg, s, lo) && Enabled(s, RxReceives(c))
    requires IsFin(c.header) && s.toRx != multiset{c}
    ensures Enabled(s, RxReceives(d)) && !IsFin(d.header)
  {
    hide TxInv, Off, Learned, EncodeList, AllLoopback, KeepsOks, Plan, HasTail, IsFin, Split, NumChunks;
    var plan := Plan(cfg);
    PlanNumbered(cfg);
    SplitFind(plan, lo, Submits(s), s.rx.window, s.toRx, c);
    d := Besides(s.toRx, c);
    SplitFind(plan, lo, Submits(s), s.rx.window, s.toRx, d);
  }

  lemma Besides(m: multiset<Capsule>, c: Capsule) returns (d: Capsule)
    requires m[c] == 1 && m != multiset{c}
    ensures d in m && d != c
  {
    var rest := m - multiset{c};
    assert m == rest + multiset{c};
    d :| d in rest;
  }

  /** If FIN has been last in a run, it has been last in every beginning of it. */
  lemma {:induction false} FinLastBefore(cfg: Config, steps: seq<Step>, more: seq<Step>)
    requires Valid(cfg) && FinLast(cfg, steps + more)
    ensures FinLast(cfg, steps)
    decreases |more|
  {
    if more == [] {
      assert steps + more == steps;
    } else {
      hide After, IsFin;
      var front := more[..|more| - 1];
      assert (steps + more)[..|steps + more| - 1] == steps + front;
      FinLastBefore(cfg, steps, front);
    }
  }

  // ----- FIN overtaking -----

  /** The receiver takes nothing of a window that is still being sent. */
  predicate Eager(s: System) {
    s.tx.next == Done || s.rx.window == map[]
  }

  /** Every chunk has been sent, and those of the last window are all under way. */
  ghost predicate AllSent(cfg: Config, s: System)
    requires Valid(cfg)
  {
    Collecting(cfg, s, Rounds(s) * cfg.window) && s.tx.fin && s.rx.window == map[]
  }

  /** Until the last window has been sent, the sender can go first. */
  lemma EagerStep(cfg: Config, s: System) returns (step: Step)
    requires Valid(cfg) && Inv(cfg, s) && HasTail(cfg) && Addressable(cfg) && Eager(s) && !s.tx.fin
    ensures Enabled(s, step)
    ensures if Take(cfg, s, step).tx.fin then AllSent(cfg, Take(cfg, s, step)) else Eager(Take(cfg, s, step))
  {
    hide Collecting, Acknowledged, Ended, RxLost, TxLost, Shaking, Take, Enabled, AllSent, Eager, HasTail;
    if RxLost(cfg, s) || TxLost(cfg, s) {
      NotLost(cfg, s);
    } else if Shaking(cfg, s) {
      step := EagerShake(cfg, s);
    } else if Collecting(cfg, s, Rounds(s) * cfg.window) {
      step := EagerCollect(cfg, s, Rounds(s) * cfg.window);
    } else if Acknowledged(cfg, s, (Rounds(s) - 1) * cfg.window) {
      step := EagerAck(cfg, s, (Rounds(s) - 1) * cfg.window);
    } else {
      EndFin(cfg, s, (Rounds(s) - 1) * cfg.window);
    }
  }

  lemma NotLost(cfg: Config, s: System)
    requires Valid(cfg) && Addressable(cfg)
    ensures !RxLost(cfg, s) && !TxLost(cfg, s)
  {
    hide AllLoopback, Learned, EncodeList, NumChunks, Off, KeepsOks;
  }

  lemma EagerShake(cfg: Config, s: System) returns (step: Step)
    requires Valid(cfg) && Addressable(cfg) && Shaking(cfg, s)
    ensures Enabled(s, step) && !Take(cfg, s, step).tx.fin && Eager(Take(cfg, s, step))
  {
    hide Handshake, Take, Enabled, Eager, Begun, RxLost, AllLoopback;
    ShakeProgress(cfg, s);
    step :| Enabled(s, step);
    var p :| Handshake(cfg, s, p);
    ShakeStep(cfg, s, p, step);
    if p.AckSent? {
      BegunEager(cfg, Take(cfg, s, step));
    } else {
      ShakeEager(cfg, Take(cfg, s, step), NextPhase(p));
    }
  }

  lemma BegunEager(cfg: Config, s: System)
    requires Valid(cfg) && Begun(cfg, s)
    ensures !s.tx.fin && Eager(s)
  {
    hide AllLoopback, Learned, EncodeList, NumChunks;
  }

  lemma ShakeEager(cfg: Config, s: System, p: Phase)
    requires Valid(cfg) && Handshake(cfg, s, p)
    ensures !s.tx.fin && Eager(s)
  {
    hide AllLoopback, Learned, EncodeList, NumChunks;
  }

  lemma EagerCollect(cfg: Config, s: System, lo: int) returns (step: Step)
    requires Valid(cfg) && HasTail(cfg) && Addressable(cfg)
    requires Collecting(cfg, s, lo) && lo == Rounds(s) * cfg.window && Eager(s) && !s.tx.fin
    ensures Enabled(s, step)
    ensures if Take(cfg, s, step).tx.fin then AllSent(cfg, Take(cfg, s, step)) else Eager(Take(cfg, s, step))
  {
    hide RxInv, Split, Off, NumChunks, AllLoopback, Learned, EncodeList, KeepsOks, Plan, HasTail, AllSent;
    if s.tx.next == Closed {
      if s.tx.winSize > 0 {
        step := TxSubmits;
        EagerSubmit(cfg, s, lo);
      } else {
        step := TxLeaves;
      }
    } else {
      step := RxGoesOn(cfg, s, lo);
    }
  }

  lemma EagerSubmit(cfg: Config, s: System, lo: int)
    requires Valid(cfg) && HasTail(cfg) && Addressable(cfg)
    requires Collecting(cfg, s, lo) && lo == Rounds(s) * cfg.window && Enabled(s, TxSubmits) && s.rx.window == map[]
    ensures if TakeSubmit(cfg, s).tx.fin then AllSent(cfg, TakeSubmit(cfg, s)) else Eager(TakeSubmit(cfg, s))
  {
    hide Collecting, TakeSubmit, AllLoopback, HasTail, Enabled, NumChunks;
    CollectSubmits(cfg, s, lo);
  }

  /** The receiver can go on when the sender waits for an acknowledgement. */
  lemma RxGoesOn(cfg: Config, s: System, lo: int) returns (step: Step)
    requires Valid(cfg) && HasTail(cfg) && Collecting(cfg, s, lo) && s.tx.next == Done
    ensures Enabled(s, step) && Take(cfg, s, step).tx == s.tx
  {
    hide Take, Split, Off, NumChunks, HasTail, Plan, AllLoopback, Learned, EncodeList, KeepsOks;
    if s.rx.next == Done {
      step := RxFinishes;
      hide RxDone;
    } else if s.rx.winSize == 0 {
      step := RxLeaves;
    } else if s.toRx != multiset{} {
      var c :| c in s.toRx;
      step := RxReceives(c);
    } else {
      Starved(cfg, s, lo);
    }
    TxSame(cfg, s, step);
  }

  lemma TxSame(cfg: Config, s: System, step: Step)
    requires Valid(cfg) && (step.RxFinishes? || step.RxLeaves? || step.RxReceives?)
    ensures Take(cfg, s, step).tx == s.tx
  {
    hide RxDone, RxReceive;
  }

  lemma EagerAck(cfg: Config, s: System, lo: int) returns (step: Step)
    requires Valid(cfg) && Acknowledged(cfg, s, lo)
    ensures Enabled(s, step) && !Take(cfg, s, step).tx.fin && Eager(Take(cfg, s, step))
  {
    AckFound(cfg, s, lo);
    hide RxInv, TxInv, KeepsOks, AllLoopback, Learned, EncodeList, SenderLost;
    step := if s.tx.next == Closed then TxLeaves else TxFinishes(Ok(cfg, s.rx.capsuleId - 1));
  }

  /** The sender can have sent its last window before the receiver takes any of it. */
  lemma {:induction false} SendsAhead(cfg: Config, steps: seq<Step>) returns (more: seq<Step>)
    requires Valid(cfg) && HasTail(cfg) && Addressable(cfg) && Run(cfg, steps)
    requires Eager(After(cfg, steps)) && !After(cfg, steps).tx.fin
    ensures Run(cfg, steps + more) && AllSent(cfg, After(cfg, steps + more))
    decreases StepsLeft(cfg, After(cfg, steps))
  {
    hide Take, Enabled, Inv, StepsLeft, After, Run, FinLast, AllSent, Eager, HasTail, AllLoopback;
    var s := After(cfg, steps);
    RunInv(cfg, steps);
    LeftOverSteps(cfg, s);
    var step := EagerStep(cfg, s);
    Longer(cfg, steps, step);
    StepCounts(cfg, s, step);
    if Take(cfg, s, step).tx.fin {
      more := [step];
    } else {
      var rest := SendsAhead(cfg, steps + [step]);
      more := [step] + rest;
      assert steps + more == steps + [step] + rest;
    }
  }

  /** FIN is the only chunk of the last window. */
  predicate FinAlone(cfg: Config)
    requires Valid(cfg)
  {
    (NumChunks(cfg) - 1) % cfg.window == 0
  }

  /** With the whole last window under way, FIN can be taken ahead of another capsule. */
  lemma FinCanOvertake(cfg: Config, s: System) returns (c: Capsule)
    requires Valid(cfg) && HasTail(cfg) && AllSent(cfg, s) && !FinAlone(cfg)
    ensures Enabled(s, RxReceives(c)) && !Polite(s, RxReceives(c))
  {
    hide Off, Learned, EncodeList, AllLoopback, KeepsOks, Plan, HasTail, IsFin, Split, NumChunks;
    var lo, n := Rounds(s) * cfg.window, NumChunks(cfg);
    PlanNumbered(cfg);
    SplitSmall(Plan(cfg), lo, n, s.rx.window, s.toRx);
    LastUnderWay(Plan(cfg), lo, s.toRx);
    c := Plan(cfg)[n - 1];
    if n - 1 == lo {
      Remainder(Rounds(s), 0, cfg.window);
    }
  }

  lemma LastUnderWay(plan: seq<Capsule>, lo: nat, toRx: multiset<Capsule>)
    requires lo < |plan| && Split(plan, lo, |plan|, map[], toRx)
    ensures plan[|plan| - 1] in toRx && |toRx| == |plan| - lo
  {
    assert toRx[plan[|plan| - 1]] == 1;
  }

  /** Unless FIN is alone in its window, some run that is over has had it overtake another capsule. */
  lemma Overtakes(cfg: Config) returns (steps: seq<Step>)
    requires Valid(cfg) && HasTail(cfg) && Addressable(cfg) && !FinAlone(cfg)
    ensures Over(cfg, steps) && RxFinished(After(cfg, steps)) && !FinLast(cfg, steps)
  {
    var ahead := SendsAhead(cfg, []);
    assert [] + ahead == ahead;
    hide Take, Enabled, After, Run, FinLast, AllSent, HasTail, AllLoopback, FinAlone, Polite, CanStep, Over, NumChunks,
      RxFinished, TxFinished, Ended, TotalRounds, FullLength;
    var c := FinCanOvertake(cfg, After(cfg, ahead));
    Longer(cfg, ahead, RxReceives(c));
    var more := Finishes(cfg, ahead + [RxReceives(c)]);
    steps := ahead + [RxReceives(c)] + more;
    if FinLast(cfg, steps) {
      FinLastBefore(cfg, ahead + [RxReceives(c)], more);
    }
    CompletesExactly(cfg, steps);
  }

  /** If FIN is alone in its window, it comes last in every run. */
  lemma AloneComesLast(cfg: Config, steps: seq<Step>)
    requires Valid(cfg) && HasTail(cfg) && FinAlone(cfg) && Run(cfg, steps)
    ensures FinLast(cfg, steps)
  {
    hide After, Run, FinLast, HasTail, FinAlone, Inv;
    RunInv(cfg, steps);
    FinLastIff(cfg, steps);
    NothingBehind(cfg, After(cfg, steps));
  }

  lemma NothingBehind(cfg: Config, s: System)
    requires Valid(cfg) && HasTail(cfg) && FinAlone(cfg) && Inv(cfg, s)
    ensures s.rx.fin ==> s.toRx == multiset{}
  {
    hide HasTail, FinAlone, Collecting, Ended, RxInv, TxInv, KeepsOks, NumChunks, Learned, EncodeList, AllLoopback, Off;
    if s.rx.fin {
      if Collecting(cfg, s, Rounds(s) * cfg.window) {
        CollectBehind(cfg, s, Rounds(s) * cfg.window);
      } else if Ended(cfg, s, (Rounds(s) - 1) * cfg.window) {
        EndBehind(cfg, s, (Rounds(s) - 1) * cfg.window);
      }
    }
  }

  /** The window of a FIN that is alone in it starts at the last chunk. */
  lemma LastStart(cfg: Config, r: int, lo: int)
    requires Valid(cfg) && FinAlone(cfg) && lo == r * cfg.window && 0 <= lo < NumChunks(cfg) <= lo + cfg.window
    ensures lo == NumChunks(cfg) - 1
  {
    hide NumChunks;
    assert r >= 0 by {
      if r < 0 {
        Times(r, -1, cfg.window);
      }
    }
    Remainder(r, NumChunks(cfg) - 1 - lo, cfg.window);
  }

  lemma CollectBehind(cfg: Config, s: System, lo: int)
    requires Valid(cfg) && FinAlone(cfg) && Collecting(cfg, s, lo) && lo == Rounds(s) * cfg.window && s.rx.fin
    ensures s.toRx == multiset{}
  {
    hide FinAlone, KeepsOks, NumChunks, Learned, EncodeList, AllLoopback, Off, Split, Plan, HasTail;
    FiledSent(Plan(cfg), lo, Submits(s), s.rx.window, s.toRx);
    LastStart(cfg, Rounds(s), lo);
    SplitSmall(Plan(cfg), lo, Submits(s), s.rx.window, s.toRx);
  }

  lemma EndBehind(cfg: Config, s: System, lo: int)
    requires Valid(cfg) && FinAlone(cfg) && Ended(cfg, s, lo) && lo == (Rounds(s) - 1) * cfg.window
    ensures s.toRx == multiset{}
  {
    hide FinAlone, KeepsOks, NumChunks, Learned, EncodeList, AllLoopback, Off, Plan, HasTail, TxInv;
    LastStart(cfg, Rounds(s) - 1, lo);
  }

  // ----- which transfers succeed -----

  /** The full chunks of a file: all of them, or all but the short last one. */
  function FullChunks(cfg: Config): nat
    requires cfg.chunk > 0
  {
    |cfg.source| / cfg.chunk
  }

  lemma FullOrAll(cfg: Config)
    requires Valid(cfg)
    ensures FullChunks(cfg) == if HasTail(cfg) then NumChunks(cfg) - 1 else NumChunks(cfg)
  {
    var size, p := |cfg.source|, cfg.chunk;
    assert size == size / p * p + size % p;
    if HasTail(cfg) {
      assert size + p - 1 == (size / p + 1) * p + (size % p - 1);
      Divides(size % p - 1, size / p + 1, p);
    } else {
      assert size + p - 1 == size / p * p + (p - 1);
      Divides(p - 1, size / p, p);
    }
  }

  /** What decides whether the sink of a run that is over is the source. */
  lemma SinkAtTheEnd(cfg: Config, steps: seq<Step>)
    requires Valid(cfg) && Over(cfg, steps)
    ensures After(cfg, steps).rx.sink == cfg.source <==>
      cfg.source == [] ||
      (Addressable(cfg) && if HasTail(cfg) then FinLast(cfg, steps) else NumChunks(cfg) % cfg.window == 0)
  {
    hide After, Over, FinLast, Run, CanStep, Ended, HasTail, AllLoopback, RxFinished, TxFinished, NumChunks, Off;
    OverRuns(cfg, steps);
    TailChunks(cfg);
    CompletesExactly(cfg, steps);
    AbortsExactly(cfg, steps);
    DiesUnaddressed(cfg, steps);
    if RxFinished(After(cfg, steps)) {
      DeliveredIffFinLast(cfg, steps);
    }
  }

  /** Some run is over and has kept FIN last. */
  lemma SomeEnd(cfg: Config) returns (steps: seq<Step>)
    requires Valid(cfg)
    ensures Over(cfg, steps) && FinLast(cfg, steps)
  {
    steps := Finishes(cfg, []);
    assert [] + steps == steps;
  }

  /**
    Every order of delivery leaves the source in the sink if and only if the source is empty, or each end
    has an address other than the loopback and the file's full chunks make up whole windows.
   */
  lemma EveryOrderDelivers(cfg: Config)
    requires Valid(cfg)
    ensures (forall steps :: Over(cfg, steps) ==> After(cfg, steps).rx.sink == cfg.source) <==>
      cfg.source == [] || (Addressable(cfg) && FullChunks(cfg) % cfg.window == 0)
  {
    hide After, Over, FinLast, HasTail, AllLoopback, NumChunks, FullChunks;
    FullOrAll(cfg);
    forall steps | Over(cfg, steps)
      ensures HasTail(cfg) && FinAlone(cfg) ==> FinLast(cfg, steps)
      ensures After(cfg, steps).rx.sink == cfg.source <==>
        cfg.source == [] ||
        (Addressable(cfg) && if HasTail(cfg) then FinLast(cfg, steps) else NumChunks(cfg) % cfg.window == 0)
    {
      SinkAtTheEnd(cfg, steps);
      OverRuns(cfg, steps);
      if HasTail(cfg) && FinAlone(cfg) {
        AloneComesLast(cfg, steps);
      }
    }
    var end := SomeEnd(cfg);
    assert Over(cfg, end);
    if HasTail(cfg) && Addressable(cfg) && !FinAlone(cfg) {
      var bad := Overtakes(cfg);
      assert Over(cfg, bad);
    }
  }

  /**
    Some order of delivery does if and only if the source is empty, or each end has such an address and the
    file has a tail or its full chunks make up whole windows.
   */
  lemma SomeOrderDelivers(cfg: Config)
    requires Valid(cfg)
    ensures (exists steps :: Over(cfg, steps) && After(cfg, steps).rx.sink == cfg.source) <==>
      cfg.source == [] || (Addressable(cfg) && (HasTail(cfg) || FullChunks(cfg) % cfg.window == 0))
  {
    hide After, Over, FinLast, HasTail, AllLoopback, NumChunks, FullChunks;
    FullOrAll(cfg);
    var end := SomeEnd(cfg);
    SinkAtTheEnd(cfg, end);
    if steps :| Over(cfg, steps) && After(cfg, steps).rx.sink == cfg.source {
      SinkAtTheEnd(cfg, steps);
    }
  }

  /** The transfer succeeds at both ends in every order of delivery if and only if all of these hold. */
  lemma EveryOrderSucceeds(cfg: Config)
    requires Valid(cfg)
    ensures (forall steps :: Over(cfg, steps) ==> Succeeds(cfg, steps)) <==>
      HasTail(cfg) && Addressable(cfg) && FullChunks(cfg) % cfg.window == 0
  {
    hide After, Over, FinLast, HasTail, AllLoopback, NumChunks, Succeeds, FullChunks;
    FullOrAll(cfg);
    forall steps | Over(cfg, steps)
      ensures HasTail(cfg) && FinAlone(cfg) ==> FinLast(cfg, steps)
      ensures Succeeds(cfg, steps) <==> HasTail(cfg) && Addressable(cfg) && FinLast(cfg, steps)
    {
      SucceedsIff(cfg, steps);
      OverRuns(cfg, steps);
      if HasTail(cfg) && FinAlone(cfg) {
        AloneComesLast(cfg, steps);
      }
    }
    var end := SomeEnd(cfg);
    assert Over(cfg, end);
    if HasTail(cfg) && Addressable(cfg) && !FinAlone(cfg) {
      var bad := Overtakes(cfg);
      assert Over(cfg, bad);
    }
  }
}
