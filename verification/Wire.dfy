/**
  What goes out on the wire: on every run, each datagram of either end, byte for byte, in the order in which
  it is sent, and the listed address it goes to.
 */
module Wire {
  import opened Capsules
  import opened Addresses
  import opened Chunks
  import opened Gateway
  import opened Session
  import opened Windows
  import opened Protocol
  import opened Delivery
  import opened Wrappers

  // ----- the bytes -----

  function Low(x: nat): U8 {
    x % 256
  }

  function High(x: nat): U8 {
    x / 256 % 256
  }

  /** The addresses of a list one after the other. */
  function Texts(a: seq<Slot>): seq<U8> {
    if a == [] then [] else a[0].text + Texts(a[1..])
  }

  /** RX's hello: payload type, and nothing else. */
  function HelloBytes(): seq<U8> {
    [0, 0, 0, 0, 0, 0, 0, 0, 3, 0, 0, 0, 0, 0]
  }

  /** TX's answer: 15 bytes for each of its addresses. */
  function HiBytes(cfg: Config): seq<U8> {
    var size := 15 * |cfg.txAddrs|;
    [0, 0, 0, 0, 0, 0, Low(size), High(size), 0, 0, 0, 0, 0, 0] + Texts(cfg.txAddrs)
  }

  /** RX's acknowledgement of the handshake: connection 1, id 1, the window size, and its addresses. */
  function AckBytes(cfg: Config): seq<U8>
    requires Valid(cfg)
  {
    var size := 15 * |cfg.rxAddrs|;
    [0, 0, 1, 0, 1, 0, Low(size), High(size), 16 * cfg.window, 0, 0, 0, 0, 0] + Texts(cfg.rxAddrs)
  }

  /** TX's chunk k: id k + 1, payload type, FIN just if it is short, and the file's bytes from k chunks on. */
  function ChunkBytes(cfg: Config, k: nat): seq<U8>
    requires k * cfg.chunk <= |cfg.source|
  {
    var rest := cfg.source[k * cfg.chunk..];
    var bytes := if |rest| < cfg.chunk then rest else rest[..cfg.chunk];
    [0, 0, 1, 0, Low(k + 1), High(k + 1), Low(|bytes|), High(|bytes|), 3, if |bytes| < cfg.chunk then 1 else 0,
     0, 0, 0, 0] + bytes
  }

  /** RX's acknowledgement of window j: id j + 2, the window size, and nothing else. */
  function OkBytes(cfg: Config, j: nat): seq<U8>
    requires Valid(cfg)
  {
    [0, 0, 1, 0, Low(j + 2), High(j + 2), 0, 0, 16 * cfg.window, 0, 0, 0, 0, 0]
  }

  lemma LowHigh(x: nat)
    requires x < 0x1_0000
    ensures x % 0x100 == Low(x) && x / 0x100 == High(x)
  {
  }

  lemma Wrapped(x: nat)
    ensures x % 0x1_0000 % 0x100 == Low(x) && x % 0x1_0000 / 0x100 == High(x)
  {
    var q, r := x / 0x1_0000, x % 0x1_0000;
    assert x == 256 * (256 * q + r / 256) + r % 256;
    assert x / 256 == 256 * q + r / 256;
  }

  lemma EncodeMore(a: seq<Slot>, s: Slot)
    requires FullSlots(a) && |s.text| == SLOT
    ensures EncodeList(a + [s]) == EncodeList(a) + s.text
  {
    assert (a + [s])[..|a|] == a;
  }

  lemma {:induction false} TextsAre(a: seq<Slot>, b: seq<Slot>)
    requires FullSlots(a) && FullSlots(b)
    ensures EncodeList(a + b) == EncodeList(a) + Texts(b)
    decreases |b|
  {
    if b == [] {
      assert a + b == a;
    } else {
      TextsAre(a + [b[0]], b[1..]);
      assert a + b == a + [b[0]] + b[1..];
      EncodeMore(a, b[0]);
      hide EncodeList, FullSlots;
    }
  }

  lemma ListBytes(a: seq<Slot>)
    requires FullSlots(a)
    ensures EncodeList(a) == Texts(a)
  {
    TextsAre([], a);
    assert [] + a == a;
  }

  lemma HelloFrame()
    ensures Frame(Hello()) == HelloBytes()
  {
  }

  lemma HiFrame(cfg: Config)
    requires Valid(cfg)
    ensures Frame(Hi(cfg)) == HiBytes(cfg)
  {
    hide Texts, EncodeList, FullSlots, NumChunks, Low, High;
    ListBytes(cfg.txAddrs);
    LowHigh(15 * |cfg.txAddrs|);
  }

  lemma AckFrame(cfg: Config)
    requires Valid(cfg)
    ensures Frame(Ack(cfg)) == AckBytes(cfg)
  {
    hide Texts, EncodeList, FullSlots, NumChunks, Low, High;
    ListBytes(cfg.rxAddrs);
    LowHigh(15 * |cfg.rxAddrs|);
  }

  lemma ChunkFrame(cfg: Config, k: nat)
    requires Valid(cfg) && k < NumChunks(cfg)
    ensures k * cfg.chunk <= |cfg.source| && Frame(Chunk(cfg, k)) == ChunkBytes(cfg, k)
  {
    OffEnds(cfg, k);
    OffStep(cfg, k);
    ChunkSize(cfg, k);
    hide NumChunks, HasTail;
    LowHigh(k + 1);
    LowHigh(|Bytes(cfg, k)|);
    var rest := cfg.source[k * cfg.chunk..];
    assert Bytes(cfg, k) == if |rest| < cfg.chunk then rest else rest[..cfg.chunk];
  }

  lemma OkFrame(cfg: Config, j: nat)
    requires Valid(cfg)
    ensures Frame(Ok(cfg, j + 2)) == OkBytes(cfg, j)
  {
    Wrapped(j + 2);
    hide Low, High, NumChunks, FullSlots;
  }

  // ----- the logs -----

  function Made<End>(o: Outcome<End>): seq<Datagram> {
    if o.Sent? then [Datagram(o.capsule, o.to)] else []
  }

  /** The datagram TX sends in a step, if any. */
  function TxMade(cfg: Config, s: System, step: Step): seq<Datagram>
    requires Valid(cfg)
  {
    match step
    case TxSetsUp => Made(TxSetup(cfg, s.tx))
    case TxSubmits => Made(TxSubmit(cfg, s.tx))
    case _ => []
  }

  /** The datagram RX sends in a step, if any. */
  ghost function RxMade(cfg: Config, s: System, step: Step): seq<Datagram>
    requires Valid(cfg)
  {
    match step
    case RxOpens => Made(RxOpen(s.rx))
    case RxConnects => Made(RxConnected(cfg, s.rx))
    case RxFinishes => Made(RxDone(cfg, s.rx))
    case _ => []
  }

  /** The datagrams TX has sent in a run. */
  ghost function TxSent(cfg: Config, steps: seq<Step>): seq<Datagram>
    requires Valid(cfg)
  {
    if steps == [] then []
    else
      var before := steps[..|steps| - 1];
      TxSent(cfg, before) + TxMade(cfg, After(cfg, before), steps[|steps| - 1])
  }

  /** The datagrams RX has sent in a run. */
  ghost function RxSent(cfg: Config, steps: seq<Step>): seq<Datagram>
    requires Valid(cfg)
  {
    if steps == [] then []
    else
      var before := steps[..|steps| - 1];
      RxSent(cfg, before) + RxMade(cfg, After(cfg, before), steps[|steps| - 1])
  }

  /** A datagram that goes to place i mod n of the n addresses of the list that are not loopbacks. */
  predicate GoesRound(d: Datagram, a: seq<Slot>, i: nat) {
    |Others(a)| > 0 && d.to == Listed(i % |Others(a)|)
  }

  // ----- what TX sends -----

  /** The datagram that TX numbers i. */
  predicate TxRight(cfg: Config, i: nat, d: Datagram)
    requires Valid(cfg)
  {
    if i == 0 then d == Datagram(Hi(cfg), LastPeer)
    else i <= NumChunks(cfg) && d.capsule == Chunk(cfg, i - 1) && GoesRound(d, cfg.rxAddrs, i)
  }

  /** What TX has sent when it stands like this. */
  ghost predicate TxLogged(cfg: Config, tx: Tx, log: seq<Datagram>)
    requires Valid(cfg)
  {
    && |log| == (if tx.crashed then tx.capsuleId - 1 else tx.capsuleId)
    && forall i :: 0 <= i < |log| ==> TxRight(cfg, i, log[i])
  }

  lemma TxLogStep(cfg: Config, s: System, step: Step, log: seq<Datagram>)
    requires Valid(cfg) && Inv(cfg, s) && Enabled(s, step) && TxLogged(cfg, s.tx, log)
    ensures TxLogged(cfg, Take(cfg, s, step).tx, log + TxMade(cfg, s, step))
  {
    hide Inv, TxRight, TxSetup, TxSubmit;
    match step
    case TxSetsUp => TxSetupLogged(cfg, s, log);
    case TxSubmits => TxSubmitLogged(cfg, s, log);
    case _ => TxOther(cfg, s, step, log);
  }

  lemma TxOther(cfg: Config, s: System, step: Step, log: seq<Datagram>)
    requires Valid(cfg) && !step.TxSetsUp? && !step.TxSubmits?
    ensures Take(cfg, s, step).tx.capsuleId == s.tx.capsuleId && Take(cfg, s, step).tx.crashed == s.tx.crashed
    ensures log + TxMade(cfg, s, step) == log
  {
    hide RxOpen, RxConnected, RxDone, RxReceive, Learned;
  }

  /** In which phase the handshake is when TX sets up. */
  lemma SettingUp(cfg: Config, s: System)
    requires Valid(cfg) && Inv(cfg, s) && Enabled(s, TxSetsUp)
    ensures Handshake(cfg, s, HelloTaken)
  {
    hide Learned, EncodeList, AllLoopback, NumChunks, HasTail, Off, KeepsOks, RxInv, RxEnd;
  }

  lemma TxSetupLogged(cfg: Config, s: System, log: seq<Datagram>)
    requires Valid(cfg) && Inv(cfg, s) && Enabled(s, TxSetsUp) && TxLogged(cfg, s.tx, log)
    ensures TxLogged(cfg, Take(cfg, s, TxSetsUp).tx, log + TxMade(cfg, s, TxSetsUp))
  {
    hide Inv, Learned, EncodeList, AllLoopback, NumChunks;
    SettingUp(cfg, s);
    assert log == [];
    assert TxSetup(cfg, s.tx).Sent? && Made(TxSetup(cfg, s.tx)) == [Datagram(Hi(cfg), LastPeer)];
    assert [] + [Datagram(Hi(cfg), LastPeer)] == [Datagram(Hi(cfg), LastPeer)];
  }

  /** TX submits only while RX collects, or takes its acknowledgement. */
  lemma Submitting(cfg: Config, s: System)
    requires Valid(cfg) && Inv(cfg, s) && Enabled(s, TxSubmits)
    ensures Collecting(cfg, s, Rounds(s) * cfg.window)
  {
    hide Collecting, Acknowledged, Ended, RxLost, TxLost, Handshake;
    if RxLost(cfg, s) || TxLost(cfg, s) {
      LostQuiet(cfg, s);
    } else if Shaking(cfg, s) {
      var p :| Handshake(cfg, s, p);
      ShakeWaits(cfg, s, p);
    } else if Collecting(cfg, s, Rounds(s) * cfg.window) {
    } else if Acknowledged(cfg, s, (Rounds(s) - 1) * cfg.window) {
      AckEnables(cfg, s, (Rounds(s) - 1) * cfg.window, TxSubmits);
    } else {
      EndEnables(cfg, s, (Rounds(s) - 1) * cfg.window, TxSubmits);
    }
  }

  lemma ShakeWaits(cfg: Config, s: System, p: Phase)
    requires Valid(cfg) && Handshake(cfg, s, p)
    ensures !Enabled(s, TxSubmits) && !Enabled(s, RxFinishes)
  {
    hide Learned, EncodeList, AllLoopback, NumChunks;
  }

  lemma TxSubmitLogged(cfg: Config, s: System, log: seq<Datagram>)
    requires Valid(cfg) && Inv(cfg, s) && Enabled(s, TxSubmits) && TxLogged(cfg, s.tx, log)
    ensures TxLogged(cfg, Take(cfg, s, TxSubmits).tx, log + TxMade(cfg, s, TxSubmits))
  {
    hide Inv, Learned, EncodeList, AllLoopback, NumChunks, RxInv, TxSubmit, TxRight, Off, HasTail, KeepsOks, Chunk;
    Submitting(cfg, s);
    var sent := Submits(s);
    SubmitChunk(cfg, s.tx, sent);
    var r := TxSubmit(cfg, s.tx);
    if r.Sent? {
      RoundOf(cfg.rxAddrs);
      SubmitRight(cfg, sent, Datagram(r.capsule, r.to));
    } else {
      assert log + [] == log;
    }
  }

  lemma SubmitRight(cfg: Config, sent: nat, d: Datagram)
    requires Valid(cfg) && sent < NumChunks(cfg) && d.capsule == Chunk(cfg, sent) && GoesRound(d, cfg.rxAddrs, sent + 1)
    ensures TxRight(cfg, sent + 1, d)
  {
  }

  /** The learned list has one place for each address that is not the loopback. */
  lemma RoundOf(a: seq<Slot>)
    requires FullSlots(a)
    ensures |Learned(EncodeList(a))| == |Others(a)|
  {
    DecodeEncodeList(a);
    KeptSize(a);
    CountAll(a);
  }

  // ----- what RX sends -----

  /** The datagram that RX numbers i. */
  predicate RxRight(cfg: Config, i: nat, d: Datagram)
    requires Valid(cfg)
  {
    if i == 0 then d == Datagram(Hello(), LastPeer)
    else d.capsule == (if i == 1 then Ack(cfg) else Ok(cfg, i)) && GoesRound(d, cfg.txAddrs, i)
  }

  /** What RX has sent when it stands like this. */
  ghost predicate RxLogged(cfg: Config, rx: Rx, log: seq<Datagram>)
    requires Valid(cfg)
  {
    && |log| == (if rx.crashed then rx.capsuleId - 1 else rx.capsuleId)
    && forall i :: 0 <= i < |log| ==> RxRight(cfg, i, log[i])
  }

  lemma RxLogStep(cfg: Config, s: System, step: Step, log: seq<Datagram>)
    requires Valid(cfg) && Inv(cfg, s) && Enabled(s, step) && RxLogged(cfg, s.rx, log)
    ensures RxLogged(cfg, Take(cfg, s, step).rx, log + RxMade(cfg, s, step))
  {
    hide Inv, RxRight, RxOpen, RxConnected, RxDone;
    match step
    case RxOpens => RxOpenLogged(cfg, s, log);
    case RxConnects => RxConnectLogged(cfg, s, log);
    case RxFinishes => RxFinishLogged(cfg, s, log);
    case _ => RxOther(cfg, s, step, log);
  }

  lemma RxOther(cfg: Config, s: System, step: Step, log: seq<Datagram>)
    requires Valid(cfg) && !step.RxOpens? && !step.RxConnects? && !step.RxFinishes?
    ensures Take(cfg, s, step).rx.capsuleId == s.rx.capsuleId && Take(cfg, s, step).rx.crashed == s.rx.crashed
    ensures log + RxMade(cfg, s, step) == log
  {
    hide TxSetup, TxSubmit, Learned;
  }

  lemma Opening(cfg: Config, s: System)
    requires Valid(cfg) && Inv(cfg, s) && Enabled(s, RxOpens)
    ensures Handshake(cfg, s, Start)
  {
    hide Learned, EncodeList, AllLoopback, NumChunks, HasTail, Off, KeepsOks, Split, Lost, TxInv;
  }

  lemma Connecting(cfg: Config, s: System)
    requires Valid(cfg) && Inv(cfg, s) && Enabled(s, RxConnects)
    ensures Handshake(cfg, s, HiTaken)
  {
    hide Collecting, Acknowledged, Ended, RxLost, TxLost, Handshake;
    if RxLost(cfg, s) || TxLost(cfg, s) {
      LostQuiet(cfg, s);
    } else if Shaking(cfg, s) {
      var p :| Handshake(cfg, s, p);
      ShakeConnects(cfg, s, p);
    } else if Collecting(cfg, s, Rounds(s) * cfg.window) {
      CollectEnables(cfg, s, Rounds(s) * cfg.window, RxConnects);
    } else if Acknowledged(cfg, s, (Rounds(s) - 1) * cfg.window) {
      AckEnables(cfg, s, (Rounds(s) - 1) * cfg.window, RxConnects);
    } else {
      EndEnables(cfg, s, (Rounds(s) - 1) * cfg.window, RxConnects);
    }
  }

  lemma ShakeConnects(cfg: Config, s: System, p: Phase)
    requires Valid(cfg) && Handshake(cfg, s, p) && Enabled(s, RxConnects)
    ensures p == HiTaken
  {
    hide Learned, EncodeList, AllLoopback, NumChunks;
  }

  lemma RxOpenLogged(cfg: Config, s: System, log: seq<Datagram>)
    requires Valid(cfg) && Inv(cfg, s) && Enabled(s, RxOpens) && RxLogged(cfg, s.rx, log)
    ensures RxLogged(cfg, Take(cfg, s, RxOpens).rx, log + RxMade(cfg, s, RxOpens))
  {
    hide Inv, Learned, EncodeList, AllLoopback, NumChunks;
    Opening(cfg, s);
    assert log == [];
    assert RxOpen(s.rx).Sent? && Made(RxOpen(s.rx)) == [Datagram(Hello(), LastPeer)];
    assert [] + [Datagram(Hello(), LastPeer)] == [Datagram(Hello(), LastPeer)];
  }

  lemma RxConnectLogged(cfg: Config, s: System, log: seq<Datagram>)
    requires Valid(cfg) && Inv(cfg, s) && Enabled(s, RxConnects) && RxLogged(cfg, s.rx, log)
    ensures RxLogged(cfg, Take(cfg, s, RxConnects).rx, log + RxMade(cfg, s, RxConnects))
  {
    hide Inv, Learned, EncodeList, AllLoopback, NumChunks, Hello;
    Connecting(cfg, s);
    RoundOf(cfg.txAddrs);
    var r := RxConnected(cfg, s.rx);
    assert |log| == 1 && r.now.capsuleId == 2;
    if r.Sent? {
      assert r.capsule == Ack(cfg) && !r.now.crashed;
      assert RxRight(cfg, 1, Datagram(r.capsule, r.to));
    } else {
      assert log + [] == log && r.now.crashed;
    }
  }

  /** RX finishes a window only while it collects. */
  lemma Finishing(cfg: Config, s: System)
    requires Valid(cfg) && Inv(cfg, s) && Enabled(s, RxFinishes)
    ensures Collecting(cfg, s, Rounds(s) * cfg.window)
  {
    hide Collecting, Acknowledged, Ended, RxLost, TxLost, Handshake;
    if RxLost(cfg, s) || TxLost(cfg, s) {
      LostQuiet(cfg, s);
    } else if Shaking(cfg, s) {
      var p :| Handshake(cfg, s, p);
      ShakeWaits(cfg, s, p);
    } else if Collecting(cfg, s, Rounds(s) * cfg.window) {
    } else if Acknowledged(cfg, s, (Rounds(s) - 1) * cfg.window) {
      AckEnables(cfg, s, (Rounds(s) - 1) * cfg.window, RxFinishes);
    } else {
      EndEnables(cfg, s, (Rounds(s) - 1) * cfg.window, RxFinishes);
    }
  }

  lemma RxFinishLogged(cfg: Config, s: System, log: seq<Datagram>)
    requires Valid(cfg) && Inv(cfg, s) && Enabled(s, RxFinishes) && RxLogged(cfg, s.rx, log)
    ensures RxLogged(cfg, Take(cfg, s, RxFinishes).rx, log + RxMade(cfg, s, RxFinishes))
  {
    hide Inv, Collecting, RxDone, RxRight, RxConnection;
    Finishing(cfg, s);
    Connected(cfg, s, Rounds(s) * cfg.window);
    DoneSays(cfg, s.rx);
  }

  lemma Connected(cfg: Config, s: System, lo: int)
    requires Valid(cfg) && Collecting(cfg, s, lo)
    ensures RxConnection(cfg, s.rx) && !s.rx.crashed && s.rx.capsuleId >= 2
  {
    hide RxInv, TxInv, KeepsOks, Learned, EncodeList, AllLoopback;
  }

  lemma DoneSays(cfg: Config, rx: Rx)
    requires Valid(cfg) && RxConnection(cfg, rx)
    ensures var r := RxDone(cfg, rx);
      && r.Sent? && r.now.capsuleId == rx.capsuleId + 1 && r.now.crashed == rx.crashed
      && RxRight(cfg, rx.capsuleId, Datagram(r.capsule, r.to))
  {
    RxCanSend(cfg, rx);
    RoundOf(cfg.txAddrs);
    hide Flush, Counted, Popped, KeepsOks, Learned, EncodeList, AllLoopback, Ok;
  }

  // ----- on every run -----

  lemma {:induction false} Logged(cfg: Config, steps: seq<Step>)
    requires Valid(cfg) && Run(cfg, steps)
    ensures TxLogged(cfg, After(cfg, steps).tx, TxSent(cfg, steps))
    ensures RxLogged(cfg, After(cfg, steps).rx, RxSent(cfg, steps))
  {
    if steps != [] {
      hide Inv, Take, Enabled, TxLogged, RxLogged, TxMade, RxMade;
      var before, step := steps[..|steps| - 1], steps[|steps| - 1];
      Logged(cfg, before);
      RunInv(cfg, before);
      TxLogStep(cfg, After(cfg, before), step, TxSent(cfg, before));
      RxLogStep(cfg, After(cfg, before), step, RxSent(cfg, before));
    }
  }

  /**
    TX's datagrams on every run: the first is the answer to the hello, to the peer it came from; datagram
    k + 1 is chunk k, to place (k + 1) mod n of the n addresses that are not loopbacks in RX's list.
   */
  lemma TxOnTheWire(cfg: Config, steps: seq<Step>, i: nat)
    requires Valid(cfg) && Run(cfg, steps) && i < |TxSent(cfg, steps)|
    ensures var d := TxSent(cfg, steps)[i];
      if i == 0 then Frame(d.capsule) == HiBytes(cfg) && d.to == LastPeer
      else
        && (i - 1) * cfg.chunk <= |cfg.source| && Frame(d.capsule) == ChunkBytes(cfg, i - 1)
        && GoesRound(d, cfg.rxAddrs, i)
  {
    hide After, Run, TxSent, NumChunks, Hi, Chunk, HiBytes, ChunkBytes;
    Logged(cfg, steps);
    assert TxRight(cfg, i, TxSent(cfg, steps)[i]);
    if i == 0 {
      HiFrame(cfg);
    } else {
      ChunkFrame(cfg, i - 1);
    }
  }

  /**
    RX's datagrams on every run: the hello, to the last peer; the acknowledgement of the handshake; and
    datagram j + 2 is the acknowledgement of window j. Datagram i goes to place i mod n of the n addresses
    that are not loopbacks in TX's list.
   */
  lemma RxOnTheWire(cfg: Config, steps: seq<Step>, i: nat)
    requires Valid(cfg) && Run(cfg, steps) && i < |RxSent(cfg, steps)|
    ensures var d := RxSent(cfg, steps)[i];
      if i == 0 then Frame(d.capsule) == HelloBytes() && d.to == LastPeer
      else
        && Frame(d.capsule) == (if i == 1 then AckBytes(cfg) else OkBytes(cfg, i - 2))
        && GoesRound(d, cfg.txAddrs, i)
  {
    hide After, Run, RxSent, Hello, Ack, Ok, HelloBytes, AckBytes, OkBytes;
    Logged(cfg, steps);
    assert RxRight(cfg, i, RxSent(cfg, steps)[i]);
    if i == 0 {
      HelloFrame();
    } else if i == 1 {
      AckFrame(cfg);
    } else {
      OkFrame(cfg, i - 2);
    }
  }

  /** How many datagrams each end has sent in a completed transfer. */
  lemma SentInAll(cfg: Config, steps: seq<Step>)
    requires Valid(cfg) && Over(cfg, steps) && HasTail(cfg) && Addressable(cfg)
    ensures |TxSent(cfg, steps)| == 1 + NumChunks(cfg) && |RxSent(cfg, steps)| == 2 + TotalRounds(cfg)
  {
    hide After, Run, TxSent, RxSent, NumChunks, HasTail, AllLoopback, TotalRounds, CanStep, Ended, FullLength, TxRight,
      RxRight;
    OverRuns(cfg, steps);
    Logged(cfg, steps);
    CompletesExactly(cfg, steps);
    DiesUnaddressed(cfg, steps);
  }

  /** How many datagrams went to place a of the list. */
  ghost function SentTo(log: seq<Datagram>, a: nat): nat {
    if log == [] then 0
    else SentTo(log[..|log| - 1], a) + if log[|log| - 1].to == Listed(a) then 1 else 0
  }

  lemma {:induction false} SentToUses(cfg: Config, log: seq<Datagram>, a: nat)
    requires Valid(cfg) && log != [] && |Others(cfg.rxAddrs)| > 0
    requires forall i :: 0 <= i < |log| ==> TxRight(cfg, i, log[i])
    ensures SentTo(log, a) == Uses(Picks(0, |log| - 1, |Others(cfg.rxAddrs)|), a)
  {
    hide NumChunks, Others, Hi, Chunk;
    var front := log[..|log| - 1];
    assert TxRight(cfg, |log| - 1, log[|log| - 1]);
    if front == [] {
      assert SentTo(front, a) == 0;
    } else {
      forall i | 0 <= i < |front|
        ensures TxRight(cfg, i, front[i])
      {
        assert TxRight(cfg, i, log[i]);
      }
      SentToUses(cfg, front, a);
    }
  }

  /**
    Rotation on every run: of the k chunks TX has sent, each of the n addresses that are not loopbacks in RX's
    list has got floor(k/n) or ceil(k/n).
   */
  lemma ChunksSpread(cfg: Config, steps: seq<Step>, a: nat)
    requires Valid(cfg) && Run(cfg, steps) && TxSent(cfg, steps) != [] && a < |Others(cfg.rxAddrs)|
    ensures var n, k := |Others(cfg.rxAddrs)|, |TxSent(cfg, steps)| - 1;
      k / n <= SentTo(TxSent(cfg, steps), a) <= (k + n - 1) / n
  {
    hide After, Run, TxSent, Others;
    Logged(cfg, steps);
    SentToUses(cfg, TxSent(cfg, steps), a);
    RotationFair(0, |TxSent(cfg, steps)| - 1, |Others(cfg.rxAddrs)|, a);
  }
}
