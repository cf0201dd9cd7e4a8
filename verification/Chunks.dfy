/** The file cut into chunks (datafactory.h): offsets, the capsule of each chunk, and the bounds. */
module Chunks {
  import opened Capsules
  import opened Addresses

  /** A transfer: the file, the payload bytes per chunk, the window size, and both peers' addresses. */
  datatype Config = Config(source: seq<U8>, chunk: nat, window: nat, txAddrs: seq<Slot>, rxAddrs: seq<Slot>)

  /** The number of chunks the file is cut into. */
  function NumChunks(cfg: Config): nat
    requires cfg.chunk > 0
  {
    (|cfg.source| + cfg.chunk - 1) / cfg.chunk
  }

  /** The file does not end on a chunk boundary, so its last read is short; that read is what sets FIN. */
  predicate HasTail(cfg: Config)
    requires cfg.chunk > 0
  {
    |cfg.source| % cfg.chunk != 0
  }

  /**
    What the header fields can hold: a chunk's length in 16 bits, the window in 4, and a capsule id for
    every chunk in 16; and what the handshake's buffers can hold, which are made for one chunk.
   */
  predicate Valid(cfg: Config) {
    && 0 < cfg.chunk < 0x1_0000
    && 1 <= cfg.window < 16
    && NumChunks(cfg) < 0x1_0000
    && FullSlots(cfg.txAddrs) && SLOT * |cfg.txAddrs| <= cfg.chunk
    && FullSlots(cfg.rxAddrs) && SLOT * |cfg.rxAddrs| <= cfg.chunk
  }

  /** Each end has an address other than the loopback to give to the other. */
  predicate Addressable(cfg: Config) {
    !AllLoopback(cfg.txAddrs) && !AllLoopback(cfg.rxAddrs)
  }

  /** File offset at which chunk k starts; the file size once the chunks are used up. */
  function Off(cfg: Config, k: nat): (o: nat)
    ensures o <= |cfg.source|
  {
    if k * cfg.chunk <= |cfg.source| then k * cfg.chunk else |cfg.source|
  }

  lemma OffStep(cfg: Config, k: nat)
    ensures Off(cfg, k + 1) ==
      if Off(cfg, k) + cfg.chunk <= |cfg.source| then Off(cfg, k) + cfg.chunk else |cfg.source|
  {
    assert (k + 1) * cfg.chunk == k * cfg.chunk + cfg.chunk;
    assert k * cfg.chunk >= 0;
  }

  lemma OffMonotone(cfg: Config, j: nat, k: nat)
    requires j <= k
    ensures Off(cfg, j) <= Off(cfg, k)
    decreases k - j
  {
    if j < k {
      OffStep(cfg, j);
      OffMonotone(cfg, j + 1, k);
    }
  }

  /** The offsets run from 0 to the file size in NumChunks steps; only the last can be short, just when there is a tail. */
  lemma OffEnds(cfg: Config, k: nat)
    requires cfg.chunk > 0
    ensures Off(cfg, 0) == 0
    ensures Off(cfg, k) < |cfg.source| <==> k < NumChunks(cfg)
    ensures k < NumChunks(cfg) ==>
      (Off(cfg, k) + cfg.chunk > |cfg.source| <==> HasTail(cfg) && k + 1 == NumChunks(cfg))
  {
    var size, p, n := |cfg.source|, cfg.chunk, NumChunks(cfg);
    LastChunk(size, p, n);
    Times(k, n, p);
    Times(k + 1, n, p);
    Times(n, k, p);
    Times(n, k + 1, p);
    assert (k + 1) * p == k * p + p;
  }

  lemma Times(a: int, b: int, p: nat)
    ensures a <= b ==> a * p <= b * p
    ensures a < b ==> a * p + p <= b * p
  {
    assert (a + 1) * p == a * p + p;
    assert a <= b ==> a * p <= b * p;
    assert a + 1 <= b ==> (a + 1) * p <= b * p;
  }

  lemma LastChunk(size: nat, p: nat, n: nat)
    requires p > 0 && n == (size + p - 1) / p
    ensures size <= n * p < size + p
    ensures n * p == size <==> size % p == 0
  {
    assert size + p - 1 == n * p + (size + p - 1) % p;
    var q := size / p;
    assert size == q * p + size % p;
    Times(q, n, p);
    Times(n, q, p);
  }

  /** The bytes of chunk k. */
  function Bytes(cfg: Config, k: nat): seq<U8> {
    OffMonotone(cfg, k, k + 1);
    cfg.source[Off(cfg, k)..Off(cfg, k + 1)]
  }

  /** The capsule that carries chunk k: numbered k + 1, flagged FIN just on a short last chunk. */
  function Chunk(cfg: Config, k: nat): Capsule
    requires Valid(cfg) && k < NumChunks(cfg)
  {
    OffStep(cfg, k);
    DataCapsule(Bytes(cfg, k), k + 1, HasTail(cfg) && k + 1 == NumChunks(cfg))
  }

  /** A data capsule on the connection the handshake numbers 1. */
  function DataCapsule(payload: seq<U8>, capid: U16, fin: bool): Capsule
    requires |payload| < 0x1_0000
  {
    Capsule(Header(0, 0, 1, capid, |payload|, PAYLD, 0, 0, if fin then FIN else 0, 0), payload)
  }

  /** The capsules of the first n chunks, in order. */
  function PlanOf(cfg: Config, n: nat): (plan: seq<Capsule>)
    requires Valid(cfg) && n <= NumChunks(cfg)
    ensures |plan| == n
  {
    if n == 0 then [] else PlanOf(cfg, n - 1) + [Chunk(cfg, n - 1)]
  }

  /** The data capsules of the whole transfer, in order. */
  function Plan(cfg: Config): (plan: seq<Capsule>)
    requires Valid(cfg)
    ensures |plan| == NumChunks(cfg)
  {
    PlanOf(cfg, NumChunks(cfg))
  }

  lemma {:induction false} PlanOfAt(cfg: Config, n: nat, k: nat)
    requires Valid(cfg) && k < n <= NumChunks(cfg)
    ensures PlanOf(cfg, n)[k] == Chunk(cfg, k)
  {
    if k < n - 1 {
      PlanOfAt(cfg, n - 1, k);
    }
  }

  lemma PlanAt(cfg: Config, k: nat)
    requires Valid(cfg) && k < NumChunks(cfg)
    ensures Plan(cfg)[k] == Chunk(cfg, k)
  {
    PlanOfAt(cfg, NumChunks(cfg), k);
  }

  /** What the receiver relies on: ids run from 1, every capsule is payload, and FIN is on the last one if there is a tail. */
  predicate Numbered(plan: seq<Capsule>, tail: bool) {
    && |plan| < 0x1_0000
    && forall k :: 0 <= k < |plan| ==>
         && plan[k].header.capid == k + 1
         && IsPayload(plan[k].header)
         && (IsFin(plan[k].header) <==> tail && k + 1 == |plan|)
  }

  lemma PlanNumbered(cfg: Config)
    requires Valid(cfg)
    ensures Numbered(Plan(cfg), HasTail(cfg))
  {
    forall k | 0 <= k < NumChunks(cfg)
      ensures Plan(cfg)[k] == Chunk(cfg, k)
    {
      PlanAt(cfg, k);
    }
  }

  /** The bytes of chunks lo to hi - 1, one after the other. */
  function Span(cfg: Config, lo: nat, hi: nat): seq<U8>
    decreases hi - lo
  {
    if lo >= hi then [] else Bytes(cfg, lo) + Span(cfg, lo + 1, hi)
  }

  lemma {:induction false} SpanIsSlice(cfg: Config, lo: nat, hi: nat)
    requires lo <= hi
    ensures Off(cfg, lo) <= Off(cfg, hi)
    ensures Span(cfg, lo, hi) == cfg.source[Off(cfg, lo)..Off(cfg, hi)]
    decreases hi - lo
  {
    if lo < hi {
      OffMonotone(cfg, lo, lo + 1);
      SpanIsSlice(cfg, lo + 1, hi);
    }
  }

  /**
    The chunks in order are the file; every chunk but the last is full, every chunk is non-empty,
    and FIN is on the last chunk and no other, unless the chunk size divides the file size: then
    no chunk carries it.
   */
  lemma ChunksAreTheFile(cfg: Config)
    requires Valid(cfg)
    ensures Span(cfg, 0, NumChunks(cfg)) == cfg.source
    ensures forall k :: 0 <= k < NumChunks(cfg) ==>
      && 0 < |Chunk(cfg, k).payload| <= cfg.chunk
      && Chunk(cfg, k).header.capSize == |Chunk(cfg, k).payload|
      && (k + 1 < NumChunks(cfg) ==> |Chunk(cfg, k).payload| == cfg.chunk)
      && (IsFin(Chunk(cfg, k).header) <==> HasTail(cfg) && k + 1 == NumChunks(cfg))
      && (IsFin(Chunk(cfg, k).header) <==> |Chunk(cfg, k).payload| < cfg.chunk)
  {
    var n := NumChunks(cfg);
    OffEnds(cfg, 0);
    OffEnds(cfg, n);
    SpanIsSlice(cfg, 0, n);
    forall k | 0 <= k < n
      ensures 0 < |Bytes(cfg, k)| <= cfg.chunk
      ensures |Bytes(cfg, k)| < cfg.chunk <==> HasTail(cfg) && k + 1 == n
    {
      ChunkSize(cfg, k);
    }
  }

  lemma ChunkSize(cfg: Config, k: nat)
    requires cfg.chunk > 0 && k < NumChunks(cfg)
    ensures 0 < |Bytes(cfg, k)| <= cfg.chunk
    ensures |Bytes(cfg, k)| < cfg.chunk <==> HasTail(cfg) && k + 1 == NumChunks(cfg)
  {
    OffEnds(cfg, k);
    OffStep(cfg, k);
    OffMonotone(cfg, k, k + 1);
  }

  /** Largest value of the source's int. */
  const INT_MAX := 0x7fff_ffff
  /** Payload bytes of a full capsule: 49152 less the header. */
  const PAYLOAD := 49138
  const WIN_SIZ := 5

  /** The program's own sizes, a file whose size fits an int, and address lists that fit a buffer. */
  predicate Program(cfg: Config): (p: bool)
    ensures p ==> Valid(cfg)
  {
    && cfg.chunk == PAYLOAD && cfg.window == WIN_SIZ && |cfg.source| <= INT_MAX
    && FullSlots(cfg.txAddrs) && SLOT * |cfg.txAddrs| <= PAYLOAD
    && FullSlots(cfg.rxAddrs) && SLOT * |cfg.rxAddrs| <= PAYLOAD
  }

  /** Such a file has at most 43704 chunks, so there is an id for each. */
  lemma ProgramFits(cfg: Config)
    requires Program(cfg)
    ensures NumChunks(cfg) <= 43704
  {
  }
}
