/**
  A window of numbered capsules between two peers: each one is under way or filed in the
  receiver's map, whatever order they arrive in; and the flush of the map puts them back in order.
 */
module Windows {
  import opened Capsules
  import opened Chunks
  import opened Session

  /** Each capsule in the window is one of the plan's from lo to hi - 1, filed under its own id. */
  ghost predicate Filed(plan: seq<Capsule>, lo: int, hi: int, window: map<U16, Capsule>)
    requires 0 <= lo <= hi <= |plan|
  {
    forall k :: k in window ==> lo < k <= hi && window[k] == plan[k - 1]
  }

  /** Each capsule under way is one of the plan's from lo to hi - 1. */
  ghost predicate UnderWay(plan: seq<Capsule>, lo: int, hi: int, toRx: multiset<Capsule>)
    requires 0 <= lo <= hi <= |plan|
  {
    forall c :: c in toRx ==> lo < c.header.capid <= hi && c == plan[c.header.capid - 1]
  }

  /** Each of those capsules is in the window or under way, not both, and once. */
  ghost predicate OnePlace(plan: seq<Capsule>, lo: int, hi: int, window: map<U16, Capsule>, toRx: multiset<Capsule>)
    requires 0 <= lo <= hi <= |plan|
  {
    forall k :: lo <= k < hi ==> toRx[plan[k]] == if k + 1 in window then 0 else 1
  }

  /** The capsules lo to hi - 1 of the plan are divided between the receiver's window and the channel. */
  ghost predicate Split(plan: seq<Capsule>, lo: int, hi: int, window: map<U16, Capsule>, toRx: multiset<Capsule>)
    requires 0 <= lo <= hi <= |plan|
  {
    && Filed(plan, lo, hi, window) && UnderWay(plan, lo, hi, toRx)
    && OnePlace(plan, lo, hi, window, toRx) && |toRx| + |window| == hi - lo
  }

  lemma SplitSend(plan: seq<Capsule>, tail: bool, lo: int, hi: int, window: map<U16, Capsule>, toRx: multiset<Capsule>)
    requires Numbered(plan, tail) && 0 <= lo <= hi < |plan|
    requires Split(plan, lo, hi, window, toRx)
    ensures Split(plan, lo, hi + 1, window, toRx + multiset{plan[hi]})
  {
    assert plan[hi] !in toRx;
    assert hi + 1 !in window;
  }

  /** A capsule under way is the one its id says, and is not in the window yet. */
  lemma SplitFind(plan: seq<Capsule>, lo: int, hi: int, window: map<U16, Capsule>, toRx: multiset<Capsule>, c: Capsule)
    requires 0 <= lo <= hi <= |plan|
    requires Split(plan, lo, hi, window, toRx) && c in toRx
    ensures var id := c.header.capid;
      lo < id <= hi && c == plan[id - 1] && id !in window && toRx[c] == 1
  {
    var k := c.header.capid - 1;
    assert toRx[plan[k]] == if k + 1 in window then 0 else 1;
  }

  lemma SplitReceive(plan: seq<Capsule>, tail: bool, lo: int, hi: int,
                     window: map<U16, Capsule>, toRx: multiset<Capsule>, c: Capsule)
    requires Numbered(plan, tail) && 0 <= lo <= hi <= |plan|
    requires Split(plan, lo, hi, window, toRx) && c in toRx
    ensures |window[c.header.capid := c]| == |window| + 1
    ensures Split(plan, lo, hi, window[c.header.capid := c], toRx - multiset{c})
  {
    SplitFind(plan, lo, hi, window, toRx, c);
    OnePlaceReceive(plan, tail, lo, hi, window, toRx, c);
    Moved(window, toRx, c.header.capid, c);
  }

  /** Filing a capsule under a free id moves it from the channel to the window. */
  lemma Moved(window: map<U16, Capsule>, toRx: multiset<Capsule>, id: U16, c: Capsule)
    requires id !in window && c in toRx
    ensures |window[id := c]| == |window| + 1
    ensures |toRx - multiset{c}| == |toRx| - 1
  {
    assert window[id := c].Keys == window.Keys + {id};
  }

  lemma OnePlaceReceive(plan: seq<Capsule>, tail: bool, lo: int, hi: int,
                        window: map<U16, Capsule>, toRx: multiset<Capsule>, c: Capsule)
    requires Numbered(plan, tail) && 0 <= lo <= hi <= |plan|
    requires OnePlace(plan, lo, hi, window, toRx)
    requires lo < c.header.capid <= hi && c == plan[c.header.capid - 1] && toRx[c] == 1
    ensures OnePlace(plan, lo, hi, window[c.header.capid := c], toRx - multiset{c})
  {
    var w, left := window[c.header.capid := c], toRx - multiset{c};
    forall k | lo <= k < hi
      ensures left[plan[k]] == if k + 1 in w then 0 else 1
    {
      assert toRx[plan[k]] == if k + 1 in window then 0 else 1;
      assert plan[k].header.capid == k + 1;
    }
  }

  lemma SplitEmpty(plan: seq<Capsule>, lo: nat)
    requires lo <= |plan|
    ensures Split(plan, lo, lo, map[], multiset{})
  {
  }

  lemma SplitSmall(plan: seq<Capsule>, lo: int, hi: int, window: map<U16, Capsule>, toRx: multiset<Capsule>)
    requires 0 <= lo <= hi <= |plan|
    requires Split(plan, lo, hi, window, toRx)
    ensures |toRx| + |window| == hi - lo
  {
  }

  /** The greatest id of a window of the plan is that of a FIN capsule just when the last capsule is in it. */
  lemma GreatestIsFin(plan: seq<Capsule>, tail: bool, lo: int, hi: int,
                      window: map<U16, Capsule>, toRx: multiset<Capsule>)
    requires Numbered(plan, tail) && 0 <= lo <= hi <= |plan|
    requires Split(plan, lo, hi, window, toRx) && window != map[]
    ensures var last := window[MaxKey(window)];
      && IsPayload(last.header) && last.header.capid == MaxKey(window)
      && (IsFin(last.header) <==> tail && |plan| in window)
  {
    var k := MaxKey(window);
    assert window[k] == plan[k - 1];
  }

  /** Some capsules from lo on are still under way when the receiver stops; the last one is not among them. */
  ghost predicate Lost(plan: seq<Capsule>, lo: int, toRx: multiset<Capsule>)
    requires 0 <= lo <= |plan|
  {
    && |toRx| < |plan| - lo
    && forall c :: c in toRx ==> lo < c.header.capid < |plan| && c == plan[c.header.capid - 1] && toRx[c] == 1
  }

  /** The payload of the capsules lo to hi - 1 that are not under way. */
  ghost function Survivors(plan: seq<Capsule>, lo: nat, hi: nat, lost: multiset<Capsule>): seq<U8>
    requires hi <= |plan|
    decreases hi - lo
  {
    if lo >= hi then []
    else (if plan[lo] in lost then [] else plan[lo].payload) + Survivors(plan, lo + 1, hi, lost)
  }

  /** The window holds the capsules of the plan from lo to hi - 1 but for the lost ones. */
  ghost predicate Holds(plan: seq<Capsule>, lo: nat, hi: nat, window: map<U16, Capsule>, lost: multiset<Capsule>)
    requires hi <= |plan| < 0x1_0000
  {
    && (forall k :: k in window ==> lo < k <= hi && window[k] == plan[k - 1])
    && (forall k :: lo <= k < hi ==> (plan[k] in lost <==> k + 1 !in window))
  }

  lemma SplitHolds(plan: seq<Capsule>, lo: nat, hi: nat, window: map<U16, Capsule>, toRx: multiset<Capsule>)
    requires lo <= hi <= |plan| < 0x1_0000
    requires Split(plan, lo, hi, window, toRx)
    ensures Holds(plan, lo, hi, window, toRx)
  {
  }

  /** The window without capsule lo. */
  lemma HoldsRest(plan: seq<Capsule>, tail: bool, lo: nat, hi: nat, window: map<U16, Capsule>, lost: multiset<Capsule>)
    requires Numbered(plan, tail) && lo < hi <= |plan|
    requires Holds(plan, lo, hi, window, lost)
    ensures Holds(plan, lo + 1, hi, window - {lo + 1}, lost)
    ensures lo + 1 in window ==> MinKey(window) == lo + 1
    ensures lo + 1 !in window ==> window - {lo + 1} == window
  {
  }

  /** Reordering is absorbed: the flush writes the payload of what the window holds in sending order. */
  lemma {:induction false} FlushInOrder(plan: seq<Capsule>, tail: bool, lo: nat, hi: nat,
                                        window: map<U16, Capsule>, lost: multiset<Capsule>)
    requires Numbered(plan, tail) && lo <= hi <= |plan|
    requires Holds(plan, lo, hi, window, lost)
    ensures Flush(window) == Survivors(plan, lo, hi, lost)
    ensures Counted(window) == |Flush(window)| + HEADER_SPACE * |window|
    decreases hi - lo
  {
    if lo == hi {
      assert window == map[] by {
        assert forall k :: k !in window;
      }
    } else {
      HoldsRest(plan, tail, lo, hi, window, lost);
      FlushInOrder(plan, tail, lo + 1, hi, window - {lo + 1}, lost);
      if lo + 1 in window {
        Smaller(window, lo + 1);
      }
    }
  }

  /** If none is lost, the survivors are the bytes of the file between the two offsets. */
  lemma {:induction false} NoneLost(cfg: Config, lo: nat, hi: nat, lost: multiset<Capsule>)
    requires Valid(cfg) && lo <= hi <= NumChunks(cfg)
    requires forall k :: lo <= k < hi ==> Plan(cfg)[k] !in lost
    ensures Survivors(Plan(cfg), lo, hi, lost) == Span(cfg, lo, hi)
    decreases hi - lo
  {
    hide Bytes, Plan;
    if lo < hi {
      NoneLost(cfg, lo + 1, hi, lost);
      PlanAt(cfg, lo);
    }
  }

  /** Every chunk is non-empty, so what is lost is missed: the survivors are the shorter for it. */
  lemma {:induction false} SomeLost(cfg: Config, lo: nat, hi: nat, lost: multiset<Capsule>)
    requires Valid(cfg) && lo <= hi <= NumChunks(cfg)
    ensures |Survivors(Plan(cfg), lo, hi, lost)| <= |Span(cfg, lo, hi)|
    ensures (exists k :: lo <= k < hi && Plan(cfg)[k] in lost) ==>
      |Survivors(Plan(cfg), lo, hi, lost)| < |Span(cfg, lo, hi)|
    decreases hi - lo
  {
    hide Bytes, Plan;
    if lo < hi {
      SomeLost(cfg, lo + 1, hi, lost);
      PlanAt(cfg, lo);
      ChunkSize(cfg, lo);
    }
  }

  /** A window with nothing of its stretch under way is flushed as that stretch of the file. */
  lemma FlushWhole(cfg: Config, lo: nat, hi: nat, window: map<U16, Capsule>)
    requires Valid(cfg) && lo <= hi <= NumChunks(cfg)
    requires Split(Plan(cfg), lo, hi, window, multiset{})
    ensures Off(cfg, lo) <= Off(cfg, hi)
    ensures Flush(window) == cfg.source[Off(cfg, lo)..Off(cfg, hi)]
    ensures Counted(window) == Off(cfg, hi) - Off(cfg, lo) + HEADER_SPACE * (hi - lo)
  {
    hide Plan, Off, NumChunks, Split, Numbered, Holds, HasTail;
    PlanNumbered(cfg);
    SplitHolds(Plan(cfg), lo, hi, window, multiset{});
    SplitSmall(Plan(cfg), lo, hi, window, multiset{});
    FlushInOrder(Plan(cfg), HasTail(cfg), lo, hi, window, multiset{});
    NoneLost(cfg, lo, hi, multiset{});
    SpanIsSlice(cfg, lo, hi);
  }

  /** The last capsule of the plan is filed once it has been sent and nothing is under way. */
  lemma LastIsFiled(plan: seq<Capsule>, lo: nat, window: map<U16, Capsule>)
    requires lo < |plan| && Split(plan, lo, |plan|, window, multiset{})
    ensures |plan| in window
  {
    assert multiset{}[plan[|plan| - 1]] == if |plan| - 1 + 1 in window then 0 else 1;
  }

  lemma FiledSent(plan: seq<Capsule>, lo: nat, hi: nat, window: map<U16, Capsule>, toRx: multiset<Capsule>)
    requires lo <= hi <= |plan| && Split(plan, lo, hi, window, toRx) && |plan| in window
    ensures lo < hi == |plan|
  {
  }

  /** With the last capsule filed, those still under way are lost. */
  lemma LeftOver(plan: seq<Capsule>, lo: nat, window: map<U16, Capsule>, toRx: multiset<Capsule>)
    requires lo <= |plan| && Split(plan, lo, |plan|, window, toRx) && |plan| in window
    ensures Lost(plan, lo, toRx)
  {
    var n := |plan|;
    assert lo < n;
    assert window != map[];
    assert toRx[plan[n - 1]] == if n - 1 + 1 in window then 0 else 1;
    forall c | c in toRx
      ensures c.header.capid < n && toRx[c] == 1
    {
      SplitFind(plan, lo, n, window, toRx, c);
    }
  }
}
