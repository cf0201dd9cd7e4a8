/**
  The address exchange of the handshake (session.h) and the rotation over the learned
  addresses (gateway.h).
 */
module Addresses {
  import opened Capsules

  /** Bytes per address slot in a capsule body. */
  const SLOT := 15

  /** The contents of one slot: dotted text, zero-terminated when shorter than the slot. */
  datatype Slot = Slot(text: seq<U8>)

  /** Every slot of the list fills its SLOT bytes. */
  predicate FullSlots(a: seq<Slot>) {
    forall i :: 0 <= i < |a| ==> |a[i].text| == SLOT
  }

  /** "127.0.0.1" with its terminator. */
  const LOOPBACK: seq<U8> := [49, 50, 55, 46, 48, 46, 48, 46, 49, 0]

  predicate IsLoopback(s: Slot) {
    LOOPBACK <= s.text
  }

  /** The text of a slot as C reads it: the bytes before the first zero. */
  function UpToZero(b: seq<U8>): (z: seq<U8>)
    ensures |z| <= |b|
  {
    if b == [] || b[0] == 0 then [] else [b[0]] + UpToZero(b[1..])
  }

  /** The slot's text is these characters. */
  predicate Spells(s: Slot, word: string) {
    var z := UpToZero(s.text);
    |z| == |word| && forall i :: 0 <= i < |z| ==> z[i] == word[i] as int
  }

  lemma {:induction false} UpToZeroIs(b: seq<U8>)
    ensures var z := UpToZero(b);
      z == b[..|z|] && 0 !in z && (|z| < |b| ==> b[|z|] == 0)
  {
    if b != [] && b[0] != 0 {
      UpToZeroIs(b[1..]);
    }
  }

  /** The slots that the removal takes for the loopback are those whose text is 127.0.0.1 and nothing more. */
  lemma LoopbackSpelt(s: Slot)
    requires |s.text| == SLOT
    ensures IsLoopback(s) <==> Spells(s, "127.0.0.1")
  {
    UpToZeroIs(s.text);
    var z := UpToZero(s.text);
    if |z| == 9 {
      assert s.text[..10] == z + [0];
      assert LOOPBACK == LOOPBACK[..9] + [0];
      assert IsLoopback(s) <==> z == LOOPBACK[..9];
    } else if |z| < 9 {
      assert LOOPBACK[|z|] != 0;
    } else {
      assert z[9] in z;
    }
  }

  /** The number of loopback slots in a list. */
  function Loopbacks(a: seq<Slot>): (n: nat)
    ensures n <= |a|
  {
    if a == [] then 0 else Loopbacks(a[..|a| - 1]) + if IsLoopback(a[|a| - 1]) then 1 else 0
  }

  /** The list without its loopback slots, order kept. */
  function Others(a: seq<Slot>): seq<Slot> {
    if a == [] then []
    else Others(a[..|a| - 1]) + if IsLoopback(a[|a| - 1]) then [] else [a[|a| - 1]]
  }

  /** The index of the first loopback slot, or the length of the list. */
  function FirstLoopback(a: seq<Slot>): (p: nat)
    ensures p <= |a|
    ensures forall i :: 0 <= i < p ==> !IsLoopback(a[i])
    ensures p < |a| ==> IsLoopback(a[p])
  {
    if a == [] then 0
    else
      var p := FirstLoopback(a[..|a| - 1]);
      if p == |a| - 1 && !IsLoopback(a[p]) then |a| else p
  }

  /** What the in-place removal leaves in the counted prefix of the list. */
  function Kept(a: seq<Slot>): seq<Slot> {
    var p := FirstLoopback(a);
    if p == |a| then a else a[..p] + Truncated(a[p + 1..])
  }

  /** The list without as many slots at its end as it has loopbacks. */
  function Truncated(b: seq<Slot>): seq<Slot> {
    b[..|b| - Loopbacks(b)]
  }

  lemma {:induction false} SplitList(a: seq<Slot>, b: seq<Slot>)
    ensures Others(a + b) == Others(a) + Others(b)
    ensures Loopbacks(a + b) == Loopbacks(a) + Loopbacks(b)
  {
    if b == [] {
      assert a + b == a;
    } else {
      SplitList(a, b[..|b| - 1]);
      assert (a + b)[..|a + b| - 1] == a + b[..|b| - 1];
    }
  }

  predicate NoLoopback(a: seq<Slot>) {
    forall i :: 0 <= i < |a| ==> !IsLoopback(a[i])
  }

  predicate AllLoopback(a: seq<Slot>) {
    forall i :: 0 <= i < |a| ==> IsLoopback(a[i])
  }

  lemma {:induction false} CountNone(a: seq<Slot>)
    ensures Loopbacks(a) == 0 <==> NoLoopback(a)
    ensures Loopbacks(a) == 0 ==> Others(a) == a
  {
    if a != [] {
      var front := a[..|a| - 1];
      CountNone(front);
      assert NoLoopback(a) <==> NoLoopback(front) && !IsLoopback(a[|a| - 1]);
    }
  }

  lemma {:induction false} CountAll(a: seq<Slot>)
    ensures Loopbacks(a) == |a| <==> AllLoopback(a)
    ensures |Others(a)| == |a| - Loopbacks(a)
  {
    if a != [] {
      var front := a[..|a| - 1];
      CountAll(front);
      assert AllLoopback(a) <==> AllLoopback(front) && IsLoopback(a[|a| - 1]);
    }
  }

  lemma {:induction false} OthersAreOthers(a: seq<Slot>)
    ensures NoLoopback(Others(a))
  {
    if a != [] {
      OthersAreOthers(a[..|a| - 1]);
    }
  }

  /** Every loopback but the first sits at the end of the list. */
  predicate SpareLoopbacksLast(a: seq<Slot>) {
    var m := Loopbacks(a);
    m == 0 || AllLoopback(a[|a| - m + 1..])
  }

  /** Dropping the last `Loopbacks(b)` slots of a list is the removal just when those are its loopbacks. */
  lemma TruncationIsRemoval(b: seq<Slot>)
    ensures Truncated(b) == Others(b) <==> AllLoopback(b[|b| - Loopbacks(b)..])
  {
    var front, end := b[..|b| - Loopbacks(b)], b[|b| - Loopbacks(b)..];
    assert b == front + end;
    SplitList(front, end);
    CountAll(end);
    CountNone(front);
    OthersAreOthers(b);
  }

  /**
    The removal keeps exactly the other addresses, in order, if and only if every loopback but
    the first sits at the end of the list; with at most one loopback that is always so.
   */
  lemma KeptIsOthers(a: seq<Slot>)
    ensures Kept(a) == Others(a) <==> SpareLoopbacksLast(a)
    ensures Loopbacks(a) <= 1 ==> Kept(a) == Others(a)
  {
    var p := FirstLoopback(a);
    if p == |a| {
      CountNone(a);
    } else {
      assert a == a[..p] + ([a[p]] + a[p + 1..]);
      KeptIsOthersAt(a[..p], a[p], a[p + 1..]);
    }
  }

  lemma KeptIsOthersAt(before: seq<Slot>, lo: Slot, b: seq<Slot>)
    requires NoLoopback(before) && IsLoopback(lo)
    ensures var a := before + ([lo] + b);
      && (Kept(a) == Others(a) <==> SpareLoopbacksLast(a))
      && (Loopbacks(a) <= 1 ==> Kept(a) == Others(a))
  {
    SplitAtFirst(before, lo, b);
    KeptAt(before, lo, b);
    TruncationIsRemoval(b);
    CancelPrefix(before, Truncated(b), Others(b));
  }

  lemma CancelPrefix(a: seq<Slot>, b: seq<Slot>, c: seq<Slot>)
    ensures a + b == a + c <==> b == c
  {
    assert (a + b)[|a|..] == b && (a + c)[|a|..] == c;
  }

  lemma KeptAt(before: seq<Slot>, lo: Slot, b: seq<Slot>)
    requires NoLoopback(before) && IsLoopback(lo)
    ensures var a := before + ([lo] + b);
      && FirstLoopback(a) == |before|
      && Kept(a) == before + Truncated(b)
      && a[|a| - Loopbacks(b)..] == b[|b| - Loopbacks(b)..]
  {
    var a := before + ([lo] + b);
    var p := FirstLoopback(a);
    assert a[|before|] == lo;
    assert p <= |before|;
    assert a[..|before|] == before && a[|before| + 1..] == b;
  }

  lemma SplitAtFirst(before: seq<Slot>, lo: Slot, b: seq<Slot>)
    requires NoLoopback(before) && IsLoopback(lo)
    ensures Others(before + ([lo] + b)) == before + Others(b)
    ensures Loopbacks(before + ([lo] + b)) == 1 + Loopbacks(b)
  {
    SplitList(before, [lo] + b);
    SplitList([lo], b);
    CountNone(before);
    assert [lo][..0] == [];
    assert [] + Others(b) == Others(b);
  }

  /** With two loopbacks in front, one of them is kept and the only other address is lost. */
  lemma TwoLoopbacksKeepOne(lo: Slot, x: Slot)
    requires IsLoopback(lo) && !IsLoopback(x)
    ensures Kept([lo, lo, x]) == [lo] && Others([lo, lo, x]) == [x]
  {
    var a := [lo, lo, x];
    assert a == [lo] + ([lo] + [x]);
    SplitList([lo], [lo] + [x]);
    SplitList([lo], [x]);
    assert [lo][..0] == [] && [x][..0] == [];
    assert IsLoopback(a[0]);
    assert a[1..] == [lo] + [x];
    assert ([lo] + [x])[..1] == [lo];
  }

  /** The slots one after the other, as the sender's loop lays them out after the header. */
  function EncodeList(a: seq<Slot>): (b: seq<U8>)
    requires FullSlots(a)
    ensures |b| == SLOT * |a|
  {
    if a == [] then [] else EncodeList(a[..|a| - 1]) + a[|a| - 1].text
  }

  /** Slot i is the 15 bytes from 15 i on. */
  lemma {:induction false} SlotAt(a: seq<Slot>, i: nat)
    requires FullSlots(a) && i < |a|
    ensures 15 * i + 15 <= |EncodeList(a)| == 15 * |a|
    ensures EncodeList(a)[15 * i..15 * i + 15] == a[i].text
  {
    if i < |a| - 1 {
      SlotAt(a[..|a| - 1], i);
      assert EncodeList(a)[15 * i..15 * i + 15] == EncodeList(a[..|a| - 1])[15 * i..15 * i + 15];
    }
  }

  /** The whole slots in a body; what is left over is ignored. */
  function DecodeList(b: seq<U8>): (a: seq<Slot>)
    ensures |a| == |b| / SLOT && FullSlots(a)
  {
    seq(|b| / SLOT, i requires 0 <= i < |b| / SLOT => Slot(b[i * SLOT..(i + 1) * SLOT]))
  }

  lemma {:induction false} DecodeEncodeList(a: seq<Slot>)
    requires FullSlots(a)
    ensures DecodeList(EncodeList(a)) == a
  {
    if a != [] {
      var front := a[..|a| - 1];
      DecodeEncodeList(front);
      var b := EncodeList(front);
      forall i | 0 <= i < |a|
        ensures EncodeList(a)[i * SLOT..(i + 1) * SLOT] == a[i].text
      {
        if i < |front| {
          assert DecodeList(b)[i].text == b[i * SLOT..(i + 1) * SLOT];
          assert EncodeList(a)[i * SLOT..(i + 1) * SLOT] == b[i * SLOT..(i + 1) * SLOT];
        }
      }
    }
  }

  /** The list a peer has learned once it has processed an address capsule with this payload. */
  function Learned(payload: seq<U8>): seq<Slot> {
    Kept(DecodeList(payload))
  }

  /** Sending a list with at most one loopback teaches the peer the rest of it, in order. */
  lemma ExchangeKeepsOthers(a: seq<Slot>)
    requires FullSlots(a)
    ensures Learned(EncodeList(a)) == Others(a) <==> SpareLoopbacksLast(a)
    ensures Loopbacks(a) <= 1 ==> Learned(EncodeList(a)) == Others(a)
  {
    DecodeEncodeList(a);
    KeptIsOthers(a);
  }

  /** Of a list with the loopback in one place the peer learns the other slots, in order; of a list without, all. */
  lemma ExchangeByText(a: seq<Slot>, i: nat)
    requires FullSlots(a) && i <= |a|
    requires forall j :: 0 <= j < |a| ==> (Spells(a[j], "127.0.0.1") <==> j == i)
    ensures Learned(EncodeList(a)) == if i < |a| then a[..i] + a[i + 1..] else a
  {
    hide Spells, IsLoopback, EncodeList, DecodeList;
    DecodeEncodeList(a);
    forall j | 0 <= j < |a|
      ensures IsLoopback(a[j]) <==> j == i
    {
      LoopbackSpelt(a[j]);
    }
    OneDropped(a, i);
  }

  lemma OneDropped(a: seq<Slot>, i: nat)
    requires i <= |a| && forall j :: 0 <= j < |a| ==> (IsLoopback(a[j]) <==> j == i)
    ensures Kept(a) == if i < |a| then a[..i] + a[i + 1..] else a
  {
    hide IsLoopback;
    var p := FirstLoopback(a);
    assert p < |a| ==> IsLoopback(a[p]);
    assert i < |a| ==> IsLoopback(a[i]);
    if i < |a| {
      CountNone(a[i + 1..]);
      assert NoLoopback(a[i + 1..]);
    }
  }

  /** Sending a list teaches the peer an empty one if and only if it is all loopback. */
  lemma ExchangeEmpty(a: seq<Slot>)
    requires FullSlots(a)
    ensures Learned(EncodeList(a)) == [] <==> AllLoopback(a)
  {
    DecodeEncodeList(a);
    KeptSize(a);
    CountAll(a);
  }

  /** The removal keeps as many slots as the list has other addresses, if not always those. */
  lemma KeptSize(a: seq<Slot>)
    ensures |Kept(a)| == |a| - Loopbacks(a)
  {
    var p := FirstLoopback(a);
    if p == |a| {
      CountNone(a);
    } else {
      assert a == a[..p] + ([a[p]] + a[p + 1..]);
      SplitAtFirst(a[..p], a[p], a[p + 1..]);
    }
  }

  /** The 15 bytes of a body at which slot i is laid out. */
  function SlotIn(body: seq<U8>, i: nat): seq<U8>
    requires 14 + 15 * i + 15 <= |body|
  {
    body[14 + 15 * i..14 + 15 * i + 15]
  }

  /** The sender's loop: slot i is copied to offset HEADER_SPACE + i * SLOT of the body. */
  method WriteAddresses(interfaces: array<Slot>, body: array<U8>) returns (capSize: nat)
    requires FullSlots(interfaces[..])
    requires HEADER_SPACE + SLOT * interfaces.Length <= body.Length
    modifies body
    ensures capSize == 15 * interfaces.Length
    ensures forall i :: 0 <= i < interfaces.Length ==> SlotIn(body[..], i) == interfaces[i].text
    ensures body[HEADER_SPACE..HEADER_SPACE + capSize] == EncodeList(interfaces[..])
    ensures body[..HEADER_SPACE] == old(body[..HEADER_SPACE])
    ensures body[HEADER_SPACE + capSize..] == old(body[HEADER_SPACE + capSize..])
  {
    ghost var a := interfaces[..];
    for i := 0 to interfaces.Length
      invariant body[HEADER_SPACE..HEADER_SPACE + SLOT * i] == EncodeList(a[..i])
      invariant body[..HEADER_SPACE] == old(body[..HEADER_SPACE])
      invariant body[HEADER_SPACE + SLOT * i..] == old(body[HEADER_SPACE + SLOT * i..])
    {
      WriteSlot(body, HEADER_SPACE + SLOT * i, interfaces[i]);
      assert a[..i + 1][..i] == a[..i];
    }
    capSize := SLOT * interfaces.Length;
    assert a[..interfaces.Length] == a;
    SlotsLaidOut(a, body[..]);
  }

  /** Every slot of a body that holds the list is at its place. */
  lemma SlotsLaidOut(a: seq<Slot>, body: seq<U8>)
    requires FullSlots(a) && HEADER_SPACE + SLOT * |a| <= |body|
    requires body[HEADER_SPACE..HEADER_SPACE + SLOT * |a|] == EncodeList(a)
    ensures forall i :: 0 <= i < |a| ==> SlotIn(body, i) == a[i].text
  {
    hide EncodeList, FullSlots, SlotIn;
    forall i | 0 <= i < |a|
      ensures SlotIn(body, i) == a[i].text
    {
      SlotLaidOut(a, body, i);
    }
  }

  lemma SlotLaidOut(a: seq<Slot>, body: seq<U8>, i: nat)
    requires FullSlots(a) && HEADER_SPACE + SLOT * |a| <= |body| && i < |a|
    requires body[HEADER_SPACE..HEADER_SPACE + SLOT * |a|] == EncodeList(a)
    ensures SlotIn(body, i) == a[i].text
  {
    hide EncodeList, FullSlots;
    SlotAt(a, i);
    Inside(body, 14, 14 + 15 * |a|, 15 * i, 15 * i + 15);
  }

  lemma Inside(b: seq<U8>, lo: nat, hi: nat, i: nat, j: nat)
    requires lo <= hi <= |b| && i <= j <= hi - lo
    ensures b[lo..hi][i..j] == b[lo + i..lo + j]
  {
    forall k | 0 <= k < j - i
      ensures b[lo..hi][i..j][k] == b[lo + i..lo + j][k]
    {
      assert b[lo..hi][i + k] == b[lo + (i + k)];
    }
  }

  /** One slot's copy. */
  method WriteSlot(body: array<U8>, at: nat, s: Slot)
    requires |s.text| == SLOT && at + SLOT <= body.Length
    modifies body
    ensures body[..at] == old(body[..at])
    ensures body[at..at + SLOT] == s.text
    ensures body[at + SLOT..] == old(body[at + SLOT..])
    ensures forall lo :: 0 <= lo <= at ==> body[lo..at + SLOT] == old(body[lo..at]) + s.text
  {
    for j := 0 to SLOT
      invariant forall k :: 0 <= k < at ==> body[k] == old(body[k])
      invariant forall k :: at <= k < at + j ==> body[k] == s.text[k - at]
      invariant forall k :: at + j <= k < body.Length ==> body[k] == old(body[k])
    {
      body[at + j] := s.text[j];
    }
  }

  /**
    The removal loop, in place. The list has one cell more than it has slots: the shift reads one
    past the end, and that cell's contents never reach the kept prefix.
   */
  method RemoveLoopback(list: array<Slot>, n: nat) returns (count: nat)
    requires list.Length == n + 1
    modifies list
    ensures count == n - Loopbacks(old(list[..n]))
    ensures list[..count] == Kept(old(list[..n]))
  {
    ghost var a := list[..n];
    ghost var p := FirstLoopback(a);
    ghost var was := list[..];
    var found := false;
    count := n;
    for i := 0 to n
      invariant forall j :: i <= j <= n ==> list[j] == was[j]
      invariant forall j :: 0 <= j < i ==> list[j] == was[if j < p then j else j + 1]
      invariant count == n - Loopbacks(a[..i])
      invariant found <==> p < i
    {
      assert a[..i + 1][..i] == a[..i];
      assert list[i] == a[i];
      if IsLoopback(list[i]) {
        found := true;
        count := count - 1;
      }
      if found {
        list[i] := list[i + 1];
      }
    }
    assert a[..n] == a;
    ShiftIsKept(was, list[..]);
  }

  /** A list whose slots from the first loopback on have been shifted down by one has its kept prefix in front. */
  lemma ShiftIsKept(was: seq<Slot>, now: seq<Slot>)
    requires |was| == |now| > 0
    requires var p := FirstLoopback(was[..|was| - 1]);
      forall j :: 0 <= j < |was| - 1 ==> now[j] == was[if j < p then j else j + 1]
    ensures var a := was[..|was| - 1]; now[..|a| - Loopbacks(a)] == Kept(a)
  {
    var a := was[..|was| - 1];
    var p := FirstLoopback(a);
    if p == |a| {
      CountNone(a);
    } else {
      assert a == a[..p] + ([a[p]] + a[p + 1..]);
      assert now[..p] == a[..p];
      assert now[p..|a| - 1] == a[p + 1..];
      ShiftedAt(a[..p], a[p], a[p + 1..], now);
    }
  }

  lemma ShiftedAt(before: seq<Slot>, lo: Slot, b: seq<Slot>, now: seq<Slot>)
    requires NoLoopback(before) && IsLoopback(lo)
    requires |before| + |b| <= |now| && now[..|before|] == before && now[|before|..|before| + |b|] == b
    ensures var a := before + ([lo] + b);
      |a| - Loopbacks(a) <= |now| && now[..|a| - Loopbacks(a)] == Kept(a)
  {
    SplitAtFirst(before, lo, b);
    KeptAt(before, lo, b);
    var t := Truncated(b);
    assert now[|before|..|before| + |t|] == t;
    assert now[..|before| + |t|] == before + t;
  }

  /** Processing an address capsule: allocate, copy the slots out of the body, drop the loopback. */
  method LearnAddresses(payload: seq<U8>) returns (list: array<Slot>, count: nat)
    ensures fresh(list) && count <= list.Length
    ensures list[..count] == Learned(payload)
  {
    var n := |payload| / SLOT;
    list := new Slot[n + 1];
    for i := 0 to n
      invariant list[..i] == DecodeList(payload)[..i]
    {
      list[i] := Slot(payload[i * SLOT..(i + 1) * SLOT]);
    }
    assert list[..n] == DecodeList(payload);
    count := RemoveLoopback(list, n);
  }
}
