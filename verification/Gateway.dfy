/** The gateway's choice of a destination for each datagram (gateway.h). */
module Gateway {
  import opened Addresses
  import opened Wrappers

  /**
    Where a datagram goes: to the address of the last received datagram while no list has been
    learned, to a listed address afterwards; an empty learned list stops the program.
   */
  datatype Destination = LastPeer | Listed(index: nat) | DivideByZero

  /** A destination can be chosen: no list has been learned, or the learned list has an address left. */
  predicate CanSend(peers: Option<seq<Slot>>) {
    peers != Some([])
  }

  /** The rotation counter after a choice: only a choice from a list advances it. */
  function Advanced(peers: Option<seq<Slot>>, counter: nat): nat {
    if peers.Some? then counter + 1 else counter
  }

  /** The choice made once the counter has advanced. */
  function Destined(peers: Option<seq<Slot>>, counter: nat): Destination {
    if peers.None? then LastPeer
    else if peers.value == [] then DivideByZero
    else Listed(counter % |peers.value|)
  }

  class Selector {
    var counter: nat
    var peers: Option<seq<Slot>>

    constructor ()
      ensures counter == 0 && peers == None
    {
      counter, peers := 0, None;
    }

    /** Chooses the next destination: the counter advances before it is used. */
    method Select() returns (d: Destination)
      modifies this`counter
      ensures peers == None ==> d == LastPeer && counter == old(counter)
      ensures peers != None ==> counter == old(counter) + 1
      ensures peers == Some([]) ==> d == DivideByZero
      ensures peers.Some? && |peers.value| > 0 ==> d == Listed(counter % |peers.value|) && d.index < |peers.value|
    {
      if peers.Some? {
        counter := counter + 1;
        if |peers.value| == 0 {
          return DivideByZero;
        }
        return Listed(counter % |peers.value|);
      }
      return LastPeer;
    }
  }

  /** The list index a send uses when the counter stands at this value before it. */
  function Pick(counter: nat, n: nat): nat
    requires n > 0
  {
    (counter + 1) % n
  }

  /** The list indices of k consecutive sends. */
  function Picks(counter: nat, k: nat, n: nat): (p: seq<nat>)
    requires n > 0
    ensures |p| == k
  {
    if k == 0 then [] else Picks(counter, k - 1, n) + [Pick(counter + k - 1, n)]
  }

  /** How often address a occurs among the picks. */
  function Uses(p: seq<nat>, a: nat): nat {
    if p == [] then 0 else Uses(p[..|p| - 1], a) + if p[|p| - 1] == a then 1 else 0
  }

  /** The picks run round the list: the next one follows cyclically. */
  lemma PickStep(c: nat, n: nat)
    requires n > 0
    ensures Pick(c, n) < n
    ensures Pick(c + 1, n) == if Pick(c, n) + 1 == n then 0 else Pick(c, n) + 1
  {
    var q, r := (c + 1) / n, (c + 1) % n;
    assert c + 2 == q * n + (r + 1);
    if r + 1 == n {
      assert c + 2 == (q + 1) * n;
      Remainder(q + 1, 0, n);
    } else {
      Remainder(q, r + 1, n);
    }
  }

  lemma MulMono(a: int, b: int, n: nat)
    ensures a <= b ==> a * n <= b * n
  {
  }

  lemma Remainder(q: nat, r: nat, n: nat)
    requires r < n
    ensures (q * n + r) % n == r
  {
    var x := q * n + r;
    var y := x / n;
    assert x == y * n + x % n;
    assert (y + 1) * n == y * n + n && (q + 1) * n == q * n + n;
    MulMono(y + 1, q, n);
    MulMono(q + 1, y, n);
    assert y == q;
  }

  /** The address that follows p round a list of n. */
  function Following(p: nat, n: nat): nat {
    if p + 1 == n then 0 else p + 1
  }

  /** Distance from address `from` forward to address `a` round a list of n. */
  function Ahead(from: nat, a: nat, n: nat): int {
    if from <= a then a - from else a - from + n
  }

  /** Positions that follow one another round a list of n. */
  predicate Cyclic(p: seq<nat>, n: nat) {
    && (forall i :: 0 <= i < |p| ==> p[i] < n)
    && (forall i :: 0 < i < |p| ==> p[i] == Following(p[i - 1], n))
  }

  /** Steps made plus the distance still to go is whole laps, one per use, plus the initial distance. */
  lemma {:induction false} LapCount(p: seq<nat>, next: nat, n: nat, a: nat)
    requires a < n && Cyclic(p + [next], n)
    ensures Ahead(next, a, n) + |p| == Uses(p, a) * n + Ahead((p + [next])[0], a, n)
  {
    if p == [] {
      LapZero(n);
    } else {
      var front, last := p[..|p| - 1], p[|p| - 1];
      CyclicFront(p, next, n);
      LapCount(front, last, n, a);
      LapAdd(Uses(front, a), n);
      hide Cyclic;
    }
  }

  lemma CyclicFront(p: seq<nat>, next: nat, n: nat)
    requires p != [] && Cyclic(p + [next], n)
    ensures var front, last := p[..|p| - 1], p[|p| - 1];
      && front + [last] == p && Cyclic(p, n) && p[0] == (p + [next])[0]
      && last < n && next < n && next == Following(last, n)
  {
    assert forall i :: 0 <= i < |p| ==> p[i] == (p + [next])[i];
    assert (p + [next])[|p|] == Following((p + [next])[|p| - 1], n);
    assert p[..|p| - 1] + [p[|p| - 1]] == p;
  }

  lemma LapZero(n: nat)
    ensures 0 * n == 0
  {
  }

  lemma LapAdd(u: nat, n: nat)
    ensures (u + 1) * n == u * n + n
  {
  }

  lemma {:induction false} PicksCyclic(c: nat, k: nat, n: nat)
    requires n > 0
    ensures Cyclic(Picks(c, k, n), n)
  {
    if k > 0 {
      PicksCyclic(c, k - 1, n);
      PickStep(c + k - 1, n);
      if k > 1 {
        PickStep(c + k - 2, n);
      }
    }
  }

  /** Among any k consecutive sends over a list of n, each address is used floor(k/n) or ceil(k/n) times. */
  lemma RotationFair(c: nat, k: nat, n: nat, a: nat)
    requires n > 0 && a < n
    ensures k / n <= Uses(Picks(c, k, n), a) <= (k + n - 1) / n
    ensures forall i :: 0 <= i < k ==> Picks(c, k, n)[i] < n
  {
    PicksCyclic(c, k, n);
    PicksCyclic(c, k + 1, n);
    var p := Picks(c, k, n);
    LapCount(p, Pick(c + k, n), n, a);
    Quotients(k, Uses(p, a), n);
  }

  lemma Quotients(k: nat, u: nat, n: nat)
    requires n > 0 && u * n - n < k < u * n + n
    ensures k / n <= u <= (k + n - 1) / n
  {
    var q, x := k / n, (k + n - 1) / n;
    assert k == q * n + k % n;
    assert k + n - 1 == x * n + (k + n - 1) % n;
    assert (u + 1) * n == u * n + n && (x + 1) * n == x * n + n;
    MulMono(u + 1, q, n);
    MulMono(x + 1, u, n);
  }
}
