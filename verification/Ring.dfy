/** The circular buffer both producer-consumer examples share: enqueue and dequeue, with the index
    arithmetic done by a bit mask. */
module Ring {
  import opened Indices
  import opened Words

  // ---------------------------------------------------------------- the mask

  // Bitwise and.
  function And(a: nat, b: nat): (r: nat)
    ensures r <= a && r <= b
  {
    if a == 0 || b == 0 then 0 else 2 * And(a / 2, b / 2) + (a % 2) * (b % 2)
  }

  predicate PowerOfTwo(m: nat) { m == 1 || (m > 0 && m % 2 == 0 && PowerOfTwo(m / 2)) }

  // The largest power of two that divides m.
  function LowPart(m: nat): (r: nat)
    requires m > 0
    ensures 0 < r <= m && PowerOfTwo(r)
  {
    if m % 2 == 1 then 1 else 2 * LowPart(m / 2)
  }

  lemma ModDouble(x: nat, k: nat)
    requires k > 0
    ensures x % (2 * k) == 2 * ((x / 2) % k) + x % 2
  {
    var q, r := (x / 2) / k, (x / 2) % k;
    assert x / 2 == q * k + r;
    assert x == q * (2 * k) + (2 * r + x % 2);
    DivModUnique(2 * k, q, 2 * r + x % 2);
  }

  lemma {:induction false} LowPartWhole(m: nat)
    requires m > 0
    ensures LowPart(m) == m <==> PowerOfTwo(m)
    ensures LowPart(m) < m ==> 2 * LowPart(m) < m
  {
    if m % 2 == 0 {
      LowPartWhole(m / 2);
    }
  }

  /** Up to the largest power of two in m, masking with m - 1 is the remainder by that power. */
  lemma {:induction false} MaskRemainder(x: nat, m: nat)
    requires m > 0 && (x <= LowPart(m) || LowPart(m) == m)
    ensures And(x, m - 1) == x % LowPart(m)
    decreases m
  {
    if m % 2 == 1 {
      if m > 1 && x == 1 {
        assert And(0, (m - 1) / 2) == 0;
      }
    } else {
      var k := m / 2;
      MaskRemainder(x / 2, k);
      ModDouble(x, LowPart(k));
      assert (m - 1) / 2 == k - 1 && (m - 1) % 2 == 1;
    }
  }

  /** Masking with m - 1 is the remainder by m, for the indices of a ring of m, if and only if m is a power of two. */
  lemma MaskIsModulo(m: nat)
    requires m > 0
    ensures (forall x: nat :: x <= m ==> And(x, m - 1) == x % m) <==> PowerOfTwo(m)
  {
    LowPartWhole(m);
    hide And, PowerOfTwo, LowPart;
    if PowerOfTwo(m) {
      forall x: nat | x <= m ensures And(x, m - 1) == x % m {
        MaskRemainder(x, m);
      }
    } else {
      var l := LowPart(m);
      MaskRemainder(l, m);
      DivModUnique(l, 1, 0);
      DivModUnique(m, 0, l);
      assert And(l, m - 1) != l % m;
    }
  }

  // ---------------------------------------------------------------- the buffer

  datatype Buffer = Buffer(buf: seq<int>, hd: nat, tl: nat, ct: int)

  predicate InRange(b: Buffer) { b.hd < |b.buf| && b.tl < |b.buf| }

  function Enqueue(b: Buffer, item: int): (r: Buffer)
    requires InRange(b)
    ensures InRange(r) && |r.buf| == |b.buf|
  {
    Buffer(b.buf[b.tl := item], b.hd, And(b.tl + 1, |b.buf| - 1), b.ct + 1)
  }

  function Dequeue(b: Buffer): (r: (Buffer, int))
    requires InRange(b)
    ensures InRange(r.0) && |r.0.buf| == |b.buf|
  {
    (Buffer(b.buf, And(b.hd + 1, |b.buf| - 1), b.tl, b.ct - 1), b.buf[b.hd])
  }

  function Empty(m: nat): Buffer
    requires m > 0
  {
    Buffer(seq(m, i => 0), 0, 0, 0)
  }

  // The integers from lo up to hi.
  function Span(lo: nat, hi: nat): seq<int>
    requires lo <= hi
  {
    seq(hi - lo, k requires 0 <= k < hi - lo => lo + k)
  }

  // The buffer holds the queue q.  Its indices go round the largest power of two in its size, which is all of it if that is one.
  ghost predicate Holds(b: Buffer, q: seq<int>) {
    && |b.buf| > 0
    && var m := LowPart(|b.buf|);
       && b.hd < m && |q| <= m && b.ct == |q| && b.tl == Slot(m, b.hd, |q|)
       && forall k :: 0 <= k < |q| ==> b.buf[Slot(m, b.hd, k)] == q[k]
  }

  lemma NextIndex(m: nat, i: nat)
    requires m > 0 && i < LowPart(m)
    ensures And(i + 1, m - 1) == Slot(LowPart(m), i, 1)
  {
    MaskRemainder(i + 1, m);
    var l := LowPart(m);
    hide And, LowPart;
    if i + 1 == l {
      DivModUnique(l, 1, 0);
    } else {
      DivModUnique(l, 0, i + 1);
    }
  }

  /** With room, enqueue adds at the tail. */
  lemma EnqueueHolds(b: Buffer, q: seq<int>, item: int)
    requires Holds(b, q) && |q| < LowPart(|b.buf|)
    ensures Holds(Enqueue(b, item), q + [item])
  {
    NextIndex(|b.buf|, b.tl);
    hide And, LowPart;
  }

  /** With an item, dequeue takes the one at the head. */
  lemma DequeueHolds(b: Buffer, q: seq<int>)
    requires Holds(b, q) && q != []
    ensures Holds(Dequeue(b).0, q[1..]) && Dequeue(b).1 == q[0]
  {
    NextIndex(|b.buf|, b.hd);
    var m := LowPart(|b.buf|);
    hide And, LowPart;
    var hd' := Slot(m, b.hd, 1);
    forall k | 0 <= k < |q| - 1 ensures b.buf[Slot(m, hd', k)] == q[1..][k] {
      assert Slot(m, hd', k) == Slot(m, b.hd, k + 1);
    }
    assert Slot(m, b.hd, 0) == b.hd;
  }

  lemma EmptyHolds(m: nat)
    requires m > 0
    ensures Holds(Empty(m), [])
  {
  }

  // As many items can never overrun a buffer of size m.
  predicate Fits(m: nat, items: nat)
    requires m > 0
  {
    PowerOfTwo(m) || items <= LowPart(m)
  }

  // With a power of two there is room in the ring whenever there is room in the array.
  lemma RoomIs(m: nat, items: nat, held: nat)
    requires m > 0 && Fits(m, items) && held < m && held < items
    ensures held < LowPart(m)
  {
    LowPartWhole(m);
  }

  // ---------------------------------------------------------------- a size that is not a power of two

  // Enqueue 0, 1, ..., n - 1.
  function Fill(b: Buffer, n: nat): (r: Buffer)
    requires InRange(b)
    ensures InRange(r) && |r.buf| == |b.buf|
  {
    if n == 0 then b else Enqueue(Fill(b, n - 1), n - 1)
  }

  lemma {:induction false} FillCount(m: nat, n: nat)
    requires m > 0
    ensures Fill(Empty(m), n).ct == n
  {
    if n > 0 {
      FillCount(m, n - 1);
    }
  }

  // Until it has gone once round its low part, an index counts up.
  lemma {:induction false} FillLow(m: nat, n: nat)
    requires m > 0 && n <= LowPart(m)
    ensures var b := Fill(Empty(m), n);
      b.hd == 0 && b.ct == n && b.tl == (if n == LowPart(m) then 0 else n) && (n > 0 ==> b.buf[0] == 0)
  {
    hide And, LowPart;
    if n > 0 {
      FillLow(m, n - 1);
      NextIndex(m, n - 1);
    }
  }

  // Then the next item overwrites the first.
  lemma FillOver(m: nat)
    requires m > 0
    ensures Dequeue(Fill(Empty(m), LowPart(m) + 1)).1 == LowPart(m)
  {
    FillLow(m, LowPart(m));
    hide And, LowPart;
  }

  /** A buffer keeps its first item, however many up to its size come after it, if and only if its size is a power
      of two: otherwise a later item overwrites it. */
  lemma KeepsFirstItem(m: nat)
    requires m > 0
    ensures (forall n: nat :: 0 < n <= m ==> Dequeue(Fill(Empty(m), n)).1 == 0) <==> PowerOfTwo(m)
  {
    LowPartWhole(m);
    if PowerOfTwo(m) {
      forall n: nat | 0 < n <= m ensures Dequeue(Fill(Empty(m), n)).1 == 0 {
        FillLow(m, n);
      }
    } else {
      FillOver(m);
      assert LowPart(m) + 1 <= m;
    }
  }

  // ---------------------------------------------------------------- in place

  /** The static variables of the two programs. */
  class Queue {
    const buf: array<int>
    var hd: nat
    var tl: nat
    var ct: int

    ghost function State(): Buffer
      reads this, buf
    {
      Buffer(buf[..], hd, tl, ct)
    }

    constructor (m: nat)
      requires m > 0
      ensures fresh(buf) && State() == Empty(m)
    {
      buf := new int[m](i => 0);
      hd, tl, ct := 0, 0, 0;
    }

    /** With room, it is a first-in first-out queue: the queue held grows at the tail. */
    method Put(item: int, ghost q: seq<int>)
      requires Holds(State(), q) && |q| < LowPart(buf.Length)
      modifies this, buf
      ensures Holds(State(), q + [item]) && State() == Enqueue(old(State()), item)
    {
      EnqueueHolds(State(), q, item);
      buf[tl] := item;
      tl := And(tl + 1, buf.Length - 1);
      ct := ct + 1;
    }

    /** ... and shrinks at the head. */
    method Take(ghost q: seq<int>) returns (item: int)
      requires Holds(State(), q) && q != []
      modifies this
      ensures Holds(State(), q[1..]) && item == q[0] && (State(), item) == Dequeue(old(State()))
    {
      DequeueHolds(State(), q);
      item := buf[hd];
      hd := And(hd + 1, buf.Length - 1);
      ct := ct - 1;
    }
  }
}
