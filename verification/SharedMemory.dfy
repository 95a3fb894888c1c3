/** The word operations of mem.c, with the reservations behind load-linked and store-conditional. */
module SharedMemory {
  import opened Words

  datatype Error = EADDRNOTAVAIL | EFAULT | EOVERFLOW | EAGAIN

  datatype Result<T> = Ok(value: T) | Err(error: Error)

  datatype Unit = Unit

  /** The words of the memory, and the address each processor has reserved (-1 for none); one
      processor alone keeps no reservations. */
  datatype Store = Store(words: seq<Word>, shared: bool, res: seq<int>)

  function CheckAddress(s: Store, addr: nat): Result<Unit> {
    if addr >= 4 * |s.words| then Err(EADDRNOTAVAIL) else if addr % 4 != 0 then Err(EFAULT) else Ok(Unit)
  }

  function Lw(s: Store, addr: nat): Result<Word> {
    match CheckAddress(s, addr)
    case Ok(_) => Ok(s.words[addr / 4])
    case Err(e) => Err(e)
  }

  // Drop all reservations of addr.
  function Release(res: seq<int>, addr: nat): (r: seq<int>)
    ensures |r| == |res| && forall p :: 0 <= p < |r| ==> r[p] == if res[p] == addr then -1 else res[p]
  {
    seq(|res|, p requires 0 <= p < |res| => if res[p] == addr then -1 else res[p])
  }

  function Put(s: Store, addr: nat, data: Word): (Store, Result<Unit>) {
    match CheckAddress(s, addr)
    case Ok(_) => (s.(words := s.words[addr / 4 := data]), Ok(Unit))
    case Err(e) => (s, Err(e))
  }

  // The reservations go even if the address turns out to be wrong.
  function Sw(s: Store, addr: nat, data: Word): (Store, Result<Unit>) {
    Put(if s.shared then s.(res := Release(s.res, addr)) else s, addr, data)
  }

  function Ll(s: Store, prid: nat, addr: nat): (Store, Result<Word>) {
    if !s.shared then (s, Lw(s, addr))
    else if prid >= |s.res| then (s, Err(EOVERFLOW))
    else (s.(res := s.res[prid := addr]), Lw(s, addr))
  }

  function Sc(s: Store, prid: nat, addr: nat, data: Word): (Store, Result<Unit>) {
    if !s.shared then Put(s, addr, data)
    else if prid >= |s.res| then (s, Err(EOVERFLOW))
    else if s.res[prid] != addr then (s, Err(EAGAIN))
    else Put(s.(res := Release(s.res, addr)), addr, data)
  }

  // ---------------------------------------------------------------- in place

  class Mem {
    const shared: bool
    const w: array<Word>
    const resaddr: array<int>

    ghost predicate Valid() {
      shared ==> resaddr.Length > 1
    }

    ghost function State(): Store
      reads w, resaddr
    {
      Store(w[..], shared, resaddr[..])
    }

    // Mem_create; the words and the reservations start with arbitrary values.
    constructor (words: nat, nshr: nat)
      ensures Valid() && fresh(w) && fresh(resaddr)
      ensures w.Length == words && resaddr.Length == nshr && shared == (nshr > 1)
    {
      shared := nshr > 1;
      w := new Word[words];
      resaddr := new int[nshr];
    }

    method Check(addr: nat) returns (r: Result<Unit>)
      requires Valid()
      ensures r == CheckAddress(State(), addr)
    {
      if addr >= 4 * w.Length {
        return Err(EADDRNOTAVAIL);
      }
      if addr % 4 != 0 {
        return Err(EFAULT);
      }
      return Ok(Unit);
    }

    // Mem_lw.
    method LoadWord(addr: nat) returns (r: Result<Word>)
      requires Valid()
      ensures r == Lw(State(), addr)
    {
      var e := Check(addr);
      r := if e.Ok? then Ok(w[addr / 4]) else Err(e.error);
    }

    method ReleaseAll(addr: nat)
      requires Valid()
      modifies resaddr
      ensures resaddr[..] == Release(old(resaddr[..]), addr)
    {
      var i := 0;
      while i < resaddr.Length
        invariant i <= resaddr.Length
        invariant forall p :: 0 <= p < i ==> resaddr[p] == if old(resaddr[p]) == addr then -1 else old(resaddr[p])
        invariant forall p :: i <= p < resaddr.Length ==> resaddr[p] == old(resaddr[p])
      {
        if resaddr[i] == addr {
          resaddr[i] := -1;
        }
        i := i + 1;
      }
    }

    method PutWord(addr: nat, data: Word) returns (r: Result<Unit>)
      requires Valid()
      modifies w
      ensures (State(), r) == Put(old(State()), addr, data)
    {
      r := Check(addr);
      if r.Ok? {
        w[addr / 4] := data;
      }
    }

    // Mem_sw.
    method StoreWord(addr: nat, data: Word) returns (r: Result<Unit>)
      requires Valid()
      modifies w, resaddr
      ensures (State(), r) == Sw(old(State()), addr, data)
    {
      if shared {
        ReleaseAll(addr);
      }
      r := PutWord(addr, data);
    }

    // Mem_ll.
    method LoadLinked(prid: nat, addr: nat) returns (r: Result<Word>)
      requires Valid()
      modifies resaddr
      ensures (State(), r) == Ll(old(State()), prid, addr)
    {
      if shared {
        if prid >= resaddr.Length {
          return Err(EOVERFLOW);
        }
        resaddr[prid] := addr;
      }
      r := LoadWord(addr);
    }

    // Mem_sc.
    method StoreConditional(prid: nat, addr: nat, data: Word) returns (r: Result<Unit>)
      requires Valid()
      modifies w, resaddr
      ensures (State(), r) == Sc(old(State()), prid, addr, data)
    {
      if shared {
        if prid >= resaddr.Length {
          return Err(EOVERFLOW);
        }
        if resaddr[prid] != addr {
          return Err(EAGAIN);
        }
        ReleaseAll(addr);
      }
      r := PutWord(addr, data);
    }
  }

  // ---------------------------------------------------------------- what a reservation means

  datatype Op =
    | Load(addr: nat)
    | Write(addr: nat, data: Word)
    | Link(prid: nat, addr: nat)
    | Conditional(prid: nat, addr: nat, data: Word)

  function Apply(s: Store, op: Op): Store {
    match op
    case Load(_) => s
    case Write(a, d) => Sw(s, a, d).0
    case Link(p, a) => Ll(s, p, a).0
    case Conditional(p, a, d) => Sc(s, p, a, d).0
  }

  // The state before the i-th of a sequence of operations.
  function Before(s: Store, ops: seq<Op>, i: nat): (r: Store)
    requires i <= |ops|
    ensures |r.words| == |s.words| && |r.res| == |s.res| && r.shared == s.shared
  {
    if i == 0 then s else Apply(Before(s, ops, i - 1), ops[i - 1])
  }

  // The i-th operation is a store to addr, or a store-conditional to it that goes ahead.
  predicate Writes(s: Store, ops: seq<Op>, i: nat, addr: nat)
    requires i < |ops|
  {
    match ops[i]
    case Write(a, _) => a == addr
    case Conditional(p, a, d) => a == addr && Sc(Before(s, ops, i), p, a, d).1 !in {Err(EAGAIN), Err(EOVERFLOW)}
    case _ => false
  }

  predicate Links(op: Op, p: nat) { op.Link? && op.prid == p }

  // The last load-linked of p before the j-th operation was the i-th, to addr, and nothing has written to addr since.
  ghost predicate Intact(s: Store, ops: seq<Op>, i: nat, j: nat, p: nat, addr: nat)
    requires i < j <= |ops|
  {
    && ops[i] == Link(p, addr)
    && (forall k :: i < k < j ==> !Links(ops[k], p) && !Writes(s, ops, k, addr))
  }

  // ... or p has issued none so far, held addr from the start, and nothing has written to it.
  ghost predicate IntactFromStart(s: Store, ops: seq<Op>, j: nat, p: nat, addr: nat)
    requires j <= |ops| && p < |s.res|
  {
    s.res[p] == addr && forall k :: 0 <= k < j ==> !Links(ops[k], p) && !Writes(s, ops, k, addr)
  }

  /** A processor holds a reservation exactly if nothing has written to the address since its last load-linked,
      which was of that address. */
  lemma {:induction false} ReservationMeans(s: Store, ops: seq<Op>, j: nat, p: nat, addr: nat)
    requires s.shared && p < |s.res| && j <= |ops|
    ensures Before(s, ops, j).res[p] == addr <==>
      IntactFromStart(s, ops, j, p, addr) || exists i: nat :: i < j && Intact(s, ops, i, j, p, addr)
  {
    if j > 0 {
      ReservationMeans(s, ops, j - 1, p, addr);
      var b := Before(s, ops, j - 1);
      if Links(ops[j - 1], p) {
        if ops[j - 1].addr == addr {
          assert Intact(s, ops, j - 1, j, p, addr);
        }
      } else if Writes(s, ops, j - 1, addr) {
        assert Before(s, ops, j).res == Release(b.res, addr);
      } else {
        assert (Before(s, ops, j).res[p] == addr) == (b.res[p] == addr);
        var last := j - 1;
        assert IntactFromStart(s, ops, j, p, addr) <==> IntactFromStart(s, ops, last, p, addr);
        forall i: nat | i < last ensures Intact(s, ops, i, last, p, addr) <==> Intact(s, ops, i, j, p, addr) {
        }
      }
    }
  }

  /** A store that succeeds is what the next load of the address returns, and no load of another address sees a store;
      one that fails changes no word.  Either way nobody keeps a reservation of the address, and a
      store-conditional without a reservation changes nothing at all. */
  lemma StoresReadBack(s: Store, p: nat, addr: nat, data: Word, x: nat)
    ensures var (t, r) := Sw(s, addr, data);
      && Lw(t, x) == (if r.Ok? && x == addr then Ok(data) else Lw(s, x))
      && (r.Ok? <==> Lw(s, addr).Ok?)
      && (s.shared ==> addr !in t.res)
    ensures var (t, r) := Sc(s, p, addr, data);
      && Lw(t, x) == (if r.Ok? && x == addr then Ok(data) else Lw(s, x))
      && (r.Ok? <==> Lw(s, addr).Ok? && (s.shared ==> p < |s.res| && s.res[p] == addr))
      && (r.Err? && r.error in {EAGAIN, EOVERFLOW} ==> t == s)
      && (s.shared && !(r.Err? && r.error in {EAGAIN, EOVERFLOW}) ==> addr !in t.res)
  {
    if addr % 4 == 0 && x % 4 == 0 && addr / 4 == x / 4 {
      assert addr == x;
    }
  }

  // Which word an address means, and the error of one that means none: four bytes to a word, the end checked before the alignment.
  ghost predicate Answers<T>(words: nat, addr: nat, r: Result<T>, good: Result<T>) {
    && (forall i: nat :: i < words && addr == 4 * i ==> r == good)
    && (addr >= 4 * words ==> r == Err(EADDRNOTAVAIL))
    && (addr < 4 * words && addr % 4 != 0 ==> r == Err(EFAULT))
  }

  /** Each aligned address below the end of the memory means one word, the first and the last included, and all others are refused
      with the error of the program; load-linked and store-conditional first check the processor, and store-conditional its reservation. */
  lemma AddressExact(s: Store, p: nat, addr: nat, data: Word)
    ensures Answers(|s.words|, addr, Lw(s, addr), if addr / 4 < |s.words| then Ok(s.words[addr / 4]) else Err(EFAULT))
    ensures Answers(|s.words|, addr, Sw(s, addr, data).1, Ok(Unit))
    ensures if s.shared && p >= |s.res| then Ll(s, p, addr) == (s, Err(EOVERFLOW))
            else Answers(|s.words|, addr, Ll(s, p, addr).1, if addr / 4 < |s.words| then Ok(s.words[addr / 4]) else Err(EFAULT))
    ensures if s.shared && p >= |s.res| then Sc(s, p, addr, data) == (s, Err(EOVERFLOW))
            else if s.shared && s.res[p] != addr then Sc(s, p, addr, data) == (s, Err(EAGAIN))
            else Answers(|s.words|, addr, Sc(s, p, addr, data).1, Ok(Unit))
  {
    forall i: nat | i < |s.words| && addr == 4 * i ensures addr % 4 == 0 && addr / 4 == i {
    }
  }

  // A store to another address leaves the word at addr alone.
  lemma WordKept(s: Store, op: Op, addr: nat)
    requires match op
             case Write(a, _) => a != addr
             case Conditional(p, a, d) => a != addr || (s.shared && (p >= |s.res| || s.res[p] != a))
             case _ => true
    ensures Lw(Apply(s, op), addr) == Lw(s, addr)
  {
  }

  lemma {:induction false} WordUnwritten(s: Store, ops: seq<Op>, i: nat, j: nat, addr: nat)
    requires i <= j <= |ops| && forall k :: i <= k < j ==> !Writes(s, ops, k, addr)
    ensures Lw(Before(s, ops, j), addr) == Lw(Before(s, ops, i), addr)
    decreases j - i
  {
    if i < j {
      WordUnwritten(s, ops, i, j - 1, addr);
      assert !Writes(s, ops, j - 1, addr);
      WordKept(Before(s, ops, j - 1), ops[j - 1], addr);
    }
  }

  /** A store-conditional of a processor whose last load-linked was of addr fails exactly if it is to another address
      or if addr has been written since; when it succeeds the word is still the one the load-linked returned. */
  lemma StoreConditionalAfterLink(s: Store, ops: seq<Op>, i: nat, p: nat, addr: nat, addr': nat, data: Word)
    requires s.shared && p < |s.res| && i < |ops| && ops[i] == Link(p, addr)
    requires forall k :: i < k < |ops| ==> !Links(ops[k], p)
    ensures var now := Before(s, ops, |ops|); var r := Sc(now, p, addr', data).1;
      && (r == Err(EAGAIN) <==> addr' != addr || exists k :: i < k < |ops| && Writes(s, ops, k, addr))
      && (r.Ok? ==> Lw(now, addr) == Ll(Before(s, ops, i), p, addr).1 && Lw(Sc(now, p, addr', data).0, addr) == Ok(data))
  {
    var now := Before(s, ops, |ops|);
    ReservationMeans(s, ops, |ops|, p, addr);
    ReservationMeans(s, ops, |ops|, p, addr');
    assert Intact(s, ops, i, |ops|, p, addr) <==> forall k :: i < k < |ops| ==> !Writes(s, ops, k, addr);
    assert !IntactFromStart(s, ops, |ops|, p, addr) && !IntactFromStart(s, ops, |ops|, p, addr') by {
      assert Links(ops[i], p);
    }
    forall i': nat, a: nat | i' < |ops| && Intact(s, ops, i', |ops|, p, a) ensures i' == i && a == addr {
      assert Links(ops[i'], p) && Links(ops[i], p);
    }
    if now.res[p] == addr {
      assert !Writes(s, ops, i, addr);
      WordUnwritten(s, ops, i, |ops|, addr);
    }
  }
}
