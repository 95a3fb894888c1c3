/** Sem_P.s and Sem_V.s, instruction by instruction, on one semaphore word that any number of
    processors use at once. */
module Semaphore {
  import opened Words
  import opened SharedMemory
  import opened Sums

  /** Where a processor is: outside the two routines, or at an instruction of one of them, with $t0. */
  datatype Proc =
    | Outside
    | PLink | PDecrement(t0: Word) | PTest(t0: Word) | PStore(t0: Word) | PBranch(t0: Word)
    | VLink | VIncrement(t0: Word) | VStore(t0: Word) | VBranch(t0: Word)

  /** The memory, the processors, how often the word was taken from and given to by a successful
      store-conditional, and how often each routine returned. */
  datatype Sys = Sys(mem: Store, proc: seq<Proc>, base: int, downs: nat, ups: nat, pReturns: nat, vReturns: nat)

  // What a processor does next: call a routine, go on with the one it is in, or, outside of
  // them, any other memory operation; a plain store may set the semaphore.
  datatype Event = CallP | CallV | Go | Other(op: Op)

  function At(s: Sys, p: nat, x: Proc): Sys
    requires p < |s.proc|
  {
    s.(proc := s.proc[p := x])
  }

  function Loaded(r: Result<Word>): Word {
    match r
    case Ok(v) => v
    case Err(_) => 0
  }

  // The next instruction of a processor inside a routine; the semaphore is at addr.
  function Instruction(s: Sys, addr: nat, p: nat): Sys
    requires p < |s.proc|
  {
    match s.proc[p]
    case Outside => s
    case PLink =>
      var (m, r) := Ll(s.mem, p, addr);
      At(s, p, PDecrement(Loaded(r))).(mem := m)
    case PDecrement(t) => At(s, p, PTest((t - 1) % WORD))
    case PTest(t) => At(s, p, if t >= WORD / 2 then PLink else PStore(t))
    case PStore(t) =>
      var (m, r) := Sc(s.mem, p, addr, t);
      At(s, p, PBranch(if r.Ok? then 1 else 0)).(mem := m, downs := s.downs + if r.Ok? then 1 else 0)
    case PBranch(t) => if t == 0 then At(s, p, PLink) else At(s, p, Outside).(pReturns := s.pReturns + 1)
    case VLink =>
      var (m, r) := Ll(s.mem, p, addr);
      At(s, p, VIncrement(Loaded(r))).(mem := m)
    case VIncrement(t) => At(s, p, VStore((t + 1) % WORD))
    case VStore(t) =>
      var (m, r) := Sc(s.mem, p, addr, t);
      At(s, p, VBranch(if r.Ok? then 1 else 0)).(mem := m, ups := s.ups + if r.Ok? then 1 else 0)
    case VBranch(t) => if t == 0 then At(s, p, VLink) else At(s, p, Outside).(vReturns := s.vReturns + 1)
  }

  function Step(s: Sys, addr: nat, p: nat, e: Event): Sys
    requires p < |s.proc|
  {
    match e
    case Go => Instruction(s, addr, p)
    case CallP => if s.proc[p].Outside? then At(s, p, PLink) else s
    case CallV => if s.proc[p].Outside? then At(s, p, VLink) else s
    case Other(op) =>
      if !s.proc[p].Outside? then s
      else
        var t := s.(mem := Apply(s.mem, op));
        if op.Write? && op.addr == addr then t.(base := op.data - s.ups + s.downs) else t
  }

  // Other operations are issued under the processor's own number, and store-conditionals on the
  // semaphore are left to the routines.
  predicate Legal(addr: nat, p: nat, e: Event) {
    match e
    case Other(Link(q, _)) => q == p
    case Other(Conditional(q, a, _)) => q == p && a != addr
    case _ => true
  }

  predicate InMemory(m: Store, addr: nat) { CheckAddress(m, addr).Ok? }

  function Value(s: Sys, addr: nat): Word
    requires InMemory(s.mem, addr)
  {
    s.mem.words[addr / 4]
  }

  // A store-conditional of p to addr would succeed.
  predicate Linked(m: Store, p: nat, addr: nat) { !m.shared || (p < |m.res| && m.res[p] == addr) }

  // What a processor between load-linked and store-conditional knows while its reservation holds.
  predicate Knows(x: Proc, v: Word) {
    match x
    case PDecrement(t) => t == v
    case PTest(t) => t == (v - 1) % WORD
    case PStore(t) => t == v - 1 && v <= WORD / 2
    case VIncrement(t) => t == v
    case VStore(t) => t == (v + 1) % WORD
    case _ => true
  }

  // The routines about to return: their store-conditional succeeded.
  function LeavesP(x: Proc): int { One(x.PBranch? && x.t0 != 0) }

  function LeavesV(x: Proc): int { One(x.VBranch? && x.t0 != 0) }

  ghost predicate Shape(m: Store, addr: nat, n: nat) {
    InMemory(m, addr) && if m.shared then |m.res| == n else n == 1
  }

  ghost predicate AllKnow(m: Store, proc: seq<Proc>, addr: nat)
    requires InMemory(m, addr)
  {
    forall p :: 0 <= p < |proc| && Linked(m, p, addr) ==> Knows(proc[p], m.words[addr / 4])
  }

  ghost predicate Balanced(s: Sys) {
    && s.base + s.ups - s.downs >= 0
    && s.downs == s.pReturns + Sum(s.proc, LeavesP)
    && s.ups == s.vReturns + Sum(s.proc, LeavesV)
  }

  ghost predicate Inv(s: Sys, addr: nat) {
    && Shape(s.mem, addr, |s.proc|) && AllKnow(s.mem, s.proc, addr) && Balanced(s)
    && Value(s, addr) == (s.base + s.ups - s.downs) % WORD
  }

  // ---------------------------------------------------------------- each step is atomic

  // What a step does to the semaphore as its users see it.
  datatype Atomic = Nothing | Down | Up | Set(v: Word)

  function Effect(s: Sys, addr: nat, p: nat, e: Event): Atomic
    requires p < |s.proc|
  {
    if e.Go? && s.proc[p].PStore? && Linked(s.mem, p, addr) then Down
    else if e.Go? && s.proc[p].VStore? && Linked(s.mem, p, addr) then Up
    else if e.Other? && s.proc[p].Outside? && e.op.Write? && e.op.addr == addr then Set(e.op.data)
    else Nothing
  }

  // The semaphore of the textbook, on a signed machine word: Down waits for a positive value.
  predicate Semantics(v: Word, a: Atomic, v': Word) {
    match a
    case Nothing => v' == v
    case Down => 1 <= v <= WORD / 2 && v' == v - 1
    case Up => v' == (v + 1) % WORD
    case Set(d) => v' == d
  }

  lemma LinkKeeps(m: Store, proc: seq<Proc>, addr: nat, p: nat, x: Proc)
    requires Shape(m, addr, |proc|) && AllKnow(m, proc, addr) && p < |proc|
    requires Knows(x, m.words[addr / 4])
    ensures Ll(m, p, addr).1 == Ok(m.words[addr / 4])
    ensures var m' := Ll(m, p, addr).0; Shape(m', addr, |proc|) && m'.words == m.words && AllKnow(m', proc[p := x], addr)
  {
  }

  lemma ConditionalKeeps(m: Store, proc: seq<Proc>, addr: nat, p: nat, d: Word, x: Proc)
    requires Shape(m, addr, |proc|) && AllKnow(m, proc, addr) && p < |proc| && (forall v: Word :: Knows(x, v))
    ensures var (m', r) := Sc(m, p, addr, d);
      && Shape(m', addr, |proc|) && AllKnow(m', proc[p := x], addr)
      && (r.Ok? <==> Linked(m, p, addr))
      && m'.words[addr / 4] == if r.Ok? then d else m.words[addr / 4]
  {
  }

  lemma OtherKeeps(m: Store, proc: seq<Proc>, addr: nat, p: nat, op: Op)
    requires Shape(m, addr, |proc|) && AllKnow(m, proc, addr) && p < |proc| && proc[p].Outside? && Legal(addr, p, Other(op))
    ensures var m' := Apply(m, op);
      && Shape(m', addr, |proc|) && AllKnow(m', proc, addr)
      && m'.words[addr / 4] == if op.Write? && op.addr == addr then op.data else m.words[addr / 4]
  {
    var m' := Apply(m, op);
    if !(op.Write? && op.addr == addr) {
      assert m'.words[addr / 4] == m.words[addr / 4];
      forall q | 0 <= q < |proc| && Linked(m', q, addr) ensures Knows(proc[q], m'.words[addr / 4]) {
        assert q == p || Linked(m, q, addr);
      }
    }
  }

  lemma ModStep(x: int, v: Word)
    requires v == x % WORD && x >= 0
    ensures (x + 1) % WORD == (v + 1) % WORD
    ensures v >= 1 ==> x >= 1 && (x - 1) % WORD == v - 1
  {
  }

  lemma SumsKept(s: Sys, p: nat, x: Proc)
    requires p < |s.proc|
    ensures Sum(s.proc[p := x], LeavesP) == Sum(s.proc, LeavesP) - LeavesP(s.proc[p]) + LeavesP(x)
    ensures Sum(s.proc[p := x], LeavesV) == Sum(s.proc, LeavesV) - LeavesV(s.proc[p]) + LeavesV(x)
  {
    SumUpdate(s.proc, LeavesP, p, x);
    SumUpdate(s.proc, LeavesV, p, x);
  }

  // A step that leaves the memory alone.
  lemma LocalStep(s: Sys, addr: nat, p: nat, t: Sys)
    requires Inv(s, addr) && p < |s.proc| == |t.proc| && t.mem == s.mem && t.proc == s.proc[p := t.proc[p]]
    requires t.base == s.base && t.ups == s.ups && t.downs == s.downs
    requires Knows(s.proc[p], Value(s, addr)) ==> Knows(t.proc[p], Value(s, addr))
    requires t.pReturns - s.pReturns == LeavesP(s.proc[p]) - LeavesP(t.proc[p])
    requires t.vReturns - s.vReturns == LeavesV(s.proc[p]) - LeavesV(t.proc[p])
    ensures Inv(t, addr)
  {
    SumsKept(s, p, t.proc[p]);
  }

  lemma LinkStep(s: Sys, addr: nat, p: nat)
    requires Inv(s, addr) && p < |s.proc| && (s.proc[p].PLink? || s.proc[p].VLink?)
    ensures var t := Instruction(s, addr, p); Inv(t, addr) && Value(t, addr) == Value(s, addr)
  {
    var t := Instruction(s, addr, p);
    SumsKept(s, p, t.proc[p]);
    LinkKeeps(s.mem, s.proc, addr, p, t.proc[p]);
  }

  // A store-conditional that takes d units or gives u, and brings processor p where it will return if it has done so.
  lemma UnitsMoved(s: Sys, addr: nat, p: nat, t: Sys, d: nat, u: nat)
    requires Inv(s, addr) && p < |s.proc| == |t.proc| && t.proc == s.proc[p := t.proc[p]]
    requires LeavesP(s.proc[p]) == LeavesV(s.proc[p]) == 0 && LeavesP(t.proc[p]) == d && LeavesV(t.proc[p]) == u && d + u <= 1
    requires t.base == s.base && t.downs == s.downs + d && t.ups == s.ups + u && t.pReturns == s.pReturns && t.vReturns == s.vReturns
    requires Shape(t.mem, addr, |t.proc|) && AllKnow(t.mem, t.proc, addr) && (d == 1 ==> Value(s, addr) >= 1)
    requires Value(t, addr) == if d == 1 then Value(s, addr) - 1 else if u == 1 then (Value(s, addr) + 1) % WORD else Value(s, addr)
    ensures Inv(t, addr)
  {
    SumsKept(s, p, t.proc[p]);
    ModStep(s.base + s.ups - s.downs, Value(s, addr));
    hide Sum, AllKnow, Shape;
  }

  // What a processor about to store knows of its word.
  lemma StoreKnows(s: Sys, addr: nat, p: nat)
    requires Inv(s, addr) && p < |s.proc| && Linked(s.mem, p, addr)
    ensures s.proc[p].PStore? ==> s.proc[p].t0 == Value(s, addr) - 1 && 1 <= Value(s, addr) <= WORD / 2
    ensures s.proc[p].VStore? ==> s.proc[p].t0 == (Value(s, addr) + 1) % WORD
  {
    assert Knows(s.proc[p], Value(s, addr));
  }

  lemma ConditionalStep(s: Sys, addr: nat, p: nat)
    requires Inv(s, addr) && p < |s.proc| && (s.proc[p].PStore? || s.proc[p].VStore?)
    ensures var t := Instruction(s, addr, p);
      Inv(t, addr) && Semantics(Value(s, addr), Effect(s, addr, p, Go), Value(t, addr))
  {
    var t := Instruction(s, addr, p);
    ConditionalKeeps(s.mem, s.proc, addr, p, s.proc[p].t0, t.proc[p]);
    var ok := Linked(s.mem, p, addr);
    if ok {
      StoreKnows(s, addr, p);
    }
    assert InMemory(t.mem, addr);
    hide Inv, AllKnow, Shape, Sc, Linked;
    UnitsMoved(s, addr, p, t, if ok && s.proc[p].PStore? then 1 else 0, if ok && s.proc[p].VStore? then 1 else 0);
  }

  // What a step owes: the accounts stay right and the change is one the textbook allows.
  ghost predicate Atomically(s: Sys, addr: nat, p: nat, e: Event)
    requires Inv(s, addr) && p < |s.proc|
  {
    var t := Step(s, addr, p, e);
    var a := Effect(s, addr, p, e);
    && Inv(t, addr) && |t.proc| == |s.proc| && Semantics(Value(s, addr), a, Value(t, addr))
    && t.downs - s.downs == (if a.Down? then 1 else 0)
    && t.ups - s.ups == (if a.Up? then 1 else 0)
  }

  lemma CallStep(s: Sys, addr: nat, p: nat, e: Event)
    requires Inv(s, addr) && p < |s.proc| && (e.CallP? || e.CallV?)
    ensures Atomically(s, addr, p, e)
  {
    var t := Step(s, addr, p, e);
    assert t.proc == s.proc[p := t.proc[p]];
    LocalStep(s, addr, p, t);
    hide Inv;
  }

  lemma OtherStep(s: Sys, addr: nat, p: nat, op: Op)
    requires Inv(s, addr) && p < |s.proc| && Legal(addr, p, Other(op))
    ensures Atomically(s, addr, p, Other(op))
  {
    if s.proc[p].Outside? {
      OtherKeeps(s.mem, s.proc, addr, p, op);
      hide AllKnow, Shape, Sum, Apply;
    }
  }

  lemma GoLocal(s: Sys, addr: nat, p: nat)
    requires Inv(s, addr) && p < |s.proc|
    requires var x := s.proc[p]; x.PDecrement? || x.PTest? || x.PBranch? || x.VIncrement? || x.VBranch?
    ensures Atomically(s, addr, p, Go)
  {
    var t := Step(s, addr, p, Go);
    hide Inv;
    LocalStep(s, addr, p, t);
  }

  /** Every step of every processor keeps the accounts and is one of the textbook's: nothing, an atomic down of a
      positive value, an atomic up, or a plain store.  A down or an up is exactly a store-conditional that succeeds. */
  lemma StepAtomic(s: Sys, addr: nat, p: nat, e: Event)
    requires Inv(s, addr) && p < |s.proc| && Legal(addr, p, e)
    ensures Atomically(s, addr, p, e)
  {
    match e
    case CallP => CallStep(s, addr, p, e);
    case CallV => CallStep(s, addr, p, e);
    case Other(op) => OtherStep(s, addr, p, op);
    case Go =>
      match s.proc[p] {
        case Outside =>
        case PLink => LinkStep(s, addr, p);
        case VLink => LinkStep(s, addr, p);
        case PStore(_) => ConditionalStep(s, addr, p);
        case VStore(_) => ConditionalStep(s, addr, p);
        case _ =>
          hide Atomically;
          GoLocal(s, addr, p);
      }
  }

  // ---------------------------------------------------------------- runs

  predicate LegalSchedule(addr: nat, n: nat, sched: seq<(nat, Event)>) {
    forall i :: 0 <= i < |sched| ==> sched[i].0 < n && Legal(addr, sched[i].0, sched[i].1)
  }

  // Any interleaving of the processors' steps.
  function After(s: Sys, addr: nat, sched: seq<(nat, Event)>): (r: Sys)
    requires LegalSchedule(addr, |s.proc|, sched)
    ensures |r.proc| == |s.proc|
  {
    if sched == [] then s
    else
      var l := |sched| - 1;
      Step(After(s, addr, sched[..l]), addr, sched[l].0, sched[l].1)
  }

  // Nobody is in the routines, and the reservations are arbitrary.
  ghost predicate Initial(s: Sys, addr: nat) {
    && Shape(s.mem, addr, |s.proc|)
    && (forall p :: 0 <= p < |s.proc| ==> s.proc[p].Outside?)
    && s.base == Value(s, addr) && s.ups == s.downs == s.pReturns == s.vReturns == 0
  }

  lemma {:induction false} AfterInv(s: Sys, addr: nat, sched: seq<(nat, Event)>)
    requires Initial(s, addr) && LegalSchedule(addr, |s.proc|, sched)
    ensures Inv(After(s, addr, sched), addr)
    decreases |sched|
  {
    if sched == [] {
      SumSame(s.proc, LeavesP, 0);
      SumSame(s.proc, LeavesV, 0);
    } else {
      var l := |sched| - 1;
      AfterInv(s, addr, sched[..l]);
      StepAtomic(After(s, addr, sched[..l]), addr, sched[l].0, sched[l].1);
    }
  }

  lemma Accounts(t: Sys, addr: nat)
    requires Inv(t, addr)
    ensures Shape(t.mem, addr, |t.proc|) && t.base + t.ups - t.downs >= 0
    ensures Value(t, addr) == (t.base + t.ups - t.downs) % WORD
    ensures t.base + t.ups - t.downs < WORD ==> Value(t, addr) == t.base + t.ups - t.downs
    ensures t.pReturns <= t.downs && t.vReturns <= t.ups
    ensures (forall p :: 0 <= p < |t.proc| ==> t.proc[p].Outside?) ==> t.downs == t.pReturns && t.ups == t.vReturns
  {
    SumNatural(t.proc, LeavesP);
    SumNatural(t.proc, LeavesV);
    if forall p :: 0 <= p < |t.proc| ==> t.proc[p].Outside? {
      SumSame(t.proc, LeavesP, 0);
      SumSame(t.proc, LeavesV, 0);
    }
  }

  /** Conservation, in every interleaving: the word is the last plain value plus the ups minus the downs, modulo the
      word size, and this balance is never negative; it is the word itself unless the ups overflow it.  A routine
      that returned has made its up or down, and between calls there are no others. */
  lemma Conservation(s: Sys, addr: nat, sched: seq<(nat, Event)>)
    requires Initial(s, addr) && LegalSchedule(addr, |s.proc|, sched)
    ensures var t := After(s, addr, sched); var balance := t.base + t.ups - t.downs;
      && Shape(t.mem, addr, |t.proc|)
      && balance >= 0 && Value(t, addr) == balance % WORD
      && (balance < WORD ==> Value(t, addr) == balance)
      && t.pReturns <= t.downs && t.vReturns <= t.ups
      && ((forall p :: 0 <= p < |t.proc| ==> t.proc[p].Outside?) ==> t.downs == t.pReturns && t.ups == t.vReturns)
  {
    hide Inv, After, Initial;
    AfterInv(s, addr, sched);
    Accounts(After(s, addr, sched), addr);
  }

  // ---------------------------------------------------------------- a processor left alone

  function Alone(s: Sys, addr: nat, p: nat, k: nat): (r: Sys)
    requires p < |s.proc|
    ensures |r.proc| == |s.proc|
  {
    if k == 0 then s else Instruction(Alone(s, addr, p, k - 1), addr, p)
  }

  /** Left alone, a processor in Sem_P takes one unit and returns, in five instructions, exactly if the word is
      positive as a signed number decremented without overflow; otherwise it is back at its load-linked after three. */
  lemma AloneP(s: Sys, addr: nat, p: nat)
    requires Shape(s.mem, addr, |s.proc|) && p < |s.proc| && s.proc[p] == PLink
    ensures var v := Value(s, addr);
      if 1 <= v <= WORD / 2 then
        var t := Alone(s, addr, p, 5);
        InMemory(t.mem, addr) && t.proc[p] == Outside && t.pReturns == s.pReturns + 1 && Value(t, addr) == v - 1
      else
        var t := Alone(s, addr, p, 3);
        InMemory(t.mem, addr) && t.proc[p] == PLink && t.mem.words == s.mem.words
  {
    var v := Value(s, addr);
    var s1 := Alone(s, addr, p, 1);
    assert s1 == Instruction(s, addr, p) by { assert Alone(s, addr, p, 0) == s; }
    assert s1.proc[p] == PDecrement(v) && Linked(s1.mem, p, addr);
    var s2 := Alone(s, addr, p, 2);
    assert s2.proc[p] == PTest((v - 1) % WORD) && s2.mem == s1.mem;
    var s3 := Alone(s, addr, p, 3);
    assert s3.mem == s1.mem;
    if 1 <= v <= WORD / 2 {
      var s4 := Alone(s, addr, p, 4);
      assert s4.proc[p] == PBranch(1);
      assert Alone(s, addr, p, 5).mem == s4.mem;
    }
  }

  /** ... and one in Sem_V adds one and returns, in four instructions. */
  lemma AloneV(s: Sys, addr: nat, p: nat)
    requires Shape(s.mem, addr, |s.proc|) && p < |s.proc| && s.proc[p] == VLink
    ensures var t := Alone(s, addr, p, 4);
      InMemory(t.mem, addr) && t.proc[p] == Outside && t.vReturns == s.vReturns + 1 && Value(t, addr) == (Value(s, addr) + 1) % WORD
  {
    var v := Value(s, addr);
    var s1 := Alone(s, addr, p, 1);
    assert s1 == Instruction(s, addr, p) by { assert Alone(s, addr, p, 0) == s; }
    assert s1.proc[p] == VIncrement(v) && Linked(s1.mem, p, addr);
    var s2 := Alone(s, addr, p, 2);
    assert s2.proc[p] == VStore((v + 1) % WORD) && s2.mem == s1.mem;
    var s3 := Alone(s, addr, p, 3);
    assert s3.proc[p] == VBranch(1);
    assert Alone(s, addr, p, 4).mem == s3.mem;
  }

  // ---------------------------------------------------------------- one pass, whatever the others do in it

  // What one pass computes from the word it loads, and whether it goes on to store it.
  datatype Routine = SemaphoreP | SemaphoreV

  function Stored(q: Routine, v: Word): Word { if q.SemaphoreP? then (v - 1) % WORD else (v + 1) % WORD }

  predicate Stores(q: Routine, v: Word) { q.SemaphoreP? ==> Stored(q, v) < WORD / 2 }

  // Load-linked, then the operations of the others, then the store-conditional unless the pass is over before it.
  function Pass(q: Routine, s: Store, p: nat, addr: nat, others: seq<Op>): (Store, bool) {
    var (s1, r) := Ll(s, p, addr);
    var s2 := Before(s1, others, |others|);
    if Stores(q, Loaded(r)) then
      var (s3, e) := Sc(s2, p, addr, Stored(q, Loaded(r)));
      (s3, e.Ok?)
    else (s2, false)
  }

  // Passes until one stores; env says what the others do in each.
  function Passes(q: Routine, s: Store, p: nat, addr: nat, env: seq<seq<Op>>): (Store, bool)
    decreases |env|
  {
    if env == [] then (s, false)
    else
      var (t, done) := Pass(q, s, p, addr, env[0]);
      if done then (t, true) else Passes(q, t, p, addr, env[1..])
  }

  // Others act under other numbers, and there are others only if the memory is shared.
  predicate Foreign(s: Store, p: nat, others: seq<Op>) {
    && (s.shared ==> p < |s.res|) && (!s.shared ==> others == [])
    && forall k :: 0 <= k < |others| ==> !Links(others[k], p) && !(others[k].Conditional? && others[k].prid == p)
  }

  // One of the others writes to addr.
  ghost predicate Disturbed(s: Store, p: nat, addr: nat, others: seq<Op>) {
    exists k :: 0 <= k < |others| && Writes(Ll(s, p, addr).0, others, k, addr)
  }

  lemma {:induction false} BeforeTail(s: Store, op: Op, ops: seq<Op>, i: nat)
    requires i <= |ops|
    ensures Before(s, [op] + ops, i + 1) == Before(Apply(s, op), ops, i)
  {
    if i > 0 {
      BeforeTail(s, op, ops, i - 1);
    } else {
      assert Before(s, [op] + ops, 0) == s;
    }
  }

  lemma WritesTail(s: Store, op: Op, ops: seq<Op>, i: nat, addr: nat)
    requires i < |ops|
    ensures Writes(s, [op] + ops, i + 1, addr) == Writes(Apply(s, op), ops, i, addr)
  {
    BeforeTail(s, op, ops, i);
  }

  // Seen from before the load-linked.
  lemma DisturbedFrom(s: Store, p: nat, addr: nat, others: seq<Op>, ops: seq<Op>)
    requires ops == [Link(p, addr)] + others
    ensures Before(Ll(s, p, addr).0, others, |others|) == Before(s, ops, |ops|)
    ensures Disturbed(s, p, addr, others) <==> exists k :: 0 < k < |ops| && Writes(s, ops, k, addr)
  {
    BeforeTail(s, Link(p, addr), others, |others|);
    forall k | 0 <= k < |others| ensures Writes(s, ops, k + 1, addr) == Writes(Ll(s, p, addr).0, others, k, addr) {
      WritesTail(s, Link(p, addr), others, k, addr);
    }
    hide Writes, Before, Ll;
    if k :| 0 < k < |ops| && Writes(s, ops, k, addr) {
      assert Writes(Ll(s, p, addr).0, others, k - 1, addr);
    }
    if k :| 0 <= k < |others| && Writes(Ll(s, p, addr).0, others, k, addr) {
      assert Writes(s, ops, k + 1, addr);
    }
  }

  // The store-conditional at the end of a pass, from state `now`.
  ghost predicate Concludes(s: Store, now: Store, addr: nat, t: Store, ok: bool, disturbed: bool, data: Word)
    requires InMemory(s, addr) && InMemory(now, addr)
  {
    && (ok <==> !disturbed)
    && (ok ==> now.words[addr / 4] == s.words[addr / 4] && t.words == now.words[addr / 4 := data])
    && (!ok ==> t == now)
  }

  lemma SharedConcludes(s: Store, p: nat, addr: nat, others: seq<Op>, data: Word)
    requires InMemory(s, addr) && Foreign(s, p, others) && s.shared
    ensures var now := Before(Ll(s, p, addr).0, others, |others|); var (t, e) := Sc(now, p, addr, data);
      InMemory(now, addr) && Concludes(s, now, addr, t, e.Ok?, Disturbed(s, p, addr, others), data)
  {
    var ops := [Link(p, addr)] + others;
    DisturbedFrom(s, p, addr, others, ops);
    assert forall k :: 0 < k < |ops| ==> ops[k] == others[k - 1];
    StoreConditionalAfterLink(s, ops, 0, p, addr, addr, data);
    var now := Before(s, ops, |ops|);
    assert Before(s, ops, 0) == s;
    hide Before, Disturbed, Writes;
    assert InMemory(now, addr) && now.shared;
  }

  lemma ConditionalExact(s: Store, p: nat, addr: nat, others: seq<Op>, data: Word)
    requires InMemory(s, addr) && Foreign(s, p, others)
    ensures var now := Before(Ll(s, p, addr).0, others, |others|); var (t, e) := Sc(now, p, addr, data);
      InMemory(now, addr) && Concludes(s, now, addr, t, e.Ok?, Disturbed(s, p, addr, others), data)
  {
    if s.shared {
      SharedConcludes(s, p, addr, others, data);
    }
  }

  /** A pass stores exactly if the word it loaded lets it and no other processor has written to the word since.  Then the word is still the
      one it loaded, and the pass replaces it; otherwise the pass changes no word. */
  lemma PassExact(q: Routine, s: Store, p: nat, addr: nat, others: seq<Op>)
    requires InMemory(s, addr) && Foreign(s, p, others)
    ensures PassDone(q, s, p, addr, others)
  {
    var v := s.words[addr / 4];
    assert Ll(s, p, addr).1 == Ok(v);
    assert Stores(q, v) <==> (q.SemaphoreP? ==> 1 <= v <= WORD / 2);
    assert Stores(q, v) ==> Stored(q, v) == if q.SemaphoreP? then v - 1 else if v == 0xFFFF_FFFF then 0 else v + 1;
    ConditionalExact(s, p, addr, others, Stored(q, v));
    hide Before, Ll, Sc, Disturbed, Stored, Stores;
  }

  ghost predicate PassDone(q: Routine, s: Store, p: nat, addr: nat, others: seq<Op>)
    requires InMemory(s, addr)
  {
    var v := s.words[addr / 4];
    var (t, done) := Pass(q, s, p, addr, others);
    var now := Before(Ll(s, p, addr).0, others, |others|);
    && InMemory(now, addr)
    && (done <==> (q.SemaphoreP? ==> 1 <= v <= WORD / 2) && !Disturbed(s, p, addr, others))
    && (if done then now.words[addr / 4] == v && Counted(q, now, t, addr) else t == now)
  }

  // One unit less, from a word that is positive as a signed number decremented; or one more, round the word size.
  ghost predicate Counted(q: Routine, now: Store, t: Store, addr: nat)
    requires InMemory(now, addr)
  {
    var v := now.words[addr / 4];
    match q
    case SemaphoreP => 1 <= v <= 0x8000_0000 && t.words == now.words[addr / 4 := v - 1]
    case SemaphoreV => t.words == now.words[addr / 4 := if v == 0xFFFF_FFFF then 0 else v + 1]
  }

  // Foreign others in every pass.
  predicate ForeignEnv(s: Store, p: nat, env: seq<seq<Op>>) { forall i :: 0 <= i < |env| ==> Foreign(s, p, env[i]) }

  /** The routine ends in the first pass that stores, and the passes before have changed no word: over all its passes it does one atomic
      down or up, or none if it still spins. */
  lemma {:induction false} PassesOnce(q: Routine, s: Store, p: nat, addr: nat, env: seq<seq<Op>>) returns (k: nat, b: Store)
    requires InMemory(s, addr) && ForeignEnv(s, p, env)
    ensures var (t, done) := Passes(q, s, p, addr, env);
      && k <= |env| && (done <==> k < |env|)
      && b == Interrupted(s, p, addr, env, k) && InMemory(b, addr)
      && (if done then Pass(q, b, p, addr, env[k]) == (t, true) else t == b)
    decreases |env|
  {
    if env == [] {
      k, b := 0, s;
    } else {
      PassExact(q, s, p, addr, env[0]);
      if Pass(q, s, p, addr, env[0]).1 {
        k, b := 0, s;
      } else {
        var t := Pass(q, s, p, addr, env[0]).0;
        assert forall i :: 0 <= i < |env| - 1 ==> env[1..][i] == env[i + 1];
        k, b := PassesOnce(q, t, p, addr, env[1..]);
        InterruptedNext(s, p, addr, env, k);
        k := k + 1;
      }
    }
  }

  // Some pass counts, once, on the word as it is then, and all that happened before was the doing of the others; or no pass does.
  ghost predicate CountedOnce(q: Routine, s: Store, p: nat, addr: nat, env: seq<seq<Op>>, t: Store, done: bool) {
    if done then
      exists k :: 0 <= k < |env| && CountsIn(q, Interrupted(s, p, addr, env, k), p, addr, env[k], t)
    else t == Interrupted(s, p, addr, env, |env|)
  }

  ghost predicate CountsIn(q: Routine, b: Store, p: nat, addr: nat, others: seq<Op>, t: Store) {
    var now := Before(Ll(b, p, addr).0, others, |others|);
    InMemory(now, addr) && Counted(q, now, t, addr)
  }

  lemma PassesCount(q: Routine, s: Store, p: nat, addr: nat, env: seq<seq<Op>>)
    requires InMemory(s, addr) && ForeignEnv(s, p, env)
    ensures var (t, done) := Passes(q, s, p, addr, env); CountedOnce(q, s, p, addr, env, t, done)
  {
    var k, b := PassesOnce(q, s, p, addr, env);
    if k < |env| {
      InterruptedShape(s, p, addr, env, k);
      PassExact(q, b, p, addr, env[k]);
    }
  }

  lemma {:induction false} InterruptedShape(s: Store, p: nat, addr: nat, env: seq<seq<Op>>, k: nat)
    requires k <= |env|
    ensures var b := Interrupted(s, p, addr, env, k); b.shared == s.shared && |b.res| == |s.res| && |b.words| == |s.words|
  {
    if k > 0 {
      InterruptedShape(s, p, addr, env, k - 1);
    }
  }

  // What load-linked and the others alone make of the memory in the first k passes.
  function Interrupted(s: Store, p: nat, addr: nat, env: seq<seq<Op>>, k: nat): Store
    requires k <= |env|
  {
    if k == 0 then s else var b := Interrupted(s, p, addr, env, k - 1); Before(Ll(b, p, addr).0, env[k - 1], |env[k - 1]|)
  }

  lemma {:induction false} InterruptedNext(s: Store, p: nat, addr: nat, env: seq<seq<Op>>, k: nat)
    requires k < |env|
    ensures Interrupted(Before(Ll(s, p, addr).0, env[0], |env[0]|), p, addr, env[1..], k) == Interrupted(s, p, addr, env, k + 1)
  {
    if k > 0 {
      InterruptedNext(s, p, addr, env, k - 1);
    } else {
      assert Interrupted(s, p, addr, env, 0) == s;
    }
  }

  // ---------------------------------------------------------------- the routines in place

  // The word can be addressed, under a valid processor number.
  ghost predicate Usable(m: Mem, prid: nat, addr: nat)
    reads m.w, m.resaddr
  {
    m.Valid() && InMemory(m.State(), addr) && (m.shared ==> prid < m.resaddr.Length)
  }

  // One operation of another processor.
  method Perform(m: Mem, op: Op)
    requires m.Valid()
    modifies m.w, m.resaddr
    ensures m.State() == Apply(old(m.State()), op)
  {
    match op {
      case Load(a) =>
      case Write(a, d) => var e := m.StoreWord(a, d);
      case Link(p, a) => var r := m.LoadLinked(p, a);
      case Conditional(p, a, d) => var e := m.StoreConditional(p, a, d);
    }
  }

  method PerformAll(m: Mem, ops: seq<Op>)
    requires m.Valid()
    modifies m.w, m.resaddr
    ensures m.State() == Before(old(m.State()), ops, |ops|)
  {
    for i := 0 to |ops|
      invariant m.State() == Before(old(m.State()), ops, i)
    {
      Perform(m, ops[i]);
    }
  }

  /** Sem_P, while env says what the other processors do in each of its passes; it is not done if it still spins after them. */
  method SemP(m: Mem, prid: nat, addr: nat, env: seq<seq<Op>>) returns (done: bool)
    requires Usable(m, prid, addr)
    modifies m.w, m.resaddr
    ensures (m.State(), done) == Passes(SemaphoreP, old(m.State()), prid, addr, env)
    ensures ForeignEnv(old(m.State()), prid, env) ==> CountedOnce(SemaphoreP, old(m.State()), prid, addr, env, m.State(), done)
  {
    done := false;
    var i := 0;
    while i < |env| && !done
      invariant i <= |env| && m.Valid()
      invariant Passes(SemaphoreP, old(m.State()), prid, addr, env) ==
                if done then (m.State(), true) else Passes(SemaphoreP, m.State(), prid, addr, env[i..])
    {
      ghost var before := m.State();
      assert env[i..][0] == env[i] && env[i..][1..] == env[i + 1..];
      var r := m.LoadLinked(prid, addr);
      var t0 := (Loaded(r) - 1) % WORD;
      PerformAll(m, env[i]);
      if t0 < WORD / 2 {
        var e := m.StoreConditional(prid, addr, t0);
        done := e.Ok?;
      }
      assert (m.State(), done) == Pass(SemaphoreP, before, prid, addr, env[i]);
      i := i + 1;
    }
    if ForeignEnv(old(m.State()), prid, env) {
      PassesCount(SemaphoreP, old(m.State()), prid, addr, env);
    }
  }

  /** Sem_V, in the same way. */
  method SemV(m: Mem, prid: nat, addr: nat, env: seq<seq<Op>>) returns (done: bool)
    requires Usable(m, prid, addr)
    modifies m.w, m.resaddr
    ensures (m.State(), done) == Passes(SemaphoreV, old(m.State()), prid, addr, env)
    ensures ForeignEnv(old(m.State()), prid, env) ==> CountedOnce(SemaphoreV, old(m.State()), prid, addr, env, m.State(), done)
  {
    done := false;
    var i := 0;
    while i < |env| && !done
      invariant i <= |env| && m.Valid()
      invariant Passes(SemaphoreV, old(m.State()), prid, addr, env) ==
                if done then (m.State(), true) else Passes(SemaphoreV, m.State(), prid, addr, env[i..])
    {
      ghost var before := m.State();
      assert env[i..][0] == env[i] && env[i..][1..] == env[i + 1..];
      var r := m.LoadLinked(prid, addr);
      var t0 := (Loaded(r) + 1) % WORD;
      PerformAll(m, env[i]);
      var e := m.StoreConditional(prid, addr, t0);
      done := e.Ok?;
      assert (m.State(), done) == Pass(SemaphoreV, before, prid, addr, env[i]);
      i := i + 1;
    }
    if ForeignEnv(old(m.State()), prid, env) {
      PassesCount(SemaphoreV, old(m.State()), prid, addr, env);
    }
  }
}
