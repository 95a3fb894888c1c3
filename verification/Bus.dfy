/** The shared memory bus: the arbiter of mem.c, the accesses of the memory instructions of
    datapath.c, and the cycle of shrmem.c that sweeps all processors. */
module Bus {
  import opened Indices
  import opened Sums

  // ---------------------------------------------------------------- the arbiter, as a queue

  /** The memory controller: the processors waiting, first come first, whether an access was granted
      in this cycle, and the accesses granted so far (their number is the bus utilisation). */
  datatype Bus = Bus(queue: seq<nat>, used: bool, grants: seq<nat>)

  // Mem_busacc, for processor p.
  function Access(b: Bus, p: nat): (r: (Bus, bool)) {
    var q := if p in b.queue then b.queue else b.queue + [p];
    if !b.used && q[0] == p then (Bus(q[1..], true, b.grants + [p]), true) else (b.(queue := q), false)
  }

  // ---------------------------------------------------------------- the arbiter, as a ring

  lemma NextSlot(n: nat, hd: nat)
    requires hd < n
    ensures (hd + 1) % n == Slot(n, hd, 1)
  {
  }

  /** memctl: a ring of one slot for each processor, -1 where it is empty.  One processor alone
      does not share the memory, and then there is no arbitration at all. */
  class Arbiter {
    const shared: bool
    const nshr: nat
    const arr: array<int>
    var hd: nat
    var tl: nat
    var used: bool
    var util: nat
    ghost var queue: seq<nat>
    ghost var grants: seq<nat>

    ghost predicate Valid()
      reads this, arr
    {
      if shared then Ring() else queue == []
    }

    ghost predicate Ring()
      reads this, arr
    {
      && hd < nshr && arr.Length == nshr && |queue| <= nshr
      && tl == Slot(nshr, hd, |queue|) && util == |grants|
      && (forall k :: 0 <= k < nshr ==> arr[Slot(nshr, hd, k)] == if k < |queue| then queue[k] else -1)
      && Members(nshr, queue)
    }

    ghost function State(): Bus
      reads this
    {
      Bus(queue, used, grants)
    }

    // Mem_create.
    constructor (n: nat)
      ensures Valid() && fresh(arr) && nshr == n && shared == (n > 1) && State() == Bus([], false, [])
    {
      shared := n > 1;
      nshr := n;
      var a := new int[n];
      var i := 0;
      while i < n
        invariant i <= n
        invariant forall k :: 0 <= k < i ==> a[k] == -1
      {
        a[i] := -1;
        i := i + 1;
      }
      arr := a;
      hd, tl, used, util := 0, 0, false, 0;
      queue, grants := [], [];
    }

    // Each slot of the ring is the k-th from the head, for some k.
    lemma SlotOf(j: nat) returns (k: nat)
      requires Ring() && j < nshr
      ensures k < nshr && Slot(nshr, hd, k) == j
    {
      k := if j >= hd then j - hd else j + nshr - hd;
    }

    // The linear search of the whole ring finds exactly the processors that wait.
    method Waiting(p: nat) returns (found: bool)
      requires Ring()
      ensures found <==> p in queue
    {
      var i := 0;
      found := false;
      while !found && i < nshr
        invariant i <= nshr
        invariant found ==> p in queue
        invariant !found ==> forall j :: 0 <= j < i ==> arr[j] != p
      {
        if arr[i] == p {
          ghost var k := SlotOf(i);
          assert arr[Slot(nshr, hd, k)] == p;
          found := true;
        }
        i := i + 1;
      }
      assert forall k :: 0 <= k < |queue| ==> arr[Slot(nshr, hd, k)] == queue[k];
    }

    method Enqueue(p: nat)
      requires Ring() && p < nshr && p !in queue
      modifies this, arr
      ensures Ring() && queue == old(queue) + [p]
      ensures used == old(used) && grants == old(grants)
    {
      MembersFit(nshr, queue + [p]);
      assert arr[Slot(nshr, hd, |queue|)] == -1;
      NextSlot(nshr, tl);
      arr[tl] := p;
      tl := (tl + 1) % nshr;
      queue := queue + [p];
    }

    method Dequeue()
      requires Ring() && queue != []
      modifies this, arr
      ensures Ring() && queue == old(queue)[1..]
      ensures used && grants == old(grants) + [old(queue)[0]]
    {
      NextSlot(nshr, hd);
      assert arr[Slot(nshr, hd, 0)] == queue[0];
      arr[hd] := -1;
      hd := (hd + 1) % nshr;
      used := true;
      util := util + 1;
      ghost var q := queue;
      grants := grants + [queue[0]];
      queue := queue[1..];
      forall k | 0 <= k < nshr
        ensures arr[Slot(nshr, hd, k)] == if k < |queue| then queue[k] else -1
      {
        if k + 1 < nshr {
          assert Slot(nshr, hd, k) == Slot(nshr, old(hd), k + 1);
        }
      }
    }

    /** Mem_busacc: the ring behaves as the queue; no waiting processor is overwritten or lost. */
    method Busacc(p: nat) returns (granted: bool)
      requires Valid() && p < nshr
      modifies this, arr
      ensures Valid()
      ensures (State(), granted) == if shared then Access(old(State()), p) else (old(State()), true)
    {
      if !shared {
        return true;
      }
      var found := Waiting(p);
      if !found {
        Enqueue(p);
      }
      assert arr[Slot(nshr, hd, 0)] == queue[0];
      if !used && arr[hd] == p {
        Dequeue();
        granted := true;
      } else {
        granted := false;
      }
    }

    // Mem_busclr.
    method Busclr()
      requires Valid()
      modifies this`used
      ensures Valid() && State() == old(State()).(used := false)
    {
      used := false;
    }
  }

  // ---------------------------------------------------------------- processors on the bus

  /** What an instruction does to the bus: nothing, a byte or word of the terminal (which bypasses
      the bus), a memory access, or WAIT. */
  datatype Act = Other | Terminal | Memory | Wait

  /** A processor: whether its memory instruction was deferred and will be executed again, the loads and stores of
      any kind it attempted, those deferred, and those to the terminal. */
  datatype Cpu = Cpu(running: bool, pending: bool, attempts: nat, deferrals: nat, terminal: nat)

  // `asked` lists the processors in the order of the first attempts of their memory instructions.
  datatype Sys = Sys(bus: Bus, cpu: seq<Cpu>, asked: seq<nat>)

  // The processor executes a memory instruction: the deferred one, or a new one.
  predicate Asks(c: Cpu, a: Act) { c.running && (c.pending || a == Memory) }

  predicate AsksAnew(c: Cpu, a: Act) { c.running && !c.pending && a == Memory }

  // Datapath_execute.
  function CpuStep(s: Sys, p: nat, a: Act): (r: Sys)
    requires p < |s.cpu|
    ensures |r.cpu| == |s.cpu|
  {
    var c := s.cpu[p];
    if Asks(c, a) then
      var (b, granted) := Access(s.bus, p);
      var c' := c.(pending := !granted, attempts := c.attempts + 1, deferrals := c.deferrals + if granted then 0 else 1);
      Sys(b, s.cpu[p := c'], if c.pending then s.asked else s.asked + [p])
    else if c.running && a == Terminal then s.(cpu := s.cpu[p := c.(attempts := c.attempts + 1, terminal := c.terminal + 1)])
    else if c.running && a == Wait then s.(cpu := s.cpu[p := c.(running := false)])
    else s
  }

  // The first k processors of a cycle.
  function Sweep(s: Sys, acts: seq<Act>, k: nat): (r: Sys)
    requires k <= |acts| == |s.cpu|
    ensures |r.cpu| == |s.cpu|
  {
    if k == 0 then s else CpuStep(Sweep(s, acts, k - 1), k - 1, acts[k - 1])
  }

  function Clear(s: Sys): Sys { s.(bus := s.bus.(used := false)) }

  // One iteration of the loop of sim.
  function Cycle(s: Sys, acts: seq<Act>): (r: Sys)
    requires |acts| == |s.cpu|
    ensures |r.cpu| == |s.cpu|
  {
    Sweep(Clear(s), acts, |acts|)
  }

  predicate Schedule(n: nat, sched: seq<seq<Act>>) { forall t :: 0 <= t < |sched| ==> |sched[t]| == n }

  function Start(n: nat): Sys { Sys(Bus([], false, []), seq(n, i => Cpu(true, false, 0, 0, 0)), []) }

  // The state after the first t cycles of a schedule.
  function After(n: nat, sched: seq<seq<Act>>, t: nat): (r: Sys)
    requires Schedule(n, sched) && t <= |sched|
    ensures |r.cpu| == n
  {
    if t == 0 then Start(n) else Cycle(After(n, sched, t - 1), sched[t - 1])
  }

  // ---------------------------------------------------------------- what a cycle does

  // The processors that wait are those whose instruction was deferred, and all requests were granted or wait, in order.
  ghost predicate Inv(s: Sys) {
    && Members(|s.cpu|, s.bus.queue)
    && (forall p :: 0 <= p < |s.cpu| ==> (s.cpu[p].pending <==> p in s.bus.queue) && (s.cpu[p].pending ==> s.cpu[p].running))
    && s.asked == s.bus.grants + s.bus.queue
  }

  // The processors among the first k that make a new request, in order.
  function Newcomers(cpu: seq<Cpu>, acts: seq<Act>, k: nat): (r: seq<nat>)
    requires k <= |acts| == |cpu|
    ensures forall i :: 0 <= i < |r| ==> r[i] < k
  {
    if k == 0 then []
    else if AsksAnew(cpu[k - 1], acts[k - 1]) then Newcomers(cpu, acts, k - 1) + [k - 1]
    else Newcomers(cpu, acts, k - 1)
  }

  // All that want the bus in a cycle, in the order of their requests.
  function Line(s: Sys, acts: seq<Act>): seq<nat>
    requires |acts| == |s.cpu|
  {
    s.bus.queue + Newcomers(s.cpu, acts, |acts|)
  }

  // The bus after the first k processors of a cycle, when `line` holds those that waited and those that came:
  // the first in line has been served if its turn has passed.
  function BusAt(line: seq<nat>, grants: seq<nat>, k: nat): Bus {
    if line != [] && line[0] < k then Bus(line[1..], true, grants + [line[0]]) else Bus(line, false, grants)
  }

  // Between two steps of processor k only its own place in the queue changes.
  ghost predicate Others(q: seq<nat>, q': seq<nat>, k: nat) {
    forall p :: p != k ==> (p in q <==> p in q')
  }

  // A newcomer joins the line, and is served if it is alone.
  lemma JoinLine(line: seq<nat>, grants: seq<nat>, k: nat)
    requires k !in line
    ensures Access(BusAt(line, grants, k), k) == (BusAt(line + [k], grants, k + 1), line == [])
    ensures Others(BusAt(line, grants, k).queue, BusAt(line + [k], grants, k + 1).queue, k)
    ensures k in BusAt(line + [k], grants, k + 1).queue <==> line != []
  {
    if line != [] {
      assert (line + [k])[1..] == line[1..] + [k];
    } else {
      assert line + [k] == [k];
    }
  }

  // A processor whose instruction was deferred finds itself in line, and is served if it is first.
  lemma RetryLine(line: seq<nat>, grants: seq<nat>, n: nat, k: nat)
    requires k in line && Members(n, line)
    ensures Access(BusAt(line, grants, k), k) == (BusAt(line, grants, k + 1), line[0] == k)
    ensures Others(BusAt(line, grants, k).queue, BusAt(line, grants, k + 1).queue, k)
    ensures k in BusAt(line, grants, k + 1).queue <==> line[0] != k
  {
    assert line == [line[0]] + line[1..];
    assert k in line[1..] <==> line[0] != k;
  }

  lemma SkipLine(line: seq<nat>, grants: seq<nat>, k: nat)
    requires k !in line
    ensures BusAt(line, grants, k + 1) == BusAt(line, grants, k)
    ensures k !in BusAt(line, grants, k).queue
  {
    if line != [] {
      assert line[0] != k;
    }
  }

  // The first k processors have had their turn: those deferred, and only those, are in the queue.
  ghost predicate Settled(cpu: seq<Cpu>, q: seq<nat>, k: nat) {
    k <= |cpu| && forall p :: 0 <= p < k ==> (cpu[p].pending <==> p in q) && (cpu[p].pending ==> cpu[p].running)
  }

  ghost predicate Untouched(cpu: seq<Cpu>, cpu': seq<Cpu>, k: nat) {
    |cpu'| == |cpu| && forall p :: k <= p < |cpu| ==> cpu'[p] == cpu[p]
  }

  lemma SettledNext(cpu: seq<Cpu>, q: seq<nat>, q': seq<nat>, k: nat, c: Cpu)
    requires k < |cpu| && Settled(cpu, q, k) && Others(q, q', k)
    requires (c.pending <==> k in q') && (c.pending ==> c.running)
    ensures Settled(cpu[k := c], q', k + 1)
  {
  }

  // The state in the middle of a cycle that started from s: `line` holds those that waited and those that came.
  ghost predicate Midway(s: Sys, k: nat, came: seq<nat>, r: Sys) {
    && Members(|s.cpu|, s.bus.queue + came)
    && r.bus == BusAt(s.bus.queue + came, s.bus.grants, k)
    && r.asked == s.asked + came
    && Settled(r.cpu, r.bus.queue, k)
    && Untouched(s.cpu, r.cpu, k)
  }

  // What one step does to the state, given its effect on the bus.
  lemma MidwayNext(s: Sys, k: nat, came: seq<nat>, r: Sys, came': seq<nat>, c: Cpu, t: Sys)
    requires k < |s.cpu| && Midway(s, k, came, r) && |r.cpu| == |s.cpu| && t.cpu == r.cpu[k := c]
    requires Members(|s.cpu|, s.bus.queue + came') && t.bus == BusAt(s.bus.queue + came', s.bus.grants, k + 1)
    requires t.asked == s.asked + came'
    requires Others(r.bus.queue, t.bus.queue, k)
    requires (c.pending <==> k in t.bus.queue) && (c.pending ==> c.running)
    ensures Midway(s, k + 1, came', t)
  {
    SettledNext(r.cpu, r.bus.queue, t.bus.queue, k, c);
    hide Members, BusAt, Settled, Others;
  }

  lemma InLine(s: Sys, k: nat, came: seq<nat>, p: nat)
    requires Inv(s) && k <= p < |s.cpu| && forall i :: 0 <= i < |came| ==> came[i] < k
    ensures p in s.bus.queue + came <==> s.cpu[p].pending
    ensures s.cpu[p].pending ==> s.cpu[p].running
  {
  }

  lemma DistinctMore(n: nat, q: seq<nat>, k: nat)
    requires Members(n, q) && k !in q && k < n
    ensures Members(n, q + [k])
  {
  }

  lemma StepRetries(s: Sys, a: Act, k: nat, came: seq<nat>, r: Sys)
    requires k < |s.cpu| && Inv(s) && Midway(s, k, came, r) && (forall i :: 0 <= i < |came| ==> came[i] < k)
    requires Asks(s.cpu[k], a) && s.cpu[k].pending
    ensures |r.cpu| == |s.cpu| && Midway(s, k + 1, came, CpuStep(r, k, a))
  {
    InLine(s, k, came, k);
    RetryLine(s.bus.queue + came, s.bus.grants, |s.cpu|, k);
    assert r.cpu[k] == s.cpu[k];
    hide Inv, Members, BusAt, Settled, Others, Access;
    var t := CpuStep(r, k, a);
    MidwayNext(s, k, came, r, came, t.cpu[k], t);
  }

  lemma StepJoins(s: Sys, a: Act, k: nat, came: seq<nat>, r: Sys)
    requires k < |s.cpu| && Inv(s) && Midway(s, k, came, r) && (forall i :: 0 <= i < |came| ==> came[i] < k)
    requires AsksAnew(s.cpu[k], a)
    ensures |r.cpu| == |s.cpu| && Midway(s, k + 1, came + [k], CpuStep(r, k, a))
  {
    var line := s.bus.queue + came;
    InLine(s, k, came, k);
    JoinLine(line, s.bus.grants, k);
    DistinctMore(|s.cpu|, line, k);
    assert s.bus.queue + (came + [k]) == line + [k];
    assert r.cpu[k] == s.cpu[k];
    hide Inv, Members, BusAt, Settled, Others, Access;
    var t := CpuStep(r, k, a);
    assert t.asked == s.asked + (came + [k]);
    MidwayNext(s, k, came, r, came + [k], t.cpu[k], t);
  }

  lemma StepElse(s: Sys, a: Act, k: nat, came: seq<nat>, r: Sys)
    requires k < |s.cpu| && Inv(s) && Midway(s, k, came, r) && (forall i :: 0 <= i < |came| ==> came[i] < k)
    requires !Asks(s.cpu[k], a)
    ensures |r.cpu| == |s.cpu| && Midway(s, k + 1, came, CpuStep(r, k, a))
  {
    InLine(s, k, came, k);
    SkipLine(s.bus.queue + came, s.bus.grants, k);
    assert r.cpu[k] == s.cpu[k];
    hide Inv, Members, BusAt, Settled, Access;
    var t := CpuStep(r, k, a);
    assert t.cpu == r.cpu[k := t.cpu[k]];
    MidwayNext(s, k, came, r, came, t.cpu[k], t);
  }

  lemma MidwayStart(s: Sys)
    requires Inv(s) && !s.bus.used
    ensures Midway(s, 0, [], s)
  {
    hide Members;
    assert s.bus.queue + [] == s.bus.queue;
  }

  lemma {:induction false} SweepMidway(s: Sys, acts: seq<Act>, k: nat)
    requires k <= |acts| == |s.cpu| && Inv(s) && !s.bus.used
    ensures Midway(s, k, Newcomers(s.cpu, acts, k), Sweep(s, acts, k))
  {
    hide Midway, CpuStep, Inv;
    if k == 0 {
      MidwayStart(s);
    } else {
      SweepMidway(s, acts, k - 1);
      var r := Sweep(s, acts, k - 1);
      var came := Newcomers(s.cpu, acts, k - 1);
      if AsksAnew(s.cpu[k - 1], acts[k - 1]) {
        StepJoins(s, acts[k - 1], k - 1, came, r);
      } else if Asks(s.cpu[k - 1], acts[k - 1]) {
        StepRetries(s, acts[k - 1], k - 1, came, r);
      } else {
        StepElse(s, acts[k - 1], k - 1, came, r);
      }
    }
  }

  lemma {:induction false} NewcomersAsk(cpu: seq<Cpu>, acts: seq<Act>, k: nat, p: nat)
    requires k <= |acts| == |cpu|
    ensures p in Newcomers(cpu, acts, k) <==> p < k && AsksAnew(cpu[p], acts[p])
  {
    if k > 0 {
      NewcomersAsk(cpu, acts, k - 1, p);
    }
  }

  // The processors in line are those that want the bus.
  lemma LineAsks(s: Sys, acts: seq<Act>, p: nat)
    requires |acts| == |s.cpu| && Inv(s) && p < |s.cpu|
    ensures p in Line(s, acts) <==> Asks(s.cpu[p], acts[p])
  {
    NewcomersAsk(s.cpu, acts, |acts|, p);
  }

  lemma LineIds(s: Sys, acts: seq<Act>)
    requires |acts| == |s.cpu| && Inv(s)
    ensures forall i :: 0 <= i < |Line(s, acts)| ==> Line(s, acts)[i] < |s.cpu|
  {
  }

  lemma SomeoneAsks(s: Sys, acts: seq<Act>)
    requires |acts| == |s.cpu| && Inv(s)
    ensures Line(s, acts) != [] <==> exists p :: 0 <= p < |s.cpu| && Asks(s.cpu[p], acts[p])
  {
    LineIds(s, acts);
    hide Line, Asks;
    var line := Line(s, acts);
    if line != [] {
      LineAsks(s, acts, line[0]);
    }
    forall p | 0 <= p < |s.cpu| && Asks(s.cpu[p], acts[p]) ensures line != [] {
      LineAsks(s, acts, p);
    }
  }

  // Serving the first of a line of processors.
  function Serve(line: seq<nat>, grants: seq<nat>): (seq<nat>, seq<nat>) {
    if line == [] then ([], grants) else (line[1..], grants + [line[0]])
  }

  lemma ServeKeeps(line: seq<nat>, grants: seq<nat>, n: nat, k: nat)
    requires Members(n, line) && n <= k
    ensures var (q, g) := Serve(line, grants); g + q == grants + line && Members(n, q) && BusAt(line, grants, k) == Bus(q, line != [], g)
  {
  }

  /** A cycle takes all new requests into the queue, in the order of the processors, and serves exactly one,
      the first in line, whether it came now or waited; with nobody in line it serves none. */
  lemma CycleServes(s: Sys, acts: seq<Act>)
    requires |acts| == |s.cpu| && Inv(s)
    ensures Inv(Cycle(s, acts))
    ensures Members(|s.cpu|, Line(s, acts))
    ensures (Cycle(s, acts).bus.queue, Cycle(s, acts).bus.grants) == Serve(Line(s, acts), s.bus.grants)
    ensures Cycle(s, acts).asked == s.asked + Newcomers(s.cpu, acts, |acts|)
  {
    hide Newcomers, Sweep, BusAt, Serve, Members;
    var came := Newcomers(s.cpu, acts, |acts|);
    var t := Cycle(s, acts);
    SweepMidway(Clear(s), acts, |acts|);
    ServeKeeps(Line(s, acts), s.bus.grants, |s.cpu|, |acts|);
    assert t.asked == s.bus.grants + Line(s, acts) by {
      assert (s.bus.grants + s.bus.queue) + came == s.bus.grants + (s.bus.queue + came);
    }
  }

  // ---------------------------------------------------------------- whole runs

  lemma {:induction false} AfterInv(n: nat, sched: seq<seq<Act>>, t: nat)
    requires Schedule(n, sched) && t <= |sched|
    ensures Inv(After(n, sched, t))
  {
    if t > 0 {
      AfterInv(n, sched, t - 1);
      CycleServes(After(n, sched, t - 1), sched[t - 1]);
    }
  }

  // Cycle t serves processor p, and no other.
  ghost predicate GrantedIn(n: nat, sched: seq<seq<Act>>, t: nat, p: nat)
    requires Schedule(n, sched) && t < |sched|
  {
    After(n, sched, t + 1).bus.grants == After(n, sched, t).bus.grants + [p]
  }

  /** First come, first served, with nothing lost or served twice: at every time the requests made so far are those
      served, in order, followed by those waiting, in order. */
  lemma FirstComeFirstServed(n: nat, sched: seq<seq<Act>>, t: nat)
    requires Schedule(n, sched) && t <= |sched|
    ensures var s := After(n, sched, t);
      && s.asked == s.bus.grants + s.bus.queue
      && Members(n, s.bus.queue)
      && forall p :: 0 <= p < n ==> (p in s.bus.queue <==> s.cpu[p].pending)
  {
    AfterInv(n, sched, t);
  }

  /** A cycle serves one processor if any wants the bus, and none otherwise. */
  lemma OneGrantPerCycle(n: nat, sched: seq<seq<Act>>, t: nat)
    requires Schedule(n, sched) && t < |sched|
    ensures |After(n, sched, t + 1).bus.grants| - |After(n, sched, t).bus.grants|
         == if exists p :: 0 <= p < n && Asks(After(n, sched, t).cpu[p], sched[t][p]) then 1 else 0
  {
    AfterInv(n, sched, t);
    CycleServes(After(n, sched, t), sched[t]);
    SomeoneAsks(After(n, sched, t), sched[t]);
  }

  // In each cycle the processors in line move up by one.
  lemma MoveUp(s: Sys, acts: seq<Act>, acts': seq<Act>, i: nat)
    requires |acts| == |acts'| == |s.cpu| && Inv(s) && 0 < i < |Line(s, acts)|
    ensures i - 1 < |Line(Cycle(s, acts), acts')| && Line(Cycle(s, acts), acts')[i - 1] == Line(s, acts)[i]
    ensures Line(s, acts)[i] in Cycle(s, acts).bus.queue
  {
    CycleServes(s, acts);
    hide Cycle, Newcomers, Inv, Members;
    assert Cycle(s, acts).bus.queue == Line(s, acts)[1..];
  }

  lemma ServedFirst(n: nat, sched: seq<seq<Act>>, t: nat)
    requires Schedule(n, sched) && t < |sched| && Line(After(n, sched, t), sched[t]) != []
    ensures GrantedIn(n, sched, t, Line(After(n, sched, t), sched[t])[0])
  {
    AfterInv(n, sched, t);
    CycleServes(After(n, sched, t), sched[t]);
    hide Cycle, Line;
  }

  lemma OneGrant(n: nat, sched: seq<seq<Act>>, t: nat, p: nat, p': nat)
    requires Schedule(n, sched) && t < |sched| && GrantedIn(n, sched, t, p) && GrantedIn(n, sched, t, p')
    ensures p == p'
  {
    var g := After(n, sched, t).bus.grants;
    assert (g + [p])[|g|] == (g + [p'])[|g|];
  }

  lemma QueuedPends(s: Sys, p: nat)
    requires Inv(s) && p in s.bus.queue
    ensures p < |s.cpu| && s.cpu[p].pending
  {
  }

  lemma StillWaits(n: nat, sched: seq<seq<Act>>, t: nat, i: nat)
    requires Schedule(n, sched) && t + 1 < |sched| && 0 < i < |Line(After(n, sched, t), sched[t])|
    ensures var p := Line(After(n, sched, t), sched[t])[i];
      && !GrantedIn(n, sched, t, p) && p < n && After(n, sched, t + 1).cpu[p].pending
      && i - 1 < |Line(After(n, sched, t + 1), sched[t + 1])| && Line(After(n, sched, t + 1), sched[t + 1])[i - 1] == p
  {
    var s := After(n, sched, t);
    var p := Line(s, sched[t])[i];
    AfterInv(n, sched, t);
    CycleServes(s, sched[t]);
    assert After(n, sched, t + 1) == Cycle(s, sched[t]);
    assert Line(s, sched[t])[0] != p;
    ServedFirst(n, sched, t);
    MoveUp(s, sched[t], sched[t + 1], i);
    hide Cycle, Line, Inv, Members, After;
    QueuedPends(Cycle(s, sched[t]), p);
    if GrantedIn(n, sched, t, p) {
      OneGrant(n, sched, t, p, Line(s, sched[t])[0]);
    }
  }

  /** The i-th in line is served exactly i cycles later. */
  lemma {:induction false} WaitExact(n: nat, sched: seq<seq<Act>>, t: nat, p: nat, i: nat)
    requires Schedule(n, sched) && t + i < |sched|
    requires i < |Line(After(n, sched, t), sched[t])| && Line(After(n, sched, t), sched[t])[i] == p
    ensures GrantedIn(n, sched, t + i, p)
    ensures forall u :: t < u <= t + i ==> p < n && After(n, sched, u).cpu[p].pending
    ensures forall u :: t <= u < t + i ==> !GrantedIn(n, sched, u, p)
    decreases i
  {
    hide After, Line, GrantedIn;
    if i == 0 {
      ServedFirst(n, sched, t);
    } else {
      StillWaits(n, sched, t, i);
      WaitExact(n, sched, t + 1, p, i - 1);
    }
  }

  /** A memory instruction first attempted in cycle t is served in one of the n cycles t, ..., t + n - 1, and until
      then it is deferred and attempted again in every cycle. */
  lemma WaitBound(n: nat, sched: seq<seq<Act>>, t: nat, p: nat) returns (i: nat)
    requires Schedule(n, sched) && p < n && t + n <= |sched|
    requires AsksAnew(After(n, sched, t).cpu[p], sched[t][p])
    ensures i < n && GrantedIn(n, sched, t + i, p)
    ensures forall u :: t <= u < t + i ==> !GrantedIn(n, sched, u, p)
    ensures forall u :: t < u <= t + i ==> After(n, sched, u).cpu[p].pending
  {
    var s := After(n, sched, t);
    AfterInv(n, sched, t);
    LineAsks(s, sched[t], p);
    CycleServes(s, sched[t]);
    MembersFit(n, Line(s, sched[t]));
    i :| 0 <= i < |Line(s, sched[t])| && Line(s, sched[t])[i] == p;
    hide After, Line, GrantedIn;
    WaitExact(n, sched, t, p, i);
  }

  // All n processors attempt a memory access in cycle 0.
  ghost predicate AllAtOnce(n: nat, sched: seq<seq<Act>>) {
    Schedule(n, sched) && |sched| >= n > 0 && forall p :: 0 <= p < n ==> sched[0][p] == Memory
  }

  lemma {:induction false} AllCome(n: nat, acts: seq<Act>, k: nat)
    requires k <= n == |acts| && forall p :: 0 <= p < n ==> acts[p] == Memory
    ensures Newcomers(Start(n).cpu, acts, k) == seq(k, i => i)
  {
    if k > 0 {
      AllCome(n, acts, k - 1);
    }
  }

  /** The bound is met: when all attempt an access at once, the last one is served in cycle n - 1 and no earlier. */
  lemma WaitTight(n: nat, sched: seq<seq<Act>>)
    requires AllAtOnce(n, sched)
    ensures var last := n - 1; GrantedIn(n, sched, last, last) && forall u :: 0 <= u < last ==> !GrantedIn(n, sched, u, last)
  {
    AllCome(n, sched[0], n);
    assert Line(Start(n), sched[0]) == seq(n, i => i);
    hide Line, GrantedIn;
    WaitExact(n, sched, 0, n - 1, n - 1);
  }

  // ---------------------------------------------------------------- the counters

  // What a cycle makes of a processor.
  ghost predicate Counts(c: Cpu, a: Act, c': Cpu) {
    if c.running then
      && (c'.pending ==> c.pending || a == Memory)
      && c'.deferrals == c.deferrals + One(c'.pending)
      && c'.attempts == c.attempts + One(c.pending || a == Memory || a == Terminal)
      && c'.terminal == c.terminal + One(!c.pending && a == Terminal)
      && (c'.running <==> c.pending || a != Wait)
    else c' == c
  }

  lemma StepCounts(s: Sys, p: nat, a: Act)
    requires p < |s.cpu|
    ensures Counts(s.cpu[p], a, CpuStep(s, p, a).cpu[p])
    ensures forall i :: 0 <= i < |s.cpu| && i != p ==> CpuStep(s, p, a).cpu[i] == s.cpu[i]
  {
    hide Access;
  }

  lemma {:induction false} SweepCounts(s: Sys, acts: seq<Act>, k: nat, p: nat)
    requires p < |s.cpu| && k <= |acts| == |s.cpu|
    ensures if p < k then Counts(s.cpu[p], acts[p], Sweep(s, acts, k).cpu[p]) else Sweep(s, acts, k).cpu[p] == s.cpu[p]
  {
    if k > 0 {
      SweepCounts(s, acts, k - 1, p);
      StepCounts(Sweep(s, acts, k - 1), k - 1, acts[k - 1]);
      hide CpuStep, Counts;
    }
  }

  // An access is deferred exactly if it was not granted.
  lemma DeferredExact(n: nat, sched: seq<seq<Act>>, t: nat, p: nat)
    requires Schedule(n, sched) && t < |sched| && p < n
    ensures After(n, sched, t + 1).cpu[p].pending <==> Asks(After(n, sched, t).cpu[p], sched[t][p]) && !GrantedIn(n, sched, t, p)
  {
    var s, s' := After(n, sched, t), After(n, sched, t + 1);
    AfterInv(n, sched, t);
    AfterInv(n, sched, t + 1);
    CycleServes(s, sched[t]);
    LineAsks(s, sched[t], p);
    var line := Line(s, sched[t]);
    hide Line, Cycle, Asks;
    if line != [] {
      ServedFirst(n, sched, t);
      assert line == [line[0]] + line[1..];
      hide GrantedIn;
      if GrantedIn(n, sched, t, p) {
        OneGrant(n, sched, t, p, line[0]);
      }
    }
  }

  /** Every counter of a processor after each cycle: a load or store is attempted in each cycle in which the processor executes one, a
      deferred one again until it is granted; it is deferred exactly if the bus is granted to another; WAIT stops the processor; and a
      stopped one does nothing. */
  lemma CountersExact(n: nat, sched: seq<seq<Act>>, t: nat, p: nat)
    requires Schedule(n, sched) && t < |sched| && p < n
    ensures var c, c', a := After(n, sched, t).cpu[p], After(n, sched, t + 1).cpu[p], sched[t][p];
      var asks := c.running && (c.pending || a == Memory);
      && c'.deferrals == c.deferrals + (if asks && !GrantedIn(n, sched, t, p) then 1 else 0)
      && c'.attempts == c.attempts + (if asks || (c.running && a == Terminal) then 1 else 0)
      && c'.terminal == c.terminal + (if c.running && !c.pending && a == Terminal then 1 else 0)
      && (c'.pending <==> asks && !GrantedIn(n, sched, t, p))
      && (c'.running <==> c.running && (c.pending || a != Wait))
  {
    var s := After(n, sched, t);
    DeferredExact(n, sched, t, p);
    SweepCounts(Clear(s), sched[t], n, p);
    AfterInv(n, sched, t);
    assert s.cpu[p].pending ==> s.cpu[p].running;
    hide GrantedIn, Sweep, Inv;
  }

  /** A stopped processor stays as it is. */
  lemma {:induction false} StoppedStays(n: nat, sched: seq<seq<Act>>, t: nat, u: nat, p: nat)
    requires Schedule(n, sched) && t <= u <= |sched| && p < n && !After(n, sched, t).cpu[p].running
    ensures After(n, sched, u).cpu[p] == After(n, sched, t).cpu[p]
    decreases u
  {
    if t < u {
      StoppedStays(n, sched, t, u - 1, p);
      SweepCounts(Clear(After(n, sched, u - 1)), sched[u - 1], n, p);
    }
  }

  // ---------------------------------------------------------------- the bus utilisation

  // Loads and stores attempted, less those deferred and those to the terminal.
  function Served(c: Cpu): int { c.attempts - c.deferrals - c.terminal }

  ghost predicate Balanced(s: Sys) { |s.bus.grants| == Sum(s.cpu, Served) }

  lemma StepBalance(s: Sys, p: nat, a: Act)
    requires p < |s.cpu| && Balanced(s)
    ensures Balanced(CpuStep(s, p, a))
  {
    var t := CpuStep(s, p, a);
    SumUpdate(s.cpu, Served, p, t.cpu[p]);
    assert s.cpu[p := s.cpu[p]] == s.cpu;
    hide Sum;
  }

  lemma {:induction false} SweepBalance(s: Sys, acts: seq<Act>, k: nat)
    requires k <= |acts| == |s.cpu| && Balanced(s)
    ensures Balanced(Sweep(s, acts, k))
  {
    hide CpuStep, Balanced;
    if k > 0 {
      SweepBalance(s, acts, k - 1);
      StepBalance(Sweep(s, acts, k - 1), k - 1, acts[k - 1]);
    }
  }

  /** The bus utilisation is the number of loads and stores attempted, less the deferred ones and those to the terminal. */
  lemma {:induction false} Utilisation(n: nat, sched: seq<seq<Act>>, t: nat)
    requires Schedule(n, sched) && t <= |sched|
    ensures |After(n, sched, t).bus.grants| == Sum(After(n, sched, t).cpu, Served)
  {
    if t == 0 {
      SumSame(Start(n).cpu, Served, 0);
    } else {
      Utilisation(n, sched, t - 1);
      SweepBalance(Clear(After(n, sched, t - 1)), sched[t - 1], n);
    }
  }

  // ---------------------------------------------------------------- the simulator

  /** The processors and the arbiter as shrmem.c drives them. */
  class Machine {
    const arb: Arbiter
    const cpu: array<Cpu>
    ghost var asked: seq<nat>

    ghost predicate Valid()
      reads this, arb, arb.arr, cpu
    {
      arb.Valid() && arb.shared && cpu.Length == arb.nshr
    }

    ghost function State(): Sys
      reads this, arb, cpu
    {
      Sys(arb.State(), cpu[..], asked)
    }

    constructor (n: nat)
      requires n > 1
      ensures Valid() && fresh(arb) && fresh(arb.arr) && fresh(cpu) && cpu.Length == n && State() == Start(n)
    {
      arb := new Arbiter(n);
      cpu := new Cpu[n](i => Cpu(true, false, 0, 0, 0));
      asked := [];
    }

    // Datapath_execute, as far as it concerns the bus.
    method Execute(p: nat, a: Act)
      requires Valid() && p < cpu.Length
      modifies this, arb, arb.arr, cpu
      ensures Valid() && State() == CpuStep(old(State()), p, a)
    {
      hide Access, Arbiter.Ring;
      var c := cpu[p];
      if !c.running {
        return;
      }
      if c.pending || a == Memory {
        var granted := arb.Busacc(p);
        c := c.(attempts := c.attempts + 1);
        if !granted {
          c := c.(deferrals := c.deferrals + 1);
        }
        if !c.pending {
          asked := asked + [p];
        }
        c := c.(pending := !granted);
      } else if a == Terminal {
        c := c.(attempts := c.attempts + 1, terminal := c.terminal + 1);
      } else if a == Wait {
        c := c.(running := false);
      }
      cpu[p] := c;
      assert cpu[..] == old(cpu[..])[p := c];
      assert old(cpu[..])[p := old(cpu[p])] == old(cpu[..]);
    }

    /** One iteration of the loop of sim. */
    method SimCycle(acts: seq<Act>)
      requires Valid() && |acts| == cpu.Length
      modifies this, arb, arb.arr, cpu
      ensures Valid() && State() == Cycle(old(State()), acts)
    {
      hide CpuStep, Access;
      arb.Busclr();
      ghost var start := State();
      var i := 0;
      while i < cpu.Length
        invariant i <= cpu.Length && Valid()
        invariant State() == Sweep(start, acts, i)
      {
        Execute(i, acts[i]);
        i := i + 1;
      }
    }
  }
}
