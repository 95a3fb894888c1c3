/** The counters a processor keeps of its communication, over whole runs: the HOPS and NMSG registers, the waiting in inputs, outputs
    and alternatives, and the cycles of the simulation. */
module NetCounters {
  import opened Indices
  import opened Words
  import opened Sums
  import opened Mesh
  import opened NetModel
  import opened NetInvariant
  import opened NetOperate
  import opened NetRun
  import opened NetOrder
  import opened NetTheorems
  import opened NetAlt
  import opened NetProcessor

  // ---------------------------------------------------------------- hops

  // The links that the values c has taken from m came over.
  function HopsFrom(g: Grid, c: Cpu, n: nat, m: nat): int { |Get(c.log.taken, m)| * Dist(g, m, n) }

  function HopSum(g: Grid, c: Cpu, n: nat): int { Sum(Iota(g.Size()), (m: nat) => HopsFrom(g, c, n, m)) }

  // The register has grown by the links of the values taken, modulo its width.
  ghost predicate HopsGrew(g: Grid, n: nat, c: Cpu, d: Cpu) { d.hops == (c.hops + HopSum(g, d, n) - HopSum(g, c, n)) % WORD }

  lemma HopsSame(g: Grid, n: nat, c: Cpu, d: Cpu)
    requires d.hops == c.hops && d.log.taken == c.log.taken
    ensures HopsGrew(g, n, c, d)
  {
    var f, f' := (m: nat) => HopsFrom(g, c, n, m), (m: nat) => HopsFrom(g, d, n, m);
    hide Dist;
    SumAgree(Iota(g.Size()), f, f');
  }

  lemma HopsTake(g: Grid, n: nat, c: Cpu, d: Cpu, m: nat, v: Word)
    requires m < g.Size() && d.hops == (c.hops + Dist(g, m, n)) % WORD && d.log.taken == c.log.taken[m := Get(c.log.taken, m) + [v]]
    ensures HopsGrew(g, n, c, d)
  {
    var f, f' := (x: nat) => HopsFrom(g, c, n, x), (x: nat) => HopsFrom(g, d, n, x);
    hide Dist;
    var k := |Get(c.log.taken, m)|;
    assert (k + 1) * Dist(g, m, n) == k * Dist(g, m, n) + Dist(g, m, n);
    SumDiffers(Iota(g.Size()), f, f', m);
  }

  lemma ModTwice(a: Word, b: Word, c: Word, x: int, y: int)
    requires b == (a + x) % WORD && c == (b + y) % WORD
    ensures c == (a + x + y) % WORD
  {
  }

  lemma HopsTwice(g: Grid, n: nat, c: Cpu, d: Cpu, e: Cpu)
    requires HopsGrew(g, n, c, d) && HopsGrew(g, n, d, e)
    ensures HopsGrew(g, n, c, e)
  {
    hide HopSum;
    ModTwice(c.hops, d.hops, e.hops, HopSum(g, d, n) - HopSum(g, c, n), HopSum(g, e, n) - HopSum(g, d, n));
  }

  lemma OperateHops(u: Net, n: nat)
    requires Inv(u) && n < |u.cpu|
    ensures HopsGrew(u.grid, n, u.cpu[n], Own(u, n))
  {
    OperateDoes(u, n);
    var t := Operate(u, n).0;
    assert |u.cpu| == u.grid.Size();
    hide Inv, Operate, HopsGrew, Dist;
    if m :| TakesFrom(u, t, n, m) {
      HopsTake(u.grid, n, u.cpu[n], t.cpu[n], m, t.cpu[n].data);
    } else {
      HopsSame(u.grid, n, u.cpu[n], t.cpu[n]);
    }
  }

  // Neither instructions nor counted mail touch the logs or HOPS.
  lemma InstructionLogs(c: Cpu, a: Act, d: Cpu)
    requires Mailed(Instruction(c, a), d)
    ensures d.log == c.log && d.hops == c.hops
  {
  }

  lemma CycleHops(s: Net, acts: seq<Act>, n: nat)
    requires Boundary(s) && LegalActs(s, acts) && Cycle(s, acts).Fine? && n < |s.cpu|
    ensures n < |Cycle(s, acts).net.cpu| == |s.cpu| && Cycle(s, acts).net.grid == s.grid
    ensures HopsGrew(s.grid, n, s.cpu[n], Cycle(s, acts).net.cpu[n])
  {
    CycleParts(s, acts, n);
    var u := Snapshot(s, acts);
    hide Boundary, LegalActs, Cycle, Inv, Operate, Own, Instruction, HopsGrew, Snapshot;
    InstructionLogs(s.cpu[n], acts[n], u.cpu[n]);
    HopsSame(s.grid, n, s.cpu[n], u.cpu[n]);
    OperateHops(u, n);
    HopsTwice(s.grid, n, s.cpu[n], u.cpu[n], Own(u, n));
  }

  lemma {:induction false} RunHops(s: Net, prog: seq<seq<Act>>, n: nat)
    requires Boundary(s) && LegalRun(s, prog) && Run(s, prog).Fine? && n < |s.cpu|
    ensures |Run(s, prog).net.cpu| == |s.cpu| && Run(s, prog).net.grid == s.grid && HopsGrew(s.grid, n, s.cpu[n], Run(s, prog).net.cpu[n])
    decreases |prog|
  {
    hide Boundary, LegalActs, Cycle, HopsGrew;
    if prog == [] {
      HopsSame(s.grid, n, s.cpu[n], s.cpu[n]);
    } else {
      var l := |prog| - 1;
      var t := Run(s, prog[..l]).net;
      RunInv(s, prog[..l]);
      RunHops(s, prog[..l], n);
      CycleHops(t, prog[l], n);
      HopsTwice(s.grid, n, s.cpu[n], t.cpu[n], Run(s, prog).net.cpu[n]);
    }
  }

  lemma NoHopsYet(s: Net, n: nat)
    requires Initial(s) && n < |s.cpu|
    ensures |s.cpu| == s.grid.Size() && HopSum(s.grid, s.cpu[n], n) == 0
  {
    assert Fresh(s.cpu[n]);
    hide Dist;
    SumSame(Iota(s.grid.Size()), (m: nat) => HopsFrom(s.grid, s.cpu[n], n, m), 0);
  }

  // What the HOPS register of n has counted.
  function TakenHops(t: Net, n: nat): int { Sum(Iota(|t.cpu|), (m: nat) => |Taken(t.cpu, m, n)| * Dist(t.grid, m, n)) }

  /** The HOPS register of a processor, in every run: what it started with and the distance of the sender of each value it has taken, modulo 2^32. */
  lemma HopsExact(s: Net, prog: seq<seq<Act>>, n: nat)
    requires Initial(s) && LegalRun(s, prog) && Run(s, prog).Fine? && n < |s.cpu|
    ensures var t := Run(s, prog).net;
      |t.cpu| == |s.cpu| && t.cpu[n].hops == (s.cpu[n].hops + TakenHops(t, n)) % 0x1_0000_0000
  {
    hide Boundary, Run, LegalRun, HopSum, TakenHops, Initial;
    InitialBoundary(s);
    RunHops(s, prog, n);
    NoHopsYet(s, n);
    HopsAre(Run(s, prog).net, n);
  }

  lemma HopsAre(t: Net, n: nat)
    requires n < |t.cpu| == t.grid.Size()
    ensures HopSum(t.grid, t.cpu[n], n) == TakenHops(t, n)
  {
    hide Dist;
    SumAgree(Iota(|t.cpu|), (m: nat) => HopsFrom(t.grid, t.cpu[n], n, m), (m: nat) => |Taken(t.cpu, m, n)| * Dist(t.grid, m, n));
  }

  // ---------------------------------------------------------------- mail

  // The messages from m that have come to node n: those taken, those that completed an output, and the one in its slot.
  function MailFrom(s: Net, n: nat, m: nat): int
    requires n < |s.cpu|
  {
    |Get(s.cpu[n].log.taken, m)| + Count(s.cpu[n].log.done, m) + |Q(s, Mbox(n, m))|
  }

  function Mail(s: Net, n: nat): int
    requires n < |s.cpu|
  {
    Sum(Iota(s.grid.Size()), (m: nat) => MailFrom(s, n, m))
  }

  ghost predicate MailGrew(s: Net, t: Net, n: nat) {
    && n < |s.cpu| == |t.cpu| && s.grid == t.grid
    && t.cpu[n].mboxNew == s.cpu[n].mboxNew + Mail(t, n) - Mail(s, n)
    && t.cpu[n].nmsg == (s.cpu[n].nmsg + Mail(t, n) - Mail(s, n)) % WORD
  }

  lemma MailTwice(s: Net, t: Net, u: Net, n: nat)
    requires MailGrew(s, t, n) && MailGrew(t, u, n)
    ensures MailGrew(s, u, n)
  {
    hide Mail;
    ModTwice(s.cpu[n].nmsg, t.cpu[n].nmsg, u.cpu[n].nmsg, Mail(t, n) - Mail(s, n), Mail(u, n) - Mail(t, n));
  }

  // Nothing has come.
  lemma MailSame(s: Net, t: Net, n: nat)
    requires n < |s.cpu| == |t.cpu| && s.grid == t.grid && t.cpu[n].mboxNew == s.cpu[n].mboxNew && t.cpu[n].nmsg == s.cpu[n].nmsg
    requires forall m :: 0 <= m < s.grid.Size() ==> MailFrom(t, n, m) == MailFrom(s, n, m)
    ensures MailGrew(s, t, n)
  {
    hide MailFrom;
    SumAgree(Iota(s.grid.Size()), (m: nat) => MailFrom(s, n, m), (m: nat) => MailFrom(t, n, m));
  }

  // One message has come from m.
  lemma MailOne(s: Net, t: Net, n: nat, m: nat)
    requires n < |s.cpu| == |t.cpu| && s.grid == t.grid && m < s.grid.Size()
    requires t.cpu[n].mboxNew == s.cpu[n].mboxNew + 1 && t.cpu[n].nmsg == (s.cpu[n].nmsg + 1) % WORD
    requires forall x :: 0 <= x < s.grid.Size() ==> MailFrom(t, n, x) == MailFrom(s, n, x) + if x == m then 1 else 0
    ensures MailGrew(s, t, n)
  {
    hide MailFrom;
    SumDiffers(Iota(s.grid.Size()), (x: nat) => MailFrom(s, n, x), (x: nat) => MailFrom(t, n, x), m);
  }

  lemma FwdLinkGrew(s: Net, id: nat, d: Dir, n: nat)
    requires Inv(s) && id < |s.cpu| && n < |s.cpu|
    ensures MailGrew(s, FwdLink(s, id, d), n)
  {
    var t := FwdLink(s, id, d);
    hide Inv, FwdLink, MailGrew, Guidance;
    if t == s {
      MailSame(s, t, n);
    } else {
      MovedHead(s, id, d);
      var m := Q(s, Inl(id, d))[0];
      if Guidance(s.grid, id, m.to).Arrived? && n == id {
        DeliveredOne(s, id, d);
        MailOne(s, t, n, m.from);
      } else {
        DeliveredNone(s, id, d, n);
        MailSame(s, t, n);
      }
    }
  }

  lemma MovedHead(s: Net, id: nat, d: Dir)
    requires Inv(s) && id < |s.cpu| && FwdLink(s, id, d) != s
    ensures Q(s, Inl(id, d)) != [] && Q(s, Inl(id, d))[0].from < s.grid.Size()
    ensures |FwdLink(s, id, d).cpu| == |s.cpu| && FwdLink(s, id, d).grid == s.grid
  {
    HeadOk(s, Inl(id, d));
  }

  lemma DeliveredNone(s: Net, id: nat, d: Dir, n: nat)
    requires id < |s.cpu| && FwdLink(s, id, d) != s && n < |s.cpu|
    requires !Guidance(s.grid, id, Q(s, Inl(id, d))[0].to).Arrived? || n != id
    ensures var t := FwdLink(s, id, d);
      && t.cpu[n] == s.cpu[n] && forall x :: MailFrom(t, n, x) == MailFrom(s, n, x)
  {
  }

  lemma DeliveredOne(s: Net, id: nat, d: Dir)
    requires id < |s.cpu| && FwdLink(s, id, d) != s && Guidance(s.grid, id, Q(s, Inl(id, d))[0].to).Arrived?
    ensures var t, m := FwdLink(s, id, d), Q(s, Inl(id, d))[0];
      && t.cpu[id].mboxNew == s.cpu[id].mboxNew + 1 && t.cpu[id].nmsg == (s.cpu[id].nmsg + 1) % WORD
      && forall x :: MailFrom(t, id, x) == MailFrom(s, id, x) + if x == m.from then 1 else 0
  {
  }

  lemma {:induction false} FwdPartGrew(s: Net, id: nat, k: nat, seen: iset<Place>, n: nat)
    requires Inv(s) && AcksSeen(s, seen) && id < |s.cpu| && k <= LINK_NAMES && n < |s.cpu|
    requires forall d :: Inl(id, d) !in seen
    ensures MailGrew(s, FwdPart(s, id, k), n)
  {
    hide Inv, AcksSeen, FwdLink, MailGrew;
    if k == 0 {
      MailSame(s, s, n);
    } else {
      FwdPartGrew(s, id, k - 1, seen, n);
      FwdPartSeen(s, id, k - 1, seen);
      FwdLinkGrew(FwdPart(s, id, k - 1), id, DirAt(k - 1), n);
      MailTwice(s, FwdPart(s, id, k - 1), FwdPart(s, id, k), n);
    }
  }

  lemma {:induction false} FwdNodesGrew(s: Net, ids: seq<nat>, n: nat)
    requires Inv(s) && NoAcks(s) && Ids(|s.cpu|, ids) && Distinct(ids) && n < |s.cpu|
    ensures MailGrew(s, FwdNodes(s, ids), n)
  {
    hide Inv, NoAcks, FwdNode, MailGrew;
    if ids == [] {
      MailSame(s, s, n);
    } else {
      var l := |ids| - 1;
      FwdNodesGrew(s, ids[..l], n);
      FwdNodesSeen(s, ids[..l]);
      FwdNodeGrew(FwdNodes(s, ids[..l]), ids[l], Doors(ids[..l]), n);
      MailTwice(s, FwdNodes(s, ids[..l]), FwdNodes(s, ids), n);
    }
  }

  lemma FwdNodeGrew(s: Net, id: nat, seen: iset<Place>, n: nat)
    requires Inv(s) && AcksSeen(s, seen) && id < |s.cpu| && n < |s.cpu| && forall d :: Inl(id, d) !in seen
    ensures MailGrew(s, FwdNode(s, id), n)
  {
    FwdPartGrew(s, id, LINK_NAMES, seen, n);
  }

  // A node's own operation takes out of its slots what it logs.
  lemma OperateGrew(u: Net, n: nat)
    requires Inv(u) && n < |u.cpu|
    ensures MailGrew(u, Operate(u, n).0, n)
  {
    OperateDoes(u, n);
    OperateLocal(u, n);
    var t := Operate(u, n).0;
    hide Inv, Operate, MailGrew, Dist;
    forall m | 0 <= m < u.grid.Size() ensures MailFrom(t, n, m) == MailFrom(u, n, m) {
    }
    MailSame(u, t, n);
  }

  lemma InstructionMail(c: Cpu, a: Act)
    ensures var d := Instruction(c, a); d.log == c.log && d.nmsg == c.nmsg && d.mboxNew == c.mboxNew
  {
  }

  lemma SnapshotGrew(s: Net, acts: seq<Act>, n: nat)
    requires Boundary(s) && LegalActs(s, acts) && n < |s.cpu|
    ensures MailGrew(s, Snapshot(s, acts), n)
  {
    var ids := Iota(|s.cpu|);
    var s1 := CpuNodes(s, ids, acts);
    CpuPhase(s, ids, acts);
    SameMail(s, s1);
    CpuEach(s, acts, |s.cpu|);
    hide Inv, CpuNodes, FwdNodes, MailGrew, Instruction, NoAcks;
    InstructionMail(s.cpu[n], acts[n]);
    FwdNodesGrew(s1, ids, n);
    MailSame(s, s1, n);
    MailTwice(s, s1, FwdNodes(s1, ids), n);
  }

  lemma CycleMail(s: Net, acts: seq<Act>, n: nat)
    requires Boundary(s) && LegalActs(s, acts) && Cycle(s, acts).Fine? && n < |s.cpu|
    ensures MailGrew(s, Cycle(s, acts).net, n)
  {
    var u, t := Snapshot(s, acts), Cycle(s, acts).net;
    SnapshotGrew(s, acts, n);
    CycleParts(s, acts, n);
    OperateGrew(u, n);
    var v := Operate(u, n).0;
    hide Boundary, LegalActs, Cycle, Inv, Operate, MailGrew, Snapshot, Instruction;
    assert v.grid == u.grid by { assert MailGrew(u, v, n); GrewGrid(u, v, n); }
    assert forall m :: 0 <= m < u.grid.Size() ==> MailFrom(t, n, m) == MailFrom(v, n, m);
    MailSame(v, t, n);
    MailTwice(s, u, v, n);
    MailTwice(s, v, t, n);
  }

  lemma GrewGrid(s: Net, t: Net, n: nat)
    requires MailGrew(s, t, n)
    ensures s.grid == t.grid && |s.cpu| == |t.cpu|
  {
  }

  lemma {:induction false} RunMail(s: Net, prog: seq<seq<Act>>, n: nat)
    requires Boundary(s) && LegalRun(s, prog) && Run(s, prog).Fine? && n < |s.cpu|
    ensures MailGrew(s, Run(s, prog).net, n)
    decreases |prog|
  {
    hide Boundary, LegalActs, Cycle, MailGrew;
    if prog == [] {
      MailSame(s, s, n);
    } else {
      var l := |prog| - 1;
      var t := Run(s, prog[..l]).net;
      RunInv(s, prog[..l]);
      RunMail(s, prog[..l], n);
      GrewGrid(s, t, n);
      CycleMail(t, prog[l], n);
      MailTwice(s, t, Run(s, prog).net, n);
    }
  }

  // The messages that have come to n: data it has taken, acknowledges that completed its outputs, and what is in its mailbox.
  function Delivered(t: Net, n: nat): int {
    Sum(Iota(|t.cpu|), (m: nat) => |Taken(t.cpu, m, n)| + Completed(t.cpu, n, m) + |Q(t, Mbox(n, m))|)
  }

  /** The NMSG register and the mailbox counter of a node, in every run: what they started with and the messages that have come to it, the
      register modulo 2^32. */
  lemma MailExact(s: Net, prog: seq<seq<Act>>, n: nat)
    requires Initial(s) && LegalRun(s, prog) && Run(s, prog).Fine? && n < |s.cpu|
    ensures var t := Run(s, prog).net;
      && |t.cpu| == |s.cpu| && t.cpu[n].nmsg == (s.cpu[n].nmsg + Delivered(t, n)) % 0x1_0000_0000
      && t.cpu[n].mboxNew == s.cpu[n].mboxNew + Delivered(t, n)
  {
    hide Boundary, Run, LegalRun, Mail, Delivered, Initial;
    InitialBoundary(s);
    RunMail(s, prog, n);
    NoMailYet(s, n);
    MailIs(Run(s, prog).net, n);
  }

  lemma NoMailYet(s: Net, n: nat)
    requires Initial(s) && n < |s.cpu|
    ensures Mail(s, n) == 0 && |s.cpu| == s.grid.Size()
  {
    assert Fresh(s.cpu[n]);
    SumSame(Iota(s.grid.Size()), (m: nat) => MailFrom(s, n, m), 0);
  }

  lemma MailIs(t: Net, n: nat)
    requires n < |t.cpu| == t.grid.Size()
    ensures Mail(t, n) == Delivered(t, n)
  {
    SumAgree(Iota(|t.cpu|), (m: nat) => MailFrom(t, n, m), (m: nat) => |Taken(t.cpu, m, n)| + Completed(t.cpu, n, m) + |Q(t, Mbox(n, m))|);
  }

  // ---------------------------------------------------------------- waiting

  // The processor waits in, or begins, an operation of this kind in a cycle in which its program would do a.
  predicate WaitsInput(c: Cpu, a: Act) { c.running && (c.op == OpIn || (c.op == OpNone && a == DoInput)) }

  predicate WaitsOutput(c: Cpu, a: Act) { c.running && (c.op == OpOut || (c.op == OpNone && a == DoOutput)) }

  predicate WaitsAlt(c: Cpu, a: Act) { c.running && (c.op == OpAlt || (c.op == OpNone && a == DoAlt)) }

  // In how many cycles of a run it did: in inputs, outputs and alternatives.
  datatype Waits = Waits(input: nat, output: nat, alt: nat)

  ghost function Waited(s: Net, prog: seq<seq<Act>>, n: nat): Waits
    requires LegalRun(s, prog)
    decreases |prog|
  {
    if prog == [] then Waits(0, 0, 0)
    else
      var l := |prog| - 1;
      var w, t := Waited(s, prog[..l], n), Run(s, prog[..l]).net;
      if n < |t.cpu| then
        var c, a := t.cpu[n], prog[l][n];
        Waits(w.input + One(WaitsInput(c, a)), w.output + One(WaitsOutput(c, a)), w.alt + One(WaitsAlt(c, a)))
      else w
  }

  ghost predicate WaitedFor(c: Cpu, d: Cpu, w: Waits) {
    d.waitin == c.waitin + w.input && d.waitout == c.waitout + w.output && d.waitalt == c.waitalt + w.alt
  }

  lemma InstructionWaits(c: Cpu, a: Act)
    ensures WaitedFor(c, Instruction(c, a), Waits(One(WaitsInput(c, a)), One(WaitsOutput(c, a)), One(WaitsAlt(c, a))))
  {
  }

  lemma CycleWaits(s: Net, acts: seq<Act>, n: nat)
    requires Boundary(s) && LegalActs(s, acts) && Cycle(s, acts).Fine? && n < |s.cpu|
    ensures |acts| == |s.cpu| == |Cycle(s, acts).net.cpu|
    ensures var c, a := s.cpu[n], acts[n];
      WaitedFor(c, Cycle(s, acts).net.cpu[n], Waits(One(WaitsInput(c, a)), One(WaitsOutput(c, a)), One(WaitsAlt(c, a))))
  {
    CycleParts(s, acts, n);
    InstructionWaits(s.cpu[n], acts[n]);
    OperateDoes(Snapshot(s, acts), n);
    hide Boundary, LegalActs, Cycle, Inv, Operate, Snapshot, Instruction, Idles, SendsOff, EndsOutput, TakesFrom;
  }

  /** The wait counters of a processor, in every run: each grows by one in every cycle in which the processor executes or is
      blocked in an operation of its kind. */
  lemma {:induction false} WaitsExact(s: Net, prog: seq<seq<Act>>, n: nat)
    requires Boundary(s) && LegalRun(s, prog) && Run(s, prog).Fine? && n < |s.cpu|
    ensures |Run(s, prog).net.cpu| == |s.cpu| && WaitedFor(s.cpu[n], Run(s, prog).net.cpu[n], Waited(s, prog, n))
    decreases |prog|
  {
    hide Boundary, Cycle;
    if prog != [] {
      var l := |prog| - 1;
      RunInv(s, prog[..l]);
      WaitsExact(s, prog[..l], n);
      CycleWaits(Run(s, prog[..l]).net, prog[l], n);
      hide LegalActs, WaitsInput, WaitsOutput, WaitsAlt;
    }
  }

  // ---------------------------------------------------------------- stopping, and the count of cycles

  lemma StoppedInstruction(c: Cpu, a: Act)
    requires !c.running
    ensures Instruction(c, a) == c
  {
  }

  lemma StoppedCycle(s: Net, acts: seq<Act>, n: nat)
    requires Boundary(s) && LegalActs(s, acts) && Cycle(s, acts).Fine? && n < |s.cpu| && !s.cpu[n].running
    ensures |Cycle(s, acts).net.cpu| == |s.cpu| && Mailed(s.cpu[n], Cycle(s, acts).net.cpu[n])
  {
    CycleParts(s, acts, n);
    CpuShape(s, n);
    hide Boundary, LegalActs, Cycle, Inv, Snapshot;
    StoppedInstruction(s.cpu[n], acts[n]);
    hide Instruction;
  }

  /** WAIT stops an idle processor, and a stopped one stays as it is but for the mail that is counted for it. */
  lemma {:induction false} StoppedStays(s: Net, prog: seq<seq<Act>>, n: nat)
    requires Boundary(s) && LegalRun(s, prog) && Run(s, prog).Fine? && n < |s.cpu|
    requires !s.cpu[n].running || (s.cpu[n].op == OpNone && prog != [] && n < |prog[0]| && prog[0][n] == DoWait)
    ensures |Run(s, prog).net.cpu| == |s.cpu|
    ensures prog != [] ==> Mailed(s.cpu[n].(running := false), Run(s, prog).net.cpu[n])
    decreases |prog|
  {
    hide Boundary, Cycle;
    if prog != [] {
      var l := |prog| - 1;
      var t := Run(s, prog[..l]).net;
      RunInv(s, prog[..l]);
      if l == 0 {
        assert t == s;
        FirstStop(s, prog[0], n);
      } else {
        assert prog[..l][0] == prog[0];
        StoppedStays(s, prog[..l], n);
        StoppedCycle(t, prog[l], n);
      }
    }
  }

  lemma FirstStop(s: Net, acts: seq<Act>, n: nat)
    requires Boundary(s) && LegalActs(s, acts) && Cycle(s, acts).Fine? && n < |s.cpu| == |acts|
    requires !s.cpu[n].running || (s.cpu[n].op == OpNone && acts[n] == DoWait)
    ensures |Cycle(s, acts).net.cpu| == |s.cpu| && Mailed(s.cpu[n].(running := false), Cycle(s, acts).net.cpu[n])
  {
    CycleParts(s, acts, n);
    CpuShape(s, n);
    hide Boundary, LegalActs, Cycle, Inv, Snapshot;
    assert Instruction(s.cpu[n], acts[n]) == s.cpu[n].(running := false);
    hide Instruction;
  }

  /** The simulation counts its cycles. */
  lemma {:induction false} CyclesCounted(s: Net, prog: seq<seq<Act>>)
    requires Boundary(s) && LegalRun(s, prog) && Run(s, prog).Fine?
    ensures Run(s, prog).net.cycle == s.cycle + |prog|
    decreases |prog|
  {
    hide Boundary, Cycle;
    if prog != [] {
      var l := |prog| - 1;
      RunInv(s, prog[..l]);
      CyclesCounted(s, prog[..l]);
      OneCycle(Run(s, prog[..l]).net, prog[l]);
    }
  }

  lemma OneCycle(s: Net, acts: seq<Act>)
    requires Boundary(s) && |acts| == |s.cpu| && Cycle(s, acts).Fine?
    ensures Cycle(s, acts).net.cycle == s.cycle + 1
  {
    var ids := Iota(|s.cpu|);
    assert Meshed(s);
    hide Boundary, FwdNodes, OperateNodes, HopNodes;
    CpuNodesCycle(s, ids, acts);
    var s1 := CpuNodes(s, ids, acts);
    FwdSweep(s1, ids);
    SweepFrame(NetOrder.FwdPhase, s1, ids);
    var f := FwdNodes(s1, ids);
    DeadAnyOrder(f, ids);
    SweepFrame(NetOrder.OperatePhase, f, ids);
    var o := OperateNodes(f, ids).net;
    HopSweep(o, ids);
    SweepFrame(NetOrder.HopPhase, o, ids);
  }

  lemma {:induction false} CpuNodesCycle(s: Net, ids: seq<nat>, acts: seq<Act>)
    requires Ids(|s.cpu|, ids) && |acts| == |s.cpu|
    ensures CpuNodes(s, ids, acts).cycle == s.cycle
  {
    if ids != [] {
      CpuNodesCycle(s, ids[..|ids| - 1], acts);
    }
  }
}
