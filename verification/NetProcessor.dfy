/** What a processor sees of its cycles and runs: its registers, its operations and its logs. */
module NetProcessor {
  import opened Indices
  import opened Words
  import opened Mesh
  import opened NetModel
  import opened NetInvariant
  import opened NetOperate
  import opened NetRun
  import opened NetOrder
  import opened NetTheorems
  import opened NetAlt

  ghost predicate Meshed(s: Net) { |s.cpu| == s.grid.Size() }

  // ---------------------------------------------------------------- the parts of a cycle

  // What its instruction does to a processor.
  function Instruction(c: Cpu, a: Act): Cpu {
    CpuStep(Net(Grid(1, 1), map[], [c], 0, 0), 0, a).cpu[0]
  }

  lemma StepIsLocal(s: Net, id: nat, a: Act)
    requires id < |s.cpu|
    ensures CpuStep(s, id, a).cpu == s.cpu[id := Instruction(s.cpu[id], a)]
  {
  }

  lemma {:induction false} CpuEach(s: Net, acts: seq<Act>, l: nat)
    requires l <= |s.cpu| == |acts|
    ensures var t := CpuNodes(s, Iota(l), acts);
      forall i :: 0 <= i < |s.cpu| ==> t.cpu[i] == if i < l then Instruction(s.cpu[i], acts[i]) else s.cpu[i]
  {
    if l > 0 {
      CpuEach(s, acts, l - 1);
      assert Iota(l)[..l - 1] == Iota(l - 1);
      StepIsLocal(CpuNodes(s, Iota(l - 1), acts), l - 1, acts[l - 1]);
      hide CpuStep, Instruction;
    }
  }

  // Mail counters apart, a processor is as it was.
  predicate Mailed(c: Cpu, d: Cpu) { d == c.(nmsg := d.nmsg, mboxNew := d.mboxNew) }

  lemma {:induction false} FwdPartMailed(s: Net, id: nat, k: nat, i: nat)
    requires id < |s.cpu| && i < |s.cpu|
    ensures Mailed(s.cpu[i], FwdPart(s, id, k).cpu[i])
  {
    if k > 0 {
      FwdPartMailed(s, id, k - 1, i);
    }
  }

  lemma {:induction false} FwdNodesMailed(s: Net, ids: seq<nat>, i: nat)
    requires Ids(|s.cpu|, ids) && i < |s.cpu|
    ensures Mailed(s.cpu[i], FwdNodes(s, ids).cpu[i])
  {
    if ids != [] {
      FwdNodesMailed(s, ids[..|ids| - 1], i);
      FwdPartMailed(FwdNodes(s, ids[..|ids| - 1]), ids[|ids| - 1], LINK_NAMES, i);
    }
  }

  // What executing its operation makes of a processor.
  function Own(s: Net, i: nat): Cpu
    requires i < |s.cpu|
  {
    OperateLocal(s, i);
    Operate(s, i).0.cpu[i]
  }

  // The phases of a cycle of the network.
  function Fwds(s: Net): Net { FwdNodes(s, Iota(|s.cpu|)) }

  function Operates(f: Net): Outcome { OperateNodes(f, Iota(|f.cpu|)) }

  function Hops(o: Outcome): Outcome {
    match o
    case Dead(t, n) => o
    case Fine(t) => Fine(HopNodes(t, Iota(|t.cpu|)))
  }

  lemma NetExecuteIs(s: Net)
    ensures NetExecute(s) == Hops(Operates(Fwds(s)))
  {
  }

  /** The operate loop leaves each node what its own operation makes of it. */
  lemma OperateParallel(s: Net)
    requires Meshed(s) && forall i :: 0 <= i < |s.cpu| ==> Operate(s, i).1 != Deadlock
    ensures var o := Operates(s);
      && o.Fine? && o.net.grid == s.grid && |o.net.cpu| == |s.cpu|
      && (forall i :: 0 <= i < |s.cpu| ==> o.net.cpu[i] == Own(s, i))
      && (forall x: Place :: Q(o.net, x) == if x.id < |s.cpu| then Q(Operate(s, x.id).0, x) else Q(s, x))
  {
    var ids := Iota(|s.cpu|);
    DeadAnyOrder(s, ids);
    SweepFrame(NetOrder.OperatePhase, s, ids);
    var t := OperateNodes(s, ids).net;
    forall i | 0 <= i < |s.cpu|
      ensures t.cpu[i] == Own(s, i) && forall x: Place :: x.id == i ==> Q(t, x) == Q(Operate(s, i).0, x)
    {
      assert ids[i] == i;
      SweepParallel(NetOrder.OperatePhase, s, ids, i);
      OperateLocal(s, i);
    }
  }

  // No buffer of node i in s differs from that in t, or none but that of sender m, which held one message.
  ghost predicate SameSlots(s: Net, t: Net, i: nat) { forall f :: Q(t, Mbox(i, f)) == Q(s, Mbox(i, f)) }

  ghost predicate SlotTaken(s: Net, t: Net, i: nat, m: nat) {
    |Q(s, Mbox(i, m))| == 1 && Q(t, Mbox(i, m)) == [] && forall f :: f != m ==> Q(t, Mbox(i, f)) == Q(s, Mbox(i, f))
  }

  // Cycle `acts` takes s to t for processor i, by way of u.
  ghost predicate Cycled(s: Net, acts: seq<Act>, i: nat, u: Net, t: Net) {
    && i < |s.cpu| == |acts| == |u.cpu| == |t.cpu| && s.grid == u.grid == t.grid && Inv(u) && Meshed(u)
    && Mailed(Instruction(s.cpu[i], acts[i]), u.cpu[i])
    && Operate(u, i).1 != Deadlock && t.cpu[i] == Own(u, i)
    && SameSlots(Operate(u, i).0, t, i)
  }

  lemma SnapshotCpu(s: Net, acts: seq<Act>, i: nat)
    requires Boundary(s) && LegalActs(s, acts) && i < |s.cpu|
    ensures var u := Snapshot(s, acts);
      Inv(u) && NoAcks(CpuNodes(s, Iota(|s.cpu|), acts)) && u.grid == s.grid && Mailed(Instruction(s.cpu[i], acts[i]), u.cpu[i])
  {
    var ids := Iota(|s.cpu|);
    var s1 := CpuNodes(s, ids, acts);
    CpuPhase(s, ids, acts);
    SameMail(s, s1);
    FwdNodesSeen(s1, ids);
    FwdSweep(s1, ids);
    SweepFrame(NetOrder.FwdPhase, s1, ids);
    CpuEach(s, acts, |s.cpu|);
    FwdNodesMailed(s1, ids, i);
    hide Instruction, FwdNodes, CpuNodes, Inv;
  }

  lemma HopSlots(s: Net, ids: seq<nat>, i: nat)
    requires Ids(|s.cpu|, ids) && |s.cpu| == s.grid.Size()
    ensures SameSlots(s, HopNodes(s, ids), i) && HopNodes(s, ids).grid == s.grid
    decreases |ids|
  {
    HopSweep(s, ids);
    SweepFrame(NetOrder.HopPhase, s, ids);
    HopNodesSlots(s, ids, i);
  }

  lemma {:induction false} HopPartSlots(s: Net, id: nat, k: nat, i: nat)
    ensures SameSlots(s, HopPart(s, id, k), i)
  {
    if k > 0 {
      HopPartSlots(s, id, k - 1, i);
    }
  }

  lemma {:induction false} HopNodesSlots(s: Net, ids: seq<nat>, i: nat)
    ensures SameSlots(s, HopNodes(s, ids), i)
    decreases |ids|
  {
    if ids != [] {
      HopNodesSlots(s, ids[..|ids| - 1], i);
      HopPartSlots(HopNodes(s, ids[..|ids| - 1]), ids[|ids| - 1], LINK_NAMES, i);
    }
  }

  /** A cycle is three things to a processor: its instruction, the mail that fwd counts, and its own operation on the snapshot. */
  lemma CycleParts(s: Net, acts: seq<Act>, i: nat)
    requires Boundary(s) && LegalActs(s, acts) && Cycle(s, acts).Fine? && i < |s.cpu|
    ensures Cycled(s, acts, i, Snapshot(s, acts), Cycle(s, acts).net)
  {
    var u, t := Snapshot(s, acts), Cycle(s, acts).net;
    SnapshotCpu(s, acts, i);
    CycleMark(s, acts, i);
    assert Meshed(u);
    CycleSlots(s, acts, u, t, i);
    hide Instruction, Snapshot, Cycle, Inv, Operate, LegalActs;
  }

  lemma CycleSlots(s: Net, acts: seq<Act>, u: Net, t: Net, i: nat)
    requires |acts| == |s.cpu| && u == Snapshot(s, acts) && Cycle(s, acts) == Fine(t) && Inv(u) && i < |s.cpu|
    ensures |Operate(u, i).0.cpu| == |u.cpu| && SameSlots(Operate(u, i).0, t, i) && t.grid == u.grid
  {
    var ids := Iota(|u.cpu|);
    assert Meshed(u);
    DeadAnyOrder(u, ids);
    assert ids[i] == i;
    var v := OperateNodes(u, ids).net;
    assert t == HopNodes(v, ids).(cycle := HopNodes(v, ids).cycle + 1);
    OperateLocal(u, i);
    SweepParallel(NetOrder.OperatePhase, u, ids, i);
    SweepFrame(NetOrder.OperatePhase, u, ids);
    HopSlots(v, ids, i);
    hide Inv, FwdNodes, CpuNodes, OperateNodes, HopNodes, Operate, Snapshot, Cycle;
    forall f ensures Q(t, Mbox(i, f)) == Q(Operate(u, i).0, Mbox(i, f)) {
      assert Zone(NetOrder.OperatePhase, u.grid, Mbox(i, f)) == i;
      assert Q(v, Mbox(i, f)) == Q(Operate(u, i).0, Mbox(i, f));
    }
  }

  // ---------------------------------------------------------------- what an operation does to its processor

  // Its own registers, its counters and its program's clauses stay.
  ghost predicate Kept(c: Cpu, d: Cpu) {
    d == c.(op := d.op, sent := d.sent, data := d.data, hops := d.hops, k1 := d.k1, mboxStart := d.mboxStart, log := d.log)
  }

  // Nothing was sent, taken or completed.
  ghost predicate Idles(s: Net, t: Net, i: nat)
    requires i < |s.cpu| == |t.cpu|
  {
    var c, d := s.cpu[i], t.cpu[i];
    && SameSlots(s, t, i) && d.data == c.data && d.hops == c.hops && d.log == c.log
    && (if d.op == c.op then d.sent == c.sent && d.k1 == c.k1 else c.op == OpAlt && d.op == OpNone && !d.sent)
    && (d.mboxStart == c.mboxStart || c.op == OpAlt)
  }

  // The value of m was taken out of its slot.
  ghost predicate Accepted(s: Net, t: Net, i: nat, m: nat)
    requires i < |s.cpu| == |t.cpu|
  {
    var c, d := s.cpu[i], t.cpu[i];
    && m < |s.cpu| && m != i && SlotTaken(s, t, i, m) && !Q(s, Mbox(i, m))[0].ack && d.data == Q(s, Mbox(i, m))[0].data
    && d.op == OpNone && !d.sent && d.hops == (c.hops + Dist(s.grid, m, i)) % WORD
    && d.log == c.log.(taken := c.log.taken[m := Get(c.log.taken, m) + [d.data]])
  }

  // ... by an input from m, or an alternative that lists m.
  ghost predicate TakesFrom(s: Net, t: Net, i: nat, m: nat)
    requires i < |s.cpu| == |t.cpu|
  {
    var c, d := s.cpu[i], t.cpu[i];
    && Accepted(s, t, i, m)
    && match c.op
       case OpIn => m == c.corr && d.k1 == c.k1 && d.mboxStart == c.mboxStart
       case OpAlt => m in c.clauses && d.k1 == m
       case _ => false
  }

  // The output sent its register to its correspondent.
  ghost predicate SendsOff(s: Net, t: Net, i: nat)
    requires i < |s.cpu| == |t.cpu|
  {
    var c, d := s.cpu[i], t.cpu[i];
    && c.op == OpOut && !c.sent && SameSlots(s, t, i)
    && d == c.(sent := true, log := c.log.(sent := c.log.sent[c.corr := Get(c.log.sent, c.corr) + [c.data]]))
  }

  // The output was acknowledged.
  ghost predicate EndsOutput(s: Net, t: Net, i: nat)
    requires i < |s.cpu| == |t.cpu|
  {
    var c, d := s.cpu[i], t.cpu[i];
    && c.op == OpOut && c.sent && c.corr < |s.cpu| && SlotTaken(s, t, i, c.corr) && Q(s, Mbox(i, c.corr))[0].ack
    && d == c.(op := OpNone, sent := false, log := c.log.(done := c.log.done[c.corr := Count(c.log.done, c.corr) + 1]))
  }

  ghost predicate Does(s: Net, t: Net, i: nat)
    requires i < |s.cpu| == |t.cpu|
  {
    Kept(s.cpu[i], t.cpu[i]) &&
    (Idles(s, t, i) || SendsOff(s, t, i) || EndsOutput(s, t, i) || exists m :: TakesFrom(s, t, i, m))
  }

  lemma AcceptDoes(s: Net, from: nat, i: nat)
    requires Inv(s) && i < |s.cpu| && !Waiting(s.cpu[i]) && Q(s, Mbox(i, from)) != []
    ensures var (t, e) := Accept(s, from, i);
      && |t.cpu| == |s.cpu| && Kept(s.cpu[i], t.cpu[i])
      && if e == Done then Accepted(s, t, i, from) && t.cpu[i].k1 == s.cpu[i].k1 && t.cpu[i].mboxStart == s.cpu[i].mboxStart else t == s
  {
    AcceptFacts(s, from, i);
    var (t, e) := Accept(s, from, i);
    hide Inv, Guidance, Dist, NoRoom;
    if e == Done {
      var r := OutPlace(s.grid, i, from);
      forall f ensures Q(t, Mbox(i, f)) == if f == from then [] else Q(s, Mbox(i, f)) {
        assert Mbox(i, f) != r;
      }
    }
  }

  lemma AcceptFacts(s: Net, from: nat, i: nat)
    requires Inv(s) && i < |s.cpu| && !Waiting(s.cpu[i]) && Q(s, Mbox(i, from)) != []
    ensures var msg := Q(s, Mbox(i, from))[0];
      && from < |s.cpu| <= 65536 && from != i && |Q(s, Mbox(i, from))| == 1 && !msg.ack && msg.from == from && msg.hops == Dist(s.grid, from, i)
      && OutPlace(s.grid, i, from).Outl?
  {
    MailIsData(s, from, i);
    OneMail(s, Mbox(i, from));
    HeadOk(s, Mbox(i, from));
    InMailbox(s.grid, i, from, Q(s, Mbox(i, from))[0]);
    FirstPlace(s.grid, i, from);
  }

  lemma OutputDoes(s: Net, i: nat)
    requires Inv(s) && i < |s.cpu| && s.cpu[i].op == OpOut
    ensures var t := Output(s, s.cpu[i].corr, i).0; |t.cpu| == |s.cpu| && Does(s, t, i)
  {
    var c := s.cpu[i];
    CpuShape(s, i);
    FirstPlace(s.grid, i, c.corr);
    if Q(s, Mbox(i, c.corr)) != [] {
      OneMail(s, Mbox(i, c.corr));
    }
    hide Inv, Guidance, Dist;
    var (t, e) := Output(s, c.corr, i);
    if e == Done {
      if c.sent {
        assert EndsOutput(s, t, i);
      } else {
        assert SendsOff(s, t, i);
      }
    } else {
      assert t == s && Idles(s, t, i);
    }
  }

  lemma InputDoes(s: Net, i: nat)
    requires Inv(s) && i < |s.cpu| && s.cpu[i].op == OpIn
    ensures var t := Input(s, s.cpu[i].corr, i).0; |t.cpu| == |s.cpu| && Does(s, t, i)
  {
    var c := s.cpu[i];
    var t := Input(s, c.corr, i).0;
    hide Inv, Accept, Accepted;
    if Q(s, Mbox(i, c.corr)) != [] {
      AcceptDoes(s, c.corr, i);
      assert t == s || TakesFrom(s, t, i, c.corr);
    }
    assert t == s ==> Idles(s, t, i);
  }

  // The registers that an alternative sets before and after it takes a value are of no concern to the logs.
  lemma AltAccepts(s: Net, s1: Net, s2: Net, t: Net, i: nat, m: nat)
    requires i < |s.cpu| == |s1.cpu| == |s2.cpu| == |t.cpu| && s1.q == s.q && t.q == s2.q && s1.grid == s.grid
    requires var c, c1 := s.cpu[i], s1.cpu[i]; Kept(c, c1) && c1.log == c.log && c1.hops == c.hops && c1.data == c.data
    requires Kept(s1.cpu[i], s2.cpu[i]) && t.cpu[i] == s2.cpu[i].(k1 := t.cpu[i].k1)
    ensures Kept(s.cpu[i], t.cpu[i])
    ensures Accepted(s1, s2, i, m) ==> Accepted(s, t, i, m)
  {
    assert forall x :: Q(s1, x) == Q(s, x) && Q(t, x) == Q(s2, x);
  }

  lemma AltDoes(s: Net, i: nat)
    requires Inv(s) && i < |s.cpu| && s.cpu[i].op == OpAlt
    ensures var t := Alt(s, i).0; |t.cpu| == |s.cpu| && Does(s, t, i)
  {
    var c := s.cpu[i];
    AltAnswer(s, i);
    CpuShape(s, i);
    var t := Alt(s, i).0;
    if c.clauses == [] {
      assert Idles(s, t, i);
    } else if !SomeMail(s, i) || LinkFull(s, i, Chosen(s, i)) {
      UnansweredIdles(s, i, t);
    } else {
      ChosenMail(s, i);
      AltTakesOne(s, i);
      hide Alt, Inv, Accepted, Chosen;
      assert TakesFrom(s, t, i, Chosen(s, i));
    }
  }

  lemma UnansweredIdles(s: Net, i: nat, t: Net)
    requires i < |s.cpu| && s.cpu[i].op == OpAlt && Unanswered(s, i, t)
    ensures Idles(s, t, i) && Kept(s.cpu[i], t.cpu[i])
  {
    assert forall x :: Q(t, x) == Q(s, x);
  }

  // The state in which an alternative takes the value of the sender it chose.
  function Marked(s: Net, i: nat, hit: nat): Net
    requires i < |s.cpu|
  {
    var c := s.cpu[i];
    var c1 := if HasDefault(c.clauses) then c.(k1 := MINUS_ONE, op := OpNone, sent := false) else c;
    SetCpu(s, i, c1.(mboxStart := (hit + 1) % |s.cpu|))
  }

  lemma AltUnfolds(s: Net, i: nat, hit: nat)
    requires i < |s.cpu| && s.cpu[i].clauses != [] && hit == Chosen(s, i) && Q(s, Mbox(i, hit)) != []
    ensures Q(Marked(s, i, hit), Mbox(i, hit)) == Q(s, Mbox(i, hit))
    ensures var (s2, e) := Accept(Marked(s, i, hit), hit, i);
      |s2.cpu| == |s.cpu| && Alt(s, i) == if e == Done then (SetCpu(s2, i, s2.cpu[i].(k1 := hit % WORD)), Done) else (s2, e)
  {
    hide Scan, Boxes, HasDefault, Accept;
  }

  lemma MarkedInv(s: Net, i: nat, hit: nat)
    requires Inv(s) && i < |s.cpu| && s.cpu[i].op == OpAlt
    ensures Inv(Marked(s, i, hit)) && !Waiting(Marked(s, i, hit).cpu[i])
  {
    hide Inv, HasDefault;
    MarkInv(s, i, (hit + 1) % |s.cpu|, HasDefault(s.cpu[i].clauses));
  }

  lemma AltTakesOne(s: Net, i: nat)
    requires Inv(s) && i < |s.cpu| && s.cpu[i].op == OpAlt && s.cpu[i].clauses != [] && Alt(s, i).1 == Done
    requires s.cpu[i].mboxStart < |s.cpu| && Chosen(s, i) >= 0 && Q(s, Mbox(i, Chosen(s, i))) != []
    ensures var t := Alt(s, i).0; var hit := Chosen(s, i);
      |t.cpu| == |s.cpu| && Kept(s.cpu[i], t.cpu[i]) && Accepted(s, t, i, hit) && hit in s.cpu[i].clauses && t.cpu[i].k1 == hit
  {
    var hit := Chosen(s, i);
    ScanNearest(s.cpu[i].clauses, Boxes(s, i), |s.cpu|, s.cpu[i].mboxStart, 0);
    hide Inv, Alt, Accept, Accepted, Scan, Boxes, HasDefault;
    MarkedInv(s, i, hit);
    AltUnfolds(s, i, hit);
    var s1 := Marked(s, i, hit);
    AcceptDoes(s1, hit, i);
    AltAccepts(s, s1, Accept(s1, hit, i).0, Alt(s, i).0, i, hit);
    SmallHit(s, i, hit);
  }

  lemma SmallHit(s: Net, i: nat, hit: nat)
    requires Inv(s) && i < |s.cpu| && hit < |s.cpu|
    ensures hit % WORD == hit
  {
  }

  /** What an executed input answers: to try again while its slot is empty, no buffers while the link its acknowledge needs is full, both with nothing
      changed; and else it is done and has taken the value. */
  lemma InputAnswer(s: Net, i: nat)
    requires Inv(s) && i < |s.cpu| && s.cpu[i].op == OpIn
    ensures var m := s.cpu[i].corr; var (t, e) := Operate(s, i);
      if Q(s, Mbox(i, m)) == [] then (t, e) == (s, Again)
      else if LinkFull(s, i, m) then (t, e) == (s, NoBufs)
      else e == Done && |t.cpu| == |s.cpu| && TakesFrom(s, t, i, m)
  {
    var m := s.cpu[i].corr;
    if Q(s, Mbox(i, m)) != [] {
      RoomIs(s, i, m);
      AcceptDoes(s, m, i);
      hide Inv, Guidance, OutPlace, Accepted, LinkFull;
    }
  }

  /** What an executed output answers: before it has sent, no buffers while its link is full, with nothing changed, and else it
      has sent; afterwards, to try again until something is in its slot, then done with an acknowledge, and a deadlock with data. */
  lemma OutputAnswer(s: Net, i: nat)
    requires Inv(s) && i < |s.cpu| && s.cpu[i].op == OpOut
    ensures var n := s.cpu[i].corr; var (t, e) := Operate(s, i); var box := Q(s, Mbox(i, n));
      if !s.cpu[i].sent then
        if LinkFull(s, i, n) then (t, e) == (s, NoBufs) else e == Done && |t.cpu| == |s.cpu| && SendsOff(s, t, i)
      else if box == [] then (t, e) == (s, Again)
      else if box[0].ack then e == Done && |t.cpu| == |s.cpu| && EndsOutput(s, t, i)
      else (t, e) == (s, Deadlock)
  {
    var n := s.cpu[i].corr;
    CpuShape(s, i);
    FirstPlace(s.grid, i, n);
    if Q(s, Mbox(i, n)) != [] {
      OneMail(s, Mbox(i, n));
    }
    assert NoRoom(s, i, n) <==> LinkFull(s, i, n);
    hide Inv, Guidance, PlaceOf, LinkFull;
  }

  /** Executing its pending operation, a node does one of four things: it takes a value from the correspondent of its input, or from a listed sender;
      it sends the value of its output; it completes the output; or nothing but its alternative's registers changes. */
  lemma OperateDoes(s: Net, i: nat)
    requires Inv(s) && i < |s.cpu|
    ensures |Operate(s, i).0.cpu| == |s.cpu| && Does(s, Operate(s, i).0, i)
  {
    hide Inv, Input, Output, Alt;
    match s.cpu[i].op {
      case OpNone => assert Idles(s, s, i);
      case OpIn => InputDoes(s, i);
      case OpOut => OutputDoes(s, i);
      case OpAlt => AltDoes(s, i);
    }
  }

  // ---------------------------------------------------------------- programs and their communication

  // What a program's instruction makes of the registers of an idle processor; a blocked one keeps them and its operation.
  ghost predicate Commanded(c: Cpu, a: Act, d: Cpu) {
    && d.log == c.log && d.hops == c.hops && d.k1 == c.k1 && d.mboxStart == c.mboxStart
    && if !c.running || c.op != OpNone then
         d.running == c.running && d.op == c.op && d.sent == c.sent && d.corr == c.corr && d.data == c.data && d.clauses == c.clauses
       else
         match a
         case Compute(r, v, l) => d.running && d.op == OpNone && d.corr == r && d.data == v && d.clauses == l
         case _ =>
           && d.corr == c.corr && d.data == c.data && d.clauses == c.clauses && (d.running <==> a != DoWait)
           && (d.op == OpIn <==> a == DoInput) && (d.op == OpOut <==> a == DoOutput) && (d.op == OpAlt <==> a == DoAlt)
           && (d.op == OpNone || !d.sent)
  }

  lemma InstructionCommands(c: Cpu, a: Act, d: Cpu)
    requires Mailed(Instruction(c, a), d)
    ensures Commanded(c, a, d)
  {
  }

  // What a cycle means to the output of n: the value v is to go to r, and has been logged as sent or waits for room.
  ghost predicate OutputDue(c: Cpu, d: Cpu, r: nat, v: Word) {
    || (d.running && d.op == OpOut && !d.sent && d.corr == r && d.data == v && Get(d.log.sent, r) == Get(c.log.sent, r))
    || Get(c.log.sent, r) + [v] <= Get(d.log.sent, r)
  }

  // ... and to its input: the next value from r is awaited, or taken.
  ghost predicate InputDue(c: Cpu, d: Cpu, r: nat) {
    || (d.running && d.op == OpIn && d.corr == r && d.log.taken == c.log.taken)
    || (Get(c.log.taken, r) < Get(d.log.taken, r))
  }

  // Logs only grow.
  ghost predicate LogsGrow(c: Cpu, d: Cpu) {
    forall m :: Get(c.log.sent, m) <= Get(d.log.sent, m) && Get(c.log.taken, m) <= Get(d.log.taken, m)
  }

  lemma OwnGrows(u: Net, t: Net, n: nat)
    requires n < |u.cpu| == |t.cpu| && Does(u, t, n)
    ensures LogsGrow(u.cpu[n], t.cpu[n])
    ensures forall r, v :: u.cpu[n].running && u.cpu[n].op == OpOut && !u.cpu[n].sent && u.cpu[n].corr == r && u.cpu[n].data == v ==>
      OutputDue(u.cpu[n], t.cpu[n], r, v)
    ensures forall r :: u.cpu[n].running && u.cpu[n].op == OpIn && u.cpu[n].corr == r ==> InputDue(u.cpu[n], t.cpu[n], r)
  {
    hide Dist;
  }

  // One cycle of a program: its instruction, then its own operation on the snapshot u.
  ghost predicate Commands(s: Net, acts: seq<Act>, n: nat, u: Net, t: Net) {
    && n < |s.cpu| == |acts| == |u.cpu| == |t.cpu| && Commanded(s.cpu[n], acts[n], u.cpu[n])
    && u.cpu[n].running == t.cpu[n].running && LogsGrow(u.cpu[n], t.cpu[n])
    && (u.cpu[n].op == OpNone ==> t.cpu[n] == u.cpu[n])
    && (forall r, v :: u.cpu[n].running && u.cpu[n].op == OpOut && !u.cpu[n].sent && u.cpu[n].corr == r && u.cpu[n].data == v ==>
         OutputDue(u.cpu[n], t.cpu[n], r, v))
    && (forall r :: u.cpu[n].running && u.cpu[n].op == OpIn && u.cpu[n].corr == r ==> InputDue(u.cpu[n], t.cpu[n], r))
  }

  /** A cycle does to an idle processor what its instruction says: it computes, or begins the operation; and a blocked one keeps its registers and
      its operation until the network completes it. */
  lemma CycleCommands(s: Net, acts: seq<Act>, n: nat)
    requires Boundary(s) && LegalActs(s, acts) && Cycle(s, acts).Fine? && n < |s.cpu|
    ensures Commands(s, acts, n, Snapshot(s, acts), Cycle(s, acts).net)
  {
    var u := Snapshot(s, acts);
    CycleParts(s, acts, n);
    OperateDoes(u, n);
    OwnGrows(u, Operate(u, n).0, n);
    NoneStays(u, n);
    hide Boundary, LegalActs, Cycle, Inv, Operate, Snapshot, Does, LogsGrow, OutputDue, InputDue;
    InstructionCommands(s.cpu[n], acts[n], u.cpu[n]);
    hide Instruction, Commanded;
  }

  lemma NoneStays(u: Net, n: nat)
    requires n < |u.cpu|
    ensures u.cpu[n].op == OpNone ==> Own(u, n) == u.cpu[n]
    ensures Own(u, n).running == u.cpu[n].running
  {
  }

  // A processor that set its registers and then executed an output or an input.
  ghost predicate Programmed(s: Net, prog: seq<seq<Act>>, n: nat, r: Word, v: Word, l: seq<Word>, a: Act) {
    && n < |s.cpu| && s.cpu[n].running && s.cpu[n].op == OpNone && |prog| >= 2 && n < |prog[0]| && n < |prog[1]|
    && prog[0][n] == Compute(r, v, l) && prog[1][n] == a
  }

  ghost predicate Communicates(c: Cpu, d: Cpu, r: nat, v: Word, a: Act) {
    (a == DoOutput ==> OutputDue(c, d, r, v)) && (a == DoInput ==> InputDue(c, d, r))
  }

  lemma StaysDue(c: Cpu, d: Cpu, u: Cpu, e: Cpu, r: nat, v: Word, a: Act)
    requires Communicates(c, d, r, v, a) && LogsGrow(u, e) && u.log == d.log
    requires d.running && d.op == OpOut && !d.sent && d.corr == r && d.data == v ==> OutputDue(u, e, r, v)
    requires d.running && d.op == OpIn && d.corr == r ==> InputDue(u, e, r)
    ensures Communicates(c, e, r, v, a)
  {
  }

  lemma CycleCommunicates(c: Cpu, t: Net, acts: seq<Act>, n: nat, r: nat, v: Word, a: Act)
    requires Boundary(t) && LegalActs(t, acts) && Cycle(t, acts).Fine? && n < |t.cpu| && Communicates(c, t.cpu[n], r, v, a)
    ensures n < |Cycle(t, acts).net.cpu| && Communicates(c, Cycle(t, acts).net.cpu[n], r, v, a)
  {
    hide Boundary, LegalActs, Cycle, OutputDue, InputDue, LogsGrow, Communicates, Snapshot;
    CycleCommands(t, acts, n);
    StaysDue(c, t.cpu[n], Snapshot(t, acts).cpu[n], Cycle(t, acts).net.cpu[n], r, v, a);
  }

  // After the first two cycles.
  lemma ProgramStarts(s: Net, prog: seq<seq<Act>>, n: nat, r: Word, v: Word, l: seq<Word>, a: Act)
    requires Boundary(s) && LegalRun(s, prog) && Run(s, prog).Fine? && |prog| == 2 && Programmed(s, prog, n, r, v, l, a)
    ensures n < |Run(s, prog).net.cpu| && Communicates(s.cpu[n], Run(s, prog).net.cpu[n], r, v, a)
  {
    var s1 := Run(s, prog[..1]).net;
    assert prog[..1][..0] == [] && Run(s, []) == Fine(s);
    assert LegalActs(s, prog[0]) && Cycle(s, prog[0]) == Fine(s1) && LegalActs(s1, prog[1]);
    RunInv(s, prog[..1]);
    hide Boundary, LegalActs, Cycle, Run, LegalRun, OutputDue, InputDue, LogsGrow, Snapshot;
    CycleCommands(s, prog[0], n);
    CycleCommands(s1, prog[1], n);
    LastCycle(s, prog);
    SameStart(s.cpu[n], Snapshot(s1, prog[1]).cpu[n], Run(s, prog).net.cpu[n], r, v);
  }

  lemma LastCycle(s: Net, prog: seq<seq<Act>>)
    requires LegalRun(s, prog) && prog != []
    ensures LegalRun(s, prog[..|prog| - 1]) && Run(s, prog[..|prog| - 1]).Fine?
    ensures LegalActs(Run(s, prog[..|prog| - 1]).net, prog[|prog| - 1])
    ensures Run(s, prog) == Cycle(Run(s, prog[..|prog| - 1]).net, prog[|prog| - 1])
  {
  }

  lemma SameStart(c: Cpu, u: Cpu, e: Cpu, r: nat, v: Word)
    requires u.log == c.log
    ensures OutputDue(u, e, r, v) ==> OutputDue(c, e, r, v)
    ensures InputDue(u, e, r) ==> InputDue(c, e, r)
  {
  }

  /** A program that puts v into DATA and r into CORR and executes an output sends v to r before anything else, or waits for room
      on its link; and one that executes an input takes its next value from r, or waits for it. */
  lemma {:induction false} ProgramsCommunicate(s: Net, prog: seq<seq<Act>>, n: nat, r: Word, v: Word, l: seq<Word>, a: Act)
    requires Boundary(s) && LegalRun(s, prog) && Run(s, prog).Fine? && Programmed(s, prog, n, r, v, l, a)
    ensures n < |Run(s, prog).net.cpu| && Communicates(s.cpu[n], Run(s, prog).net.cpu[n], r, v, a)
    decreases |prog|
  {
    hide Boundary, LegalActs, Cycle, Run, LegalRun, Communicates, Programmed;
    ProgrammedLength(s, prog, n, r, v, l, a);
    if |prog| == 2 {
      ProgramStarts(s, prog, n, r, v, l, a);
    } else {
      var k := |prog| - 1;
      LastCycle(s, prog);
      ProgramsCommunicate(s, prog[..k], n, r, v, l, a);
      RunInv(s, prog[..k]);
      CycleCommunicates(s.cpu[n], Run(s, prog[..k]).net, prog[k], n, r, v, a);
    }
  }

  lemma ProgrammedLength(s: Net, prog: seq<seq<Act>>, n: nat, r: Word, v: Word, l: seq<Word>, a: Act)
    requires Programmed(s, prog, n, r, v, l, a)
    ensures |prog| >= 2 && n < |s.cpu| && (|prog| > 2 ==> Programmed(s, prog[..|prog| - 1], n, r, v, l, a))
  {
  }
}
