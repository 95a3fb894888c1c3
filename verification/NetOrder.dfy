/** The loops of Net_execute and sim visit the nodes one after the other; the result is that of
    all nodes working at once on the same snapshot, so no order of visits matters. */
module NetOrder {
  import opened Indices
  import opened Words
  import opened Mesh
  import opened NetModel
  import opened NetInvariant
  import opened NetOperate
  import opened NetRun

  datatype Phase = FwdPhase | OperatePhase | HopPhase

  function Visit(ph: Phase, s: Net, id: nat): (r: Net)
    requires id < |s.cpu|
    ensures |r.cpu| == |s.cpu|
  {
    match ph
    case FwdPhase => FwdNode(s, id)
    case OperatePhase => OperateLocal(s, id); Operate(s, id).0
    case HopPhase => HopNode(s, id)
  }

  function Sweep(ph: Phase, s: Net, ids: seq<nat>): (r: Net)
    requires Ids(|s.cpu|, ids)
    ensures |r.cpu| == |s.cpu|
  {
    if ids == [] then s else Visit(ph, Sweep(ph, s, ids[..|ids| - 1]), ids[|ids| - 1])
  }

  // The node in whose visit a buffer is read or written: its own node, except that an input buffer is filled by
  // the neighbour on the other side of the link.
  function Zone(ph: Phase, g: Grid, p: Place): nat {
    if ph.HopPhase? && p.Inl? then HopTarget(g, p.id, p.dir).0 else p.id
  }

  // s and t agree on what the visit of node z can see.
  ghost predicate Same(ph: Phase, s: Net, t: Net, z: nat) {
    && s.grid == t.grid && |s.cpu| == |t.cpu| == s.grid.Size() && z < |s.cpu|
    && s.cpu[z] == t.cpu[z]
    && forall p :: Zone(ph, s.grid, p) == z ==> Q(s, p) == Q(t, p)
  }

  // t differs from s only in what the visit of node z can see.
  ghost predicate Only(ph: Phase, s: Net, t: Net, z: nat) {
    && s.grid == t.grid && |s.cpu| == |t.cpu| == s.grid.Size() && z < |s.cpu|
    && s.nrun == t.nrun && s.cycle == t.cycle
    && (forall i :: 0 <= i < |s.cpu| && i != z ==> s.cpu[i] == t.cpu[i])
    && (forall p :: Zone(ph, s.grid, p) != z ==> Q(s, p) == Q(t, p))
  }

  // ---------------------------------------------------------------- locality of the steps

  // Moving the head of one buffer to another, in two nets that agree on both.
  lemma TransferSame(s: Net, t: Net, p: Place, r: Place, m: Msg)
    requires Q(s, p) == Q(t, p) != [] && Q(s, r) == Q(t, r)
    ensures forall x :: Q(s, x) == Q(t, x) ==> Q(Transfer(s, p, r, m), x) == Q(Transfer(t, p, r, m), x)
    ensures forall x :: x != p && x != r ==> Q(Transfer(s, p, r, m), x) == Q(s, x)
  {
  }

  lemma SkipsSame(s: Net, t: Net, id: nat, d: Dir)
    requires Same(FwdPhase, s, t, id)
    ensures FwdSkips(s, id, d) == FwdSkips(t, id, d)
  {
    assert Q(s, Inl(id, d)) == Q(t, Inl(id, d));
    if Q(s, Inl(id, d)) != [] {
      var r := FwdPlace(s.grid, id, Q(s, Inl(id, d))[0]);
      assert Q(s, r) == Q(t, r);
    }
  }

  lemma FwdLinkOnly(s: Net, id: nat, d: Dir)
    requires |s.cpu| == s.grid.Size() && id < |s.cpu|
    ensures Only(FwdPhase, s, FwdLink(s, id, d), id)
  {
    var b := Q(s, Inl(id, d));
    if FwdLink(s, id, d) != s {
      TransferSame(s, s, Inl(id, d), FwdPlace(s.grid, id, b[0]), b[0]);
    }
  }

  lemma FwdLinkSame(s: Net, t: Net, id: nat, d: Dir)
    requires Same(FwdPhase, s, t, id)
    ensures Same(FwdPhase, FwdLink(s, id, d), FwdLink(t, id, d), id)
  {
    var b := Q(s, Inl(id, d));
    assert b == Q(t, Inl(id, d));
    SkipsSame(s, t, id, d);
    hide FwdSkips, Guidance;
    if !FwdSkips(s, id, d) {
      SkipsNot(s, id, d);
      var r := FwdPlace(s.grid, id, b[0]);
      assert Q(s, r) == Q(t, r);
      TransferSame(s, t, Inl(id, d), r, b[0]);
      hide Transfer;
    }
  }

  lemma SkipsNot(s: Net, id: nat, d: Dir)
    requires !FwdSkips(s, id, d)
    ensures Q(s, Inl(id, d)) != []
  {
  }

  // The far end of a link belongs to the node that fills it.
  lemma FarEnd(g: Grid, id: nat, d: Dir)
    requires id < g.Size() && !HopTarget(g, id, d).1
    ensures Zone(HopPhase, g, HopPlace(g, id, d)) == id
  {
    HopTargetExact(g, id, d);
    OppositeNeighbour(g, id, d);
    HopTargetExact(g, HopTarget(g, id, d).0, Opposite(d));
  }

  lemma HopLinkOnly(s: Net, id: nat, d: Dir)
    requires |s.cpu| == s.grid.Size() && id < |s.cpu|
    ensures Only(HopPhase, s, HopLink(s, id, d), id)
  {
    if HopLink(s, id, d) != s {
      FarEnd(s.grid, id, d);
      TransferSame(s, s, Outl(id, d), HopPlace(s.grid, id, d), Hopped(Q(s, Outl(id, d))[0]));
    }
  }

  lemma HopLinkSame(s: Net, t: Net, id: nat, d: Dir)
    requires Same(HopPhase, s, t, id)
    ensures Same(HopPhase, HopLink(s, id, d), HopLink(t, id, d), id)
  {
    var b := Q(s, Outl(id, d));
    assert b == Q(t, Outl(id, d));
    if b != [] && !HopTarget(s.grid, id, d).1 {
      FarEnd(s.grid, id, d);
      var r := HopPlace(s.grid, id, d);
      assert Q(s, r) == Q(t, r);
      assert HopSkips(s, id, d) == HopSkips(t, id, d);
      TransferSame(s, t, Outl(id, d), r, Hopped(b[0]));
    }
  }

  lemma OnlyTwice(ph: Phase, s: Net, t: Net, u: Net, z: nat)
    requires Only(ph, s, t, z) && Only(ph, t, u, z)
    ensures Only(ph, s, u, z)
  {
  }

  lemma {:induction false} FwdPartLocal(s: Net, t: Net, id: nat, k: nat)
    requires |s.cpu| == s.grid.Size() && id < |s.cpu|
    ensures Only(FwdPhase, s, FwdPart(s, id, k), id)
    ensures Same(FwdPhase, s, t, id) ==> Same(FwdPhase, FwdPart(s, id, k), FwdPart(t, id, k), id)
  {
    if k > 0 {
      FwdPartLocal(s, t, id, k - 1);
      var u := FwdPart(s, id, k - 1);
      FwdLinkOnly(u, id, DirAt(k - 1));
      OnlyTwice(FwdPhase, s, u, FwdLink(u, id, DirAt(k - 1)), id);
      if Same(FwdPhase, s, t, id) {
        FwdLinkSame(u, FwdPart(t, id, k - 1), id, DirAt(k - 1));
      }
    }
  }

  lemma {:induction false} HopPartLocal(s: Net, t: Net, id: nat, k: nat)
    requires |s.cpu| == s.grid.Size() && id < |s.cpu|
    ensures Only(HopPhase, s, HopPart(s, id, k), id)
    ensures Same(HopPhase, s, t, id) ==> Same(HopPhase, HopPart(s, id, k), HopPart(t, id, k), id)
  {
    if k > 0 {
      HopPartLocal(s, t, id, k - 1);
      var u := HopPart(s, id, k - 1);
      HopLinkOnly(u, id, DirAt(k - 1));
      OnlyTwice(HopPhase, s, u, HopLink(u, id, DirAt(k - 1)), id);
      if Same(HopPhase, s, t, id) {
        HopLinkSame(u, HopPart(t, id, k - 1), id, DirAt(k - 1));
      }
    }
  }

  /** The links of a node are served in the order north, east, south, west, which decides between messages that want the same place. */
  lemma LinkOrder(s: Net, id: nat)
    requires id < |s.cpu|
    ensures var n := FwdLink(s, id, North); var e := FwdLink(n, id, East); var w := FwdLink(e, id, South);
      |n.cpu| == |e.cpu| == |w.cpu| == |s.cpu| && FwdNode(s, id) == FwdLink(w, id, West)
    ensures HopNode(s, id) == HopLink(HopLink(HopLink(HopLink(s, id, North), id, East), id, South), id, West)
  {
    assert FwdPart(s, id, 0) == s && HopPart(s, id, 0) == s;
    assert FwdPart(s, id, 1) == FwdLink(s, id, North) && HopPart(s, id, 1) == HopLink(s, id, North);
    assert FwdPart(s, id, 2) == FwdLink(FwdPart(s, id, 1), id, East) && HopPart(s, id, 2) == HopLink(HopPart(s, id, 1), id, East);
    assert FwdPart(s, id, 3) == FwdLink(FwdPart(s, id, 2), id, South) && HopPart(s, id, 3) == HopLink(HopPart(s, id, 2), id, South);
    hide FwdLink, HopLink;
  }

  lemma AcceptSame(s: Net, t: Net, from: nat, id: nat)
    requires Same(OperatePhase, s, t, id) && Q(s, Mbox(id, from)) != []
    ensures Q(t, Mbox(id, from)) != []
    ensures Same(OperatePhase, Accept(s, from, id).0, Accept(t, from, id).0, id)
    ensures Accept(s, from, id).1 == Accept(t, from, id).1
  {
    var to := Q(s, Mbox(id, from))[0].from;
    assert Q(s, Mbox(id, from)) == Q(t, Mbox(id, from));
    assert Q(s, OutPlace(s.grid, id, to)) == Q(t, OutPlace(s.grid, id, to));
  }

  lemma OutputSame(s: Net, t: Net, to: nat, id: nat)
    requires Same(OperatePhase, s, t, id)
    ensures Same(OperatePhase, Output(s, to, id).0, Output(t, to, id).0, id)
    ensures Output(s, to, id).1 == Output(t, to, id).1
  {
    assert Q(s, Mbox(id, to)) == Q(t, Mbox(id, to));
    assert Q(s, OutPlace(s.grid, id, to)) == Q(t, OutPlace(s.grid, id, to));
  }

  // The mark moves in the same way in both.
  lemma MarkSame(s: Net, t: Net, id: nat, c: Cpu)
    requires Same(OperatePhase, s, t, id)
    ensures Same(OperatePhase, SetCpu(s, id, c), SetCpu(t, id, c), id)
  {
    assert forall p :: Q(SetCpu(s, id, c), p) == Q(s, p) && Q(SetCpu(t, id, c), p) == Q(t, p);
  }

  lemma BoxesSame(s: Net, t: Net, id: nat)
    requires Same(OperatePhase, s, t, id)
    ensures Boxes(s, id) == Boxes(t, id)
  {
    forall f | 0 <= f < |s.cpu| ensures Q(s, Mbox(id, f)) == Q(t, Mbox(id, f)) {
      assert Zone(OperatePhase, s.grid, Mbox(id, f)) == id;
    }
  }

  lemma AltSame(s: Net, t: Net, id: nat)
    requires Same(OperatePhase, s, t, id)
    ensures Same(OperatePhase, Alt(s, id).0, Alt(t, id).0, id)
    ensures Alt(s, id).1 == Alt(t, id).1
  {
    assert s.cpu[id] == t.cpu[id] && |s.cpu| == |t.cpu|;
    hide Same, Scan, Boxes, HasDefault, Accept;
    var c := s.cpu[id];
    if c.clauses != [] {
      BoxesSame(s, t, id);
      var hit := Scan(c.clauses, Boxes(s, id), |s.cpu|, c.mboxStart, 0);
      var cur := if hit >= 0 then hit else c.mboxStart;
      var c1 := (if HasDefault(c.clauses) then c.(k1 := MINUS_ONE, op := OpNone, sent := false) else c).(mboxStart := (cur + 1) % |s.cpu|);
      var s1, t1 := SetCpu(s, id, c1), SetCpu(t, id, c1);
      MarkSame(s, t, id, c1);
      if hit >= 0 {
        HitHasMail(s, id, hit);
        assert Q(s1, Mbox(id, hit)) == Q(s, Mbox(id, hit));
        AcceptSame(s1, t1, hit, id);
        ReportSame(Accept(s1, hit, id).0, Accept(t1, hit, id).0, id, hit % WORD);
      }
    }
  }

  lemma ReportSame(s: Net, t: Net, id: nat, k: Word)
    requires Same(OperatePhase, s, t, id)
    ensures Same(OperatePhase, SetCpu(s, id, s.cpu[id].(k1 := k)), SetCpu(t, id, t.cpu[id].(k1 := k)), id)
  {
    MarkSame(s, t, id, s.cpu[id].(k1 := k));
  }

  // What operate does and reports depends on its own node alone.
  lemma OperateSame(s: Net, t: Net, id: nat)
    requires Same(OperatePhase, s, t, id)
    ensures Same(OperatePhase, Operate(s, id).0, Operate(t, id).0, id)
    ensures Operate(s, id).1 == Operate(t, id).1
  {
    var c := s.cpu[id];
    match c.op {
      case OpNone =>
      case OpIn =>
        assert Q(s, Mbox(id, c.corr)) == Q(t, Mbox(id, c.corr));
        if Q(s, Mbox(id, c.corr)) != [] {
          AcceptSame(s, t, c.corr, id);
        }
      case OpOut => OutputSame(s, t, c.corr, id);
      case OpAlt => AltSame(s, t, id);
    }
  }

  lemma VisitLocal(ph: Phase, s: Net, t: Net, id: nat)
    requires |s.cpu| == s.grid.Size() && id < |s.cpu|
    ensures Only(ph, s, Visit(ph, s, id), id)
    ensures Same(ph, s, t, id) ==> Same(ph, Visit(ph, s, id), Visit(ph, t, id), id)
  {
    match ph {
      case FwdPhase => FwdPartLocal(s, t, id, LINK_NAMES);
      case HopPhase => HopPartLocal(s, t, id, LINK_NAMES);
      case OperatePhase =>
        OperateLocal(s, id);
        if Same(ph, s, t, id) {
          OperateSame(s, t, id);
        }
    }
  }

  // ---------------------------------------------------------------- sweeps

  ghost predicate SameFrame(s: Net, t: Net) {
    s.grid == t.grid && |s.cpu| == |t.cpu| == s.grid.Size() && s.nrun == t.nrun && s.cycle == t.cycle
  }

  lemma {:induction false} SweepFrame(ph: Phase, s: Net, ids: seq<nat>)
    requires |s.cpu| == s.grid.Size() && Ids(|s.cpu|, ids)
    ensures SameFrame(s, Sweep(ph, s, ids))
    ensures forall p :: Zone(ph, s.grid, p) >= |s.cpu| ==> Q(Sweep(ph, s, ids), p) == Q(s, p)
  {
    if ids != [] {
      var l := |ids| - 1;
      SweepFrame(ph, s, ids[..l]);
      VisitLocal(ph, Sweep(ph, s, ids[..l]), s, ids[l]);
    }
  }

  /** After a sweep in any order, each node's share of the state is what its own visit would have made of the snapshot taken
      before the phase, and the share of a node not visited is untouched. */
  lemma {:induction false} SweepParallel(ph: Phase, s: Net, ids: seq<nat>, z: nat)
    requires |s.cpu| == s.grid.Size() && Ids(|s.cpu|, ids) && Distinct(ids) && z < |s.cpu|
    ensures Same(ph, Sweep(ph, s, ids), if z in ids then Visit(ph, s, z) else s, z)
  {
    if ids == [] {
      assert z !in ids;
    } else {
      var l := |ids| - 1;
      var u := Sweep(ph, s, ids[..l]);
      SweepFrame(ph, s, ids[..l]);
      SweepParallel(ph, s, ids[..l], z);
      assert ids == ids[..l] + [ids[l]];
      VisitLocal(ph, u, s, ids[l]);
      VisitLocal(ph, s, s, ids[l]);
      if z in ids[..l] {
        VisitLocal(ph, s, s, z);
      }
    }
  }

  ghost predicate AllNodes(n: nat, ids: seq<nat>) {
    Ids(n, ids) && Distinct(ids) && forall i :: 0 <= i < n ==> i in ids
  }

  // Two nets nothing can tell apart.
  ghost predicate Alike(s: Net, t: Net) {
    s.grid == t.grid && s.cpu == t.cpu && s.nrun == t.nrun && s.cycle == t.cycle && forall p :: Q(s, p) == Q(t, p)
  }

  lemma SweepAnyOrder(ph: Phase, s: Net, a: seq<nat>, b: seq<nat>)
    requires |s.cpu| == s.grid.Size() && AllNodes(|s.cpu|, a) && AllNodes(|s.cpu|, b)
    ensures Alike(Sweep(ph, s, a), Sweep(ph, s, b))
  {
    var t, u := Sweep(ph, s, a), Sweep(ph, s, b);
    SweepFrame(ph, s, a);
    SweepFrame(ph, s, b);
    forall z | 0 <= z < |s.cpu| ensures Same(ph, t, u, z) {
      SweepParallel(ph, s, a, z);
      SweepParallel(ph, s, b, z);
    }
    forall p ensures Q(t, p) == Q(u, p) {
      var z := Zone(ph, s.grid, p);
      assert z < |s.cpu| ==> Same(ph, t, u, z);
    }
    assert t.cpu == u.cpu by {
      forall z | 0 <= z < |s.cpu| ensures t.cpu[z] == u.cpu[z] {
        assert Same(ph, t, u, z);
      }
    }
  }

  // A deadlock is reported in one order just when it is in every other.
  lemma {:induction false} DeadAnyOrder(s: Net, ids: seq<nat>)
    requires |s.cpu| == s.grid.Size() && Ids(|s.cpu|, ids) && Distinct(ids)
    ensures OperateNodes(s, ids).Dead? <==> exists z :: z in ids && z < |s.cpu| && Operate(s, z).1 == Deadlock
    ensures OperateNodes(s, ids).Fine? ==> OperateNodes(s, ids).net == Sweep(OperatePhase, s, ids)
  {
    if ids != [] {
      var l := |ids| - 1;
      DeadAnyOrder(s, ids[..l]);
      assert ids == ids[..l] + [ids[l]];
      if OperateNodes(s, ids[..l]).Fine? {
        var u := Sweep(OperatePhase, s, ids[..l]);
        SweepParallel(OperatePhase, s, ids[..l], ids[l]);
        OperateSame(u, s, ids[l]);
      }
    }
  }

  lemma {:induction false} FwdSweep(s: Net, ids: seq<nat>)
    requires Ids(|s.cpu|, ids)
    ensures FwdNodes(s, ids) == Sweep(FwdPhase, s, ids)
  {
    if ids != [] {
      FwdSweep(s, ids[..|ids| - 1]);
    }
  }

  lemma {:induction false} HopSweep(s: Net, ids: seq<nat>)
    requires Ids(|s.cpu|, ids)
    ensures HopNodes(s, ids) == Sweep(HopPhase, s, ids)
  {
    if ids != [] {
      HopSweep(s, ids[..|ids| - 1]);
    }
  }

  // With the invariant, nets that are alike are equal.
  lemma AlikeEqual(s: Net, t: Net)
    requires Alike(s, t) && Shape(s) && Shape(t)
    ensures s == t
  {
    forall p ensures p in s.q <==> p in t.q {
      assert ValidPlace(s.grid, p) <==> p in s.q;
    }
    assert forall p :: p in s.q ==> s.q[p] == Q(s, p) && t.q[p] == Q(t, p);
    assert s.q == t.q;
  }

  // Net_execute with a visiting order for each of its three loops.
  function NetExecuteIn(s: Net, f: seq<nat>, o: seq<nat>, h: seq<nat>): Outcome
    requires Ids(|s.cpu|, f) && Ids(|s.cpu|, o)
  {
    match OperateNodes(FwdNodes(s, f), o)
    case Dead(t, n) => Dead(t, n)
    case Fine(t) => Fine(HopNodes(t, h))
  }

  /** Whatever orders the three loops use, a cycle of the network reports a deadlock in all of them or in none,
      and without one leaves the same state. */
  lemma NetExecuteAnyOrder(s: Net, f: seq<nat>, o: seq<nat>, h: seq<nat>)
    requires Inv(s) && NoAcks(s)
    requires AllNodes(|s.cpu|, f) && AllNodes(|s.cpu|, o) && AllNodes(|s.cpu|, h)
    ensures NetExecuteIn(s, f, o, h).Dead? <==> NetExecute(s).Dead?
    ensures NetExecute(s).Fine? ==> NetExecuteIn(s, f, o, h) == NetExecute(s)
  {
    var ids := Iota(|s.cpu|);
    forall i | 0 <= i < |s.cpu| ensures i in ids {
      assert ids[i] == i;
    }
    FwdSame(s, f, ids);
    var t := FwdNodes(s, ids);
    FwdNodesSeen(s, ids);
    OperateAll(t, o, ids);
    if OperateNodes(t, ids).Fine? {
      OperatesInv(t, ids);
      HopSame(OperateNodes(t, ids).net, h, ids);
    }
  }

  lemma FwdSame(s: Net, a: seq<nat>, b: seq<nat>)
    requires Inv(s) && NoAcks(s) && AllNodes(|s.cpu|, a) && AllNodes(|s.cpu|, b)
    ensures FwdNodes(s, a) == FwdNodes(s, b)
  {
    FwdSweep(s, a);
    FwdSweep(s, b);
    SweepAnyOrder(FwdPhase, s, a, b);
    FwdNodesSeen(s, a);
    FwdNodesSeen(s, b);
    AlikeEqual(FwdNodes(s, a), FwdNodes(s, b));
  }

  lemma OperatesInv(s: Net, ids: seq<nat>)
    requires Inv(s) && Ids(|s.cpu|, ids)
    ensures Inv(OperateNodes(s, ids).net)
  {
    NetRun.OperatePhase(s, ids);
  }

  lemma OperateAll(s: Net, a: seq<nat>, b: seq<nat>)
    requires Inv(s) && AllNodes(|s.cpu|, a) && AllNodes(|s.cpu|, b)
    ensures OperateNodes(s, a).Dead? <==> OperateNodes(s, b).Dead?
    ensures OperateNodes(s, a).Fine? ==> OperateNodes(s, a) == OperateNodes(s, b)
  {
    DeadAnyOrder(s, a);
    DeadAnyOrder(s, b);
    if OperateNodes(s, a).Fine? {
      SweepAnyOrder(OperatePhase, s, a, b);
      OperatesInv(s, a);
      OperatesInv(s, b);
      AlikeEqual(OperateNodes(s, a).net, OperateNodes(s, b).net);
    }
  }

  lemma HopSame(s: Net, a: seq<nat>, b: seq<nat>)
    requires Inv(s) && AllNodes(|s.cpu|, a) && AllNodes(|s.cpu|, b)
    ensures HopNodes(s, a) == HopNodes(s, b)
  {
    HopSweep(s, a);
    HopSweep(s, b);
    SweepAnyOrder(HopPhase, s, a, b);
    NetRun.HopPhase(s, a);
    NetRun.HopPhase(s, b);
    AlikeEqual(HopNodes(s, a), HopNodes(s, b));
  }
}
