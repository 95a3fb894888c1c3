/** What the protocol promises in every run, on every mesh, for every program. */
module NetTheorems {
  import opened Indices
  import opened Mesh
  import opened Sums
  import opened NetModel
  import opened NetInvariant
  import opened NetOperate
  import opened NetRun

  // The states between the cycles of some run.
  ghost predicate Reachable(s: Net) {
    exists s0, prog :: Initial(s0) && LegalRun(s0, prog) && Run(s0, prog) == Fine(s)
  }

  // A run may be empty.
  lemma InitialReachable(s: Net)
    requires Initial(s)
    ensures Reachable(s)
  {
    assert LegalRun(s, []) && Run(s, []) == Fine(s);
  }

  lemma ReachableInv(s: Net)
    requires Reachable(s)
    ensures Boundary(s)
  {
    var s0, prog :| Initial(s0) && LegalRun(s0, prog) && Run(s0, prog) == Fine(s);
    InitialBoundary(s0);
    RunInv(s0, prog);
  }

  // ---------------------------------------------------------------- tokens

  ghost predicate TokenAt(s: Net, m: nat, p: Place, i: int) { Has(s, p, i) && Owner(At(s, p, i)) == m }

  /** A node waits for an acknowledge exactly when one message in all buffers and mailboxes is its token: its data to
      its correspondent, or the acknowledge back.  Otherwise there is none. */
  lemma OneToken(s: Net, m: nat)
    requires Reachable(s) && m < |s.cpu|
    ensures Waiting(s.cpu[m]) <==> exists p, i :: TokenAt(s, m, p, i)
    ensures forall p, i, r, j :: TokenAt(s, m, p, i) && TokenAt(s, m, r, j) ==> p == r && i == j
    ensures forall p, i :: TokenAt(s, m, p, i) ==> Peer(At(s, p, i)) == s.cpu[m].corr
    ensures !s.cpu[m].running ==> s.cpu[m].op == OpNone
  {
    ReachableInv(s);
    if Waiting(s.cpu[m]) {
      assert HasToken(s, m);
      var p, i :| Has(s, p, i) && Owner(At(s, p, i)) == m;
      assert TokenAt(s, m, p, i);
    }
    forall p, i | TokenAt(s, m, p, i) ensures Waiting(s.cpu[m]) && Peer(At(s, p, i)) == s.cpu[m].corr {
      assert MsgOk(s.grid, s.cpu, p, At(s, p, i));
    }
    assert CpuOk(|s.cpu|, m, s.cpu[m]);
  }

  // All positions of messages.
  ghost function Positions(s: Net): set<(Place, int)> {
    set p, i | p in s.q && 0 <= i < |s.q[p]| :: (p, i)
  }

  lemma {:induction false} InjectiveBound(s: Net, xs: set<(Place, int)>, n: nat)
    requires forall x :: x in xs ==> Has(s, x.0, x.1) && Owner(At(s, x.0, x.1)) < n
    requires forall x, y :: x in xs && y in xs && Owner(At(s, x.0, x.1)) == Owner(At(s, y.0, y.1)) ==> x == y
    ensures |xs| <= n
    decreases n
  {
    if n == 0 {
      assert xs == {};
    } else if x :| x in xs && Owner(At(s, x.0, x.1)) == n - 1 {
      InjectiveBound(s, xs - {x}, n - 1);
    } else {
      InjectiveBound(s, xs, n - 1);
    }
  }

  /** There are never more messages under way than nodes. */
  lemma InFlightBound(s: Net)
    requires Inv(s)
    ensures |Positions(s)| <= s.grid.Size()
  {
    var xs := Positions(s);
    forall x | x in xs ensures Has(s, x.0, x.1) && Owner(At(s, x.0, x.1)) < |s.cpu| {
      assert Has(s, x.0, x.1);
      assert MsgOk(s.grid, s.cpu, x.0, At(s, x.0, x.1));
    }
    InjectiveBound(s, xs, |s.cpu|);
  }

  // ---------------------------------------------------------------- rendezvous

  /** Exactly once and in order: what n has taken from m is a prefix of what m has sent to n, and at
      most the last value sent is still under way. */
  lemma RendezvousInv(s: Net, m: nat, n: nat)
    requires Inv(s) && m < |s.cpu| && n < |s.cpu|
    ensures Taken(s.cpu, m, n) <= Sent(s.cpu, m, n)
    ensures Completed(s.cpu, m, n) <= |Taken(s.cpu, m, n)| <= |Sent(s.cpu, m, n)| <= Completed(s.cpu, m, n) + 1
    ensures Blocked(s.cpu, m, n) <==> |Sent(s.cpu, m, n)| == Completed(s.cpu, m, n) + 1
  {
    assert PairOk(s.cpu, m, n);
    if Blocked(s.cpu, m, n) {
      assert HasToken(s, m);
      var p, i :| Has(s, p, i) && Owner(At(s, p, i)) == m;
      assert MsgOk(s.grid, s.cpu, p, At(s, p, i));
    }
  }

  lemma Rendezvous(s: Net, m: nat, n: nat)
    requires Reachable(s) && m < |s.cpu| && n < |s.cpu|
    ensures Taken(s.cpu, m, n) <= Sent(s.cpu, m, n)
    ensures Completed(s.cpu, m, n) <= |Taken(s.cpu, m, n)| <= |Sent(s.cpu, m, n)| <= Completed(s.cpu, m, n) + 1
    ensures Blocked(s.cpu, m, n) <==> |Sent(s.cpu, m, n)| == Completed(s.cpu, m, n) + 1
  {
    ReachableInv(s);
    RendezvousInv(s, m, n);
  }

  // ---------------------------------------------------------------- deadlock reports

  ghost predicate DataUnderWay(s: Net, m: nat, n: nat) {
    exists p, i :: Has(s, p, i) && !At(s, p, i).ack && At(s, p, i).from == m && At(s, p, i).to == n
  }

  // m and n are each blocked in an output to the other, and neither message was taken.
  ghost predicate Stuck(s: Net, m: nat, n: nat) {
    && m < |s.cpu| && n < |s.cpu| && m != n
    && Blocked(s.cpu, m, n) && Blocked(s.cpu, n, m)
    && |Taken(s.cpu, m, n)| + 1 == |Sent(s.cpu, m, n)|
    && |Taken(s.cpu, n, m)| + 1 == |Sent(s.cpu, n, m)|
  }

  lemma StuckData(s: Net, m: nat, n: nat)
    requires Inv(s) && Blocked(s.cpu, m, n) && |Taken(s.cpu, m, n)| + 1 == |Sent(s.cpu, m, n)|
    ensures DataUnderWay(s, m, n)
    ensures forall p, i :: TokenAt(s, m, p, i) ==> !At(s, p, i).ack
  {
    assert HasToken(s, m);
    var p, i :| Has(s, p, i) && Owner(At(s, p, i)) == m;
    assert MsgOk(s.grid, s.cpu, p, At(s, p, i));
    forall p, i | TokenAt(s, m, p, i) ensures !At(s, p, i).ack {
      assert MsgOk(s.grid, s.cpu, p, At(s, p, i));
    }
  }

  /** When operate reports a deadlock, the node executes an alternative without clauses, or
      it and its correspondent are stuck outputting to each other.  The second case rests on acknowledges
      staying ahead of data: had the correspondent taken the message, its acknowledge would have come first. */
  lemma DeadlockReport(s: Net, m: nat)
    requires Inv(s) && m < |s.cpu| && Operate(s, m).1 == Deadlock
    ensures Operate(s, m).0 == s
    ensures (s.cpu[m].op == OpAlt && s.cpu[m].clauses == [])
         || (s.cpu[m].op == OpOut && Stuck(s, m, s.cpu[m].corr))
  {
    if s.cpu[m].op == OpOut {
      var n := s.cpu[m].corr;
      var r := Mbox(m, n);
      HeadOk(s, r);
      var d := s.q[r][0];
      InMailbox(s.grid, m, n, d);
      assert HasToken(s, m);
      var p, i :| Has(s, p, i) && Owner(At(s, p, i)) == m;
      var a := At(s, p, i);
      assert MsgOk(s.grid, s.cpu, p, a);
      assert Has(s, r, 0);
      assert AckThenData(a, At(s, r, 0)) ==> Ahead(s, p, i, r, 0);
    }
  }

  /** ... and such an operation is always reported: exactly an alternative without clauses, and an output of a stuck pair that finds the data
      of the other in its mailbox. */
  lemma DeadlockExact(s: Net, m: nat)
    requires Inv(s) && m < |s.cpu|
    ensures Operate(s, m).1 == Deadlock <==>
      || (s.cpu[m].op == OpAlt && s.cpu[m].clauses == [])
      || (s.cpu[m].op == OpOut && Stuck(s, m, s.cpu[m].corr) && Q(s, Mbox(m, s.cpu[m].corr)) != [])
  {
    if Operate(s, m).1 == Deadlock {
      DeadlockReport(s, m);
    } else if s.cpu[m].op == OpOut && Stuck(s, m, s.cpu[m].corr) {
      NoAckForStuck(s, m, s.cpu[m].corr);
    }
  }

  lemma {:induction false} OperateDead(s: Net, ids: seq<nat>)
    requires Inv(s) && Ids(|s.cpu|, ids) && OperateNodes(s, ids).Dead?
    ensures var t, m := OperateNodes(s, ids).net, OperateNodes(s, ids).node;
      Inv(t) && m < |t.cpu| && Operate(t, m).1 == Deadlock
  {
    var l := |ids| - 1;
    OperatePhase(s, ids);
    if OperateNodes(s, ids[..l]).Dead? {
      OperateDead(s, ids[..l]);
    } else {
      OperatePhase(s, ids[..l]);
      DeadlockReport(OperateNodes(s, ids[..l]).net, ids[l]);
    }
  }

  /** Deadlock reports are sound in every run. */
  lemma DeadlockSound(s: Net, acts: seq<Act>)
    requires Reachable(s) && LegalActs(s, acts) && Cycle(s, acts).Dead?
    ensures var t, m := Cycle(s, acts).net, Cycle(s, acts).node;
      m < |t.cpu| &&
      ((t.cpu[m].op == OpAlt && t.cpu[m].clauses == []) ||
       (t.cpu[m].op == OpOut && Stuck(t, m, t.cpu[m].corr)
        && DataUnderWay(t, m, t.cpu[m].corr) && DataUnderWay(t, t.cpu[m].corr, m)))
  {
    ReachableInv(s);
    var ids := Iota(|s.cpu|);
    CpuPhase(s, ids, acts);
    var s1 := CpuNodes(s, ids, acts);
    SameMail(s, s1);
    FwdNodesSeen(s1, ids);
    var s2 := FwdNodes(s1, ids);
    OperateDead(s2, ids);
    var t, m := OperateNodes(s2, ids).net, OperateNodes(s2, ids).node;
    DeadlockReport(t, m);
    if t.cpu[m].op == OpOut {
      StuckData(t, m, t.cpu[m].corr);
      StuckData(t, t.cpu[m].corr, m);
    }
  }

  // ---------------------------------------------------------------- stuck for ever

  // Stuck is about what the two processors wait for and have logged.
  lemma StuckSame(s: Net, t: Net, m: nat, n: nat)
    requires Stuck(s, m, n) && |t.cpu| == |s.cpu|
    requires SameCore(s.cpu[m], t.cpu[m]) && SameCore(s.cpu[n], t.cpu[n])
    ensures Stuck(t, m, n)
  {
  }

  lemma StuckOperate(s: Net, id: nat, m: nat, n: nat)
    requires Inv(s) && id < |s.cpu| && Stuck(s, m, n)
    ensures Stuck(Operate(s, id).0, m, n)
  {
    OperateLocal(s, id);
    if id == m {
      NoAckForStuck(s, m, n);
    } else if id == n {
      NoAckForStuck(s, n, m);
    } else {
      StuckSame(s, Operate(s, id).0, m, n);
    }
  }

  lemma NoAckForStuck(s: Net, m: nat, n: nat)
    requires Inv(s) && Stuck(s, m, n)
    ensures !AckIn(s, m, n)
  {
    if AckIn(s, m, n) {
      AckMeansWaiting(s, m, n);
      HeadOk(s, Mbox(m, n));
    }
  }

  lemma {:induction false} FwdNodesCores(s: Net, ids: seq<nat>)
    requires Ids(|s.cpu|, ids)
    ensures SameCores(s.cpu, FwdNodes(s, ids).cpu)
  {
    if ids != [] {
      FwdNodesCores(s, ids[..|ids| - 1]);
      FwdCores(FwdNodes(s, ids[..|ids| - 1]), ids[|ids| - 1], LINK_NAMES);
    }
  }

  lemma {:induction false} FwdCores(s: Net, id: nat, k: nat)
    requires id < |s.cpu|
    ensures SameCores(s.cpu, FwdPart(s, id, k).cpu)
  {
    if k > 0 {
      FwdCores(s, id, k - 1);
    }
  }

  lemma {:induction false} StuckOperates(s: Net, ids: seq<nat>, m: nat, n: nat)
    requires Inv(s) && Ids(|s.cpu|, ids) && Stuck(s, m, n)
    ensures Stuck(OperateNodes(s, ids).net, m, n)
  {
    if ids != [] {
      var l := |ids| - 1;
      StuckOperates(s, ids[..l], m, n);
      OperatePhase(s, ids[..l]);
      if OperateNodes(s, ids[..l]).Fine? {
        StuckOperate(OperateNodes(s, ids[..l]).net, ids[l], m, n);
      }
    }
  }

  lemma {:induction false} StuckCpu(s: Net, ids: seq<nat>, acts: seq<Act>, m: nat, n: nat)
    requires Stuck(s, m, n) && Ids(|s.cpu|, ids) && |acts| == |s.cpu|
    ensures Stuck(CpuNodes(s, ids, acts), m, n)
  {
    if ids != [] {
      StuckCpu(s, ids[..|ids| - 1], acts, m, n);
    }
  }

  lemma StuckNet(s: Net, m: nat, n: nat)
    requires Boundary(s) && Stuck(s, m, n)
    ensures Stuck(NetExecute(s).net, m, n)
  {
    var ids := Iota(|s.cpu|);
    FwdNodesCores(s, ids);
    FwdNodesSeen(s, ids);
    StuckSame(s, FwdNodes(s, ids), m, n);
    StuckOperates(FwdNodes(s, ids), ids, m, n);
  }

  /** Two nodes outputting to each other never get out of it, whatever the other nodes do:
      the report is of a real deadlock, and only that report can end the run for them. */
  lemma StuckForever(s: Net, acts: seq<Act>, m: nat, n: nat)
    requires Boundary(s) && LegalActs(s, acts) && Stuck(s, m, n)
    ensures Stuck(Cycle(s, acts).net, m, n)
  {
    var ids := Iota(|s.cpu|);
    CpuPhase(s, ids, acts);
    StuckCpu(s, ids, acts, m, n);
    SameMail(s, CpuNodes(s, ids, acts));
    StuckNet(CpuNodes(s, ids, acts), m, n);
  }

  // ---------------------------------------------------------------- mailboxes

  /** A message in a mailbox has counted its hops exactly: the distance for data, and there and back for an acknowledge. */
  lemma MailHops(s: Net, to: nat, from: nat)
    requires Inv(s) && Q(s, Mbox(to, from)) != []
    ensures var m := Q(s, Mbox(to, from))[0];
      to < s.grid.Size() && from < s.grid.Size() && m.from == from && m.to == to
      && m.hops == if m.ack then 2 * Dist(s.grid, from, to) else Dist(s.grid, from, to)
  {
    HeadOk(s, Mbox(to, from));
    InMailbox(s.grid, to, from, s.q[Mbox(to, from)][0]);
  }

  /** In no cycle of any run does fwd find the mailbox full. */
  lemma MailboxNeverFullRun(s: Net, acts: seq<Act>, ids: seq<nat>, i: nat, k: nat)
    requires Reachable(s) && LegalActs(s, acts) && Ids(|s.cpu|, ids) && Distinct(ids) && i < |ids| && k < LINK_NAMES
    ensures var s1 := CpuNodes(s, Iota(|s.cpu|), acts);
      !MailboxFull(FwdPart(FwdNodes(s1, ids[..i]), ids[i], k), ids[i], DirAt(k))
  {
    ReachableInv(s);
    CpuPhase(s, Iota(|s.cpu|), acts);
    SameMail(s, CpuNodes(s, Iota(|s.cpu|), acts));
    MailboxNeverFull(CpuNodes(s, Iota(|s.cpu|), acts), ids, i, k);
  }

  // ---------------------------------------------------------------- clean finish

  function IsRunning(c: Cpu): int { One(c.running) }

  // The number of running processors.
  function Running(cpu: seq<Cpu>): int { Sum(cpu, IsRunning) }

  ghost predicate CountsRunning(s: Net) { s.nrun == Running(s.cpu) }

  lemma {:induction false} CpuCounts(s: Net, ids: seq<nat>, acts: seq<Act>)
    requires CountsRunning(s) && Ids(|s.cpu|, ids) && |acts| == |s.cpu|
    ensures CountsRunning(CpuNodes(s, ids, acts))
  {
    if ids != [] {
      var l := |ids| - 1;
      CpuCounts(s, ids[..l], acts);
      var u := CpuNodes(s, ids[..l], acts);
      var v := CpuStep(u, ids[l], acts[ids[l]]);
      SumUpdate(u.cpu, IsRunning, ids[l], v.cpu[ids[l]]);
      assert u.cpu[ids[l] := u.cpu[ids[l]]] == u.cpu;
      hide Sum;
    }
  }

  ghost predicate SameRunning(s: Net, t: Net) {
    |s.cpu| == |t.cpu| && s.nrun == t.nrun && forall i :: 0 <= i < |s.cpu| ==> s.cpu[i].running == t.cpu[i].running
  }

  lemma {:induction false} FwdRunning(s: Net, id: nat, k: nat)
    requires id < |s.cpu|
    ensures SameRunning(s, FwdPart(s, id, k))
  {
    if k > 0 {
      FwdRunning(s, id, k - 1);
    }
  }

  lemma {:induction false} FwdsRunning(s: Net, ids: seq<nat>)
    requires Ids(|s.cpu|, ids)
    ensures SameRunning(s, FwdNodes(s, ids))
  {
    if ids != [] {
      FwdsRunning(s, ids[..|ids| - 1]);
      FwdRunning(FwdNodes(s, ids[..|ids| - 1]), ids[|ids| - 1], LINK_NAMES);
    }
  }

  lemma {:induction false} OperateRunning(s: Net, ids: seq<nat>)
    requires Ids(|s.cpu|, ids)
    ensures SameRunning(s, OperateNodes(s, ids).net)
  {
    if ids != [] {
      OperateRunning(s, ids[..|ids| - 1]);
      OperateLocal(OperateNodes(s, ids[..|ids| - 1]).net, ids[|ids| - 1]);
    }
  }

  lemma {:induction false} HopRunning(s: Net, id: nat, k: nat)
    ensures SameRunning(s, HopPart(s, id, k))
  {
    if k > 0 {
      HopRunning(s, id, k - 1);
    }
  }

  lemma {:induction false} HopsRunning(s: Net, ids: seq<nat>)
    ensures SameRunning(s, HopNodes(s, ids))
  {
    if ids != [] {
      HopsRunning(s, ids[..|ids| - 1]);
      HopRunning(HopNodes(s, ids[..|ids| - 1]), ids[|ids| - 1], LINK_NAMES);
    }
  }

  lemma CycleCounts(s: Net, acts: seq<Act>)
    requires CountsRunning(s) && |acts| == |s.cpu|
    ensures CountsRunning(Cycle(s, acts).net)
  {
    var ids := Iota(|s.cpu|);
    CpuCounts(s, ids, acts);
    var s1 := CpuNodes(s, ids, acts);
    FwdsRunning(s1, ids);
    var s2 := FwdNodes(s1, ids);
    OperateRunning(s2, ids);
    var t := OperateNodes(s2, ids).net;
    HopsRunning(t, ids);
    SumEqual(s1.cpu, Cycle(s, acts).net.cpu, IsRunning);
  }

  lemma {:induction false} RunCounts(s: Net, prog: seq<seq<Act>>)
    requires CountsRunning(s) && LegalRun(s, prog)
    ensures CountsRunning(Run(s, prog).net)
  {
    if prog != [] {
      RunCounts(s, prog[..|prog| - 1]);
      CycleCounts(Run(s, prog[..|prog| - 1]).net, prog[|prog| - 1]);
    }
  }

  lemma NothingLeft(s: Net, p: Place)
    requires Inv(s) && Running(s.cpu) == 0
    ensures Q(s, p) == []
  {
    if Q(s, p) != [] {
      HeadOk(s, p);
      CountBounds(s.cpu, IsRunning);
    }
  }

  /** The counter of sim is the number of running processors, and when it reaches 0 nothing is left in the network. */
  lemma CleanFinish(s: Net)
    requires Reachable(s)
    ensures s.nrun == Running(s.cpu)
    ensures s.nrun == 0 ==> forall p :: Q(s, p) == []
  {
    ReachableInv(s);
    var s0, prog :| Initial(s0) && LegalRun(s0, prog) && Run(s0, prog) == Fine(s);
    SumSame(s0.cpu, IsRunning, 1);
    RunCounts(s0, prog);
    if s.nrun == 0 {
      forall p ensures Q(s, p) == [] {
        NothingLeft(s, p);
      }
    }
  }
}
