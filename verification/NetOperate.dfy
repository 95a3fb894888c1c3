/** The operate phase and the processor steps keep the network invariant. */
module NetOperate {
  import opened Words
  import opened Mesh
  import opened NetModel
  import opened NetInvariant

  // A message in a mailbox slot was sent by the slot's sender to the slot's node.
  lemma InMailbox(g: Grid, id: nat, sender: nat, m: Msg)
    requires OnRoute(g, Mbox(id, sender), m)
    ensures m.to == id && m.from == sender && m.hops == (if m.ack then 2 else 1) * Dist(g, sender, id)
  {
  }

  // Changing the registers of one processor, but not what it waits for.
  lemma LocalInv(s: Net, t: Net, id: nat)
    requires Inv(s) && t.q == s.q && t.grid == s.grid && id < |s.cpu|
    requires |t.cpu| == |s.cpu| && forall i :: 0 <= i < |s.cpu| && i != id ==> t.cpu[i] == s.cpu[i]
    requires CpuOk(|t.cpu|, id, t.cpu[id]) && t.cpu[id].log == s.cpu[id].log
    requires Waiting(t.cpu[id]) == Waiting(s.cpu[id])
    requires Waiting(s.cpu[id]) ==> t.cpu[id].corr == s.cpu[id].corr
    ensures Inv(t)
  {
    assert forall p, i :: Has(t, p, i) <==> Has(s, p, i);
    forall p, i | Has(t, p, i) ensures MsgOk(t.grid, t.cpu, p, At(t, p, i)) {
      assert MsgOk(s.grid, s.cpu, p, At(s, p, i));
    }
    forall p, i, r, j | Has(t, p, i) && Has(t, r, j) && AckThenData(At(t, p, i), At(t, r, j)) ensures Ahead(t, p, i, r, j) {
      assert Ahead(s, p, i, r, j);
    }
    forall m, n | 0 <= m < |t.cpu| && 0 <= n < |t.cpu| ensures PairOk(t.cpu, m, n) {
      assert PairOk(s.cpu, m, n);
    }
    forall m | 0 <= m < |t.cpu| && Waiting(t.cpu[m]) ensures HasToken(t, m) {
      assert HasToken(s, m);
      var p, i :| Has(s, p, i) && Owner(At(s, p, i)) == m;
      assert Has(t, p, i);
    }
  }

  // ---------------------------------------------------------------- sending

  ghost predicate Inserted(s: Net, t: Net, r: Place, m: Msg) {
    t.grid == s.grid && |t.cpu| == |s.cpu| && r in s.q && t.q == s.q[r := s.q[r] + [m]]
  }

  lemma InsertOrder(s: Net, t: Net, r: Place, m: Msg)
    requires Inserted(s, t, r, m) && AcksFirst(s) && AllOk(s) && !m.ack
    requires OnRoute(s.grid, r, m) && Progress(s.grid, m, r) == 0
    ensures AcksFirst(t)
  {
    forall pp, i, rr, j | Has(t, pp, i) && Has(t, rr, j) && AckThenData(At(t, pp, i), At(t, rr, j))
      ensures Ahead(t, pp, i, rr, j)
    {
      assert Has(s, pp, i);
      if Has(s, rr, j) {
        assert Ahead(s, pp, i, rr, j);
      } else {
        assert MsgOk(s.grid, s.cpu, pp, At(s, pp, i));
        if Progress(s.grid, At(s, pp, i), pp) == 0 {
          SamePlace(s.grid, pp, At(s, pp, i), r, m);
        }
      }
    }
  }

  // The cpu part of a send: only the sender changes.
  ghost predicate SendsTo(a: seq<Cpu>, b: seq<Cpu>, from: nat, to: nat, v: Word) {
    && from < |a| == |b| && to < |a| && from != to
    && !Waiting(a[from]) && Blocked(b, from, to) && CpuOk(|b|, from, b[from])
    && b == a[from := b[from]]
    && b[from].log == a[from].log.(sent := a[from].log.sent[to := Get(a[from].log.sent, to) + [v]])
  }

  lemma SendLogs(s: Net, t: Net, from: nat, to: nat, v: Word)
    requires Logs(s) && SendsTo(s.cpu, t.cpu, from, to, v)
    ensures Logs(t) && LogAgrees(t.cpu, Msg(to, from, v, 0, false))
  {
    assert PairOk(s.cpu, from, to);
    forall m, n | 0 <= m < |t.cpu| && 0 <= n < |t.cpu| ensures PairOk(t.cpu, m, n) {
      assert PairOk(s.cpu, m, n);
    }
  }

  lemma SendKeeps(g: Grid, a: seq<Cpu>, b: seq<Cpu>, from: nat, to: nat, v: Word, p: Place, m: Msg)
    requires MsgOk(g, a, p, m) && SendsTo(a, b, from, to, v)
    ensures MsgOk(g, b, p, m) && Owner(m) != from
  {
  }

  lemma SendMessages(s: Net, t: Net, from: nat, to: nat, v: Word, r: Place, m: Msg)
    requires AllOk(s) && SendsTo(s.cpu, t.cpu, from, to, v) && Inserted(s, t, r, m)
    requires MsgOk(t.grid, t.cpu, r, m)
    ensures AllOk(t) && forall p, i :: Has(s, p, i) ==> Owner(At(s, p, i)) != from
  {
    forall p, i | Has(s, p, i) ensures MsgOk(t.grid, t.cpu, p, At(s, p, i)) && Owner(At(s, p, i)) != from {
      SendKeeps(s.grid, s.cpu, t.cpu, from, to, v, p, At(s, p, i));
    }
    forall p, i | Has(t, p, i) ensures MsgOk(t.grid, t.cpu, p, At(t, p, i)) {
      assert Has(s, p, i) || At(t, p, i) == m;
    }
  }

  lemma SendUnique(s: Net, t: Net, r: Place, m: Msg)
    requires Unique(s) && Inserted(s, t, r, m)
    requires forall p, i :: Has(s, p, i) ==> Owner(At(s, p, i)) != Owner(m)
    ensures Unique(t)
  {
    forall p, i, rr, j | Has(t, p, i) && Has(t, rr, j) && Owner(At(t, p, i)) == Owner(At(t, rr, j)) ensures p == rr && i == j {
      assert Has(s, p, i) || (p == r && i == |s.q[r]|);
      assert Has(s, rr, j) || (rr == r && j == |s.q[r]|);
    }
  }

  lemma SendTokens(s: Net, t: Net, from: nat, to: nat, v: Word, r: Place, m: Msg)
    requires Tokens(s) && SendsTo(s.cpu, t.cpu, from, to, v) && Inserted(s, t, r, m) && Owner(m) == from
    ensures Tokens(t)
  {
    forall o | 0 <= o < |t.cpu| && Waiting(t.cpu[o]) ensures HasToken(t, o) {
      if o == from {
        assert Has(t, r, |s.q[r]|);
      } else {
        assert HasToken(s, o);
        var p, i :| Has(s, p, i) && Owner(At(s, p, i)) == o;
        assert Has(t, p, i);
      }
    }
  }

  lemma SendInv(s: Net, t: Net, from: nat, to: nat, v: Word)
    requires Inv(s) && SendsTo(s.cpu, t.cpu, from, to, v)
    requires var r := OutPlace(s.grid, from, to); Inserted(s, t, r, Msg(to, from, v, 0, false)) && |s.q[r]| < LINK_BUFSZ
    ensures Inv(t)
  {
    var r, m := OutPlace(s.grid, from, to), Msg(to, from, v, 0, false);
    SendLogs(s, t, from, to, v);
    FirstPlace(s.grid, from, to);
    assert OnRoute(s.grid, r, m) && Progress(s.grid, m, r) == 0;
    SendMessages(s, t, from, to, v, r, m);
    SendUnique(s, t, r, m);
    SendTokens(s, t, from, to, v, r, m);
    InsertOrder(s, t, r, m);
  }

  // ---------------------------------------------------------------- completing

  ghost predicate Completes(a: seq<Cpu>, b: seq<Cpu>, from: nat, to: nat) {
    && from < |a| == |b| && to < |a| && from != to
    && Blocked(a, from, to) && !Waiting(b[from]) && CpuOk(|b|, from, b[from])
    && b == a[from := b[from]]
    && b[from].log == a[from].log.(done := a[from].log.done[to := Count(a[from].log.done, to) + 1])
  }

  // The acknowledge leaves the mailbox.
  ghost predicate Removed(s: Net, t: Net, p: Place) {
    t.grid == s.grid && |t.cpu| == |s.cpu| && p in s.q && |s.q[p]| == 1 && t.q == s.q[p := []]
  }

  lemma CompleteKeeps(g: Grid, a: seq<Cpu>, b: seq<Cpu>, from: nat, to: nat, p: Place, m: Msg)
    requires MsgOk(g, a, p, m) && Completes(a, b, from, to) && Owner(m) != from
    ensures MsgOk(g, b, p, m)
  {
  }

  lemma CompleteMessages(s: Net, t: Net, from: nat, to: nat, p: Place)
    requires AllOk(s) && Unique(s) && Tokens(s) && AcksFirst(s)
    requires Removed(s, t, p) && Owner(s.q[p][0]) == from && Completes(s.cpu, t.cpu, from, to)
    ensures AllOk(t) && Unique(t) && Tokens(t) && AcksFirst(t)
  {
    assert Has(s, p, 0);
    assert forall pp, i :: Has(t, pp, i) <==> pp != p && Has(s, pp, i);
    forall pp, i | Has(t, pp, i) ensures MsgOk(t.grid, t.cpu, pp, At(t, pp, i)) {
      CompleteKeeps(s.grid, s.cpu, t.cpu, from, to, pp, At(s, pp, i));
    }
    forall o | 0 <= o < |t.cpu| && Waiting(t.cpu[o]) ensures HasToken(t, o) {
      assert HasToken(s, o);
      var pp, i :| Has(s, pp, i) && Owner(At(s, pp, i)) == o;
      assert Has(t, pp, i);
    }
    forall pp, i, rr, j | Has(t, pp, i) && Has(t, rr, j) && AckThenData(At(t, pp, i), At(t, rr, j)) ensures Ahead(t, pp, i, rr, j) {
      assert Ahead(s, pp, i, rr, j);
    }
  }

  lemma CompleteLogs(s: Net, t: Net, from: nat, to: nat, m: Msg)
    requires Logs(s) && Completes(s.cpu, t.cpu, from, to) && m.ack && Owner(m) == from && Peer(m) == to && LogAgrees(s.cpu, m)
    ensures Logs(t)
  {
    forall a, b | 0 <= a < |t.cpu| && 0 <= b < |t.cpu| ensures PairOk(t.cpu, a, b) {
      assert PairOk(s.cpu, a, b);
    }
  }

  lemma CompleteInv(s: Net, t: Net, from: nat, to: nat)
    requires Inv(s) && Completes(s.cpu, t.cpu, from, to)
    requires Removed(s, t, Mbox(from, to)) && s.q[Mbox(from, to)][0].ack
    ensures Inv(t)
  {
    var p := Mbox(from, to);
    HeadOk(s, p);
    InMailbox(s.grid, from, to, s.q[p][0]);
    CompleteMessages(s, t, from, to, p);
    CompleteLogs(s, t, from, to, s.q[p][0]);
  }

  // ---------------------------------------------------------------- taking

  ghost predicate Takes(a: seq<Cpu>, b: seq<Cpu>, from: nat, to: nat, v: Word) {
    && from < |a| == |b| && to < |a| && from != to
    && !Waiting(a[to]) && !Waiting(b[to]) && CpuOk(|b|, to, b[to])
    && b == a[to := b[to]]
    && b[to].log == a[to].log.(taken := a[to].log.taken[from := Get(a[to].log.taken, from) + [v]])
  }

  lemma TakeKeeps(g: Grid, a: seq<Cpu>, b: seq<Cpu>, from: nat, to: nat, v: Word, p: Place, m: Msg)
    requires MsgOk(g, a, p, m) && Takes(a, b, from, to, v) && Owner(m) != from
    ensures MsgOk(g, b, p, m)
  {
  }

  lemma TakeMessages(s: Net, t: Net, from: nat, to: nat, p: Place, r: Place, a: Msg)
    requires AllOk(s) && Unique(s) && Tokens(s)
    requires Moved(s, t, p, r, a) && Owner(s.q[p][0]) == Owner(a) == from && Takes(s.cpu, t.cpu, from, to, s.q[p][0].data)
    requires MsgOk(t.grid, t.cpu, r, a)
    ensures AllOk(t) && Unique(t) && Tokens(t)
  {
    assert Has(s, p, 0);
    forall pp, i | Has(t, pp, i) ensures MsgOk(t.grid, t.cpu, pp, At(t, pp, i)) {
      BackHas(s, t, p, r, a, pp, i);
      if !IsMoved(s, r, pp, i) {
        var b := Back(s, p, r, pp, i);
        assert MsgOk(s.grid, s.cpu, b.0, At(s, b.0, b.1));
        TakeKeeps(s.grid, s.cpu, t.cpu, from, to, s.q[p][0].data, pp, At(s, b.0, b.1));
      }
    }
    MoveUnique(s, t, p, r, a);
    forall o | 0 <= o < |t.cpu| && Waiting(t.cpu[o]) ensures HasToken(t, o) {
      assert HasToken(s, o);
      MoveToken(s, t, p, r, a, o);
    }
  }

  lemma TakeLogs(s: Net, t: Net, from: nat, to: nat, v: Word)
    requires Logs(s) && Takes(s.cpu, t.cpu, from, to, v) && Blocked(s.cpu, from, to)
    ensures Logs(t)
  {
    forall m, n | 0 <= m < |t.cpu| && 0 <= n < |t.cpu| ensures PairOk(t.cpu, m, n) {
      assert PairOk(s.cpu, m, n);
    }
  }

  lemma TakeInv(s: Net, t: Net, from: nat, to: nat)
    requires Inv(s) && to < |s.cpu| && !Waiting(s.cpu[to])
    requires var p, r := Mbox(to, from), OutPlace(s.grid, to, from);
      p in s.q && s.q[p] != [] && r in s.q && |s.q[r]| < LINK_BUFSZ && from != to && from < |s.cpu| &&
      Moved(s, t, p, r, Msg(from, to, 0, s.q[p][0].hops, true)) && Takes(s.cpu, t.cpu, from, to, s.q[p][0].data)
    ensures Inv(t)
  {
    var p, r := Mbox(to, from), OutPlace(s.grid, to, from);
    var d, a := s.q[p][0], Msg(from, to, 0, s.q[p][0].hops, true);
    MailIsData(s, from, to);
    HeadOk(s, p);
    OneMail(s, p);
    AckStarts(s.grid, from, to, d, r);
    TakenOk(s, t, from, to, d, a, r);
    TakeMessages(s, t, from, to, p, r, a);
    TurnOrder(s, t, p, r, a);
    hide OnRoute, MsgOk, AllOk, Unique, Tokens, AcksFirst, Logs, PairOk;
    TakeLogs(s, t, from, to, d.data);
  }

  // The acknowledge of data d is on its route.
  lemma AckStarts(g: Grid, from: nat, to: nat, d: Msg, r: Place)
    requires OnRoute(g, Mbox(to, from), d) && !d.ack && d.from == from && d.to == to && from != to && r == OutPlace(g, to, from)
    ensures OnRoute(g, r, Msg(from, to, 0, d.hops, true))
  {
    InMailbox(g, to, from, d);
    DistZero(g, to, from);
    FirstPlace(g, to, from);
    hide PlaceOf, Guidance, Dist;
  }

  // ... and in order with the logs.
  lemma TakenOk(s: Net, t: Net, from: nat, to: nat, d: Msg, a: Msg, r: Place)
    requires MsgOk(s.grid, s.cpu, Mbox(to, from), d) && !d.ack && d.from == from && d.to == to && t.grid == s.grid
    requires Takes(s.cpu, t.cpu, from, to, d.data) && a == Msg(from, to, 0, d.hops, true) && OnRoute(s.grid, r, a)
    ensures MsgOk(t.grid, t.cpu, r, a)
  {
    hide OnRoute;
  }

  // input and alt take data, never an acknowledge, and both ends are what they seem.
  lemma MailIsData(s: Net, from: nat, to: nat)
    requires Inv(s) && to < |s.cpu| && !Waiting(s.cpu[to]) && Q(s, Mbox(to, from)) != []
    ensures var m := Q(s, Mbox(to, from))[0]; !m.ack && m.from == from && m.to == to && from < |s.cpu| && from != to
  {
    HeadOk(s, Mbox(to, from));
    InMailbox(s.grid, to, from, s.q[Mbox(to, from)][0]);
  }

  lemma AcceptInv(s: Net, from: nat, to: nat)
    requires Inv(s) && to < |s.cpu| && !Waiting(s.cpu[to]) && Q(s, Mbox(to, from)) != []
    ensures Inv(Accept(s, from, to).0)
  {
    var (t, e) := Accept(s, from, to);
    if e == Done {
      MailIsData(s, from, to);
      FirstPlace(s.grid, to, from);
      assert ValidPlace(s.grid, OutPlace(s.grid, to, from));
      TakeInv(s, t, from, to);
    }
  }

  // ---------------------------------------------------------------- operate

  lemma OutputSends(s: Net, id: nat)
    requires Inv(s) && id < |s.cpu| && s.cpu[id].op == OpOut && !s.cpu[id].sent
    ensures Inv(Output(s, s.cpu[id].corr, id).0)
  {
    var c := s.cpu[id];
    var (t, e) := Output(s, c.corr, id);
    FirstPlace(s.grid, id, c.corr);
    assert ValidPlace(s.grid, OutPlace(s.grid, id, c.corr));
    if e == Done {
      SendInv(s, t, id, c.corr, c.data);
    }
  }

  lemma OutputCompletes(s: Net, id: nat)
    requires Inv(s) && id < |s.cpu| && Waiting(s.cpu[id])
    ensures Inv(Output(s, s.cpu[id].corr, id).0)
  {
    hide Inv, Output, Removed, Completes;
    CpuShape(s, id);
    var n := s.cpu[id].corr;
    if Q(s, Mbox(id, n)) != [] {
      OneMail(s, Mbox(id, n));
    }
    OutputReleases(s, id, n);
    if Output(s, n, id).1 == Done {
      CompleteInv(s, Output(s, n, id).0, id, n);
    }
  }

  lemma OutputReleases(s: Net, id: nat, n: nat)
    requires id < |s.cpu| && Waiting(s.cpu[id]) && n == s.cpu[id].corr && CpuOk(|s.cpu|, id, s.cpu[id])
    requires Q(s, Mbox(id, n)) != [] ==> Mbox(id, n) in s.q && |s.q[Mbox(id, n)]| == 1
    ensures var (t, e) := Output(s, n, id);
      if e == Done then
        Removed(s, t, Mbox(id, n)) && s.q[Mbox(id, n)] != [] && s.q[Mbox(id, n)][0].ack && Completes(s.cpu, t.cpu, id, n)
      else t == s
  {
  }

  lemma CpuShape(s: Net, id: nat)
    requires Inv(s) && id < |s.cpu|
    ensures CpuOk(|s.cpu|, id, s.cpu[id])
  {
  }

  lemma OneMail(s: Net, p: Place)
    requires Inv(s) && p.Mbox? && Q(s, p) != []
    ensures p in s.q && |s.q[p]| == 1
  {
  }

  lemma OutputInv(s: Net, id: nat)
    requires Inv(s) && id < |s.cpu| && s.cpu[id].op == OpOut
    ensures Inv(Output(s, s.cpu[id].corr, id).0)
  {
    hide Inv, Output;
    if s.cpu[id].sent {
      OutputCompletes(s, id);
    } else {
      OutputSends(s, id);
    }
  }

  // What an alternative does to its processor before it takes anything.
  lemma MarkInv(s: Net, id: nat, mark: nat, quiet: bool)
    requires Inv(s) && id < |s.cpu| && s.cpu[id].op == OpAlt && mark < |s.cpu|
    ensures var c := s.cpu[id];
      Inv(SetCpu(s, id, (if quiet then c.(k1 := MINUS_ONE, op := OpNone, sent := false) else c).(mboxStart := mark)))
  {
    var c := s.cpu[id];
    LocalInv(s, SetCpu(s, id, (if quiet then c.(k1 := MINUS_ONE, op := OpNone, sent := false) else c).(mboxStart := mark)), id);
  }

  // ... and after it has.
  lemma ReportInv(s: Net, id: nat, from: nat, k: Word)
    requires Inv(s) && id < |s.cpu| && !Waiting(s.cpu[id]) && Q(s, Mbox(id, from)) != [] && Accept(s, from, id).1 == Done
    ensures var t := Accept(s, from, id).0; Inv(SetCpu(t, id, t.cpu[id].(k1 := k)))
  {
    AcceptInv(s, from, id);
    var t := Accept(s, from, id).0;
    LocalInv(t, SetCpu(t, id, t.cpu[id].(k1 := k)), id);
  }

  lemma AltInv(s: Net, id: nat)
    requires Inv(s) && id < |s.cpu| && s.cpu[id].op == OpAlt
    ensures Inv(Alt(s, id).0)
  {
    hide Inv, Accept, Scan, Boxes, HasDefault;
    var c := s.cpu[id];
    if c.clauses != [] {
      var df := HasDefault(c.clauses);
      var hit := Scan(c.clauses, Boxes(s, id), |s.cpu|, c.mboxStart, 0);
      var cur := if hit >= 0 then hit else c.mboxStart;
      MarkInv(s, id, (cur + 1) % |s.cpu|, df);
      var c1 := if df then c.(k1 := MINUS_ONE, op := OpNone, sent := false) else c;
      var s1 := SetCpu(s, id, c1.(mboxStart := (cur + 1) % |s.cpu|));
      if hit >= 0 {
        HitHasMail(s, id, hit);
        assert Q(s1, Mbox(id, hit)) != [];
        AcceptInv(s1, hit, id);
        if Accept(s1, hit, id).1 == Done {
          ReportInv(s1, id, hit, hit % WORD);
        }
      }
    }
  }

  lemma HitHasMail(s: Net, id: nat, hit: nat)
    requires hit in Boxes(s, id)
    ensures Q(s, Mbox(id, hit)) != []
  {
  }

  /** Executing the pending operation of a node keeps the invariant. */
  lemma OperateInv(s: Net, id: nat)
    requires Inv(s) && id < |s.cpu|
    ensures Inv(Operate(s, id).0)
  {
    var c := s.cpu[id];
    match c.op {
      case OpNone =>
      case OpIn =>
        if Q(s, Mbox(id, c.corr)) != [] {
          AcceptInv(s, c.corr, id);
        }
      case OpOut => OutputInv(s, id);
      case OpAlt => AltInv(s, id);
    }
  }

  /** So does one cycle of a processor running any program that uses the library. */
  lemma CpuStepInv(s: Net, id: nat, a: Act)
    requires Inv(s) && id < |s.cpu| && Legal(s, id, a)
    ensures Inv(CpuStep(s, id, a))
  {
    if s.cpu[id].running {
      LocalInv(s, CpuStep(s, id, a), id);
    }
  }
}
