/** One message in an otherwise empty network: what each phase of a cycle does with it, whatever inputs and
    alternatives the other nodes wait in. */
module LoneMessage {
  import opened Indices
  import opened Words
  import opened Mesh
  import opened NetModel
  import opened NetInvariant
  import opened NetOperate
  import opened NetRun
  import opened NetOrder
  import opened NetAlt
  import opened NetProcessor

  ghost predicate Empty(s: Net) { forall x :: Q(s, x) == [] }

  // Message m, at place p, is the only one.
  ghost predicate Alone(s: Net, p: Place, m: Msg) { forall x :: Q(s, x) == if x == p then [m] else [] }

  // ---------------------------------------------------------------- fwd and hop

  lemma {:induction false} FwdPartIdle(s: Net, id: nat, k: nat)
    requires id < |s.cpu| && forall d :: Q(s, Inl(id, d)) == []
    ensures FwdPart(s, id, k) == s
  {
    if k > 0 {
      FwdPartIdle(s, id, k - 1);
    }
  }

  lemma {:induction false} FwdIdle(s: Net, ids: seq<nat>)
    requires Ids(|s.cpu|, ids) && forall id, d :: id in ids ==> Q(s, Inl(id, d)) == []
    ensures FwdNodes(s, ids) == s
    decreases |ids|
  {
    if ids != [] {
      var l := |ids| - 1;
      FwdIdle(s, ids[..l]);
      FwdPartIdle(s, ids[l], LINK_NAMES);
    }
  }

  lemma MoveAlone(s: Net, p: Place, r: Place, m: Msg, m': Msg)
    requires Alone(s, p, m) && p != r
    ensures Alone(Transfer(s, p, r, m'), r, m')
  {
    var u := Pop(s, p);
    forall x ensures Q(u, x) == [] {
      assert Q(s, x) == if x == p then [m] else [];
    }
    var t := Transfer(s, p, r, m');
    forall x ensures Q(t, x) == if x == r then [m'] else [] {
      assert Q(u, x) == [] && [] + [m'] == [m'];
    }
  }

  lemma FwdLinkAlone(s: Net, id: nat, d: Dir, m: Msg)
    requires id < |s.cpu| && Alone(s, Inl(id, d), m)
    ensures var t := FwdLink(s, id, d);
      && Alone(t, FwdPlace(s.grid, id, m), m)
      && t == (var u := Transfer(s, Inl(id, d), FwdPlace(s.grid, id, m), m);
               if Guidance(s.grid, id, m.to).Arrived? then Received(u, id) else u)
  {
    var r := FwdPlace(s.grid, id, m);
    assert Q(s, Inl(id, d)) == [m] && Q(s, r) == [] && Q(s, Mbox(id, m.from)) == [];
    assert !FwdSkips(s, id, d) by { hide Guidance; }
    MoveAlone(s, Inl(id, d), r, m, m);
    var u := Transfer(s, Inl(id, d), r, m);
    hide Guidance, Transfer;
    forall x ensures Q(FwdLink(s, id, d), x) == if x == r then [m] else [] {
      assert Q(u, x) == if x == r then [m] else [];
    }
  }

  lemma FwdLinkIdle(s: Net, id: nat, d: Dir)
    requires id < |s.cpu| && Q(s, Inl(id, d)) == []
    ensures FwdLink(s, id, d) == s
  {
  }

  lemma {:induction false} FwdPartAlone(s: Net, id: nat, d: Dir, m: Msg, k: nat)
    requires id < |s.cpu| && Alone(s, Inl(id, d), m) && k <= LINK_NAMES
    ensures FwdPart(s, id, k) == if k <= DirNo(d) then s else FwdLink(s, id, d)
  {
    if k > 0 {
      FwdPartAlone(s, id, d, m, k - 1);
      FwdLinkAlone(s, id, d, m);
      hide FwdLink, Guidance, Transfer, Received;
      var e, t := DirAt(k - 1), FwdPart(s, id, k - 1);
      if k - 1 != DirNo(d) {
        assert e != d && Q(t, Inl(id, e)) == [];
        FwdLinkIdle(t, id, e);
      }
    }
  }

  /** A fwd phase moves the only message by one place, if it is in an input link. */
  lemma {:induction false} FwdAlone(s: Net, l: nat, id: nat, d: Dir, m: Msg)
    requires l <= |s.cpu| && id < |s.cpu| && Alone(s, Inl(id, d), m)
    ensures FwdNodes(s, Iota(l)) == if l <= id then s else FwdLink(s, id, d)
  {
    if l > 0 {
      FwdAlone(s, l - 1, id, d, m);
      assert Iota(l)[..l - 1] == Iota(l - 1);
      FwdLinkAlone(s, id, d, m);
      if l - 1 == id {
        FwdPartAlone(s, id, d, m, LINK_NAMES);
      } else {
        FwdPartIdle(FwdNodes(s, Iota(l - 1)), l - 1, LINK_NAMES);
      }
    }
  }

  lemma {:induction false} HopPartIdle(s: Net, id: nat, k: nat)
    requires forall d :: Q(s, Outl(id, d)) == []
    ensures HopPart(s, id, k) == s
  {
    if k > 0 {
      HopPartIdle(s, id, k - 1);
    }
  }

  lemma {:induction false} HopIdle(s: Net, ids: seq<nat>)
    requires forall id, d :: id in ids ==> Q(s, Outl(id, d)) == []
    ensures HopNodes(s, ids) == s
    decreases |ids|
  {
    if ids != [] {
      var l := |ids| - 1;
      HopIdle(s, ids[..l]);
      HopPartIdle(s, ids[l], LINK_NAMES);
    }
  }

  lemma HopLinkAlone(s: Net, id: nat, d: Dir, m: Msg)
    requires Alone(s, Outl(id, d), m) && !HopTarget(s.grid, id, d).1
    ensures var t := HopLink(s, id, d);
      Alone(t, HopPlace(s.grid, id, d), Hopped(m)) && t.cpu == s.cpu && t.grid == s.grid
  {
    hide HopTarget;
    var r := HopPlace(s.grid, id, d);
    assert Q(s, Outl(id, d)) == [m] && Q(s, r) == [];
    MoveAlone(s, Outl(id, d), r, m, Hopped(m));
  }

  lemma HopLinkIdle(s: Net, id: nat, d: Dir)
    requires Q(s, Outl(id, d)) == []
    ensures HopLink(s, id, d) == s
  {
  }

  lemma {:induction false} HopPartAlone(s: Net, id: nat, d: Dir, m: Msg, k: nat)
    requires Alone(s, Outl(id, d), m) && !HopTarget(s.grid, id, d).1 && k <= LINK_NAMES
    ensures HopPart(s, id, k) == if k <= DirNo(d) then s else HopLink(s, id, d)
  {
    if k > 0 {
      HopPartAlone(s, id, d, m, k - 1);
      HopLinkAlone(s, id, d, m);
      hide HopLink, HopTarget;
      var e, t := DirAt(k - 1), HopPart(s, id, k - 1);
      if k - 1 != DirNo(d) {
        assert e != d && Q(t, Outl(id, e)) == [];
        HopLinkIdle(t, id, e);
      }
    }
  }

  lemma {:induction false} HopAlone(s: Net, l: nat, id: nat, d: Dir, m: Msg)
    requires Alone(s, Outl(id, d), m) && !HopTarget(s.grid, id, d).1
    ensures HopNodes(s, Iota(l)) == if l <= id then s else HopLink(s, id, d)
  {
    if l > 0 {
      HopAlone(s, l - 1, id, d, m);
      assert Iota(l)[..l - 1] == Iota(l - 1);
      HopLinkAlone(s, id, d, m);
      hide HopTarget, Transfer;
      if l - 1 == id {
        HopPartAlone(s, id, d, m, LINK_NAMES);
      } else {
        HopPartIdle(HopNodes(s, Iota(l - 1)), l - 1, LINK_NAMES);
      }
    }
  }

  // The mailbox counters apart, nothing about a processor changes ...
  predicate Counts(c: Cpu, d: Cpu) { d == c.(nmsg := d.nmsg, mboxNew := d.mboxNew, mboxStart := d.mboxStart) }

  // ... or about any, the round-robin mark included.
  ghost predicate Counted(a: seq<Cpu>, b: seq<Cpu>) { |a| == |b| && forall i :: 0 <= i < |a| ==> Mailed(a[i], b[i]) }

  /** The fwd phase takes the only message on to the next place of its route. */
  lemma FwdStep(s: Net, t: nat, m: Msg)
    requires Meshed(s) && m.from < |s.cpu| && m.to < |s.cpu| && t % 2 == 1 && t < 2 * Dist(s.grid, m.from, m.to)
    requires Alone(s, PlaceOf(s.grid, m.from, m.to, t), m)
    ensures var r := FwdNodes(s, Iota(|s.cpu|));
      r.grid == s.grid && Counted(s.cpu, r.cpu) && Alone(r, PlaceOf(s.grid, m.from, m.to, t + 1), m)
  {
    hide PlaceOf, Guidance, FwdLink, FwdNodes, Counted, Dist;
    var p := PlaceOf(s.grid, m.from, m.to, t);
    InFwd(s.grid, m.from, m.to, t);
    PlaceValid(s.grid, m.from, m.to, t);
    FwdAlone(s, |s.cpu|, p.id, p.dir, m);
    FwdLinkAlone(s, p.id, p.dir, m);
    FwdLinkCounts(s, p.id, p.dir);
  }

  lemma FwdLinkCounts(s: Net, id: nat, d: Dir)
    requires id < |s.cpu|
    ensures FwdLink(s, id, d).grid == s.grid && Counted(s.cpu, FwdLink(s, id, d).cpu)
  {
  }

  lemma FwdNothing(s: Net)
    requires forall id, d :: Q(s, Inl(id, d)) == []
    ensures FwdNodes(s, Iota(|s.cpu|)) == s
  {
    FwdIdle(s, Iota(|s.cpu|));
  }

  /** ... and so does the hop phase, which counts the hop. */
  lemma HopStep(s: Net, t: nat, m: Msg)
    requires Meshed(s) && m.from < |s.cpu| && m.to < |s.cpu| && t % 2 == 0 && t < 2 * Dist(s.grid, m.from, m.to)
    requires Alone(s, PlaceOf(s.grid, m.from, m.to, t), m)
    ensures var r := HopNodes(s, Iota(|s.cpu|));
      r.grid == s.grid && r.cpu == s.cpu && Alone(r, PlaceOf(s.grid, m.from, m.to, t + 1), Hopped(m))
  {
    var p := PlaceOf(s.grid, m.from, m.to, t);
    OutHop(s.grid, m.from, m.to, t);
    PlaceValid(s.grid, m.from, m.to, t);
    hide PlaceOf, HopTarget;
    HopAlone(s, |s.cpu|, p.id, p.dir, m);
    HopLinkAlone(s, p.id, p.dir, m);
  }

  lemma HopNothing(s: Net)
    requires forall id, d :: Q(s, Outl(id, d)) == []
    ensures HopNodes(s, Iota(|s.cpu|)) == s
  {
    HopIdle(s, Iota(|s.cpu|));
  }

  // ---------------------------------------------------------------- operate

  // Quiet: no operation.  Passive: none that sends a message of its own, or could report a deadlock.
  predicate Quiet(c: Cpu) { c.op.OpNone? && !c.sent }

  predicate Passive(c: Cpu) { !c.op.OpOut? && !c.sent && (c.op.OpAlt? ==> c.clauses != []) }

  predicate Outputs(c: Cpu, n: nat, sent: bool) { c.running && c.op.OpOut? && c.sent == sent && c.corr == n }

  // The processor waits for m, in an input or in an alternative without a default.
  predicate Receives(c: Cpu, m: nat) {
    c.running && !c.sent && ((c.op.OpIn? && c.corr == m) || (c.op.OpAlt? && m in c.clauses && !HasDefault(c.clauses)))
  }

  // It computes or waits for m.
  predicate Listens(c: Cpu, m: nat, size: nat) { (Quiet(c) || Receives(c, m)) && c.mboxStart < size }

  // No node but m and n is about to send.
  ghost predicate OthersPassive(s: Net, m: nat, n: nat) {
    Meshed(s) && m < |s.cpu| && n < |s.cpu| && m != n && forall i :: 0 <= i < |s.cpu| && i != m && i != n ==> Passive(s.cpu[i])
  }

  lemma EmptyBoxes(s: Net, i: nat)
    requires i < |s.cpu| && forall f :: Q(s, Mbox(i, f)) == []
    ensures Boxes(s, i) == {}
  {
  }

  // Without mail a passive operation changes no buffer; it leaves a processor passive, and one that waits for m waiting.
  lemma PassiveOperate(s: Net, i: nat)
    requires i < |s.cpu| && Passive(s.cpu[i]) && forall f :: Q(s, Mbox(i, f)) == []
    ensures Operate(s, i).1 != Deadlock && Operate(s, i).0.q == s.q
    ensures Passive(Own(s, i)) && Own(s, i).log == s.cpu[i].log
    ensures Quiet(s.cpu[i]) ==> Own(s, i) == s.cpu[i]
    ensures forall m :: Receives(s.cpu[i], m) ==> Counts(s.cpu[i], Own(s, i))
    ensures s.cpu[i].mboxStart < |s.cpu| ==> Own(s, i).mboxStart < |s.cpu|
  {
    EmptyBoxes(s, i);
    var hit := Scan(s.cpu[i].clauses, Boxes(s, i), |s.cpu|, s.cpu[i].mboxStart, 0);
    assert hit < 0;
    hide Scan, Boxes;
  }

  // All nodes but m and n are passive and have no mail.
  ghost predicate OthersIdle(s: Net, m: nat, n: nat) {
    OthersPassive(s, m, n) && forall i, f :: 0 <= i < |s.cpu| && i != m && i != n ==> Q(s, Mbox(i, f)) == []
  }

  // u is f after the operate phase, in which only m and n have done anything to the buffers.
  ghost predicate Operated(f: Net, u: Net, m: nat, n: nat)
    requires m < |f.cpu| && n < |f.cpu|
  {
    && u.grid == f.grid && |u.cpu| == |f.cpu| && OthersPassive(u, m, n)
    && u.cpu[m] == Own(f, m) && u.cpu[n] == Own(f, n)
    && forall x: Place :: Q(u, x) == if x.id == m then Q(Operate(f, m).0, x) else if x.id == n then Q(Operate(f, n).0, x) else Q(f, x)
  }

  lemma OperateEnds(f: Net, m: nat, n: nat)
    requires OthersIdle(f, m, n) && Operate(f, m).1 != Deadlock && Operate(f, n).1 != Deadlock
    ensures Operates(f).Fine? && Operated(f, Operates(f).net, m, n)
  {
    hide Operate, Own, Operates;
    forall i | 0 <= i < |f.cpu| && i != m && i != n
      ensures Operate(f, i).1 != Deadlock && Operate(f, i).0.q == f.q && Passive(Own(f, i))
    {
      PassiveOperate(f, i);
    }
    OperateParallel(f);
    var u := Operates(f).net;
    forall x: Place
      ensures Q(u, x) == if x.id == m then Q(Operate(f, m).0, x) else if x.id == n then Q(Operate(f, n).0, x) else Q(f, x)
    {
      assert x.id < |f.cpu| && x.id != m && x.id != n ==> Operate(f, x.id).0.q == f.q;
    }
  }

  // ---------------------------------------------------------------- the two ends

  // m outputs to n, and nobody else is about to send.
  ghost predicate Pair(s: Net, m: nat, n: nat, sent: bool) { OthersPassive(s, m, n) && Outputs(s.cpu[m], n, sent) }

  // n has not received anything: it stays passive, and listening if it listened.
  predicate Still(c: Cpu, c': Cpu, m: nat, size: nat) {
    && Passive(c') && c'.log == c.log
    && (Listens(c, m, size) ==> Listens(c', m, size) && Counts(c, c'))
  }

  // What taking value v from m does to a processor.
  predicate Took(c: Cpu, c': Cpu, m: nat, v: Word) {
    && Quiet(c') && c'.data == v && c'.waitin == c.waitin && c'.waitalt == c.waitalt
    && Get(c'.log.taken, m) == Get(c.log.taken, m) + [v]
  }

  function Data(m: nat, n: nat, v: Word, h: Word): Msg { Msg(n, m, v, h, false) }

  function AckOf(m: nat, n: nat, h: Word): Msg { Msg(m, n, 0, h, true) }

  predicate Between(msg: Msg, m: nat, n: nat) { (msg.from, msg.to) == (m, n) || (msg.from, msg.to) == (n, m) }

  // The rendezvous goes on, with message msg at place p.
  ghost predicate Going(s: Net, t: Net, m: nat, n: nat, p: Place, msg: Msg) {
    && t.grid == s.grid && |t.cpu| == |s.cpu| && Pair(t, m, n, true) && Alone(t, p, msg)
    && t.cpu[m].waitout == s.cpu[m].waitout
  }

  // ... after a phase that started from f, in which n received nothing.
  ghost predicate GoesOn(s: Net, f: Net, o: Outcome, m: nat, n: nat, p: Place, msg: Msg) {
    n < |f.cpu| == |s.cpu| && o.Fine? && Going(s, o.net, m, n, p, msg) && Still(f.cpu[n], o.net.cpu[n], m, |f.cpu|)
  }

  lemma StillTwice(c: Cpu, c1: Cpu, c2: Cpu, m: nat, size: nat)
    requires c1.mboxStart == c.mboxStart && Counts(c, c1) && Still(c1, c2, m, size)
    ensures Still(c, c2, m, size)
  {
  }

  // A phase that only counts mail leaves both ends in their states.
  lemma CountedEnds(s: Net, f: Net, m: nat, n: nat, sent: bool)
    requires Pair(s, m, n, sent) && Counted(s.cpu, f.cpu) && f.grid == s.grid
    ensures Pair(f, m, n, sent) && f.cpu[m].waitout == s.cpu[m].waitout && f.cpu[m].data == s.cpu[m].data
    ensures f.cpu[n].mboxStart == s.cpu[n].mboxStart && Counts(s.cpu[n], f.cpu[n])
  {
    assert Mailed(s.cpu[m], f.cpu[m]) && Mailed(s.cpu[n], f.cpu[n]);
    forall i | 0 <= i < |f.cpu| && i != m && i != n ensures Passive(f.cpu[i]) {
      assert Mailed(s.cpu[i], f.cpu[i]);
    }
  }

  lemma ListensPassive(c: Cpu, m: nat, size: nat)
    requires Listens(c, m, size)
    ensures Passive(c)
  {
  }

  // ---------------------------------------------------------------- sending

  lemma Posts(s: Net, m: nat, n: nat)
    requires Pair(s, m, n, false) && Empty(s)
    ensures var (t, e) := Operate(s, m); var c := Own(s, m);
      && e == Done && Alone(t, PlaceOf(s.grid, m, n, 0), Data(m, n, s.cpu[m].data, 0))
      && Outputs(c, n, true) && c.waitout == s.cpu[m].waitout
    ensures PlaceOf(s.grid, m, n, 0).id == m
  {
    FirstPlace(s.grid, m, n);
    var msg := Data(m, n, s.cpu[m].data, 0);
    var (t, e) := Operate(s, m);
    assert Q(s, OutPlace(s.grid, m, n)) == [];
    forall x ensures Q(t, x) == if x == PlaceOf(s.grid, m, n, 0) then [msg] else [] {
      assert Q(s, x) == [] && [] + [msg] == [msg];
    }
  }

  // After the operate phase only the message that node a put out is there.
  lemma OperatedAlone(f: Net, u: Net, m: nat, n: nat, a: nat, p: Place, msg: Msg)
    requires m < |f.cpu| && n < |f.cpu| && Operated(f, u, m, n) && (a == m || a == n) && p.id == a
    requires Alone(Operate(f, a).0, p, msg)
    requires forall x: Place :: x.id != a ==> Q(u, x) == []
    ensures Alone(u, p, msg)
  {
    hide Operate;
  }

  // The operate phase in terms of what the two ends do.
  lemma OperatedGoes(s: Net, f: Net, u: Net, m: nat, n: nat, p: Place, msg: Msg)
    requires m < |f.cpu| && n < |f.cpu| == |s.cpu| && f.grid == s.grid && Operated(f, u, m, n) && Alone(u, p, msg)
    requires Outputs(Own(f, m), n, true) && Own(f, m).waitout == s.cpu[m].waitout && Still(f.cpu[n], Own(f, n), m, |f.cpu|)
    ensures GoesOn(s, f, Fine(u), m, n, p, msg)
  {
    hide Own, Operate, Alone, Outputs, Still;
  }

  // The hop phase takes the rendezvous one place on.
  lemma HopGoes(s: Net, o: Outcome, m: nat, n: nat, t: nat, msg: Msg)
    requires Between(msg, m, n) && t % 2 == 0 && t < 2 * Dist(s.grid, msg.from, msg.to)
    requires o.Fine? && Going(s, o.net, m, n, PlaceOf(s.grid, msg.from, msg.to, t), msg)
    ensures Hops(o).Fine? && Hops(o).net.cpu == o.net.cpu
    ensures Going(s, Hops(o).net, m, n, PlaceOf(s.grid, msg.from, msg.to, t + 1), Hopped(msg))
  {
    hide PlaceOf, HopNodes, Dist, Alone;
    HopStep(o.net, t, msg);
  }

  lemma HopGoesOn(s: Net, f: Net, o: Outcome, m: nat, n: nat, t: nat, msg: Msg)
    requires Between(msg, m, n) && t % 2 == 0 && t < 2 * Dist(s.grid, msg.from, msg.to)
    requires GoesOn(s, f, o, m, n, PlaceOf(s.grid, msg.from, msg.to, t), msg)
    ensures GoesOn(s, f, Hops(o), m, n, PlaceOf(s.grid, msg.from, msg.to, t + 1), Hopped(msg))
  {
    hide PlaceOf, Hops, Dist, Alone, Still, Hopped, Pair, Between;
    HopGoes(s, o, m, n, t, msg);
  }

  lemma SendOperates(s: Net, m: nat, n: nat)
    requires Pair(s, m, n, false) && Empty(s) && Listens(s.cpu[n], m, |s.cpu|)
    ensures GoesOn(s, s, Operates(s), m, n, PlaceOf(s.grid, m, n, 0), Data(m, n, s.cpu[m].data, 0))
  {
    hide PlaceOf, Operate, Own, Operates, GoesOn, Listens, Outputs, Passive;
    Posts(s, m, n);
    ListensPassive(s.cpu[n], m, |s.cpu|);
    PassiveOperate(s, n);
    OperateEnds(s, m, n);
    var u := Operates(s).net;
    forall x: Place | x.id != m ensures Q(u, x) == [] {
      assert Q(u, x) == Q(s, x);
    }
    OperatedAlone(s, u, m, n, m, PlaceOf(s.grid, m, n, 0), Data(m, n, s.cpu[m].data, 0));
    hide Alone, Empty;
    PassiveStill(s, n, m);
    OperatedGoes(s, s, u, m, n, PlaceOf(s.grid, m, n, 0), Data(m, n, s.cpu[m].data, 0));
  }

  // A passive node without mail is still.
  lemma PassiveStill(s: Net, n: nat, m: nat)
    requires n < |s.cpu| && Passive(s.cpu[n]) && forall x :: Q(s, Mbox(n, x)) == []
    ensures Still(s.cpu[n], Own(s, n), m, |s.cpu|)
  {
    PassiveOperate(s, n);
    hide Operate, Own, HasDefault;
  }

  /** The output sends, and its data is on its way. */
  lemma SendStarts(s: Net, m: nat, n: nat)
    requires Pair(s, m, n, false) && Empty(s) && Listens(s.cpu[n], m, |s.cpu|)
    ensures GoesOn(s, s, NetExecute(s), m, n, PlaceOf(s.grid, m, n, 1), Data(m, n, s.cpu[m].data, 1))
  {
    hide PlaceOf, NetExecute, Operates, Hops, FwdNodes, Dist, GoesOn, Listens;
    FwdNothing(s);
    NetExecuteIs(s);
    FirstPlace(s.grid, m, n);
    SendOperates(s, m, n);
    hide Empty;
    HopGoesOn(s, s, Operates(s), m, n, 0, Data(m, n, s.cpu[m].data, 0));
  }

  // ---------------------------------------------------------------- travelling and resting

  // While nobody finds mail, the operate phase leaves the buffers alone.
  lemma OperateStill(s: Net, f: Net, m: nat, n: nat, p: Place, msg: Msg)
    requires Going(s, f, m, n, p, msg) && Passive(f.cpu[n]) && Q(f, Mbox(m, n)) == []
    requires Quiet(f.cpu[n]) || forall x :: Q(f, Mbox(n, x)) == []
    requires forall i, x :: i != m && i != n ==> Q(f, Mbox(i, x)) == []
    ensures GoesOn(s, f, Operates(f), m, n, p, msg)
  {
    hide Operated, Operates, Alone, GoesOn, Still;
    WaitsOn(f, m, n);
    QuietOrNoMail(f, m, n);
    hide Operate, Own;
    OperateEnds(f, m, n);
    StillAlone(f, Operates(f).net, m, n, p, msg);
    OperatedGoes(s, f, Operates(f).net, m, n, p, msg);
  }

  lemma WaitsOn(f: Net, m: nat, n: nat)
    requires m < |f.cpu| && Outputs(f.cpu[m], n, true) && Q(f, Mbox(m, n)) == []
    ensures Operate(f, m) == (f, Again) && Own(f, m) == f.cpu[m]
  {
  }

  lemma QuietOrNoMail(f: Net, m: nat, n: nat)
    requires n < |f.cpu| && Passive(f.cpu[n]) && (Quiet(f.cpu[n]) || forall x :: Q(f, Mbox(n, x)) == [])
    ensures Operate(f, n).1 != Deadlock && Operate(f, n).0.q == f.q && Still(f.cpu[n], Own(f, n), m, |f.cpu|)
  {
    if Quiet(f.cpu[n]) {
      assert Operate(f, n) == (f, Done);
    } else {
      PassiveOperate(f, n);
      PassiveStill(f, n, m);
    }
  }

  lemma StillAlone(f: Net, u: Net, m: nat, n: nat, p: Place, msg: Msg)
    requires m < |f.cpu| && n < |f.cpu| && Operated(f, u, m, n) && Operate(f, m).0.q == f.q && Operate(f, n).0.q == f.q && Alone(f, p, msg)
    ensures Alone(u, p, msg)
  {
    hide Operate, Own;
    forall x ensures Q(u, x) == Q(f, x) {
    }
  }

  lemma OutsideBoxes(s: Net, from: nat, to: nat, t: nat, m: Msg)
    requires t % 2 == 0 && t < 2 * Dist(s.grid, from, to) && Alone(s, PlaceOf(s.grid, from, to, t), m)
    ensures forall i, j :: Q(s, Mbox(i, j)) == []
  {
  }

  // The fwd phase takes the rendezvous one place on, and counts.
  ghost predicate FwdGone(s: Net, f: Net, m: nat, n: nat, p: Place, msg: Msg) {
    && n < |s.cpu| && Going(s, f, m, n, p, msg)
    && f.cpu[n].mboxStart == s.cpu[n].mboxStart && Counts(s.cpu[n], f.cpu[n])
  }

  lemma FwdGoes(s: Net, m: nat, n: nat, t: nat, msg: Msg)
    requires Pair(s, m, n, true) && Between(msg, m, n) && t % 2 == 1 && t < 2 * Dist(s.grid, msg.from, msg.to)
    requires Alone(s, PlaceOf(s.grid, msg.from, msg.to, t), msg)
    ensures FwdGone(s, Fwds(s), m, n, PlaceOf(s.grid, msg.from, msg.to, t + 1), msg)
  {
    hide PlaceOf, FwdNodes, Dist, Alone;
    FwdStep(s, t, msg);
    CountedEnds(s, Fwds(s), m, n, true);
  }

  lemma CountsPassive(c: Cpu, d: Cpu)
    requires Counts(c, d)
    ensures Passive(c) <==> Passive(d)
    ensures Quiet(c) <==> Quiet(d)
    ensures forall m :: Receives(c, m) <==> Receives(d, m)
  {
  }

  lemma TravelOperates(s: Net, f: Net, m: nat, n: nat, t: nat, msg: Msg)
    requires Between(msg, m, n) && t % 2 == 0 && t < 2 * Dist(s.grid, msg.from, msg.to)
    requires Going(s, f, m, n, PlaceOf(s.grid, msg.from, msg.to, t), msg) && Passive(f.cpu[n])
    ensures GoesOn(s, f, Operates(f), m, n, PlaceOf(s.grid, msg.from, msg.to, t), msg)
  {
    hide PlaceOf, Operates, Dist, Alone, Passive, GoesOn;
    OutsideBoxes(f, msg.from, msg.to, t, msg);
    OperateStill(s, f, m, n, PlaceOf(s.grid, msg.from, msg.to, t), msg);
  }

  // A phase of fwd and what follows it.
  lemma GoesOnFrom(s: Net, f: Net, o: Outcome, m: nat, n: nat, p: Place, p': Place, msg: Msg, msg': Msg)
    requires FwdGone(s, f, m, n, p, msg) && GoesOn(s, f, o, m, n, p', msg')
    ensures GoesOn(s, s, o, m, n, p', msg')
  {
    assert n < |s.cpu| == |f.cpu| == |o.net.cpu|;
    hide Going;
    StillTwice(s.cpu[n], f.cpu[n], o.net.cpu[n], m, |s.cpu|);
  }

  lemma TravelsFrom(s: Net, f: Net, m: nat, n: nat, k: nat, msg: Msg)
    requires Between(msg, m, n) && k < Dist(s.grid, msg.from, msg.to)
    requires FwdGone(s, f, m, n, PlaceOf(s.grid, msg.from, msg.to, 2 * k), msg) && Passive(s.cpu[n])
    ensures GoesOn(s, s, Hops(Operates(f)), m, n, PlaceOf(s.grid, msg.from, msg.to, 2 * k + 1), Hopped(msg))
  {
    assert n < |f.cpu|;
    hide PlaceOf, Hops, Operates, Dist, Hopped, Going, GoesOn, Between;
    CountsPassive(s.cpu[n], f.cpu[n]);
    TravelOperates(s, f, m, n, 2 * k, msg);
    HopGoesOn(s, f, Operates(f), m, n, 2 * k, msg);
    GoesOnFrom(s, f, Hops(Operates(f)), m, n, PlaceOf(s.grid, msg.from, msg.to, 2 * k),
               PlaceOf(s.grid, msg.from, msg.to, 2 * k + 1), msg, Hopped(msg));
  }

  /** A message under way crosses one link. */
  lemma Travels(s: Net, m: nat, n: nat, k: nat, msg: Msg)
    requires Pair(s, m, n, true) && Between(msg, m, n) && Passive(s.cpu[n])
    requires 1 <= k < Dist(s.grid, msg.from, msg.to) && Alone(s, PlaceOf(s.grid, msg.from, msg.to, 2 * k - 1), msg)
    ensures GoesOn(s, s, NetExecute(s), m, n, PlaceOf(s.grid, msg.from, msg.to, 2 * k + 1), Hopped(msg))
  {
    hide PlaceOf, NetExecute, Operates, Hops, Fwds, Dist, Alone, Hopped, GoesOn, FwdGone, Between, Passive;
    FwdGoes(s, m, n, 2 * k - 1, msg);
    hide Pair;
    TravelsFrom(s, Fwds(s), m, n, k, msg);
    NetExecuteIs(s);
  }

  // ---------------------------------------------------------------- taking

  lemma MailHopsNot(o: Outcome, id: nat, sender: nat, msg: Msg)
    requires o.Fine? && Alone(o.net, Mbox(id, sender), msg)
    ensures Hops(o) == o
  {
    HopNothing(o.net);
  }

  lemma NoOtherMail(f: Net, m: nat, n: nat, msg: Msg)
    requires Alone(f, Mbox(n, m), msg)
    ensures forall i, x :: i != n ==> Q(f, Mbox(i, x)) == []
  {
  }

  // With nobody waiting for it, the data stays in the mailbox.
  lemma Rests(s: Net, f: Net, m: nat, n: nat, msg: Msg)
    requires Going(s, f, m, n, Mbox(n, m), msg) && Quiet(f.cpu[n])
    ensures GoesOn(s, f, Hops(Operates(f)), m, n, Mbox(n, m), msg)
  {
    hide Operates, Hops, Alone, Still;
    NoOtherMail(f, m, n, msg);
    OperateStill(s, f, m, n, Mbox(n, m), msg);
    MailHopsNot(Operates(f), n, m, msg);
  }

  // The common end of input and alternative, when the only message is the data.
  lemma Acknowledges(f: Net, m: nat, n: nat, v: Word, h: Word)
    requires Meshed(f) && m < |f.cpu| && n < |f.cpu| && m != n && !f.cpu[n].sent && Alone(f, Mbox(n, m), Data(m, n, v, h))
    ensures var (t, e) := Accept(f, m, n);
      && Q(f, Mbox(n, m)) != [] && e == Done && Alone(t, PlaceOf(f.grid, n, m, 0), AckOf(m, n, h)) && Took(f.cpu[n], t.cpu[n], m, v)
    ensures PlaceOf(f.grid, n, m, 0).id == n
  {
    FirstPlace(f.grid, n, m);
    var r, ack, msg := OutPlace(f.grid, n, m), AckOf(m, n, h), Data(m, n, v, h);
    assert Q(f, Mbox(n, m)) == [msg] && Q(f, r) == [];
    var (t, e) := Accept(f, m, n);
    assert !NoRoom(f, n, m);
    hide Guidance, PlaceOf, NoRoom;
    forall x ensures Q(t, x) == if x == r then [ack] else [] {
      assert Q(f, x) == if x == Mbox(n, m) then [msg] else [];
      assert [msg][1..] == [] && [] + [ack] == [ack];
    }
  }

  lemma OnlyBox(f: Net, m: nat, n: nat, msg: Msg)
    requires m < |f.cpu| && n < |f.cpu| && Alone(f, Mbox(n, m), msg)
    ensures Boxes(f, n) == {m}
  {
    assert Q(f, Mbox(n, m)) == [msg];
  }

  // An alternative that lists m finds it.
  lemma AltFinds(f: Net, m: nat, n: nat, msg: Msg)
    requires m < |f.cpu| && n < |f.cpu| && Alone(f, Mbox(n, m), msg) && m in f.cpu[n].clauses && f.cpu[n].mboxStart < |f.cpu|
    ensures Chosen(f, n) == m
  {
    OnlyBox(f, m, n, msg);
    ScanNearest(f.cpu[n].clauses, {m}, |f.cpu|, f.cpu[n].mboxStart, 0);
  }

  lemma SameBuffers(s: Net, t: Net, p: Place, msg: Msg)
    requires t.q == s.q
    ensures Alone(t, p, msg) <==> Alone(s, p, msg)
  {
    assert forall x :: Q(t, x) == Q(s, x);
  }

  lemma AltTakesIt(f: Net, m: nat, n: nat, v: Word, h: Word)
    requires Meshed(f) && m < |f.cpu| && n < |f.cpu| && m != n && Alone(f, Mbox(n, m), Data(m, n, v, h))
    requires Receives(f.cpu[n], m) && f.cpu[n].op.OpAlt? && f.cpu[n].mboxStart < |f.cpu|
    ensures Operate(f, n).1 == Done && Alone(Operate(f, n).0, PlaceOf(f.grid, n, m, 0), AckOf(m, n, h)) && Took(f.cpu[n], Own(f, n), m, v)
  {
    AltFinds(f, m, n, Data(m, n, v, h));
    var c := f.cpu[n];
    var f1 := SetCpu(f, n, c.(mboxStart := (m + 1) % |f.cpu|));
    SameBuffers(f, f1, Mbox(n, m), Data(m, n, v, h));
    Acknowledges(f1, m, n, v, h);
    var (f2, e) := Accept(f1, m, n);
    var f3 := SetCpu(f2, n, f2.cpu[n].(k1 := m % WORD));
    SameBuffers(f2, f3, PlaceOf(f.grid, n, m, 0), AckOf(m, n, h));
    assert Alt(f, n) == (f3, Done) by {
      hide Scan, Boxes, Accept;
    }
    hide Alt, Accept, PlaceOf;
  }

  lemma InputTakesIt(f: Net, m: nat, n: nat, v: Word, h: Word)
    requires Meshed(f) && m < |f.cpu| && n < |f.cpu| && m != n && Alone(f, Mbox(n, m), Data(m, n, v, h))
    requires Receives(f.cpu[n], m) && f.cpu[n].op.OpIn?
    ensures Operate(f, n).1 == Done && Alone(Operate(f, n).0, PlaceOf(f.grid, n, m, 0), AckOf(m, n, h)) && Took(f.cpu[n], Own(f, n), m, v)
  {
    hide Accept, PlaceOf, Alone, Took;
    Acknowledges(f, m, n, v, h);
  }

  // The state after a phase in which n takes v and acknowledges it.
  ghost predicate TakenFrom(s: Net, f: Net, o: Outcome, m: nat, n: nat, v: Word, p: Place, msg: Msg) {
    n < |f.cpu| == |s.cpu| && o.Fine? && Going(s, o.net, m, n, p, msg) && Took(f.cpu[n], o.net.cpu[n], m, v)
  }

  lemma OperatedTakes(s: Net, f: Net, u: Net, m: nat, n: nat, v: Word, p: Place, msg: Msg)
    requires m < |f.cpu| && n < |f.cpu| == |s.cpu| && f.grid == s.grid && Operated(f, u, m, n) && Alone(u, p, msg)
    requires Outputs(Own(f, m), n, true) && Own(f, m).waitout == s.cpu[m].waitout && Took(f.cpu[n], Own(f, n), m, v)
    ensures TakenFrom(s, f, Fine(u), m, n, v, p, msg)
  {
    hide Own, Operate, Alone, Outputs, Took;
  }

  lemma TakeOperates(s: Net, f: Net, m: nat, n: nat, v: Word, h: Word)
    requires Going(s, f, m, n, Mbox(n, m), Data(m, n, v, h)) && Receives(f.cpu[n], m) && f.cpu[n].mboxStart < |f.cpu|
    ensures TakenFrom(s, f, Operates(f), m, n, v, PlaceOf(s.grid, n, m, 0), AckOf(m, n, h))
  {
    var p, ack := PlaceOf(s.grid, n, m, 0), AckOf(m, n, h);
    FirstPlace(s.grid, n, m);
    NoOtherMail(f, m, n, Data(m, n, v, h));
    hide PlaceOf, Operate, Own, Operates, TakenFrom, Took;
    if f.cpu[n].op.OpIn? {
      InputTakesIt(f, m, n, v, h);
    } else {
      AltTakesIt(f, m, n, v, h);
    }
    WaitsOn(f, m, n);
    OperateEnds(f, m, n);
    var u := Operates(f).net;
    forall x: Place | x.id != n ensures Q(u, x) == [] {
      assert Q(u, x) == Q(f, x) == [];
    }
    OperatedAlone(f, u, m, n, n, p, ack);
    hide Alone;
    OperatedTakes(s, f, u, m, n, v, p, ack);
  }

  /** n takes the data, and its acknowledge is on its way. */
  lemma Takes(s: Net, f: Net, m: nat, n: nat, v: Word, h: Word)
    requires Going(s, f, m, n, Mbox(n, m), Data(m, n, v, h)) && Receives(f.cpu[n], m) && f.cpu[n].mboxStart < |f.cpu| && h + 1 < WORD
    ensures TakenFrom(s, f, Hops(Operates(f)), m, n, v, PlaceOf(s.grid, n, m, 1), AckOf(m, n, h + 1))
  {
    assert n < |f.cpu| == |s.cpu| == s.grid.Size() && m < |s.cpu| && m != n;
    hide PlaceOf, Hops, Operates, Dist, Took, Going, Hopped, Receives;
    FirstPlace(s.grid, n, m);
    TakeOperates(s, f, m, n, v, h);
    HopCounts(m, n, v, h);
    HopGoes(s, Operates(f), m, n, 0, AckOf(m, n, h));
  }

  lemma HopCounts(m: nat, n: nat, v: Word, h: nat)
    requires h + 1 < WORD
    ensures Hopped(Data(m, n, v, h)) == Data(m, n, v, h + 1) && Hopped(AckOf(m, n, h)) == AckOf(m, n, h + 1)
  {
  }

  // ---------------------------------------------------------------- releasing

  lemma Collects(f: Net, m: nat, n: nat, h: Word)
    requires m < |f.cpu| && Outputs(f.cpu[m], n, true) && Alone(f, Mbox(m, n), AckOf(m, n, h))
    ensures Operate(f, m).1 == Done && Empty(Operate(f, m).0)
    ensures Quiet(Own(f, m)) && Own(f, m).waitout == f.cpu[m].waitout
    ensures Count(Own(f, m).log.done, n) == Count(f.cpu[m].log.done, n) + 1
  {
    assert Q(f, Mbox(m, n)) == [AckOf(m, n, h)];
    var t := Operate(f, m).0;
    forall x ensures Q(t, x) == [] {
      assert Q(f, x) == if x == Mbox(m, n) then [AckOf(m, n, h)] else [];
    }
  }

  // The rendezvous is over, and n has received nothing since f.
  ghost predicate Over(s: Net, f: Net, o: Outcome, m: nat, n: nat) {
    && o.Fine? && o.net.grid == s.grid && |f.cpu| == |o.net.cpu| == |s.cpu| && OthersPassive(o.net, m, n) && Empty(o.net)
    && Quiet(o.net.cpu[m]) && o.net.cpu[m].waitout == s.cpu[m].waitout
    && Count(o.net.cpu[m].log.done, n) == Count(f.cpu[m].log.done, n) + 1
    && Still(f.cpu[n], o.net.cpu[n], m, |f.cpu|)
  }

  lemma EmptyHops(o: Outcome)
    requires o.Fine? && Empty(o.net)
    ensures Hops(o) == o
  {
    HopNothing(o.net);
  }

  lemma OperatedEmpty(f: Net, u: Net, m: nat, n: nat, msg: Msg)
    requires m < |f.cpu| && n < |f.cpu| && m != n && Operated(f, u, m, n) && Alone(f, Mbox(m, n), msg)
    requires Empty(Operate(f, m).0) && Operate(f, n).0.q == f.q
    ensures Empty(u)
  {
    hide Operate, Own;
    forall x: Place ensures Q(u, x) == [] {
      assert x.id == m ==> Q(u, x) == Q(Operate(f, m).0, x);
      assert x.id == n ==> Q(u, x) == Q(Operate(f, n).0, x) == Q(f, x);
    }
  }

  /** The acknowledge releases the output, and nothing is left. */
  lemma Releases(s: Net, f: Net, m: nat, n: nat, h: Word)
    requires Going(s, f, m, n, Mbox(m, n), AckOf(m, n, h)) && Passive(f.cpu[n])
    ensures Over(s, f, Hops(Operates(f)), m, n)
  {
    hide Operates, Hops, Operate, Own, Still, Passive, Outputs, Quiet;
    Collects(f, m, n, h);
    NoOtherMail(f, n, m, AckOf(m, n, h));
    QuietOrNoMail(f, m, n);
    OperateEnds(f, m, n);
    OperatedEmpty(f, Operates(f).net, m, n, AckOf(m, n, h));
    hide Alone, Empty;
    EmptyHops(Operates(f));
  }
}
