/** Whole cycles and whole runs of the network, for every mesh and every program. */
module NetRun {
  import opened Indices
  import opened Mesh
  import opened NetModel
  import opened NetInvariant
  import opened NetOperate

  // ---------------------------------------------------------------- the fwd phase

  // The input buffer through which mail from `from` enters node `to`.
  function Door(g: Grid, from: nat, to: nat): Place {
    var d := Dist(g, from, to);
    PlaceOf(g, from, to, if d == 0 then 0 else 2 * d - 1)
  }

  predicate AckIn(s: Net, id: nat, sender: nat) {
    Q(s, Mbox(id, sender)) != [] && Q(s, Mbox(id, sender))[0].ack
  }

  // Acknowledges are in mailboxes only behind doors that were already visited in this phase.
  ghost predicate AcksSeen(s: Net, seen: iset<Place>) {
    forall id, sender :: AckIn(s, id, sender) ==> Door(s.grid, sender, id) in seen
  }

  ghost predicate NoAcks(s: Net) { forall id, sender :: !AckIn(s, id, sender) }

  lemma DoorOf(g: Grid, id: nat, d: Dir, m: Msg)
    requires OnRoute(g, Inl(id, d), m) && Guidance(g, id, m.to).Arrived?
    ensures m.to == id && Inl(id, d) == Door(g, m.from, m.to)
  {
    var n := Progress(g, m, Inl(id, d));
    InFwd(g, m.from, m.to, n);
    RouteMinimal(g, m.from, m.to, (n + 1) / 2);
  }

  // Two messages in different places.
  lemma Apart(s: Net, p: Place, r: Place)
    requires Inv(s) && Has(s, p, 0) && Has(s, r, 0) && p != r
    ensures Owner(At(s, p, 0)) != Owner(At(s, r, 0))
    ensures AckThenData(At(s, p, 0), At(s, r, 0)) ==> Ahead(s, p, 0, r, 0)
  {
  }

  /** The branch of fwd for a full mailbox is not taken at a link not yet visited. */
  lemma NeverFull(s: Net, id: nat, d: Dir, seen: iset<Place>)
    requires Inv(s) && AcksSeen(s, seen) && Inl(id, d) !in seen
    ensures !MailboxFull(s, id, d)
  {
    if MailboxFull(s, id, d) {
      var p := Inl(id, d);
      HeadOk(s, p);
      var x := s.q[p][0];
      DoorOf(s.grid, id, d, x);
      var r := Mbox(id, x.from);
      HeadOk(s, r);
      InMailbox(s.grid, id, x.from, s.q[r][0]);
      Apart(s, p, r);
    }
  }

  lemma FwdLinkSeen(s: Net, id: nat, d: Dir, seen: iset<Place>)
    requires Inv(s) && AcksSeen(s, seen) && id < |s.cpu| && Inl(id, d) !in seen
    ensures Inv(FwdLink(s, id, d)) && AcksSeen(FwdLink(s, id, d), seen + iset{Inl(id, d)})
  {
    var t := FwdLink(s, id, d);
    FwdLinkInv(s, id, d);
    if t != s {
      FwdLinkMoves(s, id, d);
      HeadOk(s, Inl(id, d));
      var m := s.q[Inl(id, d)][0];
      forall j, f | AckIn(t, j, f) ensures Door(t.grid, f, j) in seen + iset{Inl(id, d)} {
        if AckIn(s, j, f) {
        } else {
          assert Mbox(j, f) == FwdPlace(s.grid, id, m);
          DoorOf(s.grid, id, d, m);
        }
      }
    }
  }

  // The input links visited once nodes `ids` are done.
  ghost function Doors(ids: seq<nat>): iset<Place> { iset p: Place | p.Inl? && p.id in ids }

  // ... and the first k links of node id.
  ghost function DoorsOf(id: nat, k: nat): iset<Place> {
    iset d: Dir | DirNo(d) < k :: Inl(id, d)
  }

  lemma NextDoor(id: nat, k: nat)
    requires k < LINK_NAMES
    ensures DoorsOf(id, k) + iset{Inl(id, DirAt(k))} == DoorsOf(id, k + 1)
    ensures Inl(id, DirAt(k)) !in DoorsOf(id, k)
  {
  }

  lemma FwdPartStep(u: Net, id: nat, k: nat, seen: iset<Place>)
    requires Inv(u) && AcksSeen(u, seen + DoorsOf(id, k)) && id < |u.cpu| && k < LINK_NAMES
    requires forall d :: Inl(id, d) !in seen
    ensures Inv(FwdLink(u, id, DirAt(k))) && AcksSeen(FwdLink(u, id, DirAt(k)), seen + DoorsOf(id, k + 1))
    ensures !MailboxFull(u, id, DirAt(k))
  {
    NextDoor(id, k);
    NeverFull(u, id, DirAt(k), seen + DoorsOf(id, k));
    FwdLinkSeen(u, id, DirAt(k), seen + DoorsOf(id, k));
    assert seen + DoorsOf(id, k) + iset{Inl(id, DirAt(k))} == seen + DoorsOf(id, k + 1);
  }

  lemma {:induction false} FwdPartSeen(s: Net, id: nat, k: nat, seen: iset<Place>)
    requires Inv(s) && AcksSeen(s, seen) && id < |s.cpu| && k <= LINK_NAMES
    requires forall d :: Inl(id, d) !in seen
    ensures Inv(FwdPart(s, id, k)) && AcksSeen(FwdPart(s, id, k), seen + DoorsOf(id, k))
  {
    hide Inv, AcksSeen, FwdLink;
    if k == 0 {
      assert seen + DoorsOf(id, 0) == seen;
    } else {
      FwdPartSeen(s, id, k - 1, seen);
      FwdPartStep(FwdPart(s, id, k - 1), id, k - 1, seen);
    }
  }

  lemma {:induction false} FwdNodesSeen(s: Net, ids: seq<nat>)
    requires Inv(s) && NoAcks(s) && Ids(|s.cpu|, ids) && Distinct(ids)
    ensures Inv(FwdNodes(s, ids)) && AcksSeen(FwdNodes(s, ids), Doors(ids))
  {
    if ids != [] {
      var l := |ids| - 1;
      FwdNodesSeen(s, ids[..l]);
      FwdPartSeen(FwdNodes(s, ids[..l]), ids[l], LINK_NAMES, Doors(ids[..l]));
      assert ids == ids[..l] + [ids[l]];
      assert Doors(ids[..l]) + DoorsOf(ids[l], LINK_NAMES) == Doors(ids);
    }
  }

  /** In a cycle that starts without acknowledges in mailboxes, no visit of fwd finds the
      mailbox full, in whatever order the nodes are visited. */
  lemma MailboxNeverFull(s: Net, ids: seq<nat>, i: nat, k: nat)
    requires Inv(s) && NoAcks(s) && Ids(|s.cpu|, ids) && Distinct(ids) && i < |ids| && k < LINK_NAMES
    ensures !MailboxFull(FwdPart(FwdNodes(s, ids[..i]), ids[i], k), ids[i], DirAt(k))
  {
    FwdNodesSeen(s, ids[..i]);
    FwdPartSeen(FwdNodes(s, ids[..i]), ids[i], k, Doors(ids[..i]));
    FwdPartStep(FwdPart(FwdNodes(s, ids[..i]), ids[i], k), ids[i], k, Doors(ids[..i]));
  }

  // ---------------------------------------------------------------- the operate phase

  // operate touches only the buffers of its own node.
  lemma OperateLocal(s: Net, id: nat)
    requires id < |s.cpu|
    ensures var t := Operate(s, id).0;
      t.grid == s.grid && t.nrun == s.nrun && t.cycle == s.cycle && |t.cpu| == |s.cpu| &&
      (forall i :: 0 <= i < |s.cpu| && i != id ==> t.cpu[i] == s.cpu[i]) &&
      (forall p: Place :: p.id != id ==> Q(t, p) == Q(s, p) && (p in t.q <==> p in s.q))
  {
  }

  lemma AckMeansWaiting(s: Net, id: nat, f: nat)
    requires Inv(s) && AckIn(s, id, f)
    ensures id < |s.cpu| && Waiting(s.cpu[id]) && s.cpu[id].corr == f && |Q(s, Mbox(id, f))| == 1
  {
    HeadOk(s, Mbox(id, f));
    InMailbox(s.grid, id, f, s.q[Mbox(id, f)][0]);
  }

  /** An acknowledge is consumed by the operate phase of the cycle in which it arrives. */
  lemma AckConsumed(s: Net, id: nat)
    requires Inv(s) && id < |s.cpu|
    ensures forall f :: !AckIn(Operate(s, id).0, id, f)
  {
    forall f ensures !AckIn(Operate(s, id).0, id, f) {
      OperateMail(s, id, f);
      if AckIn(s, id, f) {
        AckMeansWaiting(s, id, f);
      }
    }
  }

  // operate puts nothing into a mailbox.
  lemma OperateMail(s: Net, id: nat, f: nat)
    requires Inv(s) && id < |s.cpu|
    ensures Q(Operate(s, id).0, Mbox(id, f)) == Q(s, Mbox(id, f)) || Q(Operate(s, id).0, Mbox(id, f)) == []
  {
    var c := s.cpu[id];
    if c.op == OpOut {
      FirstPlace(s.grid, id, c.corr);
    }
  }

  // No acknowledge is left in the mailboxes of nodes `ids`.
  ghost predicate Cleared(s: Net, ids: seq<nat>) {
    forall id, f :: id in ids ==> !AckIn(s, id, f)
  }

  lemma OperateOne(s: Net, ids: seq<nat>, id: nat)
    requires Inv(s) && id < |s.cpu| && Cleared(s, ids) && Operate(s, id).1 != Deadlock
    ensures Cleared(Operate(s, id).0, ids + [id])
  {
    AckConsumed(s, id);
    OperateLocal(s, id);
    var t := Operate(s, id).0;
    forall j: nat, f: nat | j in ids + [id] ensures !AckIn(t, j, f) {
      if j != id {
        assert j in ids && !AckIn(s, j, f);
        assert Q(t, Mbox(j, f)) == Q(s, Mbox(j, f));
      }
    }
  }

  lemma {:induction false} OperatePhase(s: Net, ids: seq<nat>)
    requires Inv(s) && Ids(|s.cpu|, ids)
    ensures Inv(OperateNodes(s, ids).net)
    ensures OperateNodes(s, ids).Fine? ==> Cleared(OperateNodes(s, ids).net, ids)
  {
    if ids != [] {
      var l := |ids| - 1;
      OperatePhase(s, ids[..l]);
      var u := OperateNodes(s, ids[..l]);
      assert ids == ids[..l] + [ids[l]];
      if u.Fine? {
        OperateInv(u.net, ids[l]);
        if Operate(u.net, ids[l]).1 != Deadlock {
          OperateOne(u.net, ids[..l], ids[l]);
        }
      }
    }
  }

  // ---------------------------------------------------------------- the hop and processor phases

  lemma HopLinkMail(s: Net, id: nat, d: Dir)
    requires Inv(s)
    ensures NoAcks(s) ==> NoAcks(HopLink(s, id, d))
  {
    var t := HopLink(s, id, d);
    assert forall j, f :: Q(t, Mbox(j, f)) == Q(s, Mbox(j, f));
    assert forall j, f :: AckIn(t, j, f) ==> AckIn(s, j, f);
  }

  lemma {:induction false} HopPartInv(s: Net, id: nat, k: nat)
    requires Inv(s)
    ensures Inv(HopPart(s, id, k)) && (NoAcks(s) ==> NoAcks(HopPart(s, id, k)))
  {
    if k > 0 {
      HopPartInv(s, id, k - 1);
      HopLinkInv(HopPart(s, id, k - 1), id, DirAt(k - 1));
      HopLinkMail(HopPart(s, id, k - 1), id, DirAt(k - 1));
    }
  }

  lemma {:induction false} HopPhase(s: Net, ids: seq<nat>)
    requires Inv(s)
    ensures Inv(HopNodes(s, ids)) && (NoAcks(s) ==> NoAcks(HopNodes(s, ids)))
  {
    if ids != [] {
      var l := |ids| - 1;
      HopPhase(s, ids[..l]);
      HopPartInv(HopNodes(s, ids[..l]), ids[l], LINK_NAMES);
    }
  }

  ghost predicate LegalActs(s: Net, acts: seq<Act>) {
    |acts| == |s.cpu| && forall i :: 0 <= i < |s.cpu| ==> Legal(s, i, acts[i])
  }

  lemma {:induction false} CpuPhase(s: Net, ids: seq<nat>, acts: seq<Act>)
    requires Inv(s) && LegalActs(s, acts) && Ids(|s.cpu|, ids) && Distinct(ids)
    ensures Inv(CpuNodes(s, ids, acts))
    ensures forall i :: 0 <= i < |s.cpu| && i !in ids ==> CpuNodes(s, ids, acts).cpu[i] == s.cpu[i]
  {
    if ids != [] {
      var l := |ids| - 1;
      CpuPhase(s, ids[..l], acts);
      assert ids == ids[..l] + [ids[l]];
      CpuStepInv(CpuNodes(s, ids[..l], acts), ids[l], acts[ids[l]]);
    }
  }

  // ---------------------------------------------------------------- cycles and runs

  // What holds between cycles.
  ghost predicate Boundary(s: Net) { Inv(s) && NoAcks(s) }

  lemma InitialBoundary(s: Net)
    requires Initial(s)
    ensures Boundary(s)
  {
    assert forall p, i :: !Has(s, p, i);
  }

  lemma NetExecuteInv(s: Net)
    requires Boundary(s)
    ensures Inv(NetExecute(s).net)
    ensures NetExecute(s).Fine? ==> Boundary(NetExecute(s).net)
  {
    var ids := Iota(|s.cpu|);
    FwdNodesSeen(s, ids);
    OperatePhase(FwdNodes(s, ids), ids);
    var u := OperateNodes(FwdNodes(s, ids), ids);
    if u.Fine? {
      ClearedAll(u.net, ids);
      HopPhase(u.net, ids);
    }
  }

  lemma ClearedAll(s: Net, ids: seq<nat>)
    requires Inv(s) && Cleared(s, ids) && ids == Iota(|s.cpu|)
    ensures NoAcks(s)
  {
    forall id: nat, f: nat ensures !AckIn(s, id, f) {
      if Q(s, Mbox(id, f)) != [] {
        HeadOk(s, Mbox(id, f));
        assert ids[id] == id;
      }
    }
  }

  lemma SameMail(s: Net, t: Net)
    requires NoAcks(s) && t.q == s.q
    ensures NoAcks(t)
  {
    assert forall id, f :: AckIn(t, id, f) ==> AckIn(s, id, f);
  }

  /** One cycle, for any legal behaviour of the programs. */
  lemma CycleInv(s: Net, acts: seq<Act>)
    requires Boundary(s) && LegalActs(s, acts)
    ensures Inv(Cycle(s, acts).net)
    ensures Cycle(s, acts).Fine? ==> Boundary(Cycle(s, acts).net)
  {
    var s1 := CpuNodes(s, Iota(|s.cpu|), acts);
    CpuPhase(s, Iota(|s.cpu|), acts);
    SameMail(s, s1);
    NetExecuteInv(s1);
    CountInv(NetExecute(s1));
  }

  lemma CountInv(o: Outcome)
    requires Inv(o.net) && (o.Fine? ==> Boundary(o.net))
    ensures Inv(CountCycle(o).net) && (CountCycle(o).Fine? ==> Boundary(CountCycle(o).net))
  {
    if o.Fine? {
      SameButCycle(o.net);
    }
  }

  lemma SameButCycle(s: Net)
    requires Boundary(s)
    ensures Boundary(s.(cycle := s.cycle + 1))
  {
    var t := s.(cycle := s.cycle + 1);
    assert forall p, i :: Has(t, p, i) <==> Has(s, p, i);
    assert forall id, f :: AckIn(t, id, f) ==> AckIn(s, id, f);
    assert AllOk(t) && Unique(t) && Logs(t) && Shape(t);
    forall m | 0 <= m < |t.cpu| && Waiting(t.cpu[m]) ensures HasToken(t, m) {
      assert HasToken(s, m);
    }
    forall p, i, r, j | Has(t, p, i) && Has(t, r, j) && AckThenData(At(t, p, i), At(t, r, j)) ensures Ahead(t, p, i, r, j) {
      assert Ahead(s, p, i, r, j);
    }
  }

  // A program for |prog| cycles.
  ghost predicate LegalRun(s: Net, prog: seq<seq<Act>>)
    decreases |prog|, 0
  {
    prog == [] ||
    var l := |prog| - 1;
    LegalRun(s, prog[..l]) && Run(s, prog[..l]).Fine? && LegalActs(Run(s, prog[..l]).net, prog[l])
  }

  ghost function Run(s: Net, prog: seq<seq<Act>>): Outcome
    requires LegalRun(s, prog)
    decreases |prog|, 1
  {
    if prog == [] then Fine(s)
    else Cycle(Run(s, prog[..|prog| - 1]).net, prog[|prog| - 1])
  }

  lemma {:induction false} RunInv(s: Net, prog: seq<seq<Act>>)
    requires Boundary(s) && LegalRun(s, prog)
    ensures Inv(Run(s, prog).net)
    ensures Run(s, prog).Fine? ==> Boundary(Run(s, prog).net)
  {
    if prog != [] {
      RunInv(s, prog[..|prog| - 1]);
      CycleInv(Run(s, prog[..|prog| - 1]).net, prog[|prog| - 1]);
    }
  }
}
