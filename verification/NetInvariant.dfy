/** The invariant of the network: every blocked sender has exactly one token, its data or the
    acknowledge coming back; every message is on its route; acknowledges stay ahead of
    later data; and the logs of the two ends agree up to the token. */
module NetInvariant {
  import opened Words
  import opened Mesh
  import opened NetModel

  // The node whose blocked output a message belongs to, and the node that output names.
  function Owner(m: Msg): nat { if m.ack then m.to else m.from }
  function Peer(m: Msg): nat { if m.ack then m.from else m.to }

  // ---------------------------------------------------------------- places along a route

  function LegDir(g: Grid, from: nat, to: nat, k: nat): Dir {
    match Leg(g, from, to, k)
    case Toward(d) => d
    case Arrived => North
  }

  /** A message from `from` to `to` passes 2 * Dist + 1 places: output and input buffers in
      turn, then the mailbox.  This is the place after t moves. */
  function PlaceOf(g: Grid, from: nat, to: nat, t: nat): Place {
    if t >= 2 * Dist(g, from, to) then Mbox(to, from)
    else if t % 2 == 0 then Outl(Route(g, from, to, t / 2), LegDir(g, from, to, t / 2))
    else Inl(Route(g, from, to, (t + 1) / 2), Opposite(LegDir(g, from, to, (t - 1) / 2)))
  }

  // The moves a message at place p has made, read off its hop count.  An acknowledge
  // starts with the hop count of the data it answers.
  function Progress(g: Grid, m: Msg, p: Place): int {
    var k := m.hops - (if m.ack then Dist(g, m.from, m.to) else 0);
    if p.Inl? then 2 * k - 1 else 2 * k
  }

  lemma OutHop(g: Grid, from: nat, to: nat, t: nat)
    requires from < g.Size() && to < g.Size() && t % 2 == 0 && t < 2 * Dist(g, from, to)
    ensures var p := PlaceOf(g, from, to, t);
      p.Outl? && !HopTarget(g, p.id, p.dir).1 &&
      Inl(HopTarget(g, p.id, p.dir).0, Opposite(p.dir)) == PlaceOf(g, from, to, t + 1)
  {
    var k := t / 2;
    RouteMinimal(g, from, to, k);
    StepCloser(g, Route(g, from, to, k), to);
    HopTargetExact(g, Route(g, from, to, k), LegDir(g, from, to, k));
    assert Route(g, from, to, k + 1) == Next(g, Route(g, from, to, k), to);
  }

  lemma InFwd(g: Grid, from: nat, to: nat, t: nat)
    requires from < g.Size() && to < g.Size() && t % 2 == 1 && t < 2 * Dist(g, from, to)
    ensures var p := PlaceOf(g, from, to, t); var w := Guidance(g, p.id, to);
      p.Inl? && (w.Arrived? ==> p.id == to && Mbox(to, from) == PlaceOf(g, from, to, t + 1)) &&
      (w.Toward? ==> Outl(p.id, w.dir) == PlaceOf(g, from, to, t + 1))
  {
    var k := (t + 1) / 2;
    RouteMinimal(g, from, to, k);
    if k < Dist(g, from, to) {
      StepCloser(g, Route(g, from, to, k), to);
    }
  }

  lemma FirstPlace(g: Grid, from: nat, to: nat)
    requires from < g.Size() && to < g.Size() && from != to
    ensures Dist(g, from, to) >= 1 && Guidance(g, from, to).Toward?
    ensures PlaceOf(g, from, to, 0) == OutPlace(g, from, to)
  {
    StepCloser(g, from, to);
  }

  lemma PlaceValid(g: Grid, from: nat, to: nat, t: nat)
    requires from < g.Size() && to < g.Size()
    ensures ValidPlace(g, PlaceOf(g, from, to, t))
  {
    if t < 2 * Dist(g, from, to) {
      RouteMinimal(g, from, to, t / 2);
      RouteMinimal(g, from, to, (t + 1) / 2);
    }
  }

  // Hop counts never reach the width of their field.
  lemma DistBound(g: Grid, a: nat, b: nat)
    requires a < g.Size() && b < g.Size()
    ensures 2 * Dist(g, a, b) < 0x4_0000
  {
    RowBound(g, a);
    RowBound(g, b);
    MulAtLeast(g.x, g.y);
    assert g.x * g.y == g.y * g.x;
    MulAtLeast(g.y, g.x);
  }

  // ---------------------------------------------------------------- the invariant

  ghost predicate Has(s: Net, p: Place, i: int) { p in s.q && 0 <= i < |s.q[p]| }

  function At(s: Net, p: Place, i: int): Msg
    requires Has(s, p, i)
  {
    s.q[p][i]
  }

  // Blocked in an output whose message is under way.
  predicate Waiting(c: Cpu) { c.op == OpOut && c.sent }

  // m has sent to n and waits for the acknowledge.
  predicate Blocked(cpu: seq<Cpu>, m: nat, n: nat) {
    m < |cpu| && Waiting(cpu[m]) && cpu[m].corr == n
  }

  ghost predicate OnRoute(g: Grid, p: Place, m: Msg) {
    && m.from < g.Size() && m.to < g.Size() && m.from != m.to
    && 0 <= Progress(g, m, p) <= 2 * Dist(g, m.from, m.to)
    && p == PlaceOf(g, m.from, m.to, Progress(g, m, p))
  }

  function Sent(cpu: seq<Cpu>, m: nat, n: nat): seq<Word> { if m < |cpu| then Get(cpu[m].log.sent, n) else [] }
  function Taken(cpu: seq<Cpu>, m: nat, n: nat): seq<Word> { if n < |cpu| then Get(cpu[n].log.taken, m) else [] }
  function Completed(cpu: seq<Cpu>, m: nat, n: nat): nat { if m < |cpu| then Count(cpu[m].log.done, n) else 0 }

  // The logs of a pair while its token is m.
  ghost predicate LogAgrees(cpu: seq<Cpu>, m: Msg) {
    Sent(cpu, Owner(m), Peer(m)) == Taken(cpu, Owner(m), Peer(m)) + if m.ack then [] else [m.data]
  }

  ghost predicate MsgOk(g: Grid, cpu: seq<Cpu>, p: Place, m: Msg) {
    OnRoute(g, p, m) && Blocked(cpu, Owner(m), Peer(m)) && LogAgrees(cpu, m)
  }

  ghost predicate AllOk(s: Net) {
    forall p, i :: Has(s, p, i) ==> MsgOk(s.grid, s.cpu, p, At(s, p, i))
  }

  // No two messages belong to the same blocked output.
  ghost predicate Unique(s: Net) {
    forall p, i, r, j :: Has(s, p, i) && Has(s, r, j) && Owner(At(s, p, i)) == Owner(At(s, r, j)) ==> p == r && i == j
  }

  ghost predicate HasToken(s: Net, m: nat) {
    exists p, i :: Has(s, p, i) && Owner(At(s, p, i)) == m
  }

  ghost predicate Tokens(s: Net) {
    forall m :: 0 <= m < |s.cpu| && Waiting(s.cpu[m]) ==> HasToken(s, m)
  }

  // Message (p, i) comes before message (r, j) of the same route.
  ghost predicate Ahead(s: Net, p: Place, i: int, r: Place, j: int)
    requires Has(s, p, i) && Has(s, r, j)
  {
    var a, b := Progress(s.grid, At(s, p, i), p), Progress(s.grid, At(s, r, j), r);
    a > b || (a == b && p == r && i < j)
  }

  ghost predicate SameRoute(a: Msg, d: Msg) { a.from == d.from && a.to == d.to }

  ghost predicate AckThenData(a: Msg, d: Msg) { a.ack && !d.ack && SameRoute(a, d) }

  // An acknowledge is ahead of the data its sender sent afterwards.
  ghost predicate AcksFirst(s: Net) {
    forall p, i, r, j :: Has(s, p, i) && Has(s, r, j) && AckThenData(At(s, p, i), At(s, r, j)) ==> Ahead(s, p, i, r, j)
  }

  ghost predicate CpuOk(n: nat, i: nat, c: Cpu) {
    && c.mboxStart < n
    && (c.op == OpIn ==> c.corr < n)
    && (c.op == OpOut ==> c.corr < n && c.corr != i)
    && (c.sent ==> c.op == OpOut)
    && (!c.running ==> c.op == OpNone)
  }

  // Between rendezvous both ends have logged the same values.
  ghost predicate PairOk(cpu: seq<Cpu>, m: nat, n: nat) {
    if Blocked(cpu, m, n) then Completed(cpu, m, n) + 1 == |Sent(cpu, m, n)|
    else Completed(cpu, m, n) == |Sent(cpu, m, n)| && Sent(cpu, m, n) == Taken(cpu, m, n)
  }

  ghost predicate Logs(s: Net) {
    forall m, n :: 0 <= m < |s.cpu| && 0 <= n < |s.cpu| ==> PairOk(s.cpu, m, n)
  }

  function Capacity(p: Place): nat { if p.Mbox? then 1 else LINK_BUFSZ }

  ghost predicate Shape(s: Net) {
    && |s.cpu| == s.grid.Size()
    && (forall p :: p in s.q <==> ValidPlace(s.grid, p))
    && (forall p :: p in s.q ==> |s.q[p]| <= Capacity(p))
    && (forall i :: 0 <= i < |s.cpu| ==> CpuOk(|s.cpu|, i, s.cpu[i]))
  }

  ghost predicate Inv(s: Net) {
    Shape(s) && AllOk(s) && Unique(s) && Tokens(s) && AcksFirst(s) && Logs(s)
  }

  // ---------------------------------------------------------------- moving one message

  ghost predicate Moved(s: Net, t: Net, p: Place, r: Place, m: Msg) {
    && t.grid == s.grid && |t.cpu| == |s.cpu|
    && p in s.q && r in s.q && p != r && s.q[p] != []
    && t.q == s.q[p := s.q[p][1..]][r := s.q[r] + [m]]
  }

  // Where a position after the move was before it.
  function Back(s: Net, p: Place, r: Place, pp: Place, i: int): (Place, int) {
    if pp == p then (p, i + 1)
    else if pp == r && i == |Q(s, r)| then (p, 0)
    else (pp, i)
  }

  ghost predicate IsMoved(s: Net, r: Place, pp: Place, i: int) { pp == r && i == |Q(s, r)| }

  lemma BackHas(s: Net, t: Net, p: Place, r: Place, m: Msg, pp: Place, i: int)
    requires Moved(s, t, p, r, m) && Has(t, pp, i)
    ensures var b := Back(s, p, r, pp, i);
      Has(s, b.0, b.1) && At(t, pp, i) == if IsMoved(s, r, pp, i) then m else At(s, b.0, b.1)
  {
  }

  lemma MoveUnique(s: Net, t: Net, p: Place, r: Place, m: Msg)
    requires Moved(s, t, p, r, m) && Unique(s) && Owner(m) == Owner(s.q[p][0])
    ensures Unique(t)
  {
    forall pp, i, rr, j | Has(t, pp, i) && Has(t, rr, j) && Owner(At(t, pp, i)) == Owner(At(t, rr, j))
      ensures pp == rr && i == j
    {
      BackHas(s, t, p, r, m, pp, i);
      BackHas(s, t, p, r, m, rr, j);
    }
  }

  lemma MoveToken(s: Net, t: Net, p: Place, r: Place, m: Msg, o: nat)
    requires Moved(s, t, p, r, m) && Owner(m) == Owner(s.q[p][0]) && HasToken(s, o)
    ensures HasToken(t, o)
  {
    var pp, i :| Has(s, pp, i) && Owner(At(s, pp, i)) == o;
    if pp == p && i == 0 {
      assert Has(t, r, |s.q[r]|);
    } else if pp == p {
      assert Has(t, p, i - 1);
    } else {
      assert Has(t, pp, i);
    }
  }

  lemma SamePlace(g: Grid, p: Place, a: Msg, r: Place, b: Msg)
    requires OnRoute(g, p, a) && OnRoute(g, r, b) && SameRoute(a, b) && Progress(g, a, p) == Progress(g, b, r)
    ensures p == r
  {
  }

  // One acknowledge and one datum, before and after a move of one place.
  lemma AheadStep(s: Net, t: Net, p: Place, r: Place, m: Msg, pp: Place, i: int, rr: Place, j: int)
    requires Moved(s, t, p, r, m) && Has(t, pp, i) && Has(t, rr, j) && AckThenData(At(t, pp, i), At(t, rr, j))
    requires m == s.q[p][0].(hops := m.hops) && Progress(s.grid, m, r) == Progress(s.grid, s.q[p][0], p) + 1
    requires var a, b := Back(s, p, r, pp, i), Back(s, p, r, rr, j);
      Has(s, a.0, a.1) && Has(s, b.0, b.1) && Ahead(s, a.0, a.1, b.0, b.1)
    requires Progress(t.grid, At(t, pp, i), pp) == Progress(t.grid, At(t, rr, j), rr) ==> pp == rr
    ensures Ahead(t, pp, i, rr, j)
  {
    BackHas(s, t, p, r, m, pp, i);
    BackHas(s, t, p, r, m, rr, j);
  }

  // The message advances by one place of its route.
  lemma MoveOrder(s: Net, t: Net, p: Place, r: Place, m: Msg)
    requires Moved(s, t, p, r, m) && AcksFirst(s) && AllOk(t)
    requires m == s.q[p][0].(hops := m.hops) && Progress(s.grid, m, r) == Progress(s.grid, s.q[p][0], p) + 1
    ensures AcksFirst(t)
  {
    forall pp, i, rr, j | Has(t, pp, i) && Has(t, rr, j) && AckThenData(At(t, pp, i), At(t, rr, j))
      ensures Ahead(t, pp, i, rr, j)
    {
      BackHas(s, t, p, r, m, pp, i);
      BackHas(s, t, p, r, m, rr, j);
      if Progress(t.grid, At(t, pp, i), pp) == Progress(t.grid, At(t, rr, j), rr) {
        SamePlace(t.grid, pp, At(t, pp, i), rr, At(t, rr, j));
      }
      AheadStep(s, t, p, r, m, pp, i, rr, j);
    }
  }

  // The token turns from data into an acknowledge; its taker has no data of its own under way.
  lemma TurnOrder(s: Net, t: Net, p: Place, r: Place, m: Msg)
    requires Moved(s, t, p, r, m) && AcksFirst(s) && AllOk(s) && |s.q[p]| == 1 && m.ack
    requires m.from < |s.cpu| && !(s.cpu[m.from].op == OpOut && s.cpu[m.from].sent)
    ensures AcksFirst(t)
  {
    forall pp, i, rr, j | Has(t, pp, i) && Has(t, rr, j) && AckThenData(At(t, pp, i), At(t, rr, j))
      ensures Ahead(t, pp, i, rr, j)
    {
      BackHas(s, t, p, r, m, pp, i);
      BackHas(s, t, p, r, m, rr, j);
      assert MsgOk(s.grid, s.cpu, rr, At(s, rr, j));
      assert Ahead(s, pp, i, rr, j);
    }
  }

  // What of a processor the invariant reads.
  ghost predicate SameCore(c: Cpu, d: Cpu) {
    c.running == d.running && c.op == d.op && c.sent == d.sent && c.corr == d.corr && c.mboxStart == d.mboxStart && c.log == d.log
  }

  ghost predicate SameCores(a: seq<Cpu>, b: seq<Cpu>) {
    |a| == |b| && forall i :: 0 <= i < |a| ==> SameCore(a[i], b[i])
  }

  lemma CoresOk(g: Grid, a: seq<Cpu>, b: seq<Cpu>, p: Place, m: Msg)
    requires MsgOk(g, a, p, m) && SameCores(a, b)
    ensures MsgOk(g, b, p, m)
  {
  }

  lemma AdvanceOk(s: Net, t: Net, p: Place, r: Place, m: Msg)
    requires AllOk(s) && Moved(s, t, p, r, m) && SameCores(s.cpu, t.cpu)
    requires m == s.q[p][0].(hops := m.hops) && OnRoute(s.grid, r, m)
    ensures AllOk(t)
  {
    assert Has(s, p, 0);
    assert MsgOk(s.grid, s.cpu, r, m);
    forall pp, i | Has(t, pp, i) ensures MsgOk(t.grid, t.cpu, pp, At(t, pp, i)) {
      BackHas(s, t, p, r, m, pp, i);
      CoresOk(s.grid, s.cpu, t.cpu, pp, At(t, pp, i));
    }
  }

  lemma AdvanceLogs(s: Net, t: Net)
    requires Logs(s) && SameCores(s.cpu, t.cpu)
    ensures Logs(t)
  {
    forall a, b | 0 <= a < |t.cpu| && 0 <= b < |t.cpu| ensures PairOk(t.cpu, a, b) {
      assert PairOk(s.cpu, a, b);
    }
  }

  /** Moving the head of a buffer one place along its route keeps the invariant. */
  lemma AdvanceInv(s: Net, t: Net, p: Place, r: Place, m: Msg)
    requires Inv(s) && Moved(s, t, p, r, m) && SameCores(s.cpu, t.cpu)
    requires |s.q[r]| < Capacity(r)
    requires m == s.q[p][0].(hops := m.hops) && OnRoute(s.grid, r, m)
    requires Progress(s.grid, m, r) == Progress(s.grid, s.q[p][0], p) + 1
    ensures Inv(t)
  {
    AdvanceOk(s, t, p, r, m);
    MoveUnique(s, t, p, r, m);
    forall o | 0 <= o < |t.cpu| && t.cpu[o].op == OpOut && t.cpu[o].sent ensures HasToken(t, o) {
      MoveToken(s, t, p, r, m, o);
    }
    MoveOrder(s, t, p, r, m);
    AdvanceLogs(s, t);
  }

  // ---------------------------------------------------------------- fwd and hop

  lemma FwdRoute(g: Grid, id: nat, d: Dir, m: Msg)
    requires OnRoute(g, Inl(id, d), m)
    ensures OnRoute(g, FwdPlace(g, id, m), m) && ValidPlace(g, FwdPlace(g, id, m))
    ensures Progress(g, m, FwdPlace(g, id, m)) == Progress(g, m, Inl(id, d)) + 1
  {
    hide PlaceOf, Guidance, Dist;
    var n := Progress(g, m, Inl(id, d));
    InFwd(g, m.from, m.to, n);
    PlaceValid(g, m.from, m.to, n + 1);
  }

  lemma HopsFit(g: Grid, p: Place, m: Msg)
    requires OnRoute(g, p, m)
    ensures Hopped(m).hops == m.hops + 1
  {
    hide PlaceOf, Dist;
    DistBound(g, m.from, m.to);
    DistZero(g, m.from, m.to);
    assert m.hops + 1 < WORD;
  }

  lemma HopRoute(g: Grid, id: nat, d: Dir, m: Msg)
    requires OnRoute(g, Outl(id, d), m)
    ensures !HopTarget(g, id, d).1
    ensures OnRoute(g, HopPlace(g, id, d), Hopped(m)) && ValidPlace(g, HopPlace(g, id, d))
    ensures Progress(g, Hopped(m), HopPlace(g, id, d)) == Progress(g, m, Outl(id, d)) + 1
  {
    hide HopTarget, Dist;
    var n := Progress(g, m, Outl(id, d));
    assert n % 2 == 0 && n < 2 * Dist(g, m.from, m.to);
    hide PlaceOf;
    HopsFit(g, Outl(id, d), m);
    OutHop(g, m.from, m.to, n);
    PlaceValid(g, m.from, m.to, n + 1);
  }

  // The head of a nonempty buffer is on its route.
  lemma HeadOk(s: Net, p: Place)
    requires Inv(s) && Q(s, p) != []
    ensures p in s.q && MsgOk(s.grid, s.cpu, p, s.q[p][0])
  {
    assert Has(s, p, 0);
  }

  // One iteration of fwd either skips its link or advances the head of it by one place.
  lemma FwdLinkMoves(s: Net, id: nat, d: Dir)
    requires Inv(s) && id < |s.cpu| && FwdLink(s, id, d) != s
    ensures var t, p := FwdLink(s, id, d), Inl(id, d);
      p in s.q && s.q[p] != [] && Moved(s, t, p, FwdPlace(s.grid, id, s.q[p][0]), s.q[p][0]) && SameCores(s.cpu, t.cpu)
    ensures |Q(s, FwdPlace(s.grid, id, s.q[Inl(id, d)][0]))| < Capacity(FwdPlace(s.grid, id, s.q[Inl(id, d)][0]))
  {
    HeadOk(s, Inl(id, d));
    FwdRoute(s.grid, id, d, s.q[Inl(id, d)][0]);
  }

  lemma FwdLinkInv(s: Net, id: nat, d: Dir)
    requires Inv(s) && id < |s.cpu|
    ensures Inv(FwdLink(s, id, d))
  {
    var p, t := Inl(id, d), FwdLink(s, id, d);
    if t != s {
      FwdLinkMoves(s, id, d);
      HeadOk(s, p);
      FwdRoute(s.grid, id, d, s.q[p][0]);
      AdvanceInv(s, t, p, FwdPlace(s.grid, id, s.q[p][0]), s.q[p][0]);
    }
  }

  // A message in an output buffer always has a node to go to.
  lemma HopInside(s: Net, id: nat, d: Dir)
    requires Inv(s) && Q(s, Outl(id, d)) != []
    ensures !HopTarget(s.grid, id, d).1
  {
    HeadOk(s, Outl(id, d));
    HopRoute(s.grid, id, d, s.q[Outl(id, d)][0]);
  }

  lemma HopLinkMoves(s: Net, id: nat, d: Dir)
    requires Inv(s) && HopLink(s, id, d) != s
    ensures var t, p, r := HopLink(s, id, d), Outl(id, d), HopPlace(s.grid, id, d);
      p in s.q && s.q[p] != [] && Moved(s, t, p, r, Hopped(s.q[p][0])) && t.cpu == s.cpu && |s.q[r]| < Capacity(r)
  {
    HeadOk(s, Outl(id, d));
    HopRoute(s.grid, id, d, s.q[Outl(id, d)][0]);
  }

  lemma HopLinkInv(s: Net, id: nat, d: Dir)
    requires Inv(s)
    ensures Inv(HopLink(s, id, d))
  {
    var p, t := Outl(id, d), HopLink(s, id, d);
    if t != s {
      HopLinkMoves(s, id, d);
      HeadOk(s, p);
      HopRoute(s.grid, id, d, s.q[p][0]);
      AdvanceInv(s, t, p, HopPlace(s.grid, id, d), Hopped(s.q[p][0]));
    }
  }
}
