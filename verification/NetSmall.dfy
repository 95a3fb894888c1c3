/** Meshes of at most LINK_BUFSZ nodes never jam: no insert meets a full link, and every message
    arrives within a bound that depends only on its distance. */
module NetSmall {
  import opened Indices
  import opened Mesh
  import opened Sums
  import opened NetModel
  import opened NetInvariant
  import opened NetOperate
  import opened NetRun
  import opened NetTheorems
  import NetOrder

  ghost predicate Small(s: Net) { s.grid.Size() <= LINK_BUFSZ }

  // The owners of the messages of a buffer.
  ghost function Owners(s: Net, p: Place): seq<nat> { seq(|Q(s, p)|, i requires 0 <= i < |Q(s, p)| => Owner(Q(s, p)[i])) }

  lemma OwnersDiffer(s: Net, p: Place)
    requires Inv(s)
    ensures Members(|s.cpu|, Owners(s, p))
  {
    forall i | 0 <= i < |Q(s, p)| ensures Has(s, p, i) && Owner(Q(s, p)[i]) < |s.cpu| {
      assert Has(s, p, i);
      assert MsgOk(s.grid, s.cpu, p, At(s, p, i));
    }
  }

  // A full link holds the tokens of all nodes.
  lemma FullLink(s: Net, p: Place, o: nat)
    requires Inv(s) && Small(s) && !p.Mbox? && |Q(s, p)| == LINK_BUFSZ && o < |s.cpu|
    ensures Waiting(s.cpu[o]) && forall r, j :: TokenAt(s, o, r, j) ==> r == p
  {
    OwnersDiffer(s, p);
    MembersAll(|s.cpu|, Owners(s, p), o);
    var i :| 0 <= i < |Owners(s, p)| && Owners(s, p)[i] == o;
    TokenWaits(s, o, p, i);
  }

  lemma TokenWaits(s: Net, o: nat, p: Place, i: int)
    requires Inv(s) && TokenAt(s, o, p, i)
    ensures o < |s.cpu| && Waiting(s.cpu[o]) && forall r, j :: TokenAt(s, o, r, j) ==> r == p && j == i
  {
    assert MsgOk(s.grid, s.cpu, p, At(s, p, i));
  }

  // A link is not full while some token is elsewhere, or some node waits for nothing.
  lemma NotFull(s: Net, p: Place, o: nat)
    requires Inv(s) && Small(s) && !p.Mbox? && o < |s.cpu|
    requires !Waiting(s.cpu[o]) || exists r, j :: r != p && TokenAt(s, o, r, j)
    ensures |Q(s, p)| < LINK_BUFSZ
  {
    assert p in s.q ==> |s.q[p]| <= Capacity(p);
    if |Q(s, p)| == LINK_BUFSZ {
      FullLink(s, p, o);
    }
  }

  // The head of a buffer keeps every other link from being full.
  lemma HeadElsewhere(s: Net, r: Place, p: Place)
    requires Inv(s) && Small(s) && Q(s, r) != [] && !p.Mbox? && p != r
    ensures |Q(s, p)| < LINK_BUFSZ
  {
    HeadOk(s, r);
    assert TokenAt(s, Owner(s.q[r][0]), r, 0);
    NotFull(s, p, Owner(s.q[r][0]));
  }

  /** In a small mesh neither fwd nor hop nor operate ever finds a link full, in any state of any cycle. */
  lemma SmallNeverJams(s: Net, id: nat, d: Dir)
    requires Inv(s) && Small(s) && id < |s.cpu|
    ensures !OutputFull(s, id, d)
    ensures Q(s, Outl(id, d)) != [] ==> !LinkBlocked(s, id, d)
    ensures Operate(s, id).1 != NoBufs
  {
    if Q(s, Inl(id, d)) != [] && Guidance(s.grid, id, Q(s, Inl(id, d))[0].to).Toward? {
      HeadElsewhere(s, Inl(id, d), FwdPlace(s.grid, id, Q(s, Inl(id, d))[0]));
    }
    if Q(s, Outl(id, d)) != [] {
      HopInside(s, id, d);
      HeadElsewhere(s, Outl(id, d), HopPlace(s.grid, id, d));
    }
    SmallOperate(s, id);
  }

  lemma SmallOperate(s: Net, id: nat)
    requires Inv(s) && Small(s) && id < |s.cpu|
    ensures Operate(s, id).1 != NoBufs
  {
    var c := s.cpu[id];
    match c.op {
      case OpNone =>
      case OpIn =>
        if Q(s, Mbox(id, c.corr)) != [] {
          SmallAccept(s, c.corr, id);
        }
      case OpOut =>
        if !c.sent {
          FirstPlace(s.grid, id, c.corr);
          NotFull(s, OutPlace(s.grid, id, c.corr), id);
        }
      case OpAlt => SmallAlt(s, id);
    }
  }

  lemma SmallAccept(s: Net, from: nat, to: nat)
    requires Inv(s) && Small(s) && to < |s.cpu| && !Waiting(s.cpu[to]) && Q(s, Mbox(to, from)) != []
    ensures Accept(s, from, to).1 == Done
  {
    MailIsData(s, from, to);
    FirstPlace(s.grid, to, from);
    HeadElsewhere(s, Mbox(to, from), OutPlace(s.grid, to, from));
  }

  lemma SmallAlt(s: Net, id: nat)
    requires Inv(s) && Small(s) && id < |s.cpu| && s.cpu[id].op == OpAlt
    ensures Alt(s, id).1 != NoBufs
  {
    var c := s.cpu[id];
    var hit := Scan(c.clauses, Boxes(s, id), |s.cpu|, c.mboxStart, 0);
    if c.clauses != [] && hit >= 0 {
      var c1 := if HasDefault(c.clauses) then c.(k1 := MINUS_ONE, op := OpNone, sent := false) else c;
      var s1 := SetCpu(s, id, c1.(mboxStart := (hit + 1) % |s.cpu|));
      LocalInv(s, s1, id);
      assert Q(s1, Mbox(id, hit)) == Q(s, Mbox(id, hit));
      SmallAccept(s1, hit, id);
    }
  }

  // ---------------------------------------------------------------- how long a message takes

  // What is left of the journey of message (p, i), counting its place in the queue.
  ghost function Left(s: Net, p: Place, i: int): int
    requires Has(s, p, i)
  {
    var m := At(s, p, i);
    LINK_BUFSZ * (2 * Dist(s.grid, m.from, m.to) - Progress(s.grid, m, p)) + i
  }

  ghost predicate SameLetter(a: Msg, b: Msg) { a == b.(hops := a.hops) }

  // One position before and after a step: unchanged, or closer.
  ghost predicate Stays(s: Net, t: Net, p: Place, i: int) { Has(s, p, i) && Has(t, p, i) && At(t, p, i) == At(s, p, i) }

  ghost predicate Closer(s: Net, t: Net, p: Place, i: int, r: Place, j: int) {
    t.grid == s.grid && Has(s, p, i) && Has(t, r, j) && SameLetter(At(t, r, j), At(s, p, i)) && Left(t, r, j) < Left(s, p, i)
  }

  // A message after a phase: nearer if its buffer was visited, else where it was.
  ghost predicate Nearer(s: Net, t: Net, p: Place, i: int, r: Place, j: int, visited: bool) {
    if visited then Closer(s, t, p, i, r, j) else r == p && j == i && Stays(s, t, p, i)
  }

  lemma NearerTwice(s: Net, u: Net, t: Net, p: Place, i: int, r: Place, j: int, rr: Place, jj: int, a: bool, b: bool, c: bool)
    requires Nearer(s, u, p, i, r, j, a) && Nearer(u, t, r, j, rr, jj, b) && c == (a || b) && u.grid == s.grid && t.grid == s.grid
    ensures Nearer(s, t, p, i, rr, jj, c)
  {
  }

  // A move from p to r: what happens to a message of p, and to one of another buffer.
  lemma MoveCloser(s: Net, t: Net, p: Place, r: Place, m: Msg, i: int) returns (rr: Place, j: int)
    requires Moved(s, t, p, r, m) && Has(s, p, i) && |s.q[r]| < LINK_BUFSZ
    requires SameLetter(m, s.q[p][0]) && Progress(s.grid, m, r) == Progress(s.grid, s.q[p][0], p) + 1
    ensures Closer(s, t, p, i, rr, j) && (rr == p || rr == r)
  {
    if i == 0 {
      rr, j := r, |s.q[r]|;
    } else {
      rr, j := p, i - 1;
    }
  }

  lemma MoveStays(s: Net, t: Net, p: Place, r: Place, m: Msg, pp: Place, i: int)
    requires Moved(s, t, p, r, m) && Has(s, pp, i) && pp != p
    ensures Stays(s, t, pp, i)
  {
  }

  lemma FwdCloser(s: Net, id: nat, d: Dir, p: Place, i: int) returns (r: Place, j: int)
    requires Inv(s) && Small(s) && id < |s.cpu| && !MailboxFull(s, id, d) && Has(s, p, i)
    ensures var t := FwdLink(s, id, d);
      Nearer(s, t, p, i, r, j, p == Inl(id, d)) && t.grid == s.grid && (p == Inl(id, d) ==> r == p || !r.Inl?)
  {
    SmallNeverJams(s, id, d);
    r, j := p, i;
    if !FwdSkips(s, id, d) {
      FwdLinkRoom(s, id, d);
      HeadOk(s, Inl(id, d));
      var m := s.q[Inl(id, d)][0];
      FwdRoute(s.grid, id, d, m);
      var q := FwdPlace(s.grid, id, m);
      if p == Inl(id, d) {
        r, j := MoveCloser(s, FwdLink(s, id, d), p, q, m, i);
      } else {
        MoveStays(s, FwdLink(s, id, d), Inl(id, d), q, m, p, i);
      }
    }
  }

  lemma FwdLinkRoom(s: Net, id: nat, d: Dir)
    requires Inv(s) && id < |s.cpu| && !FwdSkips(s, id, d)
    ensures var p := Inl(id, d);
      p in s.q && s.q[p] != [] && Moved(s, FwdLink(s, id, d), p, FwdPlace(s.grid, id, s.q[p][0]), s.q[p][0])
    ensures |Q(s, FwdPlace(s.grid, id, s.q[Inl(id, d)][0]))| < LINK_BUFSZ
  {
    HeadOk(s, Inl(id, d));
    FwdRoute(s.grid, id, d, s.q[Inl(id, d)][0]);
  }

  lemma HopCloser(s: Net, id: nat, d: Dir, p: Place, i: int) returns (r: Place, j: int)
    requires Inv(s) && Small(s) && id < |s.cpu| && Has(s, p, i)
    ensures var t := HopLink(s, id, d);
      Nearer(s, t, p, i, r, j, p == Outl(id, d)) && t.grid == s.grid && (p == Outl(id, d) ==> r == p || r.Inl?)
  {
    SmallNeverJams(s, id, d);
    r, j := p, i;
    if !HopSkips(s, id, d) {
      HeadOk(s, Outl(id, d));
      var m := s.q[Outl(id, d)][0];
      HopRoute(s.grid, id, d, m);
      var q := HopPlace(s.grid, id, d);
      if p == Outl(id, d) {
        r, j := MoveCloser(s, HopLink(s, id, d), p, q, Hopped(m), i);
      } else {
        MoveStays(s, HopLink(s, id, d), Outl(id, d), q, Hopped(m), p, i);
      }
    }
  }

  lemma FwdStepAt(s: Net, id: nat, k: nat, seen: iset<Place>, p: Place, i: int) returns (r: Place, j: int)
    requires Inv(s) && Small(s) && AcksSeen(s, seen) && id < |s.cpu| && k < LINK_NAMES && (forall d :: Inl(id, d) !in seen)
    requires FwdPart(s, id, k).grid == s.grid && Has(FwdPart(s, id, k), p, i)
    ensures Nearer(FwdPart(s, id, k), FwdPart(s, id, k + 1), p, i, r, j, p == Inl(id, DirAt(k)))
    ensures FwdPart(s, id, k + 1).grid == s.grid
    ensures p == Inl(id, DirAt(k)) ==> r == p || !r.Inl?
  {
    FwdPartSeen(s, id, k, seen);
    FwdPartStep(FwdPart(s, id, k), id, k, seen);
    r, j := FwdCloser(FwdPart(s, id, k), id, DirAt(k), p, i);
  }

  lemma FwdStepNearer(s: Net, id: nat, k: nat, seen: iset<Place>, p: Place, i: int, r0: Place, j0: int) returns (r: Place, j: int)
    requires Inv(s) && Small(s) && AcksSeen(s, seen) && id < |s.cpu| && k < LINK_NAMES && (forall d :: Inl(id, d) !in seen)
    requires FwdPart(s, id, k).grid == s.grid && Nearer(s, FwdPart(s, id, k), p, i, r0, j0, p in DoorsOf(id, k))
    requires p in DoorsOf(id, k) ==> r0 == p || !r0.Inl?
    ensures FwdPart(s, id, k + 1).grid == s.grid && Nearer(s, FwdPart(s, id, k + 1), p, i, r, j, p in DoorsOf(id, k + 1))
    ensures p in DoorsOf(id, k + 1) ==> r == p || !r.Inl?
  {
    r, j := FwdStepAt(s, id, k, seen, r0, j0);
    NextDoor(id, k);
    NearerTwice(s, FwdPart(s, id, k), FwdPart(s, id, k + 1), p, i, r0, j0, r, j,
      p in DoorsOf(id, k), r0 == Inl(id, DirAt(k)), p in DoorsOf(id, k + 1));
  }

  lemma NoDoor(id: nat, p: Place)
    ensures p !in DoorsOf(id, 0)
  {
  }

  lemma {:induction false} FwdPartCloser(s: Net, id: nat, k: nat, seen: iset<Place>, p: Place, i: int) returns (r: Place, j: int)
    requires Inv(s) && Small(s) && AcksSeen(s, seen) && id < |s.cpu| && k <= LINK_NAMES && (forall d :: Inl(id, d) !in seen)
    requires Has(s, p, i)
    ensures FwdPart(s, id, k).grid == s.grid && Nearer(s, FwdPart(s, id, k), p, i, r, j, p in DoorsOf(id, k))
    ensures p in DoorsOf(id, k) ==> r == p || !r.Inl?
  {
    hide FwdLink, Inv, AcksSeen, Left;
    if k == 0 {
      r, j := p, i;
      NoDoor(id, p);
    } else {
      var r0, j0 := FwdPartCloser(s, id, k - 1, seen, p, i);
      r, j := FwdStepNearer(s, id, k - 1, seen, p, i, r0, j0);
    }
  }

  lemma FwdVisitAt(s: Net, ids: seq<nat>, p: Place, i: int) returns (r: Place, j: int)
    requires Inv(s) && Small(s) && NoAcks(s) && Ids(|s.cpu|, ids) && Distinct(ids) && ids != []
    requires var u := FwdNodes(s, ids[..|ids| - 1]); u.grid == s.grid && Has(u, p, i)
    ensures Nearer(FwdNodes(s, ids[..|ids| - 1]), FwdNodes(s, ids), p, i, r, j, p in DoorsOf(ids[|ids| - 1], LINK_NAMES))
    ensures FwdNodes(s, ids).grid == s.grid
    ensures p in DoorsOf(ids[|ids| - 1], LINK_NAMES) ==> r == p || !r.Inl?
  {
    var l := |ids| - 1;
    FwdNodesSeen(s, ids[..l]);
    assert ids == ids[..l] + [ids[l]];
    r, j := FwdPartCloser(FwdNodes(s, ids[..l]), ids[l], LINK_NAMES, Doors(ids[..l]), p, i);
  }

  lemma NextNode(ids: seq<nat>)
    requires ids != []
    ensures forall p :: p in Doors(ids) <==> p in Doors(ids[..|ids| - 1]) || p in DoorsOf(ids[|ids| - 1], LINK_NAMES)
  {
    assert ids == ids[..|ids| - 1] + [ids[|ids| - 1]];
  }

  lemma FwdVisitNearer(s: Net, ids: seq<nat>, p: Place, i: int, r0: Place, j0: int) returns (r: Place, j: int)
    requires Inv(s) && Small(s) && NoAcks(s) && Ids(|s.cpu|, ids) && Distinct(ids) && ids != []
    requires var u, v := FwdNodes(s, ids[..|ids| - 1]), p in Doors(ids[..|ids| - 1]);
      u.grid == s.grid && Nearer(s, u, p, i, r0, j0, v) && (v ==> r0 == p || !r0.Inl?)
    ensures FwdNodes(s, ids).grid == s.grid && Nearer(s, FwdNodes(s, ids), p, i, r, j, p in Doors(ids))
    ensures p in Doors(ids) ==> r == p || !r.Inl?
  {
    var l := |ids| - 1;
    r, j := FwdVisitAt(s, ids, r0, j0);
    NextNode(ids);
    NearerTwice(s, FwdNodes(s, ids[..l]), FwdNodes(s, ids), p, i, r0, j0, r, j,
      p in Doors(ids[..l]), r0 in DoorsOf(ids[l], LINK_NAMES), p in Doors(ids));
  }

  lemma {:induction false} FwdNodesCloser(s: Net, ids: seq<nat>, p: Place, i: int) returns (r: Place, j: int)
    requires Inv(s) && Small(s) && NoAcks(s) && Ids(|s.cpu|, ids) && Distinct(ids) && Has(s, p, i)
    ensures FwdNodes(s, ids).grid == s.grid && Nearer(s, FwdNodes(s, ids), p, i, r, j, p in Doors(ids))
    ensures p in Doors(ids) ==> r == p || !r.Inl?
  {
    if ids == [] {
      r, j := p, i;
    } else {
      var r0, j0 := FwdNodesCloser(s, ids[..|ids| - 1], p, i);
      r, j := FwdVisitNearer(s, ids, p, i, r0, j0);
    }
  }

  ghost function Exits(id: nat, k: nat): iset<Place> { iset d: Dir | DirNo(d) < k :: Outl(id, d) }

  lemma HopStepAt(s: Net, id: nat, k: nat, p: Place, i: int) returns (r: Place, j: int)
    requires Inv(s) && Small(s) && id < |s.cpu| && k < LINK_NAMES
    requires HopPart(s, id, k).grid == s.grid && Has(HopPart(s, id, k), p, i)
    ensures Nearer(HopPart(s, id, k), HopPart(s, id, k + 1), p, i, r, j, p == Outl(id, DirAt(k)))
    ensures HopPart(s, id, k + 1).grid == s.grid
    ensures p == Outl(id, DirAt(k)) ==> r == p || r.Inl?
  {
    HopPartInv(s, id, k);
    r, j := HopCloser(HopPart(s, id, k), id, DirAt(k), p, i);
  }

  lemma NextExit(id: nat, k: nat)
    requires k < LINK_NAMES
    ensures Exits(id, k) + iset{Outl(id, DirAt(k))} == Exits(id, k + 1)
    ensures Outl(id, DirAt(k)) !in Exits(id, k)
  {
  }

  lemma HopStepNearer(s: Net, id: nat, k: nat, p: Place, i: int, r0: Place, j0: int) returns (r: Place, j: int)
    requires Inv(s) && Small(s) && id < |s.cpu| && k < LINK_NAMES
    requires HopPart(s, id, k).grid == s.grid && Nearer(s, HopPart(s, id, k), p, i, r0, j0, p in Exits(id, k))
    requires p in Exits(id, k) ==> r0 == p || r0.Inl?
    ensures HopPart(s, id, k + 1).grid == s.grid && Nearer(s, HopPart(s, id, k + 1), p, i, r, j, p in Exits(id, k + 1))
    ensures p in Exits(id, k + 1) ==> r == p || r.Inl?
  {
    r, j := HopStepAt(s, id, k, r0, j0);
    NextExit(id, k);
    NearerTwice(s, HopPart(s, id, k), HopPart(s, id, k + 1), p, i, r0, j0, r, j,
      p in Exits(id, k), r0 == Outl(id, DirAt(k)), p in Exits(id, k + 1));
  }

  lemma NoExit(id: nat, p: Place)
    ensures p !in Exits(id, 0)
  {
  }

  lemma {:induction false} HopPartCloser(s: Net, id: nat, k: nat, p: Place, i: int) returns (r: Place, j: int)
    requires Inv(s) && Small(s) && id < |s.cpu| && k <= LINK_NAMES && Has(s, p, i)
    ensures HopPart(s, id, k).grid == s.grid && Nearer(s, HopPart(s, id, k), p, i, r, j, p in Exits(id, k))
    ensures p in Exits(id, k) ==> r == p || r.Inl?
  {
    hide HopLink, Inv, Left;
    if k == 0 {
      r, j := p, i;
      NoExit(id, p);
    } else {
      var r0, j0 := HopPartCloser(s, id, k - 1, p, i);
      r, j := HopStepNearer(s, id, k - 1, p, i, r0, j0);
    }
  }

  lemma HopVisitAt(s: Net, ids: seq<nat>, p: Place, i: int) returns (r: Place, j: int)
    requires Inv(s) && Small(s) && Ids(|s.cpu|, ids) && ids != []
    requires var u := HopNodes(s, ids[..|ids| - 1]); u.grid == s.grid && Has(u, p, i)
    ensures Nearer(HopNodes(s, ids[..|ids| - 1]), HopNodes(s, ids), p, i, r, j, p in Exits(ids[|ids| - 1], LINK_NAMES))
    ensures HopNodes(s, ids).grid == s.grid
    ensures p in Exits(ids[|ids| - 1], LINK_NAMES) ==> r == p || r.Inl?
  {
    var l := |ids| - 1;
    HopPhase(s, ids[..l]);
    r, j := HopPartCloser(HopNodes(s, ids[..l]), ids[l], LINK_NAMES, p, i);
  }

  lemma HopVisitNearer(s: Net, ids: seq<nat>, p: Place, i: int, r0: Place, j0: int) returns (r: Place, j: int)
    requires Inv(s) && Small(s) && Ids(|s.cpu|, ids) && Distinct(ids) && ids != []
    requires var u, v := HopNodes(s, ids[..|ids| - 1]), p.Outl? && p.id in ids[..|ids| - 1];
      u.grid == s.grid && Nearer(s, u, p, i, r0, j0, v) && (v ==> r0 == p || r0.Inl?)
    ensures HopNodes(s, ids).grid == s.grid && Nearer(s, HopNodes(s, ids), p, i, r, j, p.Outl? && p.id in ids)
    ensures p.Outl? && p.id in ids ==> r == p || r.Inl?
  {
    var l := |ids| - 1;
    r, j := HopVisitAt(s, ids, r0, j0);
    assert ids == ids[..l] + [ids[l]];
    NearerTwice(s, HopNodes(s, ids[..l]), HopNodes(s, ids), p, i, r0, j0, r, j,
      p.Outl? && p.id in ids[..l], r0 in Exits(ids[l], LINK_NAMES), p.Outl? && p.id in ids);
  }

  lemma {:induction false} HopNodesCloser(s: Net, ids: seq<nat>, p: Place, i: int) returns (r: Place, j: int)
    requires Inv(s) && Small(s) && Ids(|s.cpu|, ids) && Distinct(ids) && Has(s, p, i)
    ensures HopNodes(s, ids).grid == s.grid && Nearer(s, HopNodes(s, ids), p, i, r, j, p.Outl? && p.id in ids)
    ensures p.Outl? && p.id in ids ==> r == p || r.Inl?
  {
    if ids == [] {
      r, j := p, i;
    } else {
      var r0, j0 := HopNodesCloser(s, ids[..|ids| - 1], p, i);
      r, j := HopVisitNearer(s, ids, p, i, r0, j0);
    }
  }

  // ---------------------------------------------------------------- whole cycles

  // operate takes nothing out of a link.
  lemma OperateKeepsLinks(s: Net, id: nat, p: Place, i: int)
    requires Inv(s) && id < |s.cpu| && !p.Mbox? && Has(s, p, i)
    ensures Stays(s, Operate(s, id).0, p, i)
  {
    OperateLocal(s, id);
    if p.id == id {
      match s.cpu[id].op {
        case OpNone =>
        case OpIn =>
          if Q(s, Mbox(id, s.cpu[id].corr)) != [] {
            AcceptKeepsLinks(s, s.cpu[id].corr, id, p, i);
          }
        case OpOut => FirstPlace(s.grid, id, s.cpu[id].corr);
        case OpAlt => AltKeepsLinks(s, id, p, i);
      }
    }
  }

  lemma AcceptKeepsLinks(s: Net, from: nat, id: nat, p: Place, i: int)
    requires Inv(s) && id < |s.cpu| && !Waiting(s.cpu[id]) && Q(s, Mbox(id, from)) != [] && !p.Mbox? && Has(s, p, i)
    ensures Stays(s, Accept(s, from, id).0, p, i)
  {
    MailIsData(s, from, id);
    FirstPlace(s.grid, id, from);
  }

  lemma AltKeepsLinks(s: Net, id: nat, p: Place, i: int)
    requires Inv(s) && id < |s.cpu| && s.cpu[id].op == OpAlt && !p.Mbox? && Has(s, p, i)
    ensures Stays(s, Alt(s, id).0, p, i)
  {
    var c := s.cpu[id];
    var hit := Scan(c.clauses, Boxes(s, id), |s.cpu|, c.mboxStart, 0);
    if c.clauses != [] && hit >= 0 {
      var s1 := AltStart(s, id, hit);
      AcceptKeepsLinks(s1, hit, id, p, i);
    }
  }

  // The state in which alt accepts the message it found.
  lemma AltStart(s: Net, id: nat, hit: nat) returns (s1: Net)
    requires Inv(s) && id < |s.cpu| && s.cpu[id].op == OpAlt && s.cpu[id].clauses != []
    requires hit == Scan(s.cpu[id].clauses, Boxes(s, id), |s.cpu|, s.cpu[id].mboxStart, 0)
    ensures Inv(s1) && s1.q == s.q && s1.grid == s.grid && |s1.cpu| == |s.cpu| && !Waiting(s1.cpu[id]) && Q(s1, Mbox(id, hit)) != []
    ensures forall o :: 0 <= o < |s.cpu| && o != id ==> s1.cpu[o] == s.cpu[o]
    ensures Alt(s, id).0.q == Accept(s1, hit, id).0.q
  {
    var c := s.cpu[id];
    var c1 := if HasDefault(c.clauses) then c.(k1 := MINUS_ONE, op := OpNone, sent := false) else c;
    s1 := SetCpu(s, id, c1.(mboxStart := (hit + 1) % |s.cpu|));
    LocalInv(s, s1, id);
    assert Q(s1, Mbox(id, hit)) == Q(s, Mbox(id, hit));
  }

  // What became of a message that was in mailbox p when operate started: still there, or answered by an acknowledge now in a link,
  // or, being an acknowledge itself, it has released its owner.
  ghost predicate Answered(t: Net, o: nat) {
    exists r: Place, j: int :: !r.Mbox? && TokenAt(t, o, r, j) && At(t, r, j).ack
  }

  ghost predicate Fate(s: Net, t: Net, p: Place, ids: seq<nat>) {
    Has(s, p, 0) && var m := At(s, p, 0); var o := Owner(m);
    Stays(s, t, p, 0) || (!m.ack && Answered(t, o)) || (o in ids && o < |t.cpu| && !Waiting(t.cpu[o]))
  }

  lemma AcceptFate(s: Net, from: nat, id: nat, p: Place)
    requires Inv(s) && id < |s.cpu| && !Waiting(s.cpu[id]) && Q(s, Mbox(id, from)) != []
    requires p.Mbox? && p.id == id && Has(s, p, 0)
    ensures var t := Accept(s, from, id).0; Stays(s, t, p, 0) || (!At(s, p, 0).ack && Answered(t, Owner(At(s, p, 0))))
  {
    MailIsData(s, from, id);
    FirstPlace(s.grid, id, from);
    var (t, e) := Accept(s, from, id);
    if e == Done && p == Mbox(id, from) {
      var r := OutPlace(s.grid, id, from);
      assert ValidPlace(s.grid, r);
      assert TokenAt(t, from, r, |Q(s, r)|);
    }
  }

  lemma AltFate(s: Net, id: nat, p: Place)
    requires Inv(s) && id < |s.cpu| && s.cpu[id].op == OpAlt && p.Mbox? && p.id == id && Has(s, p, 0)
    ensures var t := Alt(s, id).0; Stays(s, t, p, 0) || (!At(s, p, 0).ack && Answered(t, Owner(At(s, p, 0))))
  {
    var c := s.cpu[id];
    var hit := Scan(c.clauses, Boxes(s, id), |s.cpu|, c.mboxStart, 0);
    if c.clauses != [] && hit >= 0 {
      var s1 := AltStart(s, id, hit);
      AcceptFate(s1, hit, id, p);
      if Answered(Accept(s1, hit, id).0, Owner(At(s, p, 0))) {
        AnsweredSame(Accept(s1, hit, id).0, Alt(s, id).0, Owner(At(s, p, 0)));
      }
    }
  }

  lemma OutputFate(s: Net, id: nat, p: Place)
    requires Inv(s) && id < |s.cpu| && s.cpu[id].op == OpOut && p.Mbox? && p.id == id && Has(s, p, 0)
    ensures var t := Output(s, s.cpu[id].corr, id).0;
      Stays(s, t, p, 0) || (Owner(At(s, p, 0)) == id && id < |t.cpu| && !Waiting(t.cpu[id]))
  {
    var c := s.cpu[id];
    HeadOk(s, p);
    InMailbox(s.grid, p.id, p.sender, At(s, p, 0));
    FirstPlace(s.grid, id, c.corr);
  }

  lemma OperateFate(s: Net, id: nat, p: Place)
    requires Inv(s) && id < |s.cpu| && p.Mbox? && Has(s, p, 0)
    ensures Fate(s, Operate(s, id).0, p, [id])
  {
    if p.id != id {
      OperateLocal(s, id);
    } else {
      var c := s.cpu[id];
      match c.op {
        case OpNone =>
        case OpIn =>
          if Q(s, Mbox(id, c.corr)) != [] {
            AcceptFate(s, c.corr, id, p);
          }
        case OpOut => OutputFate(s, id, p);
        case OpAlt => AltFate(s, id, p);
      }
    }
  }

  lemma AnsweredSame(s: Net, t: Net, o: nat)
    requires s.q == t.q && Answered(s, o)
    ensures Answered(t, o)
  {
    var r: Place, j: int :| !r.Mbox? && TokenAt(s, o, r, j) && At(s, r, j).ack;
    assert TokenAt(t, o, r, j);
  }

  lemma AnsweredOperate(s: Net, id: nat, o: nat)
    requires Inv(s) && id < |s.cpu| && Answered(s, o)
    ensures Answered(Operate(s, id).0, o)
  {
    var r: Place, j: int :| !r.Mbox? && TokenAt(s, o, r, j) && At(s, r, j).ack;
    OperateKeepsLinks(s, id, r, j);
    assert TokenAt(Operate(s, id).0, o, r, j);
  }

  lemma FateStep(s: Net, u: Net, p: Place, ids: seq<nat>, id: nat)
    requires Inv(u) && id < |u.cpu| && id !in ids && p.Mbox? && Fate(s, u, p, ids)
    ensures Fate(s, Operate(u, id).0, p, ids + [id])
  {
    hide Operate;
    var o := Owner(At(s, p, 0));
    OperateLocal(u, id);
    if Stays(s, u, p, 0) {
      OperateFate(u, id, p);
    } else if !At(s, p, 0).ack && Answered(u, o) {
      AnsweredOperate(u, id, o);
    }
  }

  lemma {:induction false} OperatesFate(s: Net, ids: seq<nat>, p: Place)
    requires Inv(s) && Ids(|s.cpu|, ids) && Distinct(ids) && p.Mbox? && Has(s, p, 0) && OperateNodes(s, ids).Fine?
    ensures Fate(s, OperateNodes(s, ids).net, p, ids)
  {
    hide Inv, Fate, Operate;
    if ids == [] {
      FateStart(s, p);
    } else {
      var l := |ids| - 1;
      OperatesFate(s, ids[..l], p);
      OperatePhase(s, ids[..l]);
      FateStep(s, OperateNodes(s, ids[..l]).net, p, ids[..l], ids[l]);
      assert ids == ids[..l] + [ids[l]];
    }
  }

  lemma FateStart(s: Net, p: Place)
    requires Has(s, p, 0)
    ensures Fate(s, s, p, [])
  {
  }

  lemma {:induction false} OperatesKeepLinks(s: Net, ids: seq<nat>, p: Place, i: int)
    requires Inv(s) && Ids(|s.cpu|, ids) && !p.Mbox? && Has(s, p, i) && OperateNodes(s, ids).Fine?
    ensures Stays(s, OperateNodes(s, ids).net, p, i) && OperateNodes(s, ids).net.grid == s.grid
  {
    hide Inv, Operate;
    if ids != [] {
      var l := |ids| - 1;
      OperatesKeepLinks(s, ids[..l], p, i);
      OperatePhase(s, ids[..l]);
      OperateKeepsLinks(OperateNodes(s, ids[..l]).net, ids[l], p, i);
      OperateLocal(OperateNodes(s, ids[..l]).net, ids[l]);
    }
  }

  // Where the token of o, at (p, i) of s, can be in u at the end of the network's part of the cycle.
  ghost predicate After(s: Net, u: Net, o: nat, p: Place, i: int, r: Place, j: int)
    requires Has(s, p, i)
  {
    || (TokenAt(u, o, r, j) && Closer(s, u, p, i, r, j))
    || (!At(s, p, i).ack && TokenAt(u, o, r, j) && At(u, r, j).ack)
    || (TokenAt(u, o, r, j) && r.Mbox?)
    || (o < |u.cpu| && !Waiting(u.cpu[o]))
  }

  // ... when fwd has left it in a link.
  lemma LinkAfter(s: Net, s2: Net, s3: Net, u: Net, o: nat, p: Place, i: int, r1: Place, j1: int, r: Place, j: int)
    requires TokenAt(s, o, p, i) && !p.Mbox? && s2.grid == s.grid && s3.grid == s.grid && u.grid == s.grid
    requires Nearer(s, s2, p, i, r1, j1, p.Inl?) && Stays(s2, s3, r1, j1) && Nearer(s3, u, r1, j1, r, j, r1.Outl?)
    ensures After(s, u, o, p, i, r, j)
  {
    NearerTwice(s, s2, s3, p, i, r1, j1, r1, j1, p.Inl?, false, p.Inl?);
    NearerTwice(s, s3, u, p, i, r1, j1, r, j, p.Inl?, r1.Outl?, true);
    TokenSame(s, u, o, p, i, r, j);
  }

  // ... and when it has put it into a mailbox.
  lemma MailAfter(s: Net, s2: Net, ids: seq<nat>, o: nat, p: Place, i: int, r1: Place, j1: int) returns (r: Place, j: int)
    requires Inv(s2) && Small(s2) && Ids(|s2.cpu|, ids) && Distinct(ids) && OperateNodes(s2, ids).Fine?
    requires TokenAt(s, o, p, i) && TokenAt(s2, o, r1, j1) && At(s2, r1, j1).ack == At(s, p, i).ack && r1.Mbox?
    ensures After(s, HopNodes(OperateNodes(s2, ids).net, ids), o, p, i, r, j)
  {
    hide Inv, OperateNodes, HopNodes, Fate, Small;
    MailHead(s2, r1, j1);
    OperatePhase(s2, ids);
    OperatesFate(s2, ids, r1);
    OperatesSmall(s2, ids);
    r, j := FateHop(s2, OperateNodes(s2, ids).net, ids, r1, o);
  }

  lemma {:induction false} OperatesSmall(s: Net, ids: seq<nat>)
    requires Ids(|s.cpu|, ids)
    ensures OperateNodes(s, ids).net.grid == s.grid
    ensures Small(s) ==> Small(OperateNodes(s, ids).net)
  {
    hide Operate;
    if ids != [] {
      OperatesSmall(s, ids[..|ids| - 1]);
      OperateLocal(OperateNodes(s, ids[..|ids| - 1]).net, ids[|ids| - 1]);
    }
  }

  lemma TokenAfter(s: Net, ids: seq<nat>, o: nat, p: Place, i: int) returns (r: Place, j: int)
    requires Boundary(s) && Small(s) && ids == Iota(|s.cpu|) && TokenAt(s, o, p, i) && !p.Mbox?
    requires OperateNodes(FwdNodes(s, ids), ids).Fine?
    ensures After(s, HopNodes(OperateNodes(FwdNodes(s, ids), ids).net, ids), o, p, i, r, j)
  {
    hide Inv, OperateNodes, FwdNodes, HopNodes, NoAcks, After, Left;
    Everyone(s, ids, p);
    FwdNodesSeen(s, ids);
    var r1, j1 := FwdNodesCloser(s, ids, p, i);
    var s2 := FwdNodes(s, ids);
    TokenSame(s, s2, o, p, i, r1, j1);
    if r1.Mbox? {
      r, j := MailAfter(s, s2, ids, o, p, i, r1, j1);
    } else {
      var s3 := OperateNodes(s2, ids).net;
      OperatePhase(s2, ids);
      OperatesKeepLinks(s2, ids, r1, j1);
      Everyone(s2, ids, r1);
      r, j := HopNodesCloser(s3, ids, r1, j1);
      LinkAfter(s, s2, s3, HopNodes(s3, ids), o, p, i, r1, j1, r, j);
    }
  }

  lemma Everyone(s: Net, ids: seq<nat>, p: Place)
    requires Inv(s) && ids == Iota(|s.cpu|) && (exists i :: Has(s, p, i))
    ensures Ids(|s.cpu|, ids) && Distinct(ids) && p.id in ids && (p.Inl? ==> p in Doors(ids))
  {
    assert p.id < |s.cpu|;
    assert ids[p.id] == p.id;
  }

  lemma TokenSame(s: Net, t: Net, o: nat, p: Place, i: int, r: Place, j: int)
    requires TokenAt(s, o, p, i) && (Closer(s, t, p, i, r, j) || (r == p && j == i && Stays(s, t, p, i)))
    ensures TokenAt(t, o, r, j) && At(t, r, j).ack == At(s, p, i).ack
  {
  }

  lemma MailHead(s: Net, p: Place, i: int)
    requires Inv(s) && p.Mbox? && Has(s, p, i)
    ensures i == 0
  {
  }

  // hop leaves mailboxes alone and loses no message.
  lemma FateHop(s: Net, t: Net, ids: seq<nat>, p: Place, o: nat) returns (r: Place, j: int)
    requires Inv(t) && Small(t) && Ids(|t.cpu|, ids) && Distinct(ids) && p.Mbox? && Fate(s, t, p, ids) && Owner(At(s, p, 0)) == o
    ensures var u := HopNodes(t, ids);
      (TokenAt(u, o, r, j) && r.Mbox?) || (!At(s, p, 0).ack && TokenAt(u, o, r, j) && At(u, r, j).ack)
      || (o < |u.cpu| && !Waiting(u.cpu[o]))
  {
    if Stays(s, t, p, 0) {
      r, j := HopNodesCloser(t, ids, p, 0);
    } else if !At(s, p, 0).ack && Answered(t, o) {
      var r0: Place, j0: int :| !r0.Mbox? && TokenAt(t, o, r0, j0) && At(t, r0, j0).ack;
      r, j := HopNodesCloser(t, ids, r0, j0);
    } else {
      r, j := p, 0;
    }
  }

  // The network's part of a cycle, with the messages where the processors left them.
  ghost predicate CycledFrom(s: Net, s1: Net, u: Net, t: Net) {
    && Boundary(s1) && s1.q == s.q && s1.grid == s.grid && |s1.cpu| == |s.cpu| && NetExecute(s1) == Fine(u)
    && Boundary(t) && t.q == u.q && t.cpu == u.cpu && t.grid == u.grid
  }

  lemma CycleParts(s: Net, acts: seq<Act>) returns (s1: Net, u: Net)
    requires Boundary(s) && LegalActs(s, acts) && Cycle(s, acts).Fine?
    ensures CycledFrom(s, s1, u, Cycle(s, acts).net)
  {
    hide Inv, NoAcks, NetExecute;
    var ids := Iota(|s.cpu|);
    CpuPhase(s, ids, acts);
    s1 := CpuNodes(s, ids, acts);
    SameMail(s, s1);
    u := NetExecute(s1).net;
    CycleInv(s, acts);
  }

  lemma TokenMoves(s1: Net, u: Net, o: nat, p: Place, i: int) returns (r: Place, j: int)
    requires Boundary(s1) && Small(s1) && NetExecute(s1) == Fine(u) && TokenAt(s1, o, p, i) && !p.Mbox?
    ensures u.grid == s1.grid && After(s1, u, o, p, i, r, j)
  {
    assert |s1.cpu| == s1.grid.Size();
    hide Inv, OperateNodes, FwdNodes, HopNodes, NoAcks, After;
    r, j := TokenAfter(s1, Iota(|s1.cpu|), o, p, i);
    NetExecuteInv(s1);
    ExecuteGrid(s1);
  }

  lemma ExecuteGrid(s: Net)
    requires |s.cpu| == s.grid.Size() && NetExecute(s).Fine?
    ensures NetExecute(s).net.grid == s.grid
  {
    var ids := Iota(|s.cpu|);
    hide Inv, FwdNodes, OperateNodes, HopNodes;
    NetOrder.FwdSweep(s, ids);
    NetOrder.SweepFrame(NetOrder.FwdPhase, s, ids);
    var f := FwdNodes(s, ids);
    OperatesSmall(f, ids);
    NetOrder.DeadAnyOrder(f, ids);
    NetOrder.SweepFrame(NetOrder.OperatePhase, f, ids);
    var t := OperateNodes(f, ids).net;
    NetOrder.HopSweep(t, ids);
    NetOrder.SweepFrame(NetOrder.HopPhase, t, ids);
  }

  /** While the token of a node stays in the links, with the same acknowledge flag, every cycle brings it closer. */
  lemma CycleCloser(s: Net, acts: seq<Act>, o: nat, p: Place, i: int, r: Place, j: int)
    requires Boundary(s) && Small(s) && LegalActs(s, acts) && Cycle(s, acts).Fine?
    requires TokenAt(s, o, p, i) && !p.Mbox?
    requires var t := Cycle(s, acts).net; TokenAt(t, o, r, j) && !r.Mbox? && At(t, r, j).ack == At(s, p, i).ack
    ensures Left(Cycle(s, acts).net, r, j) < Left(s, p, i) && Small(Cycle(s, acts).net)
  {
    assert |acts| == |s.cpu|;
    hide Inv, NoAcks, Left, LegalActs, Cycle;
    var s1, u := CycleParts(s, acts);
    var t := Cycle(s, acts).net;
    hide NetExecute;
    LeftSame(s, s1, p, i);
    var r', j' := TokenMoves(s1, u, o, p, i);
    AfterCloser(s1, u, t, o, p, i, r', j', r, j);
  }

  lemma AfterCloser(s: Net, u: Net, t: Net, o: nat, p: Place, i: int, r': Place, j': int, r: Place, j: int)
    requires TokenAt(s, o, p, i) && After(s, u, o, p, i, r', j') && Inv(t) && t.q == u.q && t.cpu == u.cpu && t.grid == u.grid == s.grid
    requires TokenAt(t, o, r, j) && !r.Mbox? && At(t, r, j).ack == At(s, p, i).ack
    ensures Left(t, r, j) < Left(s, p, i)
  {
    TokenWaits(t, o, r, j);
    hide Inv, Left;
    if TokenAt(u, o, r', j') {
      assert TokenAt(t, o, r', j');
      LeftSame(t, u, r', j');
    }
  }

  lemma LeftSame(s: Net, t: Net, p: Place, i: int)
    requires s.q == t.q && s.grid == t.grid && Has(s, p, i)
    ensures Has(t, p, i) && Left(s, p, i) == Left(t, p, i) && At(t, p, i) == At(s, p, i)
  {
  }

  // Where the token of o is after the first k cycles.
  ghost predicate InLinks(s: Net, prog: seq<seq<Act>>, o: nat, ack: bool)
    requires LegalRun(s, prog) && Run(s, prog).Fine?
  {
    exists p: Place, i: int :: TokenAt(Run(s, prog).net, o, p, i) && !p.Mbox? && At(Run(s, prog).net, p, i).ack == ack
  }

  ghost predicate AlwaysInLinks(s: Net, prog: seq<seq<Act>>, o: nat, ack: bool)
    requires LegalRun(s, prog) && Run(s, prog).Fine?
    decreases |prog|
  {
    InLinks(s, prog, o, ack) && (prog == [] || AlwaysInLinks(s, prog[..|prog| - 1], o, ack))
  }

  lemma {:induction false} LeftAfter(s: Net, prog: seq<seq<Act>>, o: nat, p: Place, i: int, r: Place, j: int)
    requires Boundary(s) && Small(s) && LegalRun(s, prog) && Run(s, prog).Fine?
    requires TokenAt(s, o, p, i) && !p.Mbox? && AlwaysInLinks(s, prog, o, At(s, p, i).ack)
    requires var t := Run(s, prog).net; TokenAt(t, o, r, j) && !r.Mbox? && At(t, r, j).ack == At(s, p, i).ack
    ensures Small(Run(s, prog).net) && Left(Run(s, prog).net, r, j) <= Left(s, p, i) - |prog|
  {
    if prog == [] {
      TokenWaits(s, o, p, i);
    } else {
      var l := |prog| - 1;
      var u := Run(s, prog[..l]).net;
      var q: Place, k: int :| TokenAt(u, o, q, k) && !q.Mbox? && At(u, q, k).ack == At(s, p, i).ack;
      RunInv(s, prog[..l]);
      LeftAfter(s, prog[..l], o, p, i, q, k);
      CycleCloser(u, prog[l], o, q, k, r, j);
    }
  }

  /** No message of a small mesh is under way for more than 8 times its distance plus 3 cycles. */
  lemma SmallDelivers(s: Net, prog: seq<seq<Act>>, o: nat, p: Place, i: int)
    requires Reachable(s) && Small(s) && LegalRun(s, prog) && Run(s, prog).Fine?
    requires TokenAt(s, o, p, i) && !p.Mbox? && AlwaysInLinks(s, prog, o, At(s, p, i).ack)
    ensures |prog| <= 8 * Dist(s.grid, At(s, p, i).from, At(s, p, i).to) + 3
  {
    ReachableInv(s);
    RunInv(s, prog);
    var t := Run(s, prog).net;
    var r: Place, j: int :| TokenAt(t, o, r, j) && !r.Mbox? && At(t, r, j).ack == At(s, p, i).ack;
    LeftAfter(s, prog, o, p, i, r, j);
    LeftBound(s, p, i);
    LeftBound(t, r, j);
  }

  lemma LeftBound(s: Net, p: Place, i: int)
    requires Inv(s) && Has(s, p, i)
    ensures 0 <= Left(s, p, i) <= 8 * Dist(s.grid, At(s, p, i).from, At(s, p, i).to) + 3
  {
    assert MsgOk(s.grid, s.cpu, p, At(s, p, i));
  }

  // ---------------------------------------------------------------- all messages together

  // The token of o is in a link, with this acknowledge flag.
  ghost predicate LinkToken(s: Net, o: nat, ack: bool, p: Place, i: int) { TokenAt(s, o, p, i) && !p.Mbox? && At(s, p, i).ack == ack }

  ghost predicate InLink(s: Net, o: nat, ack: bool) { exists p, i :: LinkToken(s, o, ack, p, i) }

  // The moves message (p, i) still has to make.
  ghost function Remaining(s: Net, p: Place, i: int): int
    requires Has(s, p, i)
  {
    2 * Dist(s.grid, At(s, p, i).from, At(s, p, i).to) - Progress(s.grid, At(s, p, i), p)
  }

  ghost function Moves(s: Net, o: nat, ack: bool): int {
    if InLink(s, o, ack) then
      var p, i :| LinkToken(s, o, ack, p, i);
      Remaining(s, p, i)
    else 0
  }

  // The moves that the message of o that is in a link of s still has to make in t.
  ghost function Kept(s: Net, t: Net, o: nat): int {
    (if InLink(s, o, false) then Moves(t, o, false) else 0) + (if InLink(s, o, true) then Moves(t, o, true) else 0)
  }

  // ... and those of all such messages.
  ghost function Work(s: Net, t: Net): int { Sum(Iota(|s.cpu|), (o: nat) => Kept(s, t, o)) }

  lemma MovesAt(s: Net, o: nat, ack: bool, p: Place, i: int)
    requires Inv(s) && LinkToken(s, o, ack, p, i)
    ensures Moves(s, o, ack) == Remaining(s, p, i) >= 1 && !InLink(s, o, !ack) && i < LINK_BUFSZ
  {
    TokenWaits(s, o, p, i);
    assert MsgOk(s.grid, s.cpu, p, At(s, p, i));
    assert |s.q[p]| <= Capacity(p);
  }

  lemma KeptLess(s: Net, acts: seq<Act>, o: nat, ack: bool, p: Place, i: int)
    requires Boundary(s) && Small(s) && LegalActs(s, acts) && Cycle(s, acts).Fine? && LinkToken(s, o, ack, p, i)
    ensures Kept(s, Cycle(s, acts).net, o) <= Kept(s, s, o)
    ensures i == 0 ==> Kept(s, Cycle(s, acts).net, o) < Kept(s, s, o)
  {
    var t := Cycle(s, acts).net;
    CycleInv(s, acts);
    hide Inv, NoAcks, Cycle, LegalActs, Dist, Progress;
    MovesAt(s, o, ack, p, i);
    assert InLink(s, o, ack);
    if InLink(t, o, ack) {
      var r: Place, j: int :| LinkToken(t, o, ack, r, j);
      MovesAt(t, o, ack, r, j);
      CycleCloser(s, acts, o, p, i, r, j);
    }
  }

  lemma KeptAtMost(s: Net, acts: seq<Act>, o: nat)
    requires Boundary(s) && Small(s) && LegalActs(s, acts) && Cycle(s, acts).Fine?
    ensures Kept(s, Cycle(s, acts).net, o) <= Kept(s, s, o)
  {
    hide Inv, NoAcks, Cycle, LegalActs, LinkToken;
    if ack :| InLink(s, o, ack) {
      var p: Place, i: int :| LinkToken(s, o, ack, p, i);
      KeptLess(s, acts, o, ack, p, i);
    }
  }

  /** While any message is in a link, every cycle lessens the total of the moves that the messages already there still have to make. */
  lemma CycleDrains(s: Net, acts: seq<Act>, p: Place)
    requires Boundary(s) && Small(s) && LegalActs(s, acts) && Cycle(s, acts).Fine? && !p.Mbox? && Q(s, p) != []
    ensures 0 <= Work(s, Cycle(s, acts).net) < Work(s, s)
  {
    assert |acts| == |s.cpu|;
    var t, o := Cycle(s, acts).net, Owner(Q(s, p)[0]);
    HeadOk(s, p);
    assert LinkToken(s, o, Q(s, p)[0].ack, p, 0) && o < |s.cpu|;
    hide Cycle, LinkToken, LegalActs, NoAcks, Kept, Work;
    CycleInv(s, acts);
    hide Inv;
    KeptLess(s, acts, o, Q(s, p)[0].ack, p, 0);
    forall x: nat ensures 0 <= Kept(s, t, x) <= Kept(s, s, x) {
      KeptAtMost(s, acts, x);
      KeptNatural(s, t, x);
    }
    WorkLess(s, t, o);
  }

  lemma WorkLess(s: Net, t: Net, o: nat)
    requires (forall x: nat :: 0 <= Kept(s, t, x) <= Kept(s, s, x)) && o < |s.cpu| && Kept(s, t, o) < Kept(s, s, o)
    ensures 0 <= Work(s, t) < Work(s, s)
  {
    hide Kept;
    var ids, f, g := Iota(|s.cpu|), (x: nat) => Kept(s, t, x), (x: nat) => Kept(s, s, x);
    assert f(ids[o]) < g(ids[o]);
    SumAtMost(ids, f, g);
    SumNatural(ids, f);
  }

  lemma KeptNatural(s: Net, t: Net, o: nat)
    requires Inv(t)
    ensures Kept(s, t, o) >= 0
  {
    forall ack ensures Moves(t, o, ack) >= 0 {
      if InLink(t, o, ack) {
        var p: Place, i: int :| LinkToken(t, o, ack, p, i);
        MovesAt(t, o, ack, p, i);
      }
    }
  }

  // ---------------------------------------------------------------- deadlocks are reported

  lemma FwdLinkMail(s: Net, id: nat, d: Dir, to: nat, from: nat)
    requires id < |s.cpu| && Q(s, Mbox(to, from)) != []
    ensures Q(FwdLink(s, id, d), Mbox(to, from)) != []
  {
  }

  lemma {:induction false} FwdPartMail(s: Net, id: nat, k: nat, to: nat, from: nat)
    requires id < |s.cpu| && Q(s, Mbox(to, from)) != []
    ensures Q(FwdPart(s, id, k), Mbox(to, from)) != []
  {
    if k > 0 {
      FwdPartMail(s, id, k - 1, to, from);
      FwdLinkMail(FwdPart(s, id, k - 1), id, DirAt(k - 1), to, from);
    }
  }

  lemma {:induction false} FwdNodesMail(s: Net, ids: seq<nat>, to: nat, from: nat)
    requires Ids(|s.cpu|, ids) && Q(s, Mbox(to, from)) != []
    ensures Q(FwdNodes(s, ids), Mbox(to, from)) != []
  {
    if ids != [] {
      FwdNodesMail(s, ids[..|ids| - 1], to, from);
      FwdPartMail(FwdNodes(s, ids[..|ids| - 1]), ids[|ids| - 1], LINK_NAMES, to, from);
    }
  }

  lemma StuckReports(s: Net, m: nat, n: nat)
    requires Inv(s) && Stuck(s, m, n) && Q(s, Mbox(n, m)) != []
    ensures Operate(s, n).1 == Deadlock
  {
    NoAckForStuck(s, n, m);
  }

  lemma BoxReports(s: Net, m: nat, n: nat)
    requires Boundary(s) && Stuck(s, m, n) && Q(s, Mbox(n, m)) != []
    ensures NetExecute(s).Dead?
  {
    var ids := Iota(|s.cpu|);
    var f := FwdNodes(s, ids);
    FwdNodesSeen(s, ids);
    FwdNodesCores(s, ids);
    FwdNodesMail(s, ids, n, m);
    NetOrder.FwdSweep(s, ids);
    NetOrder.SweepFrame(NetOrder.FwdPhase, s, ids);
    StuckSame(s, f, m, n);
    StuckReports(f, m, n);
    hide FwdNodes, OperateNodes, Operate, Inv, Stuck;
    assert ids[n] == n;
    NetOrder.DeadAnyOrder(f, ids);
  }

  /** On any mesh, a deadlock whose data has reached a mailbox is reported in the next cycle. */
  lemma MailReports(s: Net, acts: seq<Act>, m: nat, n: nat)
    requires Boundary(s) && LegalActs(s, acts) && Stuck(s, m, n) && Q(s, Mbox(n, m)) != []
    ensures Cycle(s, acts).Dead?
  {
    var ids := Iota(|s.cpu|);
    CpuPhase(s, ids, acts);
    StuckCpu(s, ids, acts, m, n);
    SameMail(s, CpuNodes(s, ids, acts));
    BoxReports(CpuNodes(s, ids, acts), m, n);
  }

  // The token of m is data on its way to n; in a mailbox it would be reported.
  lemma StuckInLinks(s: Net, acts: seq<Act>, m: nat, n: nat)
    requires Boundary(s) && LegalActs(s, acts) && Stuck(s, m, n) && Cycle(s, acts).Fine?
    ensures InLink(s, m, false)
  {
    hide Cycle, LegalActs, NoAcks;
    StuckData(s, m, n);
    assert HasToken(s, m);
    var p, i :| Has(s, p, i) && Owner(At(s, p, i)) == m;
    assert TokenAt(s, m, p, i);
    assert MsgOk(s.grid, s.cpu, p, At(s, p, i));
    if p.Mbox? {
      InMailbox(s.grid, p.id, p.sender, At(s, p, i));
      hide Inv, Stuck;
      MailReports(s, acts, m, n);
    }
    assert LinkToken(s, m, false, p, i);
  }

  lemma {:induction false} StuckRun(s: Net, prog: seq<seq<Act>>, m: nat, n: nat)
    requires Boundary(s) && LegalRun(s, prog) && Stuck(s, m, n) && Run(s, prog).Fine?
    ensures Stuck(Run(s, prog).net, m, n)
    ensures prog != [] ==> AlwaysInLinks(s, prog[..|prog| - 1], m, false)
    decreases |prog|
  {
    hide Boundary, Stuck, Cycle;
    if prog != [] {
      var l := |prog| - 1;
      var u := Run(s, prog[..l]).net;
      StuckRun(s, prog[..l], m, n);
      RunInv(s, prog[..l]);
      StuckInLinks(u, prog[l], m, n);
      var p, i :| LinkToken(u, m, false, p, i);
      assert InLinks(s, prog[..l], m, false);
      StuckForever(u, prog[l], m, n);
    }
  }

  /** On a small mesh every deadlock is reported, and soon: two nodes outputting to each other leave any run at most 8 times their distance
      plus 4 cycles without a report. */
  lemma DeadlockComplete(s: Net, prog: seq<seq<Act>>, m: nat, n: nat)
    requires Reachable(s) && Small(s) && Stuck(s, m, n) && LegalRun(s, prog)
    ensures |prog| > 8 * Dist(s.grid, m, n) + 4 ==> Run(s, prog).Dead?
  {
    if |prog| > 0 && Run(s, prog).Fine? {
      hide Dist, Boundary, Stuck, Reachable, Run;
      ReachableInv(s);
      StuckRun(s, prog, m, n);
      var before := prog[..|prog| - 1];
      FirstLink(s, before, m, n);
      var p, i :| LinkToken(s, m, false, p, i);
      StuckPeer(s, m, n, p, i);
      SmallDelivers(s, before, m, p, i);
    }
  }

  lemma StuckPeer(s: Net, m: nat, n: nat, p: Place, i: int)
    requires Boundary(s) && Stuck(s, m, n) && LinkToken(s, m, false, p, i)
    ensures At(s, p, i).from == m && At(s, p, i).to == n
  {
    assert MsgOk(s.grid, s.cpu, p, At(s, p, i));
  }

  lemma {:induction false} FirstLink(s: Net, prog: seq<seq<Act>>, m: nat, n: nat)
    requires LegalRun(s, prog) && Run(s, prog).Fine? && AlwaysInLinks(s, prog, m, false)
    ensures InLink(s, m, false)
    decreases |prog|
  {
    if prog == [] {
      var p: Place, i: int :| TokenAt(s, m, p, i) && !p.Mbox? && At(s, p, i).ack == false;
      assert LinkToken(s, m, false, p, i);
    } else {
      FirstLink(s, prog[..|prog| - 1], m, n);
    }
  }
}
