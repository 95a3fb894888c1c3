/** The alternative command chooses fairly: its search goes round from a mark that each
    execution leaves just behind its choice. */
module NetAlt {
  import opened Indices
  import opened Words
  import opened Mesh
  import opened NetModel
  import opened NetInvariant
  import opened NetOperate
  import opened NetRun
  import opened NetOrder
  import opened NetTheorems

  // How far the search gets before it looks at node p.
  function Offset(size: nat, start: nat, p: nat): nat
    requires start < size && p < size
  {
    if p >= start then p - start else p + size - start
  }

  lemma OffsetMod(size: nat, start: nat, k: nat)
    requires start < size && k < size
    ensures (start + k) % size < size && Offset(size, start, (start + k) % size) == k
  {
    if start + k >= size {
      DivModUnique(size, 1, start + k - size);
    }
  }

  /** The search finds the listed sender with mail that is nearest behind the mark, and finds none only when there is none. */
  lemma {:induction false} ScanNearest(clauses: seq<Word>, boxes: set<nat>, size: nat, start: nat, k: nat)
    requires start < size && k <= size
    ensures var r := Scan(clauses, boxes, size, start, k);
      if r >= 0 then
        r < size && r in clauses && r in boxes && Offset(size, start, r) >= k &&
        forall p: nat :: p < size && p in clauses && p in boxes && k <= Offset(size, start, p) ==>
          Offset(size, start, r) <= Offset(size, start, p)
      else
        forall p: nat :: p < size && p in clauses && p in boxes ==> Offset(size, start, p) < k
    decreases size - k
  {
    if k < size {
      OffsetMod(size, start, k);
      ScanNearest(clauses, boxes, size, start, k + 1);
      forall p: nat | p < size && Offset(size, start, p) == k ensures p == (start + k) % size {
        if start + k >= size {
          DivModUnique(size, 1, start + k - size);
        }
      }
    }
  }

  // One execution: the clauses, and the senders with mail at that time.
  datatype Call = Call(clauses: seq<Word>, boxes: set<nat>)

  // The node after h.
  function Succ(size: nat, h: nat): nat { if h + 1 == size then 0 else h + 1 }

  lemma SuccMod(size: nat, h: nat)
    requires h < size
    ensures (h + 1) % size == Succ(size, h) < size
  {
    if h + 1 == size {
      DivModUnique(size, 1, 0);
    }
  }

  // What consecutive executions choose, each starting at the mark the one before left.
  function Choices(size: nat, start: nat, calls: seq<Call>): (r: seq<int>)
    requires start < size
    ensures |r| == |calls|
    decreases |calls|
  {
    if calls == [] then []
    else
      var hit := Scan(calls[0].clauses, calls[0].boxes, size, start, 0);
      [hit] + Choices(size, Succ(size, if hit >= 0 then hit else start), calls[1..])
  }

  lemma OffsetStep(size: nat, start: nat, h: nat, p: nat)
    requires start < size && h < size && p < size && Offset(size, start, h) < Offset(size, start, p)
    ensures Offset(size, Succ(size, h), p) == Offset(size, start, p) - Offset(size, start, h) - 1
  {
  }

  // ... and, read backwards, an offset seen from the new mark.
  lemma OffsetBack(size: nat, start: nat, h: nat, x: nat, bound: nat)
    requires start < size && h < size && x < size && bound < size
    requires Offset(size, start, h) + 1 + Offset(size, Succ(size, h), x) <= bound
    ensures Offset(size, start, x) == Offset(size, start, h) + 1 + Offset(size, Succ(size, h), x)
  {
  }

  // The choice at k is p, and the choices before it lie ever further behind the mark, none further than p.
  ghost predicate Approach(size: nat, start: nat, choices: seq<int>, p: nat, k: nat)
    requires start < size && p < size
  {
    && k < |choices| && k <= Offset(size, start, p) && choices[k] == p
    && (forall i :: 0 <= i <= k ==> 0 <= choices[i] < size && Offset(size, start, choices[i]) <= Offset(size, start, p))
    && (forall i, j :: 0 <= i < j <= k ==> Offset(size, start, choices[i]) < Offset(size, start, choices[j]))
  }

  lemma ApproachStep(size: nat, start: nat, h: nat, rest: seq<int>, p: nat, j: nat)
    requires start < size && p < size && h < size && Offset(size, start, h) < Offset(size, start, p)
    requires Approach(size, Succ(size, h), rest, p, j)
    ensures Approach(size, start, [h] + rest, p, j + 1)
  {
    OffsetStep(size, start, h, p);
    var all: seq<int> := [h] + rest;
    forall i | 0 <= i <= j
      ensures 0 <= rest[i] < size
      ensures Offset(size, start, rest[i]) == Offset(size, start, h) + 1 + Offset(size, Succ(size, h), rest[i])
    {
      OffsetBack(size, start, h, rest[i], Offset(size, start, p));
    }
    hide Offset, Succ;
    assert forall i :: 1 <= i <= j + 1 ==> all[i] == rest[i - 1];
  }

  // p is listed and has mail in every execution, until one chooses it.
  ghost predicate WaitsFor(choices: seq<int>, calls: seq<Call>, p: nat)
    requires |choices| == |calls|
  {
    forall i :: 0 <= i < |calls| && p !in choices[..i] ==> p in calls[i].clauses && p in calls[i].boxes
  }

  lemma WaitsOn(h: int, rest: seq<int>, calls: seq<Call>, p: nat)
    requires |calls| == |rest| + 1 && WaitsFor([h] + rest, calls, p) && h != p
    ensures WaitsFor(rest, calls[1..], p)
  {
    forall i | 0 <= i < |rest| && p !in rest[..i] ensures p in calls[1..][i].clauses && p in calls[1..][i].boxes {
      assert ([h] + rest)[..i + 1] == [h] + rest[..i];
      assert calls[1..][i] == calls[i + 1];
    }
  }

  lemma {:induction false} FairFrom(size: nat, start: nat, calls: seq<Call>, p: nat) returns (k: nat)
    requires start < size && p < size && Offset(size, start, p) < |calls|
    requires WaitsFor(Choices(size, start, calls), calls, p)
    ensures Approach(size, start, Choices(size, start, calls), p, k)
    decreases |calls|
  {
    var h := Scan(calls[0].clauses, calls[0].boxes, size, start, 0);
    assert p !in Choices(size, start, calls)[..0];
    ScanNearest(calls[0].clauses, calls[0].boxes, size, start, 0);
    var rest := Choices(size, Succ(size, h), calls[1..]);
    assert Choices(size, start, calls) == [h] + rest;
    hide Scan, Choices;
    if h == p {
      k := 0;
    } else {
      assert Offset(size, start, h) < Offset(size, start, p);
      OffsetStep(size, start, h, p);
      WaitsOn(h, rest, calls, p);
      var j := FairFrom(size, Succ(size, h), calls[1..], p);
      ApproachStep(size, start, h, rest, p, j);
      k := j + 1;
    }
  }

  /** A sender that is listed and has mail until it is chosen is chosen within as many executions as there are nodes, and no
      other sender is chosen twice before it. */
  lemma AltFair(size: nat, start: nat, calls: seq<Call>, p: nat) returns (k: nat)
    requires start < size && p < size && |calls| >= size
    requires WaitsFor(Choices(size, start, calls), calls, p)
    ensures k < size && Choices(size, start, calls)[k] == p
    ensures forall i :: 0 <= i <= k ==> Choices(size, start, calls)[i] >= 0
    ensures forall i, j :: 0 <= i < j <= k ==> Choices(size, start, calls)[i] != Choices(size, start, calls)[j]
  {
    k := FairFrom(size, start, calls, p);
  }

  // ---------------------------------------------------------------- the executions of a run

  // The sender an alternative of node `to` finds, negative for none.
  function Chosen(s: Net, to: nat): int
    requires to < |s.cpu|
  {
    Scan(s.cpu[to].clauses, Boxes(s, to), |s.cpu|, s.cpu[to].mboxStart, 0)
  }

  function CallOf(s: Net, to: nat): Call
    requires to < |s.cpu|
  {
    Call(s.cpu[to].clauses, Boxes(s, to))
  }

  /** An executed alternative leaves the mark just behind its choice, or one on if it finds none.  Its choice is a listed sender with mail,
      and unless there is no room for the acknowledge it takes that sender's value and reports the sender. */
  lemma AltChoice(s: Net, to: nat)
    requires to < |s.cpu| <= 65536 && s.cpu[to].mboxStart < |s.cpu| && s.cpu[to].clauses != []
    ensures var hit := Chosen(s, to); var (t, e) := Alt(s, to);
      && |t.cpu| == |s.cpu|
      && t.cpu[to].mboxStart == Succ(|s.cpu|, if hit >= 0 then hit else s.cpu[to].mboxStart)
      && (hit >= 0 ==> hit < |s.cpu| && hit in s.cpu[to].clauses && Q(s, Mbox(to, hit)) != [] && e in {Done, NoBufs})
      && (hit >= 0 && e == Done ==>
           && t.cpu[to].k1 == hit && t.cpu[to].data == Q(s, Mbox(to, hit))[0].data
           && Get(t.cpu[to].log.taken, hit) == Get(s.cpu[to].log.taken, hit) + [t.cpu[to].data])
  {
    var c := s.cpu[to];
    ScanNearest(c.clauses, Boxes(s, to), |s.cpu|, c.mboxStart, 0);
    var hit := Chosen(s, to);
    AltMark(s, to);
    if hit >= 0 {
      assert Q(s, Mbox(to, hit)) != [];
      AltTakes(s, to, hit);
    }
  }

  lemma AltMark(s: Net, to: nat)
    requires to < |s.cpu| && s.cpu[to].mboxStart < |s.cpu| && s.cpu[to].clauses != []
    ensures var hit := Chosen(s, to); var t := Alt(s, to).0;
      |t.cpu| == |s.cpu| && t.cpu[to].mboxStart == Succ(|s.cpu|, if hit >= 0 then hit else s.cpu[to].mboxStart)
  {
    var hit := Chosen(s, to);
    SuccMod(|s.cpu|, if hit >= 0 then hit else s.cpu[to].mboxStart);
    hide Scan, Boxes, NoRoom, OutPlace, Succ;
  }

  lemma AltTakes(s: Net, to: nat, hit: nat)
    requires to < |s.cpu| <= 65536 && s.cpu[to].clauses != [] && hit < |s.cpu| && hit == Chosen(s, to) && Q(s, Mbox(to, hit)) != []
    ensures var (t, e) := Alt(s, to);
      && |t.cpu| == |s.cpu| && e in {Done, NoBufs}
      && (e == Done ==>
           && t.cpu[to].k1 == hit && t.cpu[to].data == Q(s, Mbox(to, hit))[0].data
           && Get(t.cpu[to].log.taken, hit) == Get(s.cpu[to].log.taken, hit) + [t.cpu[to].data])
  {
    assert hit % WORD == hit;
    hide Scan, Boxes, NoRoom, OutPlace, HasDefault;
  }

  // A listed sender has mail.
  ghost predicate SomeMail(s: Net, to: nat)
    requires to < |s.cpu|
  {
    exists f :: 0 <= f < |s.cpu| && f in s.cpu[to].clauses && Q(s, Mbox(to, f)) != []
  }

  lemma ChosenMail(s: Net, to: nat)
    requires to < |s.cpu| && s.cpu[to].mboxStart < |s.cpu|
    ensures Chosen(s, to) >= 0 <==> SomeMail(s, to)
    ensures Chosen(s, to) >= 0 ==> Chosen(s, to) < |s.cpu| && Q(s, Mbox(to, Chosen(s, to))) != []
  {
    ScanNearest(s.cpu[to].clauses, Boxes(s, to), |s.cpu|, s.cpu[to].mboxStart, 0);
    hide Scan;
    if f :| 0 <= f < |s.cpu| && f in s.cpu[to].clauses && Q(s, Mbox(to, f)) != [] {
      assert f in Boxes(s, to);
      assert Offset(|s.cpu|, s.cpu[to].mboxStart, f) >= 0;
    }
  }

  // An alternative is non-blocking if the last of its clauses is negative as a signed word.
  predicate LastNegative(clauses: seq<Word>) { clauses != [] && clauses[|clauses| - 1] >= 0x8000_0000 }

  // Only the mark of node `to` differs, and if the alternative is non-blocking it has ended with -1.
  ghost predicate Unanswered(s: Net, to: nat, t: Net)
    requires to < |s.cpu|
  {
    && |t.cpu| == |s.cpu| && t == s.(cpu := s.cpu[to := t.cpu[to]])
    && var c, mark := s.cpu[to], t.cpu[to].mboxStart;
       t.cpu[to] == if LastNegative(c.clauses) then c.(k1 := 0xFFFF_FFFF, op := OpNone, sent := false, mboxStart := mark)
                    else c.(mboxStart := mark)
  }

  // No room on the link on which a message from `to` to `from` sets out.
  ghost predicate LinkFull(s: Net, to: nat, from: nat) { |Q(s, PlaceOf(s.grid, to, from, 0))| >= 4 }

  /** What an executed alternative answers, in all its cases: a deadlock without clauses; with no mail from a listed sender, done and -1 in K1 if
      its last clause is negative, and otherwise to be tried again with all as it was; with such mail but no room for the acknowledge,
      an error, the message staying in its slot; and else it is done, as AltChoice says. */
  lemma AltAnswer(s: Net, to: nat)
    requires Inv(s) && to < |s.cpu| && s.cpu[to].op == OpAlt
    ensures var (t, e) := Alt(s, to); var c := s.cpu[to];
      if c.clauses == [] then (t, e) == (s, Deadlock)
      else if !SomeMail(s, to) then Unanswered(s, to, t) && e == (if LastNegative(c.clauses) then Done else Again)
      else Chosen(s, to) >= 0 &&
           if LinkFull(s, to, Chosen(s, to)) then Unanswered(s, to, t) && e == NoBufs
           else e == Done && |t.cpu| == |s.cpu| && t.cpu[to].op == OpNone && !t.cpu[to].sent && Q(t, Mbox(to, Chosen(s, to))) == []
  {
    assert CpuOk(|s.cpu|, to, s.cpu[to]) && |s.cpu| == s.grid.Size();
    var c := s.cpu[to];
    ChosenMail(s, to);
    if Chosen(s, to) >= 0 {
      RoomIs(s, to, Chosen(s, to));
      AltFound(s, to);
    } else {
      hide Inv, Scan, Boxes;
    }
  }

  lemma RoomIs(s: Net, to: nat, from: nat)
    requires Inv(s) && to < |s.cpu| && !Waiting(s.cpu[to]) && Q(s, Mbox(to, from)) != []
    ensures from < |s.cpu| && from != to && Q(s, Mbox(to, from))[0].from == from && |Q(s, Mbox(to, from))| == 1
    ensures NoRoom(s, to, from) <==> LinkFull(s, to, from)
    ensures OutPlace(s.grid, to, from) != Mbox(to, from)
  {
    MailIsData(s, from, to);
    OneMail(s, Mbox(to, from));
    FirstPlace(s.grid, to, from);
  }

  lemma AltFound(s: Net, to: nat)
    requires to < |s.cpu| && s.cpu[to].op == OpAlt && s.cpu[to].clauses != [] && Chosen(s, to) >= 0
    requires var from := Chosen(s, to);
      && from < |s.cpu| && Q(s, Mbox(to, from)) != [] && Q(s, Mbox(to, from))[0].from == from && |Q(s, Mbox(to, from))| == 1
      && (NoRoom(s, to, from) <==> LinkFull(s, to, from)) && OutPlace(s.grid, to, from) != Mbox(to, from)
    ensures var (t, e) := Alt(s, to);
      if LinkFull(s, to, Chosen(s, to)) then Unanswered(s, to, t) && e == NoBufs
      else e == Done && |t.cpu| == |s.cpu| && t.cpu[to].op == OpNone && !t.cpu[to].sent && Q(t, Mbox(to, Chosen(s, to))) == []
  {
    hide Scan, Boxes, LinkFull, OutPlace, Guidance;
    var c := s.cpu[to];
    var c1 := if HasDefault(c.clauses) then c.(k1 := MINUS_ONE, op := OpNone, sent := false) else c;
    var s1 := SetCpu(s, to, c1.(mboxStart := (Chosen(s, to) + 1) % |s.cpu|));
    assert NoRoom(s1, to, Chosen(s, to)) == NoRoom(s, to, Chosen(s, to)) by {
      assert forall x :: Q(s1, x) == Q(s, x);
    }
    assert Q(s1, Mbox(to, Chosen(s, to))) == Q(s, Mbox(to, Chosen(s, to)));
    hide NoRoom;
  }

  // The state in which the operate phase of a cycle finds the nodes.
  function Snapshot(s: Net, acts: seq<Act>): (u: Net)
    requires |acts| == |s.cpu|
    ensures |u.cpu| == |s.cpu|
  {
    FwdNodes(CpuNodes(s, Iota(|s.cpu|), acts), Iota(|s.cpu|))
  }

  lemma {:induction false} CpuMarks(s: Net, ids: seq<nat>, acts: seq<Act>, to: nat)
    requires Ids(|s.cpu|, ids) && |acts| == |s.cpu| && to < |s.cpu|
    ensures CpuNodes(s, ids, acts).cpu[to].mboxStart == s.cpu[to].mboxStart
  {
    if ids != [] {
      CpuMarks(s, ids[..|ids| - 1], acts, to);
    }
  }

  lemma OperateMark(s: Net, id: nat)
    requires id < |s.cpu| && s.cpu[id].op != OpAlt
    ensures |Operate(s, id).0.cpu| == |s.cpu| && Operate(s, id).0.cpu[id].mboxStart == s.cpu[id].mboxStart
  {
  }

  lemma SnapshotMark(s: Net, acts: seq<Act>, to: nat)
    requires |acts| == |s.cpu| && to < |s.cpu|
    ensures Snapshot(s, acts).cpu[to].mboxStart == s.cpu[to].mboxStart
  {
    var ids := Iota(|s.cpu|);
    CpuMarks(s, ids, acts, to);
    FwdNodesCores(CpuNodes(s, ids, acts), ids);
    hide FwdNodes, CpuNodes;
  }

  // A cycle leaves a processor as its own operation on the snapshot does.
  lemma SnapshotFine(s: Net, acts: seq<Act>, to: nat)
    requires Boundary(s) && LegalActs(s, acts) && Cycle(s, acts).Fine? && to < |s.cpu|
    ensures var u, t := Snapshot(s, acts), Cycle(s, acts).net;
      |t.cpu| == |s.cpu| && Operate(u, to).1 != Deadlock && |Operate(u, to).0.cpu| == |u.cpu| && t.cpu[to] == Operate(u, to).0.cpu[to]
  {
    var ids := Iota(|s.cpu|);
    var s1 := CpuNodes(s, ids, acts);
    CpuPhase(s, ids, acts);
    SameMail(s, s1);
    FwdNodesSeen(s1, ids);
    var u := FwdNodes(s1, ids);
    assert ids[to] == to;
    DeadAnyOrder(u, ids);
    SweepParallel(NetOrder.OperatePhase, u, ids, to);
    OperateLocal(u, to);
    hide FwdNodes, CpuNodes, Operate, Inv;
  }

  /** Only an executed alternative changes the mark of its node.  More exactly, a cycle leaves a processor as its own operation on the
      snapshot does, and up to that operation its mark stays. */
  lemma CycleMark(s: Net, acts: seq<Act>, to: nat)
    requires Boundary(s) && LegalActs(s, acts) && Cycle(s, acts).Fine? && to < |s.cpu|
    ensures var u, t := Snapshot(s, acts), Cycle(s, acts).net;
      && |t.cpu| == |s.cpu| && u.cpu[to].mboxStart == s.cpu[to].mboxStart && Operate(u, to).1 != Deadlock
      && |Operate(u, to).0.cpu| == |u.cpu| && t.cpu[to] == Operate(u, to).0.cpu[to]
      && t.cpu[to].mboxStart == if u.cpu[to].op == OpAlt then Alt(u, to).0.cpu[to].mboxStart else s.cpu[to].mboxStart
  {
    var u := Snapshot(s, acts);
    SnapshotMark(s, acts, to);
    SnapshotFine(s, acts, to);
    hide Snapshot, Cycle, Inv, Alt, Input, Output;
    if u.cpu[to].op != OpAlt {
      OperateMark(u, to);
    }
  }

  // The states in which node `to` executes its alternative, over a run.
  ghost function Executions(s: Net, prog: seq<seq<Act>>, to: nat): seq<Net>
    requires LegalRun(s, prog) && to < |s.cpu|
    decreases |prog|
  {
    if prog == [] then []
    else
      var u := Snapshot(Run(s, prog[..|prog| - 1]).net, prog[|prog| - 1]);
      var before := Executions(s, prog[..|prog| - 1], to);
      if to < |u.cpu| && u.cpu[to].op == OpAlt then before + [u] else before
  }

  // Each execution starts at the mark the one before left.
  ghost predicate Chained(size: nat, start: nat, states: seq<Net>, to: nat, end: nat) {
    && to < size && start < size
    && (forall i :: 0 <= i < |states| ==>
      |states[i].cpu| == size && states[i].cpu[to].clauses != [] && states[i].cpu[to].mboxStart < size)
    && (forall i :: 0 <= i < |states| ==> states[i].cpu[to].mboxStart == MarkAt(start, states, to, i))
    && end == MarkAt(start, states, to, |states|)
  }

  function MarkAt(start: nat, states: seq<Net>, to: nat, i: nat): nat
    requires i <= |states| && (i > 0 ==> to < |states[i - 1].cpu|)
  {
    if i == 0 then start else NextMark(states[i - 1], to)
  }

  function NextMark(s: Net, to: nat): nat
    requires to < |s.cpu|
  {
    Succ(|s.cpu|, if Chosen(s, to) >= 0 then Chosen(s, to) else s.cpu[to].mboxStart)
  }

  lemma ChainMore(size: nat, start: nat, states: seq<Net>, to: nat, mark: nat, u: Net)
    requires Chained(size, start, states, to, mark)
    requires |u.cpu| == size && u.cpu[to].clauses != [] && u.cpu[to].mboxStart == mark < size
    ensures Chained(size, start, states + [u], to, NextMark(u, to))
  {
    hide NextMark;
  }

  // The chain of executions, before and after a cycle.
  ghost predicate ChainedOn(size: nat, start: nat, before: seq<Net>, t: Net, acts: seq<Act>, to: nat) {
    && |acts| == |t.cpu| == size && to < size && |Cycle(t, acts).net.cpu| == size
    && var u := Snapshot(t, acts);
       Chained(size, start, if u.cpu[to].op == OpAlt then before + [u] else before, to, Cycle(t, acts).net.cpu[to].mboxStart)
  }

  lemma ExecutionStep(size: nat, start: nat, before: seq<Net>, t: Net, acts: seq<Act>, to: nat)
    requires |acts| == |t.cpu| == size && to < size <= 65536 && t.cpu[to].mboxStart < size
    requires Boundary(t) && LegalActs(t, acts) && Cycle(t, acts).Fine?
    requires Chained(size, start, before, to, t.cpu[to].mboxStart)
    ensures ChainedOn(size, start, before, t, acts, to)
  {
    hide Snapshot, Cycle, Boundary, LegalActs, Chosen, Alt, Operate, Chained;
    CycleMark(t, acts, to);
    var u := Snapshot(t, acts);
    if u.cpu[to].op == OpAlt {
      HasClauses(u, to);
      AltChoice(u, to);
      ChainMore(size, start, before, to, t.cpu[to].mboxStart, u);
    }
  }

  lemma HasClauses(u: Net, to: nat)
    requires to < |u.cpu| && u.cpu[to].op == OpAlt && Operate(u, to).1 != Deadlock
    ensures u.cpu[to].clauses != []
  {
  }

  ghost predicate RunChained(s: Net, prog: seq<seq<Act>>, to: nat)
    requires LegalRun(s, prog) && to < |s.cpu|
  {
    && |Run(s, prog).net.cpu| == |s.cpu|
    && Chained(|s.cpu|, s.cpu[to].mboxStart, Executions(s, prog, to), to, Run(s, prog).net.cpu[to].mboxStart)
  }

  // The executions of a run are chained by the mark of the node.
  lemma {:induction false} ExecutionsChained(s: Net, prog: seq<seq<Act>>, to: nat)
    requires Boundary(s) && LegalRun(s, prog) && Run(s, prog).Fine? && to < |s.cpu|
    ensures RunChained(s, prog, to)
    decreases |prog|
  {
    hide Boundary, Snapshot, Cycle;
    MarkInside(s, to);
    if prog != [] {
      var l := |prog| - 1;
      var t := Run(s, prog[..l]).net;
      ExecutionsChained(s, prog[..l], to);
      RunInv(s, prog[..l]);
      MarkInside(t, to);
      assert LegalActs(t, prog[l]) && |prog[l]| == |t.cpu|;
      hide LegalActs;
      ExecutionStep(|s.cpu|, s.cpu[to].mboxStart, Executions(s, prog[..l], to), t, prog[l], to);
      hide Chained;
    }
  }

  lemma MarkInside(s: Net, to: nat)
    requires Boundary(s) && to < |s.cpu|
    ensures s.cpu[to].mboxStart < |s.cpu| <= 65536
  {
    assert CpuOk(|s.cpu|, to, s.cpu[to]);
  }

  lemma ChainTail(size: nat, start: nat, states: seq<Net>, to: nat, end: nat)
    requires Chained(size, start, states, to, end) && states != []
    ensures states[0].cpu[to].mboxStart == start && Chained(size, NextMark(states[0], to), states[1..], to, end)
  {
    NextInside(states[0], to);
    hide NextMark;
    var later := states[1..];
    assert forall i :: 0 <= i < |later| ==> later[i] == states[i + 1];
    forall i | 0 <= i < |later| ensures later[i].cpu[to].mboxStart == MarkAt(NextMark(states[0], to), later, to, i) {
      assert states[i + 1].cpu[to].mboxStart == MarkAt(start, states, to, i + 1);
    }
  }

  lemma ChoicesStep(size: nat, start: nat, calls: seq<Call>, s: Net, to: nat)
    requires start < size && calls != [] && to < |s.cpu| == size && s.cpu[to].mboxStart == start && calls[0] == CallOf(s, to)
    ensures NextMark(s, to) < size && Choices(size, start, calls) == [Chosen(s, to)] + Choices(size, NextMark(s, to), calls[1..])
  {
    NextInside(s, to);
    hide Scan;
  }

  // Chained executions choose what the recursive search predicts.
  lemma {:induction false} ChainedChoices(size: nat, start: nat, states: seq<Net>, to: nat, end: nat, calls: seq<Call>)
    requires Chained(size, start, states, to, end) && |calls| == |states|
    requires forall i :: 0 <= i < |states| ==> calls[i] == CallOf(states[i], to)
    ensures forall i :: 0 <= i < |states| ==> Choices(size, start, calls)[i] == Chosen(states[i], to)
    decreases |states|
  {
    if states != [] {
      ChainTail(size, start, states, to, end);
      ChoicesStep(size, start, calls, states[0], to);
      var later := states[1..];
      assert forall i :: 0 <= i < |later| ==> later[i] == states[i + 1];
      hide Choices, NextMark, Chosen, MarkAt, CallOf;
      ChainedChoices(size, NextMark(states[0], to), later, to, end, calls[1..]);
      forall i | 1 <= i < |states| ensures Choices(size, start, calls)[i] == Chosen(states[i], to) {
        assert later[i - 1] == states[i];
      }
    }
  }

  lemma NextInside(s: Net, to: nat)
    requires to < |s.cpu| && s.cpu[to].mboxStart < |s.cpu|
    ensures NextMark(s, to) < |s.cpu|
  {
  }

  // p is listed and has mail whenever the node executes an alternative, until one of them chooses p.
  ghost predicate WaitsIn(states: seq<Net>, to: nat, p: nat)
    requires forall i :: 0 <= i < |states| ==> to < |states[i].cpu|
  {
    forall i :: 0 <= i < |states| && (forall j :: 0 <= j < i ==> Chosen(states[j], to) != p) ==>
      p in states[i].cpu[to].clauses && p in Boxes(states[i], to)
  }

  // k is the first execution that chooses p, no other sender is chosen twice up to it, and each choice
  // is taken and reported unless there is no room for its acknowledge.
  ghost predicate ChosenFairly(size: nat, e: seq<Net>, to: nat, p: nat, k: nat)
    requires forall i :: 0 <= i < |e| ==> to < |e[i].cpu|
  {
    && k < |e| && k < size && Chosen(e[k], to) == p
    && (forall i, j :: 0 <= i < j <= k ==> Chosen(e[i], to) != Chosen(e[j], to))
    && (forall i :: 0 <= i <= k ==> Reports(e[i], to))
  }

  predicate Reports(s: Net, to: nat)
    requires to < |s.cpu|
  {
    var (t, e) := Alt(s, to);
    && |t.cpu| == |s.cpu| && e in {Done, NoBufs}
    && (e == Done ==> t.cpu[to].k1 == Chosen(s, to))
  }

  lemma CallsWait(states: seq<Net>, to: nat, p: nat, choices: seq<int>, calls: seq<Call>)
    requires |choices| == |calls| == |states|
    requires forall i :: 0 <= i < |states| ==>
      to < |states[i].cpu| && calls[i] == CallOf(states[i], to) && choices[i] == Chosen(states[i], to)
    requires WaitsIn(states, to, p)
    ensures WaitsFor(choices, calls, p)
  {
    hide Chosen, Boxes;
    forall i | 0 <= i < |calls| && p !in choices[..i] ensures p in calls[i].clauses && p in calls[i].boxes {
      assert forall j :: 0 <= j < i ==> choices[..i][j] == choices[j];
    }
  }

  lemma ChoiceReports(size: nat, s: Net, to: nat)
    requires to < |s.cpu| == size <= 65536 && s.cpu[to].mboxStart < size && s.cpu[to].clauses != [] && Chosen(s, to) >= 0
    ensures Reports(s, to)
  {
    AltChoice(s, to);
    hide Alt, Chosen;
  }

  function CallsOf(states: seq<Net>, to: nat): (calls: seq<Call>)
    requires forall i :: 0 <= i < |states| ==> to < |states[i].cpu|
    ensures |calls| == |states| && forall i :: 0 <= i < |states| ==> calls[i] == CallOf(states[i], to)
  {
    seq(|states|, i requires 0 <= i < |states| => CallOf(states[i], to))
  }

  lemma FairChain(size: nat, start: nat, e: seq<Net>, to: nat, end: nat, p: nat) returns (k: nat)
    requires Chained(size, start, e, to, end) && size <= 65536 && |e| >= size && p < size && WaitsIn(e, to, p)
    ensures ChosenFairly(size, e, to, p, k)
  {
    hide Chosen, Choices, MarkAt, CallOf, Reports, Offset, CallsOf, WaitsIn, WaitsFor;
    var calls := CallsOf(e, to);
    ChainedChoices(size, start, e, to, end, calls);
    CallsWait(e, to, p, Choices(size, start, calls), calls);
    k := AltFair(size, start, calls, p);
    forall i | 0 <= i <= k ensures Chosen(e[i], to) >= 0 && Reports(e[i], to) {
      assert Choices(size, start, calls)[i] == Chosen(e[i], to);
      ChoiceReports(size, e[i], to);
    }
  }

  /** Fairness over the runs: a sender that is listed and has mail whenever a node executes an alternative, until it is
      chosen, is chosen within as many executions as there are nodes, no other sender is chosen twice before it, and
      each of these choices is taken and reported unless there is no room for its acknowledge. */
  lemma AltFairRun(s: Net, prog: seq<seq<Act>>, to: nat, p: nat) returns (k: nat)
    requires Reachable(s) && LegalRun(s, prog) && Run(s, prog).Fine? && to < |s.cpu| && p < |s.cpu|
    requires var e := Executions(s, prog, to);
      |e| >= |s.cpu| && (forall i :: 0 <= i < |e| ==> to < |e[i].cpu|) && WaitsIn(e, to, p)
    ensures var e := Executions(s, prog, to);
      (forall i :: 0 <= i < |e| ==> to < |e[i].cpu|) && ChosenFairly(|s.cpu|, e, to, p, k)
  {
    hide Executions, Run, LegalRun, WaitsIn, Chained, ChosenFairly, Boundary, Reachable;
    ReachableInv(s);
    MarkInside(s, to);
    ExecutionsChained(s, prog, to);
    k := FairChain(|s.cpu|, s.cpu[to].mboxStart, Executions(s, prog, to), to, Run(s, prog).net.cpu[to].mboxStart, p);
    ChainedShare(|s.cpu|, s.cpu[to].mboxStart, Executions(s, prog, to), to, Run(s, prog).net.cpu[to].mboxStart);
  }

  lemma ChainedShare(size: nat, start: nat, e: seq<Net>, to: nat, end: nat)
    requires Chained(size, start, e, to, end)
    ensures forall i :: 0 <= i < |e| ==> to < |e[i].cpu|
  {
  }
}
