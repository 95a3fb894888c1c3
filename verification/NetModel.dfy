/** The message network of net.c and the communication half of datapath.c, as a state
    and its steps.  A step visits one link or one node, exactly as one iteration of the loops
    of `fwd`, `operate` and `hop` does. */
module NetModel {
  import opened Indices
  import opened Words
  import opened Mesh

  const LINK_BUFSZ: nat := 4
  const LINK_NAMES: nat := 4

  // (uint32_t) -1
  const MINUS_ONE: Word := WORD - 1

  // struct Msg.  The data of an acknowledge is left unset by the program; it is 0 here, and
  // no step reads it.
  datatype Msg = Msg(to: nat, from: nat, data: Word, hops: Word, ack: bool)

  // Where a message can be: a link buffer of a node, or the slot of a node's mailbox
  // reserved for one sender (a sequence of at most one message).
  datatype Place =
    | Inl(id: nat, dir: Dir)
    | Outl(id: nat, dir: Dir)
    | Mbox(id: nat, sender: nat)

  datatype Op = OpNone | OpIn | OpOut | OpAlt

  // What a node has sent to, taken from, and completed with each other node.
  datatype Log = Log(sent: map<nat, seq<Word>>, taken: map<nat, seq<Word>>, done: map<nat, nat>)

  /** The part of a processor the network sees: the COP2 registers (ST split into the
      operation and the sent flag), K1, the array of alternative clauses CORR and NCL
      denote, the mailbox counters, and the wait counters. */
  datatype Cpu = Cpu(
    running: bool, op: Op, sent: bool, corr: Word, data: Word, clauses: seq<Word>,
    k1: Word, hops: Word, nmsg: Word, mboxStart: nat, mboxNew: nat,
    waitin: nat, waitout: nat, waitalt: nat, log: Log)

  datatype Net = Net(grid: Grid, q: map<Place, seq<Msg>>, cpu: seq<Cpu>, nrun: int, cycle: nat)

  // Return values of operate and its callees.
  datatype Status = Done | Again | NoBufs | Deadlock

  function Get<T>(m: map<nat, seq<T>>, k: nat): seq<T> { if k in m then m[k] else [] }

  function Count(m: map<nat, nat>, k: nat): nat { if k in m then m[k] else 0 }

  function Q(s: Net, p: Place): seq<Msg> { if p in s.q then s.q[p] else [] }

  // Add a message at the tail of p, remove the one at the head, set a processor.
  function Push(s: Net, p: Place, m: Msg): Net { s.(q := s.q[p := Q(s, p) + [m]]) }

  function Pop(s: Net, p: Place): Net
    requires Q(s, p) != []
  {
    s.(q := s.q[p := Q(s, p)[1..]])
  }

  function SetCpu(s: Net, id: nat, c: Cpu): Net
    requires id < |s.cpu|
  {
    s.(cpu := s.cpu[id := c])
  }

  // ---------------------------------------------------------------- fwd

  function DirAt(k: nat): Dir { if k == 0 then North else if k == 1 then East else if k == 2 then South else West }

  function DirNo(d: Dir): (k: nat)
    ensures k < LINK_NAMES && DirAt(k) == d
  {
    match d
    case North => 0
    case East => 1
    case South => 2
    case West => 3
  }

  // The "mailbox is full" branch.
  predicate MailboxFull(s: Net, id: nat, d: Dir) {
    var b := Q(s, Inl(id, d));
    b != [] && Guidance(s.grid, id, b[0].to).Arrived? && Q(s, Mbox(id, b[0].from)) != []
  }

  // The "output link is full" branch.
  predicate OutputFull(s: Net, id: nat, d: Dir) {
    var b := Q(s, Inl(id, d));
    b != [] && match Guidance(s.grid, id, b[0].to)
               case Toward(o) => |Q(s, Outl(id, o))| == LINK_BUFSZ
               case Arrived => false
  }

  // Where fwd puts a message, and where hop does.
  function FwdPlace(g: Grid, id: nat, m: Msg): Place {
    match Guidance(g, id, m.to)
    case Toward(o) => Outl(id, o)
    case Arrived => Mbox(id, m.from)
  }

  // Message m takes the head's place in buffer r.
  function Transfer(s: Net, p: Place, r: Place, m: Msg): Net
    requires Q(s, p) != []
  {
    Push(Pop(s, p), r, m)
  }

  function Received(s: Net, id: nat): Net
    requires id < |s.cpu|
  {
    var c := s.cpu[id];
    SetCpu(s, id, c.(nmsg := (c.nmsg + 1) % WORD, mboxNew := c.mboxNew + 1))
  }

  predicate FwdSkips(s: Net, id: nat, d: Dir) {
    Q(s, Inl(id, d)) == [] || MailboxFull(s, id, d) || OutputFull(s, id, d)
  }

  // One iteration of fwd: input link d of node id.
  function FwdLink(s: Net, id: nat, d: Dir): Net
    requires id < |s.cpu|
  {
    if FwdSkips(s, id, d) then s
    else
      var m := Q(s, Inl(id, d))[0];
      var t := Transfer(s, Inl(id, d), FwdPlace(s.grid, id, m), m);
      if Guidance(s.grid, id, m.to).Arrived? then Received(t, id) else t
  }

  // The first k input links of node id.
  function FwdPart(s: Net, id: nat, k: nat): (r: Net)
    requires id < |s.cpu|
    ensures |r.cpu| == |s.cpu|
  {
    if k == 0 then s else FwdLink(FwdPart(s, id, k - 1), id, DirAt(k - 1))
  }

  function FwdNode(s: Net, id: nat): (r: Net)
    requires id < |s.cpu|
    ensures |r.cpu| == |s.cpu|
  {
    FwdPart(s, id, LINK_NAMES)
  }

  // ---------------------------------------------------------------- hop

  function HopPlace(g: Grid, id: nat, d: Dir): Place { Inl(HopTarget(g, id, d).0, Opposite(d)) }

  function Hopped(m: Msg): Msg { m.(hops := (m.hops + 1) % WORD) }

  predicate LinkBlocked(s: Net, id: nat, d: Dir) {
    HopTarget(s.grid, id, d).1 || |Q(s, HopPlace(s.grid, id, d))| == LINK_BUFSZ
  }

  predicate HopSkips(s: Net, id: nat, d: Dir) {
    Q(s, Outl(id, d)) == [] || LinkBlocked(s, id, d)
  }

  // One iteration of hop: output link d of node id.
  function HopLink(s: Net, id: nat, d: Dir): Net {
    if HopSkips(s, id, d) then s
    else Transfer(s, Outl(id, d), HopPlace(s.grid, id, d), Hopped(Q(s, Outl(id, d))[0]))
  }

  function HopPart(s: Net, id: nat, k: nat): (r: Net)
    ensures r.cpu == s.cpu
  {
    if k == 0 then s else HopLink(HopPart(s, id, k - 1), id, DirAt(k - 1))
  }

  function HopNode(s: Net, id: nat): (r: Net)
    ensures r.cpu == s.cpu
  {
    HopPart(s, id, LINK_NAMES)
  }

  // ---------------------------------------------------------------- operate

  // No room on the output link towards `to` (a node never talks to itself).
  predicate NoRoom(s: Net, id: nat, to: nat) {
    match Guidance(s.grid, id, to)
    case Toward(o) => |Q(s, Outl(id, o))| >= LINK_BUFSZ
    case Arrived => true
  }

  function OutPlace(g: Grid, id: nat, to: nat): Place {
    match Guidance(g, id, to)
    case Toward(o) => Outl(id, o)
    case Arrived => Mbox(id, to)
  }

  // The part input and alt share: acknowledge and take the message `from` left.
  function Accept(s: Net, from: nat, to: nat): (r: (Net, Status))
    requires to < |s.cpu| && Q(s, Mbox(to, from)) != []
    ensures |r.0.cpu| == |s.cpu|
  {
    var msg := Q(s, Mbox(to, from))[0];
    if NoRoom(s, to, msg.from) then (s, NoBufs)
    else
      var ack := Msg(msg.from, to, 0, msg.hops, true);
      var c := s.cpu[to];
      var c' := c.(data := msg.data, hops := (c.hops + msg.hops) % WORD, op := OpNone, sent := false,
                   log := c.log.(taken := c.log.taken[from := Get(c.log.taken, from) + [msg.data]]));
      (SetCpu(Push(Pop(s, Mbox(to, from)), OutPlace(s.grid, to, msg.from), ack), to, c'), Done)
  }

  function Input(s: Net, from: nat, to: nat): (Net, Status)
    requires to < |s.cpu|
  {
    if Q(s, Mbox(to, from)) == [] then (s, Again) else Accept(s, from, to)
  }

  function Output(s: Net, to: nat, from: nat): (Net, Status)
    requires from < |s.cpu|
  {
    var c := s.cpu[from];
    if c.sent then
      if Q(s, Mbox(from, to)) == [] then (s, Again)
      else if Q(s, Mbox(from, to))[0].ack then
        (SetCpu(Pop(s, Mbox(from, to)), from,
                c.(op := OpNone, sent := false, log := c.log.(done := c.log.done[to := Count(c.log.done, to) + 1]))),
         Done)
      else (s, Deadlock)
    else if NoRoom(s, from, to) then (s, NoBufs)
    else
      (SetCpu(Push(s, OutPlace(s.grid, from, to), Msg(to, from, c.data, 0, false)), from,
              c.(sent := true, log := c.log.(sent := c.log.sent[to := Get(c.log.sent, to) + [c.data]]))),
       Done)
  }

  // The senders whose slot at node `to` holds a message.
  function Boxes(s: Net, to: nat): set<nat> {
    set f | 0 <= f < |s.cpu| && Q(s, Mbox(to, f)) != []
  }

  // The first listed sender with mail, going round from `start`, after k refusals.
  function Scan(clauses: seq<Word>, boxes: set<nat>, size: nat, start: nat, k: nat): (r: int)
    ensures r >= 0 ==> r in boxes && r < size
    decreases size - k
  {
    if k >= size then -1
    else
      var cur := (start + k) % size;
      if cur in clauses && cur in boxes then cur else Scan(clauses, boxes, size, start, k + 1)
  }

  // A negative last clause makes the alternative non-blocking.
  predicate HasDefault(clauses: seq<Word>) {
    clauses != [] && clauses[|clauses| - 1] >= WORD / 2
  }

  function Alt(s: Net, to: nat): (Net, Status)
    requires to < |s.cpu|
  {
    var c := s.cpu[to];
    if c.clauses == [] then (s, Deadlock)
    else
      var df := HasDefault(c.clauses);
      var hit := Scan(c.clauses, Boxes(s, to), |s.cpu|, c.mboxStart, 0);
      var cur := if hit >= 0 then hit else c.mboxStart;
      var c1 := if df then c.(k1 := MINUS_ONE, op := OpNone, sent := false) else c;
      var s1 := SetCpu(s, to, c1.(mboxStart := (cur + 1) % |s.cpu|));
      if hit < 0 then (s1, if df then Done else Again)
      else
        var (s2, e) := Accept(s1, hit, to);
        if e != Done then (s2, e)
        else (SetCpu(s2, to, s2.cpu[to].(k1 := hit % WORD)), Done)
  }

  function Operate(s: Net, id: nat): (Net, Status)
    requires id < |s.cpu|
  {
    var c := s.cpu[id];
    match c.op
    case OpNone => (s, Done)
    case OpIn => Input(s, c.corr, id)
    case OpOut => Output(s, c.corr, id)
    case OpAlt => Alt(s, id)
  }

  // ---------------------------------------------------------------- processors

  /** What one instruction does to the state above.  `Compute` stands for every instruction that is not a
      communication or WAIT, a faulting one included: it leaves CORR, DATA and the clauses
      with the given values. */
  datatype Act = Compute(corr: Word, data: Word, clauses: seq<Word>) | DoInput | DoOutput | DoAlt | DoWait

  // Datapath_execute and the bookkeeping of sim: a blocked or stopped processor ignores its program.
  function CpuStep(s: Net, id: nat, a: Act): (r: Net)
    requires id < |s.cpu|
    ensures |r.cpu| == |s.cpu| && r.q == s.q && r.grid == s.grid
  {
    var c := s.cpu[id];
    if !c.running then s
    else
      match c.op
      case OpIn => SetCpu(s, id, c.(waitin := c.waitin + 1))
      case OpOut => SetCpu(s, id, c.(waitout := c.waitout + 1))
      case OpAlt => SetCpu(s, id, c.(waitalt := c.waitalt + 1))
      case OpNone =>
        match a
        case Compute(r, d, l) => SetCpu(s, id, c.(corr := r, data := d, clauses := l))
        case DoInput => SetCpu(s, id, c.(op := OpIn, sent := false, waitin := c.waitin + 1))
        case DoOutput => SetCpu(s, id, c.(op := OpOut, sent := false, waitout := c.waitout + 1))
        case DoAlt => SetCpu(s, id, c.(op := OpAlt, sent := false, waitalt := c.waitalt + 1))
        case DoWait => SetCpu(s, id, c.(running := false)).(nrun := s.nrun - 1)
  }

  // What the library functions C2_input and C2_output need of their arguments.
  predicate Legal(s: Net, id: nat, a: Act)
    requires id < |s.cpu|
  {
    var c := s.cpu[id];
    c.running && c.op == OpNone ==>
      (a == DoInput ==> c.corr < |s.cpu|) && (a == DoOutput ==> c.corr < |s.cpu| && c.corr != id)
  }

  // ---------------------------------------------------------------- a cycle

  // The loops of sim and Net_execute visit nodes in the order 0, 1, ...; here any order is given.
  function CpuNodes(s: Net, ids: seq<nat>, acts: seq<Act>): (r: Net)
    requires Ids(|s.cpu|, ids) && |acts| == |s.cpu|
    ensures |r.cpu| == |s.cpu| && r.q == s.q && r.grid == s.grid
  {
    if ids == [] then s
    else
      var l := |ids| - 1;
      CpuStep(CpuNodes(s, ids[..l], acts), ids[l], acts[ids[l]])
  }

  function FwdNodes(s: Net, ids: seq<nat>): (r: Net)
    requires Ids(|s.cpu|, ids)
    ensures |r.cpu| == |s.cpu|
  {
    if ids == [] then s
    else
      var l := |ids| - 1;
      FwdNode(FwdNodes(s, ids[..l]), ids[l])
  }

  function HopNodes(s: Net, ids: seq<nat>): (r: Net)
    ensures r.cpu == s.cpu
  {
    if ids == [] then s
    else
      var l := |ids| - 1;
      HopNode(HopNodes(s, ids[..l]), ids[l])
  }

  // The operate loop, which stops at the first node that reports a deadlock.
  datatype Outcome = Fine(net: Net) | Dead(net: Net, node: nat)

  lemma OperateSize(s: Net, id: nat)
    requires id < |s.cpu|
    ensures |Operate(s, id).0.cpu| == |s.cpu|
  {
  }

  function OperateNodes(s: Net, ids: seq<nat>): (r: Outcome)
    requires Ids(|s.cpu|, ids)
    ensures |r.net.cpu| == |s.cpu|
  {
    if ids == [] then Fine(s)
    else
      var l := |ids| - 1;
      match OperateNodes(s, ids[..l])
      case Dead(t, n) => Dead(t, n)
      case Fine(t) =>
        OperateSize(t, ids[l]);
        var (t', e) := Operate(t, ids[l]);
        if e == Deadlock then Dead(t', ids[l]) else Fine(t')
  }

  // Net_execute.
  function NetExecute(s: Net): (r: Outcome)
    ensures |r.net.cpu| == |s.cpu|
  {
    var ids := Iota(|s.cpu|);
    match OperateNodes(FwdNodes(s, ids), ids)
    case Dead(t, n) => Dead(t, n)
    case Fine(t) => Fine(HopNodes(t, ids))
  }

  function CountCycle(o: Outcome): Outcome {
    match o
    case Dead(t, n) => o
    case Fine(t) => Fine(t.(cycle := t.cycle + 1))
  }

  // One iteration of the loop of sim.
  function Cycle(s: Net, acts: seq<Act>): (r: Outcome)
    requires |acts| == |s.cpu|
    ensures |r.net.cpu| == |s.cpu|
  {
    CountCycle(NetExecute(CpuNodes(s, Iota(|s.cpu|), acts)))
  }

  // What create builds, with the mailboxes empty.
  ghost predicate Initial(s: Net) {
    && |s.cpu| == s.grid.Size() == s.nrun
    && s.cycle == 0
    && (forall p :: p in s.q <==> ValidPlace(s.grid, p))
    && (forall p :: p in s.q ==> s.q[p] == [])
    && (forall i :: 0 <= i < |s.cpu| ==> Fresh(s.cpu[i]))
  }

  ghost predicate Fresh(c: Cpu) {
    c.running && c.op == OpNone && !c.sent && c.mboxStart == 0 && c.log == Log(map[], map[], map[])
  }

  ghost predicate ValidPlace(g: Grid, p: Place) {
    p.id < g.Size() && (p.Mbox? ==> p.sender < g.Size())
  }
}
