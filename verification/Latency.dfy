/** How long a rendezvous takes when nobody else sends: the data crosses one link in each cycle, waits for
    its input or alternative, and the acknowledge crosses back. */
module Latency {
  import opened Indices
  import opened Words
  import opened Mesh
  import opened NetModel
  import opened NetInvariant
  import opened NetProcessor
  import opened LoneMessage

  // Where the rendezvous is between two cycles: the data or the acknowledge on its k-th link, the
  // data in the mailbox, or all over.
  datatype Trip = DataOn(k: nat) | InBox | AckOn(k: nat) | Released

  ghost predicate Flight(s: Net, m: nat, n: nat, v: Word, trip: Trip) {
    OthersPassive(s, m, n) &&
    var d := Dist(s.grid, m, n);
    match trip
    case DataOn(k) => 1 <= k <= d && OnWay(s, m, n, k, Data(m, n, v, k % WORD)) && Listens(s.cpu[n], m, |s.cpu|)
    case InBox => Pair(s, m, n, true) && Alone(s, Mbox(n, m), Data(m, n, v, d % WORD)) && Listens(s.cpu[n], m, |s.cpu|)
    case AckOn(k) => 1 <= k <= d && OnWay(s, m, n, k, AckOf(m, n, (d + k) % WORD)) && Passive(s.cpu[n])
    case Released => Empty(s) && Quiet(s.cpu[m]) && Passive(s.cpu[n])
  }

  // Message msg is on the k-th link of its way.
  ghost predicate OnWay(s: Net, m: nat, n: nat, k: nat, msg: Msg) {
    Pair(s, m, n, true) && k >= 1 && Alone(s, PlaceOf(s.grid, msg.from, msg.to, 2 * k - 1), msg)
  }

  // What a cycle does to it; `ready` says that n waits for m.
  function Onward(d: nat, trip: Trip, ready: bool): Trip {
    match trip
    case DataOn(k) => if k < d then DataOn(k + 1) else if ready then AckOn(1) else InBox
    case InBox => if ready then AckOn(1) else InBox
    case AckOn(k) => if k < d then AckOn(k + 1) else Released
    case Released => Released
  }

  // What the phases of the network achieve.
  ghost predicate Flown(c: Net, o: Outcome, m: nat, n: nat, v: Word, trip': Trip) {
    && m < |c.cpu| && n < |c.cpu| && o.Fine? && o.net.grid == c.grid && |o.net.cpu| == |c.cpu|
    && Flight(o.net, m, n, v, trip') && o.net.cpu[m].waitout == c.cpu[m].waitout
    && (if trip' == AckOn(1) then Took(c.cpu[n], o.net.cpu[n], m, v) else Still(c.cpu[n], o.net.cpu[n], m, |c.cpu|))
  }

  // ---------------------------------------------------------------- the network

  ghost predicate Bounds(s: Net, m: nat, n: nat) {
    && m < |s.cpu| && n < |s.cpu| && m != n && Meshed(s)
    && Dist(s.grid, n, m) == Dist(s.grid, m, n) >= 1 && 2 * Dist(s.grid, m, n) + 1 < WORD
  }

  // Hop counts stay below the width of their field.
  lemma DistFits(s: Net, m: nat, n: nat)
    requires OthersPassive(s, m, n)
    ensures Bounds(s, m, n)
  {
    DistBound(s.grid, m, n);
    DistZero(s.grid, m, n);
  }

  lemma GoneOn(c: Net, o: Outcome, m: nat, n: nat, v: Word, k: nat)
    requires Bounds(c, m, n) && k < Dist(c.grid, m, n)
    requires GoesOn(c, c, o, m, n, PlaceOf(c.grid, m, n, 2 * k + 1), Data(m, n, v, k + 1)) && Listens(c.cpu[n], m, |c.cpu|)
    ensures Flown(c, o, m, n, v, DataOn(k + 1))
  {
    hide PlaceOf, Dist, Alone, Listens, Passive;
  }

  lemma DataFlies(c: Net, m: nat, n: nat, v: Word, k: nat)
    requires Flight(c, m, n, v, DataOn(k)) && k < Dist(c.grid, m, n)
    ensures Flown(c, NetExecute(c), m, n, v, DataOn(k + 1))
  {
    hide PlaceOf, Dist, NetExecute, Alone, Pair, Flown, Hopped, Listens, GoesOn;
    DistFits(c, m, n);
    ListensPassive(c.cpu[n], m, |c.cpu|);
    Travels(c, m, n, k, Data(m, n, v, k));
    HopCounts(m, n, v, k);
    GoneOn(c, NetExecute(c), m, n, v, k);
  }

  lemma GoneBack(c: Net, o: Outcome, m: nat, n: nat, v: Word, k: nat)
    requires Bounds(c, m, n) && 1 <= k < Dist(c.grid, m, n)
    requires GoesOn(c, c, o, m, n, PlaceOf(c.grid, n, m, 2 * k + 1), AckOf(m, n, Dist(c.grid, m, n) + k + 1))
    ensures Flown(c, o, m, n, v, AckOn(k + 1))
  {
    hide PlaceOf, Dist, Alone, Listens, Passive;
  }

  lemma AckFlies(c: Net, m: nat, n: nat, v: Word, k: nat)
    requires Flight(c, m, n, v, AckOn(k)) && k < Dist(c.grid, m, n)
    ensures Flown(c, NetExecute(c), m, n, v, AckOn(k + 1))
  {
    hide PlaceOf, Dist, NetExecute, Alone, Pair, Flown, Hopped, Passive, GoesOn;
    DistFits(c, m, n);
    Travels(c, m, n, k, AckOf(m, n, Dist(c.grid, m, n) + k));
    HopCounts(m, n, v, Dist(c.grid, m, n) + k);
    GoneBack(c, NetExecute(c), m, n, v, k);
  }

  // What happens to the data in the mailbox.
  lemma BoxTaken(c: Net, f: Net, m: nat, n: nat, v: Word)
    requires Bounds(c, m, n) && FwdGone(c, f, m, n, Mbox(n, m), Data(m, n, v, Dist(c.grid, m, n))) && f.cpu[n].mboxStart < |f.cpu|
    requires Receives(c.cpu[n], m)
    ensures Flown(c, Hops(Operates(f)), m, n, v, AckOn(1))
  {
    hide PlaceOf, Dist, Operates, Hops, Alone, Pair;
    CountsPassive(c.cpu[n], f.cpu[n]);
    hide Receives, Passive;
    Takes(c, f, m, n, v, Dist(c.grid, m, n));
    hide Counts;
    TookFrom(c, f, Hops(Operates(f)), m, n, v);
  }

  lemma TookFrom(c: Net, f: Net, o: Outcome, m: nat, n: nat, v: Word)
    requires Bounds(c, m, n) && |f.cpu| == |c.cpu|
    requires TakenFrom(c, f, o, m, n, v, PlaceOf(c.grid, n, m, 1), AckOf(m, n, Dist(c.grid, m, n) + 1)) && Counts(c.cpu[n], f.cpu[n])
    ensures Flown(c, o, m, n, v, AckOn(1))
  {
    hide PlaceOf, Dist, Alone;
  }

  lemma BoxRests(c: Net, f: Net, m: nat, n: nat, v: Word)
    requires Bounds(c, m, n) && FwdGone(c, f, m, n, Mbox(n, m), Data(m, n, v, Dist(c.grid, m, n)))
    requires Quiet(c.cpu[n]) && Listens(c.cpu[n], m, |c.cpu|)
    ensures Flown(c, Hops(Operates(f)), m, n, v, InBox)
  {
    var msg := Data(m, n, v, Dist(c.grid, m, n));
    hide PlaceOf, Dist, Operates, Hops, Alone, Pair, Still;
    CountsPassive(c.cpu[n], f.cpu[n]);
    ListensPassive(c.cpu[n], m, |c.cpu|);
    hide Quiet, Listens, Passive, Receives, Flown, GoesOn;
    Rests(c, f, m, n, msg);
    GoesOnFrom(c, f, Hops(Operates(f)), m, n, Mbox(n, m), Mbox(n, m), msg, msg);
    RestsFlown(c, Hops(Operates(f)), m, n, v);
  }

  lemma RestsFlown(c: Net, o: Outcome, m: nat, n: nat, v: Word)
    requires Bounds(c, m, n) && GoesOn(c, c, o, m, n, Mbox(n, m), Data(m, n, v, Dist(c.grid, m, n))) && Listens(c.cpu[n], m, |c.cpu|)
    ensures Flown(c, o, m, n, v, InBox)
  {
    hide Dist, Alone, Listens, Passive;
  }

  lemma BoxFlies(c: Net, f: Net, m: nat, n: nat, v: Word)
    requires Bounds(c, m, n) && FwdGone(c, f, m, n, Mbox(n, m), Data(m, n, v, Dist(c.grid, m, n))) && Listens(c.cpu[n], m, |c.cpu|)
    ensures Flown(c, Hops(Operates(f)), m, n, v, if Receives(c.cpu[n], m) then AckOn(1) else InBox)
  {
    hide PlaceOf, Dist, Operates, Hops, Alone, Pair, Flown;
    if Receives(c.cpu[n], m) {
      BoxTaken(c, f, m, n, v);
    } else {
      BoxRests(c, f, m, n, v);
    }
  }

  lemma Arrives(c: Net, m: nat, n: nat, v: Word)
    requires Flight(c, m, n, v, DataOn(Dist(c.grid, m, n)))
    ensures Bounds(c, m, n) && FwdGone(c, Fwds(c), m, n, Mbox(n, m), Data(m, n, v, Dist(c.grid, m, n))) && Listens(c.cpu[n], m, |c.cpu|)
  {
    hide Dist, Fwds, Alone, Pair, FwdGone, PlaceOf, Listens;
    DistFits(c, m, n);
    LastPlace(c.grid, m, n);
    FwdGoes(c, m, n, 2 * Dist(c.grid, m, n) - 1, Data(m, n, v, Dist(c.grid, m, n)));
  }

  lemma InBoxAlready(c: Net, m: nat, n: nat, v: Word)
    requires Flight(c, m, n, v, InBox)
    ensures Bounds(c, m, n) && FwdGone(c, Fwds(c), m, n, Mbox(n, m), Data(m, n, v, Dist(c.grid, m, n))) && Listens(c.cpu[n], m, |c.cpu|)
  {
    hide Dist, PlaceOf, Listens, OthersPassive;
    DistFits(c, m, n);
    assert forall id, d :: Q(c, Inl(id, d)) == [];
    hide Alone;
    FwdNothing(c);
  }

  lemma AckArrives(c: Net, m: nat, n: nat, v: Word)
    requires Flight(c, m, n, v, AckOn(Dist(c.grid, m, n)))
    ensures Bounds(c, m, n) && FwdGone(c, Fwds(c), m, n, Mbox(m, n), AckOf(m, n, 2 * Dist(c.grid, m, n))) && Passive(c.cpu[n])
  {
    hide Dist, Fwds, Alone, Pair, FwdGone, PlaceOf, Passive;
    DistFits(c, m, n);
    var d := Dist(c.grid, m, n);
    assert (d + d) % WORD == 2 * d;
    LastPlace(c.grid, n, m);
    FwdGoes(c, m, n, 2 * d - 1, AckOf(m, n, 2 * d));
  }

  lemma LastPlace(g: Grid, from: nat, to: nat)
    ensures PlaceOf(g, from, to, 2 * Dist(g, from, to)) == Mbox(to, from)
  {
  }

  lemma LastFlies(c: Net, m: nat, n: nat, v: Word)
    requires Flight(c, m, n, v, AckOn(Dist(c.grid, m, n)))
    ensures Flown(c, NetExecute(c), m, n, v, Released)
  {
    AckArrives(c, m, n, v);
    hide Dist, Fwds, Hops, Operates, NetExecute, Alone, Pair, Flight, Flown, Over, Passive;
    NetExecuteIs(c);
    CountsPassive(c.cpu[n], Fwds(c).cpu[n]);
    Releases(c, Fwds(c), m, n, 2 * Dist(c.grid, m, n));
    OverFlown(c, Fwds(c), Hops(Operates(Fwds(c))), m, n, v);
  }

  lemma OverFlown(c: Net, f: Net, o: Outcome, m: nat, n: nat, v: Word)
    requires Bounds(c, m, n) && |f.cpu| == |c.cpu|
    requires Over(c, f, o, m, n) && f.cpu[n].mboxStart == c.cpu[n].mboxStart && Counts(c.cpu[n], f.cpu[n])
    ensures Flown(c, o, m, n, v, Released)
  {
    hide Dist, Empty;
    StillTwice(c.cpu[n], f.cpu[n], o.net.cpu[n], m, |c.cpu|);
    hide Counts;
  }

  lemma LinkEnds(c: Net, m: nat, n: nat, v: Word, trip: Trip)
    requires Flight(c, m, n, v, trip) && (trip == DataOn(Dist(c.grid, m, n)) || trip == InBox) && n < |c.cpu|
    ensures Flown(c, NetExecute(c), m, n, v, if Receives(c.cpu[n], m) then AckOn(1) else InBox)
  {
    hide Dist, Fwds, Hops, Operates, NetExecute, FwdGone, Flight, Flown, Listens, Receives, Bounds;
    NetExecuteIs(c);
    if trip == InBox {
      InBoxAlready(c, m, n, v);
    } else {
      Arrives(c, m, n, v);
    }
    BoxFlies(c, Fwds(c), m, n, v);
  }

  lemma NetFlies(c: Net, m: nat, n: nat, v: Word, trip: Trip)
    requires Flight(c, m, n, v, trip) && !trip.Released? && n < |c.cpu|
    ensures Flown(c, NetExecute(c), m, n, v, Onward(Dist(c.grid, m, n), trip, Receives(c.cpu[n], m)))
  {
    hide Dist, NetExecute, Flown, OnWay, Pair, OthersPassive, Alone, Listens, Receives, Passive;
    match trip
    case DataOn(k) => if k < Dist(c.grid, m, n) { DataFlies(c, m, n, v, k); } else { LinkEnds(c, m, n, v, trip); }
    case InBox => LinkEnds(c, m, n, v, trip);
    case AckOn(k) => if k < Dist(c.grid, m, n) { AckFlies(c, m, n, v, k); } else { LastFlies(c, m, n, v); }
  }

  // ---------------------------------------------------------------- the processors

  // The instruction starts neither an output nor an alternative without clauses.
  predicate Harmless(c: Cpu, a: Act) {
    c.running && c.op.OpNone? ==> !a.DoOutput? && (a.DoAlt? ==> c.clauses != [])
  }

  lemma StaysPassive(c: Cpu, a: Act)
    requires Passive(c) && Harmless(c, a)
    ensures Passive(Instruction(c, a)) && Instruction(c, a).log == c.log
  {
  }

  // From c to d a processor has waited k cycles, in an operation of this kind.
  predicate WaitedIn(c: Cpu, d: Cpu, kind: Op, k: int) {
    d.waitin == c.waitin + (if kind.OpIn? then k else 0) && d.waitalt == c.waitalt + (if kind.OpAlt? then k else 0)
  }

  lemma StaysListening(c: Cpu, a: Act, m: nat, size: nat)
    requires Listens(c, m, size) && Listens(Instruction(c, a), m, size)
    ensures var c' := Instruction(c, a);
      && c'.log == c.log && WaitedIn(c, c', c'.op, if Receives(c', m) then 1 else 0)
      && (Receives(c, m) ==> Receives(c', m) && c'.op == c.op)
  {
  }

  lemma StaysBlocked(c: Cpu, a: Act, n: nat)
    requires Outputs(c, n, true)
    ensures Outputs(Instruction(c, a), n, true) && Instruction(c, a).waitout == c.waitout + 1
  {
  }

  lemma OutputBegins(c: Cpu, a: Act, n: nat)
    requires c.running && Quiet(c) && c.corr == n && a.DoOutput?
    ensures var c' := Instruction(c, a); Outputs(c', n, false) && c'.waitout == c.waitout + 1 && c'.data == c.data
  {
  }

  // In this cycle the other nodes are harmless, and n, until it has received, only computes or waits for m.
  ghost predicate Calm(s: Net, acts: seq<Act>, m: nat, n: nat, received: bool) {
    && |acts| == |s.cpu| && m < |s.cpu| && n < |s.cpu|
    && (forall i :: 0 <= i < |acts| && i != m && i != n ==> Harmless(s.cpu[i], acts[i]))
    && (if received then Harmless(s.cpu[n], acts[n]) else Listens(Instruction(s.cpu[n], acts[n]), m, |s.cpu|))
  }

  // The processors' phase as seen by the two ends.
  ghost predicate Instructed(s: Net, acts: seq<Act>, c: Net, m: nat, n: nat) {
    && m < |s.cpu| && n < |s.cpu| == |c.cpu| == |acts| && c.grid == s.grid && c.q == s.q
    && c.cpu[m] == Instruction(s.cpu[m], acts[m]) && c.cpu[n] == Instruction(s.cpu[n], acts[n])
    && OthersPassive(c, m, n)
  }

  function Executed(s: Net, acts: seq<Act>): (c: Net)
    requires |acts| == |s.cpu|
    ensures |c.cpu| == |s.cpu|
  {
    CpuNodes(s, Iota(|s.cpu|), acts)
  }

  lemma CpuPair(s: Net, acts: seq<Act>, m: nat, n: nat, received: bool)
    requires OthersPassive(s, m, n) && Calm(s, acts, m, n, received)
    ensures Instructed(s, acts, Executed(s, acts), m, n)
  {
    CpuEach(s, acts, |s.cpu|);
    hide CpuNodes, Instruction, Passive, Harmless, Listens;
    forall i | 0 <= i < |s.cpu| && i != m && i != n ensures Passive(Instruction(s.cpu[i], acts[i])) {
      StaysPassive(s.cpu[i], acts[i]);
    }
  }

  lemma SamePlaces(t: Net, t': Net)
    requires t'.q == t.q
    ensures forall p, msg :: Alone(t', p, msg) <==> Alone(t, p, msg)
    ensures Empty(t') <==> Empty(t)
  {
    assert forall x :: Q(t', x) == Q(t, x);
  }

  // The processors' phase of a cycle while the message is under way.
  ghost predicate Stepped(s: Net, c: Net, m: nat, n: nat, received: bool) {
    && m < |s.cpu| && n < |s.cpu| == |c.cpu| && c.grid == s.grid
    && c.cpu[m].waitout == s.cpu[m].waitout + 1 && c.cpu[n].log == s.cpu[n].log
    && (!received ==>
         Listens(c.cpu[n], m, |c.cpu|) && WaitedIn(s.cpu[n], c.cpu[n], c.cpu[n].op, if Receives(c.cpu[n], m) then 1 else 0))
  }

  lemma CpuFlight(s: Net, acts: seq<Act>, m: nat, n: nat, v: Word, trip: Trip)
    requires Flight(s, m, n, v, trip) && !trip.Released? && Calm(s, acts, m, n, trip.AckOn?)
    ensures Flight(Executed(s, acts), m, n, v, trip) && Stepped(s, Executed(s, acts), m, n, trip.AckOn?)
  {
    hide Dist, PlaceOf, Executed, Instruction, Passive, Listens, Harmless, Outputs, Alone;
    var c := Executed(s, acts);
    CpuPair(s, acts, m, n, trip.AckOn?);
    StaysBlocked(s.cpu[m], acts[m], n);
    SamePlaces(s, c);
    if trip.AckOn? {
      StaysPassive(s.cpu[n], acts[n]);
    } else {
      StaysListening(s.cpu[n], acts[n], m, |s.cpu|);
    }
  }

  // ---------------------------------------------------------------- one cycle

  // What one cycle achieves, as seen by the two ends; `ready` says that n waited for m in it, in an operation of this kind.
  ghost predicate Cycled(s: Net, o: Outcome, m: nat, n: nat, v: Word, trip': Trip, received: bool, ready: bool, kind: Op) {
    && m < |s.cpu| && n < |s.cpu| && o.Fine? && o.net.grid == s.grid && |o.net.cpu| == |s.cpu| && Flight(o.net, m, n, v, trip')
    && o.net.cpu[m].waitout == s.cpu[m].waitout + 1
    && Get(o.net.cpu[n].log.taken, m) == Get(s.cpu[n].log.taken, m) + (if trip' == AckOn(1) then [v] else [])
    && (!received ==> WaitedIn(s.cpu[n], o.net.cpu[n], kind, if ready then 1 else 0))
    && (!trip'.AckOn? && !received ==> (Receives(o.net.cpu[n], m) <==> ready) && (ready ==> o.net.cpu[n].op == kind))
  }

  // The cycle counter is no concern of a flight.
  lemma CountedFlight(t: Net, m: nat, n: nat, v: Word, trip: Trip)
    requires Flight(t, m, n, v, trip)
    ensures Flight(t.(cycle := t.cycle + 1), m, n, v, trip)
  {
    hide Dist, PlaceOf, Alone, Empty, Passive, Listens, Outputs;
    SamePlaces(t, t.(cycle := t.cycle + 1));
  }

  lemma CycleIs(s: Net, c: Net, o: Outcome, m: nat, n: nat, v: Word, trip': Trip, received: bool)
    requires Stepped(s, c, m, n, received) && Flown(c, o, m, n, v, trip') && (received ==> trip' != AckOn(1))
    ensures Cycled(s, CountCycle(o), m, n, v, trip', received, Receives(c.cpu[n], m), c.cpu[n].op)
  {
    hide Flight, Quiet, Passive;
    CountedFlight(o.net, m, n, v, trip');
    assert Get(s.cpu[n].log.taken, m) + [] == Get(s.cpu[n].log.taken, m);
  }

  // The same, from what the processors do.
  ghost predicate CycledOn(s: Net, acts: seq<Act>, m: nat, n: nat, v: Word, trip: Trip) {
    m < |s.cpu| && n < |s.cpu| == |acts| &&
    var c := Instruction(s.cpu[n], acts[n]);
    Cycled(s, Cycle(s, acts), m, n, v, Onward(Dist(s.grid, m, n), trip, Receives(c, m)), trip.AckOn?, Receives(c, m), c.op)
  }

  lemma ExecutedAt(s: Net, acts: seq<Act>, n: nat)
    requires n < |s.cpu| == |acts|
    ensures Executed(s, acts).cpu[n] == Instruction(s.cpu[n], acts[n]) && Executed(s, acts).grid == s.grid
    ensures Cycle(s, acts) == CountCycle(NetExecute(Executed(s, acts)))
  {
    CpuEach(s, acts, |s.cpu|);
  }

  /** One cycle takes a rendezvous on: the data or the acknowledge crosses a link, n takes the data if it waits for it, or
      the output is released. */
  lemma CycleFlies(s: Net, acts: seq<Act>, m: nat, n: nat, v: Word, trip: Trip)
    requires Flight(s, m, n, v, trip) && !trip.Released? && Calm(s, acts, m, n, trip.AckOn?)
    ensures CycledOn(s, acts, m, n, v, trip)
  {
    assert |acts| == |s.cpu| && m < |s.cpu| && n < |s.cpu|;
    assert trip.AckOn? ==> trip.k >= 1;
    hide Flight, Dist, Executed, Instruction, NetExecute, CountCycle, Receives, Calm, Flown, Cycled, Cycle, Stepped;
    CpuFlight(s, acts, m, n, v, trip);
    var c := Executed(s, acts);
    ExecutedAt(s, acts, n);
    NetFlies(c, m, n, v, trip);
    CycleIs(s, c, NetExecute(c), m, n, v, Onward(Dist(s.grid, m, n), trip, Receives(c.cpu[n], m)), trip.AckOn?);
  }

  // The state in which m is about to execute its output.
  ghost predicate Sets(s: Net, acts: seq<Act>, m: nat, n: nat) {
    && OthersPassive(s, m, n) && Empty(s) && Calm(s, acts, m, n, false) && Listens(s.cpu[n], m, |s.cpu|)
    && s.cpu[m].running && Quiet(s.cpu[m]) && s.cpu[m].corr == n && acts[m].DoOutput?
  }

  lemma CpuSets(s: Net, acts: seq<Act>, m: nat, n: nat)
    requires Sets(s, acts, m, n)
    ensures var c := Executed(s, acts);
      Stepped(s, c, m, n, false) && Pair(c, m, n, false) && Empty(c) && c.cpu[m].data == s.cpu[m].data
  {
    hide Executed, Instruction, Passive, Listens, Harmless, Outputs, Empty;
    CpuPair(s, acts, m, n, false);
    OutputBegins(s.cpu[m], acts[m], n);
    StaysListening(s.cpu[n], acts[n], m, |s.cpu|);
    SamePlaces(s, Executed(s, acts));
  }

  lemma NetSets(c: Net, m: nat, n: nat)
    requires Pair(c, m, n, false) && Empty(c) && Listens(c.cpu[n], m, |c.cpu|)
    ensures Flown(c, NetExecute(c), m, n, c.cpu[m].data, DataOn(1))
  {
    assert OthersPassive(c, m, n);
    hide Dist, NetExecute, Pair, Empty, GoesOn, Flown, Listens, PlaceOf, OthersPassive;
    DistFits(c, m, n);
    SendStarts(c, m, n);
    GoneOn(c, NetExecute(c), m, n, c.cpu[m].data, 0);
  }

  lemma CycleSets(s: Net, acts: seq<Act>, m: nat, n: nat)
    requires Sets(s, acts, m, n)
    ensures && m < |s.cpu| && n < |s.cpu| == |acts|
            && var c := Instruction(s.cpu[n], acts[n]);
               Cycled(s, Cycle(s, acts), m, n, s.cpu[m].data, DataOn(1), false, Receives(c, m), c.op)
  {
    assert m < |s.cpu| && n < |s.cpu| == |acts|;
    hide Executed, Instruction, NetExecute, CountCycle, Receives, Sets, Pair, Empty, Flown, Cycled, Cycle;
    CpuSets(s, acts, m, n);
    var c := Executed(s, acts);
    ExecutedAt(s, acts, n);
    NetSets(c, m, n);
    CycleIs(s, c, NetExecute(c), m, n, s.cpu[m].data, DataOn(1), false);
  }

  // ---------------------------------------------------------------- the whole rendezvous

  // One instruction for each processor in each cycle.
  ghost predicate Wide(s: Net, prog: seq<seq<Act>>) { forall i :: 0 <= i < |prog| ==> |prog[i]| == |s.cpu| }

  // The state after j cycles.
  ghost function After(s: Net, prog: seq<seq<Act>>, j: nat): (r: Net)
    requires j <= |prog| && Wide(s, prog)
    ensures |r.cpu| == |s.cpu|
  {
    if j == 0 then s else Cycle(After(s, prog, j - 1), prog[j - 1]).net
  }

  function Max(a: nat, b: nat): nat { if a < b then b else a }

  // What cycle j makes of processor i before the network works.
  ghost function Executes(s: Net, prog: seq<seq<Act>>, j: nat, i: nat): Cpu
    requires j < |prog| && Wide(s, prog) && i < |s.cpu|
  {
    Instruction(After(s, prog, j).cpu[i], prog[j][i])
  }

  // The operation in which n waits from cycle r on: an input or an alternative.
  ghost function Kind(s: Net, prog: seq<seq<Act>>, n: nat, r: nat): Op
    requires r < |prog| && Wide(s, prog) && n < |s.cpu|
  {
    Executes(s, prog, r, n).op
  }

  ghost predicate HarmlessAt(s: Net, prog: seq<seq<Act>>, j: nat, i: nat)
    requires j < |prog| && Wide(s, prog) && i < |s.cpu|
  {
    Harmless(After(s, prog, j).cpu[i], prog[j][i])
  }

  // m executes its output to n in cycle 0; n computes before cycle r, begins in cycle r to wait for m in an input or an alternative, or
  // waited already and r is 0, and it does nothing else while it waits.  Meanwhile no other node executes an output or an alternative
  // without clauses, and neither does n once it may have received, after cycle T.
  ghost predicate Scenario(s: Net, prog: seq<seq<Act>>, m: nat, n: nat, r: nat, T: nat) {
    && Wide(s, prog) && r <= T < |prog| && Sets(s, prog[0], m, n)
    && (forall j, i :: 0 <= j < |prog| && 0 <= i < |s.cpu| && i != m && i != n ==> HarmlessAt(s, prog, j, i))
    && (forall j :: 0 <= j < r ==> Quiet(Executes(s, prog, j, n)))
    && Receives(Executes(s, prog, r, n), m)
    && (forall j :: T < j < |prog| ==> HarmlessAt(s, prog, j, n))
  }

  // Where the rendezvous is after j cycles.
  function TripAt(d: nat, T: nat, j: nat): Trip {
    if j <= d then DataOn(j) else if j <= T then InBox else if j <= T + d then AckOn(j - T) else Released
  }

  lemma OnwardAt(d: nat, r: nat, j: nat)
    requires d >= 1 && 1 <= j <= Max(d, r) + d
    ensures var T := Max(d, r);
      && Onward(d, TripAt(d, T, j), r <= j) == TripAt(d, T, j + 1)
      && (TripAt(d, T, j + 1) == AckOn(1) <==> j == T)
      && !TripAt(d, T, j).Released? && (TripAt(d, T, j).AckOn? <==> j > T)
      && (TripAt(d, T, j + 1).AckOn? || TripAt(d, T, j + 1).Released? <==> j >= T)
  {
  }

  // The state after j cycles, as seen by the two ends.
  ghost predicate Timed(s: Net, t: Net, m: nat, n: nat, r: nat, T: nat, j: nat, kind: Op) {
    && m < |s.cpu| && n < |s.cpu| == |t.cpu| && t.grid == s.grid
    && Flight(t, m, n, s.cpu[m].data, TripAt(Dist(s.grid, m, n), T, j))
    && t.cpu[m].waitout == s.cpu[m].waitout + j
    && (j <= T + 1 ==> WaitedIn(s.cpu[n], t.cpu[n], kind, if j <= r then 0 else j - r))
    && Get(t.cpu[n].log.taken, m) == Get(s.cpu[n].log.taken, m) + (if j <= T then [] else [s.cpu[m].data])
    && (j <= T ==> (Receives(t.cpu[n], m) <==> r < j) && (r < j ==> t.cpu[n].op == kind))
  }

  // In every cycle of the scenario the processors keep to it.
  ghost predicate Keeping(s: Net, t: Net, acts: seq<Act>, m: nat, n: nat, r: nat, T: nat, j: nat, kind: Op) {
    && Calm(t, acts, m, n, j > T)
    && var c := Instruction(t.cpu[n], acts[n]); j <= T ==> (Receives(c, m) <==> r <= j) && (r <= j ==> c.op == kind)
  }

  lemma FlightListens(t: Net, m: nat, n: nat, v: Word, trip: Trip)
    requires Flight(t, m, n, v, trip)
    ensures m < |t.cpu| && n < |t.cpu| && (!trip.AckOn? && !trip.Released? ==> Listens(t.cpu[n], m, |t.cpu|))
    ensures Bounds(t, m, n)
  {
    hide Dist, Bounds;
    DistFits(t, m, n);
  }

  // A processor that listens keeps listening while it computes or waits.
  lemma KeepsListening(c: Cpu, a: Act, m: nat, size: nat)
    requires Listens(c, m, size) && (Quiet(Instruction(c, a)) || Receives(Instruction(c, a), m) || Receives(c, m))
    ensures Listens(Instruction(c, a), m, size)
    ensures Receives(c, m) ==> Receives(Instruction(c, a), m) && Instruction(c, a).op == c.op
    ensures Quiet(Instruction(c, a)) ==> !Receives(Instruction(c, a), m)
  {
  }

  lemma AfterNone(s: Net, prog: seq<seq<Act>>)
    requires Wide(s, prog)
    ensures After(s, prog, 0) == s
  {
  }

  lemma Keeps(s: Net, prog: seq<seq<Act>>, m: nat, n: nat, r: nat, T: nat, j: nat)
    requires Scenario(s, prog, m, n, r, T) && j < |prog| && T == Max(Dist(s.grid, m, n), r)
    requires j >= 1 ==> Timed(s, After(s, prog, j), m, n, r, T, j, Kind(s, prog, n, r))
    ensures |prog[j]| == |s.cpu| && Keeping(s, After(s, prog, j), prog[j], m, n, r, T, j, Kind(s, prog, n, r))
  {
    hide Dist, Flight, After, Instruction, Quiet, Receives, Listens, Harmless;
    var t := After(s, prog, j);
    assert m < |s.cpu| && n < |s.cpu| == |t.cpu| == |prog[j]|;
    forall i | 0 <= i < |prog[j]| && i != m && i != n ensures Harmless(t.cpu[i], prog[j][i]) {
      assert HarmlessAt(s, prog, j, i);
    }
    if j > T {
      assert HarmlessAt(s, prog, j, n);
    } else {
      if j == 0 {
        AfterNone(s, prog);
      } else {
        FlightListens(t, m, n, s.cpu[m].data, TripAt(Dist(s.grid, m, n), T, j));
      }
      assert j < r ==> Quiet(Executes(s, prog, j, n));
      KeepsListening(t.cpu[n], prog[j][n], m, |t.cpu|);
    }
  }

  ghost predicate TimedNext(s: Net, prog: seq<seq<Act>>, m: nat, n: nat, r: nat, T: nat, j: nat)
    requires j < |prog| && r < |prog| && Wide(s, prog) && n < |s.cpu|
  {
    Cycle(After(s, prog, j), prog[j]).Fine? && Timed(s, After(s, prog, j + 1), m, n, r, T, j + 1, Kind(s, prog, n, r))
  }

  lemma TimedStart(s: Net, prog: seq<seq<Act>>, m: nat, n: nat, r: nat, T: nat)
    requires Scenario(s, prog, m, n, r, T) && T == Max(Dist(s.grid, m, n), r)
    ensures TimedNext(s, prog, m, n, r, T, 0)
  {
    hide Dist, Flight, Cycle, Instruction, Quiet, Receives, Listens, Calm, Bounds;
    Keeps(s, prog, m, n, r, T, 0);
    hide Sets;
    CycleSets(s, prog[0], m, n);
    FlightListens(Cycle(s, prog[0]).net, m, n, s.cpu[m].data, DataOn(1));
    BoundsDist(Cycle(s, prog[0]).net, m, n);
    assert After(s, prog, 0) == s && After(s, prog, 1) == Cycle(s, prog[0]).net;
  }

  lemma CycledTimed(s: Net, t: Net, o: Outcome, m: nat, n: nat, r: nat, T: nat, j: nat, ready: bool, kind: Op, kind': Op)
    requires Timed(s, t, m, n, r, T, j, kind) && Dist(s.grid, m, n) >= 1 && T == Max(Dist(s.grid, m, n), r) && 1 <= j <= T + Dist(s.grid, m, n)
    requires Cycled(t, o, m, n, s.cpu[m].data, TripAt(Dist(s.grid, m, n), T, j + 1), j > T, ready, kind')
    requires j <= T ==> (ready <==> r <= j) && (ready ==> kind' == kind)
    ensures Timed(s, o.net, m, n, r, T, j + 1, kind)
  {
    OnwardAt(Dist(s.grid, m, n), r, j);
    hide Dist, Flight, Onward, TripAt, Receives;
    var was, v := Get(s.cpu[n].log.taken, m), s.cpu[m].data;
    assert (was + []) + [v] == was + [v] && (was + []) + [] == was + [] && (was + [v]) + [] == was + [v];
  }

  lemma TimedStep(s: Net, prog: seq<seq<Act>>, m: nat, n: nat, r: nat, T: nat, j: nat)
    requires Scenario(s, prog, m, n, r, T) && T == Max(Dist(s.grid, m, n), r) && 1 <= j < |prog| && j <= T + Dist(s.grid, m, n)
    requires Timed(s, After(s, prog, j), m, n, r, T, j, Kind(s, prog, n, r))
    ensures TimedNext(s, prog, m, n, r, T, j)
  {
    var t, d := After(s, prog, j), Dist(s.grid, m, n);
    var trip := TripAt(d, T, j);
    hide Flight, Dist, Cycle, Onward, TripAt, Calm, Receives, Instruction, Cycled, Scenario, Bounds;
    assert Wide(s, prog) by { assert Scenario(s, prog, m, n, r, T); }
    Keeps(s, prog, m, n, r, T, j);
    FlightListens(t, m, n, s.cpu[m].data, trip);
    assert d >= 1 by { BoundsDist(t, m, n); }
    OnwardAt(d, r, j);
    CycleFlies(t, prog[j], m, n, s.cpu[m].data, trip);
    var c := Instruction(t.cpu[n], prog[j][n]);
    OnwardReady(d, trip, Receives(c, m), r <= j);
    hide Timed;
    CycledTimed(s, t, Cycle(t, prog[j]), m, n, r, T, j, Receives(c, m), Kind(s, prog, n, r), c.op);
    CycledFine(t, Cycle(t, prog[j]), m, n, s.cpu[m].data, TripAt(d, T, j + 1), j > T, Receives(c, m), c.op);
  }

  lemma BoundsDist(t: Net, m: nat, n: nat)
    requires Bounds(t, m, n)
    ensures Dist(t.grid, m, n) >= 1
  {
  }

  lemma CycledFine(s: Net, o: Outcome, m: nat, n: nat, v: Word, trip: Trip, received: bool, ready: bool, kind: Op)
    requires Cycled(s, o, m, n, v, trip, received, ready, kind)
    ensures o.Fine?
  {
  }

  // On the way back it no longer matters whether n waits.
  lemma OnwardReady(d: nat, trip: Trip, a: bool, b: bool)
    requires a == b || trip.AckOn? || trip.Released?
    ensures Onward(d, trip, a) == Onward(d, trip, b)
  {
  }

  // No deadlock is reported in the first j cycles.
  ghost predicate NoneDead(s: Net, prog: seq<seq<Act>>, j: nat)
    requires j <= |prog| && Wide(s, prog)
  {
    j == 0 || (NoneDead(s, prog, j - 1) && Cycle(After(s, prog, j - 1), prog[j - 1]).Fine?)
  }

  lemma {:induction false} Timeline(s: Net, prog: seq<seq<Act>>, m: nat, n: nat, r: nat, T: nat, j: nat)
    requires Wide(s, prog) && Scenario(s, prog, m, n, r, T) && T == Max(Dist(s.grid, m, n), r)
    requires 1 <= j <= |prog| && j <= T + Dist(s.grid, m, n) + 1
    ensures Timed(s, After(s, prog, j), m, n, r, T, j, Kind(s, prog, n, r)) && NoneDead(s, prog, j)
    decreases j
  {
    hide Dist, Cycle, Timed, Scenario, Max, Wide;
    if j == 1 {
      TimedStart(s, prog, m, n, r, T);
      assert NoneDead(s, prog, 0);
    } else {
      Timeline(s, prog, m, n, r, T, j - 1);
      TimedStep(s, prog, m, n, r, T, j - 1);
    }
  }

  // What can be seen after j cycles; the data is taken in cycle T.
  ghost predicate OnTime(s: Net, t: Net, m: nat, n: nat, d: nat, r: nat, T: nat, j: nat, kind: Op) {
    && m < |s.cpu| == |t.cpu| && n < |s.cpu|
    && Get(t.cpu[n].log.taken, m) == Get(s.cpu[n].log.taken, m) + (if j <= T then [] else [s.cpu[m].data])
    && (t.cpu[m].op.OpOut? <==> j <= T + d)
    && t.cpu[m].waitout == s.cpu[m].waitout + j
    && (j <= T + 1 ==> WaitedIn(s.cpu[n], t.cpu[n], kind, if j <= r then 0 else j - r))
    && (j == T + d + 1 ==> Empty(t))
  }

  lemma OutWaits(t: Net, m: nat, n: nat, v: Word, trip: Trip)
    requires Flight(t, m, n, v, trip)
    ensures m < |t.cpu| && (t.cpu[m].op.OpOut? <==> !trip.Released?)
    ensures trip.Released? ==> Empty(t)
  {
    hide Dist, PlaceOf;
  }

  lemma TimedOnTime(s: Net, t: Net, m: nat, n: nat, r: nat, T: nat, j: nat, kind: Op)
    requires Timed(s, t, m, n, r, T, j, kind) && T == Max(Dist(s.grid, m, n), r) && j >= 1
    ensures OnTime(s, t, m, n, Dist(s.grid, m, n), r, T, j, kind)
  {
    hide Dist, Flight, Empty;
    OutWaits(t, m, n, s.cpu[m].data, TripAt(Dist(s.grid, m, n), T, j));
  }

  /** The latency of a rendezvous at distance d, sent in cycle 0 to an input or alternative that first waits in cycle r: the data
      is taken in cycle T = max(d, r), and not before, and n has waited T - r + 1 cycles, counted for the one or the other; the
      output is released d cycles later, having waited T + d + 1 cycles (2 d + 1 when n was there in time); and nothing is left
      in the network. */
  lemma ExactLatency(s: Net, prog: seq<seq<Act>>, m: nat, n: nat, r: nat, T: nat)
    requires Wide(s, prog) && Scenario(s, prog, m, n, r, T) && T == Max(Dist(s.grid, m, n), r)
    requires |prog| == T + Dist(s.grid, m, n) + 1
    ensures NoneDead(s, prog, |prog|)
    ensures forall j :: 1 <= j <= |prog| ==> OnTime(s, After(s, prog, j), m, n, Dist(s.grid, m, n), r, T, j, Kind(s, prog, n, r))
  {
    assert r < |prog| && n < |s.cpu|;
    var kind := Kind(s, prog, n, r);
    hide Dist, After, NoneDead, Scenario, Timed, OnTime, Wide, Max, Kind;
    Timeline(s, prog, m, n, r, T, |prog|);
    forall j | 1 <= j <= |prog| ensures OnTime(s, After(s, prog, j), m, n, Dist(s.grid, m, n), r, T, j, kind) {
      Timeline(s, prog, m, n, r, T, j);
      TimedOnTime(s, After(s, prog, j), m, n, r, T, j, kind);
    }
  }

  // Neighbours 0 and 1 execute an output and an alternative in the same cycle; a third node already waits in an input from 0.
  function SampleNet(): Net {
    var c := Cpu(true, OpNone, false, 1, 7, [], 0, 0, 0, 0, 0, 0, 0, 0, Log(map[], map[], map[]));
    Net(Grid(1, 3), map[], [c, c.(clauses := [0]), c.(op := OpIn, corr := 0)], 3, 0)
  }

  function SampleProg(): seq<seq<Act>> {
    var rest := Compute(0, 0, []);
    [[DoOutput, DoAlt, rest], [rest, rest, rest], [rest, rest, rest]]
  }

  lemma SampleSets()
    ensures Sets(SampleNet(), SampleProg()[0], 0, 1)
    ensures Receives(Instruction(SampleNet().cpu[1], DoAlt), 0) && Dist(Grid(1, 3), 0, 1) == 1
  {
  }

  /** The scenario occurs. */
  lemma ScenarioOccurs()
    ensures exists s, prog, T: nat ::
      Wide(s, prog) && Scenario(s, prog, 0, 1, 0, T) && T == Max(Dist(s.grid, 0, 1), 0) && |prog| == T + Dist(s.grid, 0, 1) + 1
  {
    SampleSets();
    hide Dist, Sets, Instruction, Receives, Cycle;
    var s, prog := SampleNet(), SampleProg();
    assert Receives(Executes(s, prog, 0, 1), 0);
    assert Scenario(s, prog, 0, 1, 0, 1);
  }
}
