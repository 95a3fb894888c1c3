/** The dining philosophers with a footman who lets all but one of them to the table. */
module Dining {
  import opened Sums

  // Each philosopher's next operation, with the ideas it still has to get.
  datatype Philosopher =
    | Arrive
    | Enter(ideas: nat) | TakeLeft(ideas: nat) | TakeRight(ideas: nat)
    | PutRight(ideas: nat) | PutLeft(ideas: nat) | Leave(ideas: nat)
    | Home

  // The semaphores, and how often each philosopher has held both forks.
  datatype Table = Table(fork: seq<nat>, footman: int, phil: seq<Philosopher>, meals: seq<nat>)

  // PHILOS, IDEAS.
  datatype Config = Config(philos: nat, ideas: nat)

  // rem(id + 1, PHILOS)
  function Next(n: nat, id: nat): (r: nat)
    requires id < n
    ensures r < n
  {
    (id + 1) % n
  }

  lemma NextIs(n: nat, id: nat)
    requires id < n
    ensures Next(n, id) == if id + 1 == n then 0 else id + 1
  {
  }

  // The neighbour whose right fork is mine.
  function Before(n: nat, id: nat): (r: nat)
    requires id < n
    ensures r < n
  {
    if id == 0 then n - 1 else id - 1
  }

  lemma NextBefore(n: nat, id: nat)
    requires id < n
    ensures Next(n, Before(n, id)) == id && Before(n, Next(n, id)) == id
    ensures n >= 2 ==> Next(n, id) != id
  {
    NextIs(n, id);
    NextIs(n, Before(n, id));
  }

  // Before an idea, or at the end.
  function Think(ideas: nat): Philosopher { if ideas == 0 then Home else Enter(ideas) }

  // The forks are 0 until their owners set them.
  function Start(c: Config): Table {
    Table(seq(c.philos, i => 0), c.philos - 1, seq(c.philos, i => Arrive), seq(c.philos, i => 0))
  }

  predicate WellFormed(t: Table) { |t.fork| == |t.phil| == |t.meals| }

  predicate Can(t: Table, p: nat) {
    WellFormed(t) && p < |t.phil| &&
    match t.phil[p]
    case Enter(_) => t.footman > 0
    case TakeLeft(_) => t.fork[p] > 0
    case TakeRight(_) => t.fork[Next(|t.phil|, p)] > 0
    case Home => false
    case _ => true
  }

  function Step(c: Config, t: Table, p: nat): (r: Table)
    requires Can(t, p)
    ensures WellFormed(r) && |r.phil| == |t.phil|
  {
    var r := Next(|t.phil|, p);
    match t.phil[p]
    case Arrive => t.(fork := t.fork[p := 1], phil := t.phil[p := Think(c.ideas)])
    case Enter(k) => t.(footman := t.footman - 1, phil := t.phil[p := TakeLeft(k)])
    case TakeLeft(k) => t.(fork := t.fork[p := t.fork[p] - 1], phil := t.phil[p := TakeRight(k)])
    case TakeRight(k) =>
      t.(fork := t.fork[r := t.fork[r] - 1], phil := t.phil[p := PutRight(k)], meals := t.meals[p := t.meals[p] + 1])
    case PutRight(k) => t.(fork := t.fork[r := t.fork[r] + 1], phil := t.phil[p := PutLeft(k)])
    case PutLeft(k) => t.(fork := t.fork[p := t.fork[p] + 1], phil := t.phil[p := Leave(k)])
    case Leave(k) => t.(footman := t.footman + 1, phil := t.phil[p := if k == 0 then Home else Think(k - 1)])
  }

  // ---------------------------------------------------------------- the invariant

  predicate HasLeft(x: Philosopher) { x.TakeRight? || x.PutRight? || x.PutLeft? }

  predicate HasRight(x: Philosopher) { x.PutRight? }

  predicate Inside(x: Philosopher) {
    x.TakeLeft? || x.TakeRight? || x.PutRight? || x.PutLeft? || x.Leave?
  }

  function IsInside(x: Philosopher): int { One(Inside(x)) }

  function Insiders(phil: seq<Philosopher>): int { Sum(phil, IsInside) }

  // A fork laid out is on the table or with one of its two neighbours.
  ghost predicate ForkOk(t: Table, f: nat)
    requires WellFormed(t) && f < |t.phil|
  {
    t.fork[f] + One(HasLeft(t.phil[f])) + One(HasRight(t.phil[Before(|t.phil|, f)])) == One(!t.phil[f].Arrive?)
  }

  // Meals had and meals to come.
  ghost predicate MealsOk(c: Config, t: Table, p: nat)
    requires WellFormed(t) && p < |t.phil|
  {
    match t.phil[p]
    case Arrive => t.meals[p] == 0
    case Home => t.meals[p] == c.ideas
    case Enter(k) => k >= 1 && t.meals[p] + k == c.ideas
    case TakeLeft(k) => k >= 1 && t.meals[p] + k == c.ideas
    case TakeRight(k) => k >= 1 && t.meals[p] + k == c.ideas
    case PutRight(k) => k >= 1 && t.meals[p] + k == c.ideas + 1
    case PutLeft(k) => k >= 1 && t.meals[p] + k == c.ideas + 1
    case Leave(k) => k >= 1 && t.meals[p] + k == c.ideas + 1
  }

  ghost predicate Inv(c: Config, t: Table) {
    && WellFormed(t) && |t.phil| == c.philos
    && t.footman + Insiders(t.phil) == c.philos - 1 && t.footman >= 0
    && (forall f :: 0 <= f < c.philos ==> ForkOk(t, f) && MealsOk(c, t, f))
  }

  lemma StepForks(c: Config, t: Table, p: nat, f: nat)
    requires Inv(c, t) && Can(t, p) && f < c.philos
    ensures ForkOk(Step(c, t, p), f)
  {
    var n := c.philos;
    NextBefore(n, p);
    NextBefore(n, f);
    assert ForkOk(t, f) && ForkOk(t, p) && ForkOk(t, Next(n, p));
    hide Insiders, Next, Before, MealsOk;
  }

  lemma StepInv(c: Config, t: Table, p: nat)
    requires Inv(c, t) && Can(t, p)
    ensures Inv(c, Step(c, t, p))
  {
    var t' := Step(c, t, p);
    SumUpdate(t.phil, IsInside, p, t'.phil[p]);
    assert MealsOk(c, t, p);
    forall f | 0 <= f < c.philos ensures ForkOk(t', f) && MealsOk(c, t', f) {
      StepForks(c, t, p, f);
      assert MealsOk(c, t, f);
    }
    hide Insiders, ForkOk, Next;
  }

  // ---------------------------------------------------------------- whole runs

  predicate Runs(c: Config, run: seq<nat>)
    decreases |run|, 0
  {
    run == [] || (Runs(c, run[..|run| - 1]) && Can(After(c, run[..|run| - 1]), run[|run| - 1]))
  }

  // The state after the philosophers of a run have each taken a step.
  function After(c: Config, run: seq<nat>): (t: Table)
    requires Runs(c, run)
    ensures WellFormed(t) && |t.phil| == c.philos
    decreases |run|, 1
  {
    if run == [] then Start(c) else Step(c, After(c, run[..|run| - 1]), run[|run| - 1])
  }

  lemma StartInv(c: Config)
    requires c.philos > 0
    ensures Inv(c, Start(c))
  {
    CountBounds(Start(c).phil, IsInside);
    hide Insiders;
  }

  lemma {:induction false} RunInv(c: Config, run: seq<nat>)
    requires c.philos > 0 && Runs(c, run)
    ensures Inv(c, After(c, run))
    decreases |run|
  {
    if run == [] {
      StartInv(c);
    } else {
      RunInv(c, run[..|run| - 1]);
      StepInv(c, After(c, run[..|run| - 1]), run[|run| - 1]);
    }
  }

  // Philosopher p has fork f in hand.
  predicate Holds(t: Table, p: nat, f: nat)
    requires WellFormed(t) && p < |t.phil|
  {
    (f == p && HasLeft(t.phil[p])) || (f == Next(|t.phil|, p) && HasRight(t.phil[p]))
  }

  /** In every run a fork has at most one holder, it is on the table exactly if it has been laid out and has none,
      and the footman's count is the places left at the table, of which there are one fewer than philosophers. */
  lemma OneHolder(c: Config, run: seq<nat>, f: nat)
    requires c.philos >= 2 && Runs(c, run) && f < c.philos
    ensures var t := After(c, run);
      && (forall p, q :: 0 <= p < q < c.philos ==> !(Holds(t, p, f) && Holds(t, q, f)))
      && t.fork[f] == One(!t.phil[f].Arrive? && forall p :: 0 <= p < c.philos ==> !Holds(t, p, f))
      && 0 <= t.footman == c.philos - 1 - Insiders(t.phil)
  {
    RunInv(c, run);
    var t := After(c, run);
    hide Runs, After, Insiders;
    assert ForkOk(t, f);
    forall p | 0 <= p < c.philos
      ensures Holds(t, p, f) <==> (p == f && HasLeft(t.phil[f])) || (p == Before(c.philos, f) && HasRight(t.phil[p]))
    {
      NextBefore(c.philos, p);
      NextBefore(c.philos, f);
    }
    NextBefore(c.philos, f);
    assert Holds(t, f, f) <==> HasLeft(t.phil[f]);
    assert Holds(t, Before(c.philos, f), f) <==> HasRight(t.phil[Before(c.philos, f)]);
  }

  // ---------------------------------------------------------------- no deadlock

  predicate Stuck(t: Table) {
    (exists p :: 0 <= p < |t.phil| && !t.phil[p].Home?) && forall p :: 0 <= p < |t.phil| ==> !Can(t, p)
  }

  // Blocked at the table, a philosopher has its left fork and waits for the one its neighbour has taken first.
  lemma BlockedInside(c: Config, t: Table, p: nat)
    requires Inv(c, t) && c.philos >= 2 && p < c.philos && Inside(t.phil[p])
    requires forall q :: 0 <= q < c.philos ==> !Can(t, q)
    ensures t.phil[p].TakeRight? && t.phil[Next(c.philos, p)].TakeRight?
  {
    var n := c.philos;
    NextBefore(n, p);
    var r, l := Next(n, p), Before(n, p);
    assert !Can(t, p) && !Can(t, r) && !Can(t, l);
    assert ForkOk(t, p) && ForkOk(t, r);
    hide Insiders, Next, Before, MealsOk;
  }

  lemma {:induction false} AllRound(c: Config, t: Table, p: nat, k: nat)
    requires Inv(c, t) && c.philos >= 2 && p < c.philos && Inside(t.phil[p]) && k < c.philos
    requires forall q :: 0 <= q < c.philos ==> !Can(t, q)
    ensures Inside(t.phil[if p + k < c.philos then p + k else p + k - c.philos])
  {
    if k > 0 {
      AllRound(c, t, p, k - 1);
      var q := if p + k - 1 < c.philos then p + k - 1 else p + k - 1 - c.philos;
      BlockedInside(c, t, q);
      NextIs(c.philos, q);
    }
  }

  lemma NotStuck(c: Config, t: Table)
    requires Inv(c, t) && c.philos >= 2
    ensures !Stuck(t)
  {
    if Stuck(t) {
      if p :| 0 <= p < c.philos && Inside(t.phil[p]) {
        forall q | 0 <= q < c.philos ensures Inside(t.phil[q]) {
          AllRound(c, t, p, if q >= p then q - p else q + c.philos - p);
        }
      } else {
        var p :| 0 <= p < c.philos && !t.phil[p].Home?;
        assert !Can(t, p) && t.phil[p].Enter?;
      }
      CountBounds(t.phil, IsInside);
    }
  }

  /** The philosophers never deadlock if and only if there are at least two of them, or no ideas to get. */
  lemma NeverDeadlocks(c: Config)
    requires c.philos > 0
    ensures (forall run :: Runs(c, run) ==> !Stuck(After(c, run))) <==> c.philos >= 2 || c.ideas == 0
  {
    if c.philos >= 2 {
      forall run | Runs(c, run) ensures !Stuck(After(c, run)) {
        RunInv(c, run);
        NotStuck(c, After(c, run));
      }
    } else if c.ideas == 0 {
      forall run | Runs(c, run) ensures !Stuck(After(c, run)) {
        RunInv(c, run);
        NoIdeas(c, After(c, run));
      }
    } else {
      assert Runs(c, []) && Can(Start(c), 0);
      var run := [0];
      assert run[..0] == [];
      assert After(c, run) == Step(c, Start(c), 0);
      assert !After(c, run).phil[0].Home?;
      assert Stuck(After(c, run));
    }
  }

  lemma NoIdeas(c: Config, t: Table)
    requires Inv(c, t) && c.ideas == 0 && c.philos > 0
    ensures !Stuck(t)
  {
    forall p | 0 <= p < c.philos && !t.phil[p].Home? ensures exists q :: 0 <= q < c.philos && Can(t, q) {
      assert MealsOk(c, t, p);
      assert Can(t, p);
    }
  }

  // ---------------------------------------------------------------- every run ends

  function StepsLeft(c: Config, x: Philosopher): int {
    match x
    case Arrive => 6 * c.ideas + 1
    case Enter(k) => 6 * k
    case TakeLeft(k) => 6 * k - 1
    case TakeRight(k) => 6 * k - 2
    case PutRight(k) => 6 * k - 3
    case PutLeft(k) => 6 * k - 4
    case Leave(k) => 6 * k - 5
    case Home => 0
  }

  function StepsOf(c: Config): Philosopher -> int { x => StepsLeft(c, x) }

  function AllSteps(c: Config, phil: seq<Philosopher>): int { Sum(phil, StepsOf(c)) }

  lemma StepCounts(c: Config, t: Table, p: nat)
    requires Inv(c, t) && Can(t, p)
    ensures AllSteps(c, Step(c, t, p).phil) == AllSteps(c, t.phil) - 1
  {
    assert MealsOk(c, t, p);
    SumUpdate(t.phil, StepsOf(c), p, Step(c, t, p).phil[p]);
    hide AllSteps, Inv;
  }

  lemma {:induction false} RunCounts(c: Config, run: seq<nat>)
    requires c.philos > 0 && Runs(c, run)
    ensures |run| + AllSteps(c, After(c, run).phil) == c.philos * (6 * c.ideas + 1)
    decreases |run|
  {
    if run == [] {
      SumSame(Start(c).phil, StepsOf(c), 6 * c.ideas + 1);
    } else {
      var before := run[..|run| - 1];
      RunInv(c, before);
      RunCounts(c, before);
      StepCounts(c, After(c, before), run[|run| - 1]);
    }
  }

  // Everybody is home, has had all meals, and has left the table as it should be.
  ghost predicate Finished(c: Config, t: Table) {
    && WellFormed(t) && |t.phil| == c.philos && t.footman == c.philos - 1
    && forall p :: 0 <= p < c.philos ==> t.phil[p].Home? && t.meals[p] == c.ideas && t.fork[p] == 1
  }

  lemma AllHome(c: Config, t: Table)
    requires Inv(c, t) && c.philos > 0 && forall p :: 0 <= p < c.philos ==> t.phil[p].Home?
    ensures Finished(c, t) && AllSteps(c, t.phil) == 0
  {
    CountBounds(t.phil, IsInside);
    SumSame(t.phil, StepsOf(c), 0);
    hide Insiders, AllSteps;
    forall p | 0 <= p < c.philos ensures t.meals[p] == c.ideas && t.fork[p] == 1 {
      assert ForkOk(t, p) && MealsOk(c, t, p);
    }
  }

  /** Every run ends within philos * (6 * ideas + 1) steps, and one that cannot go on is complete: all philosophers have
      had all their meals. */
  lemma EverybodyEats(c: Config, run: seq<nat>)
    requires c.philos > 0 && Runs(c, run)
    requires c.philos >= 2 || c.ideas == 0
    ensures |run| <= c.philos * (6 * c.ideas + 1)
    ensures (forall p :: !Can(After(c, run), p)) <==> |run| == c.philos * (6 * c.ideas + 1)
    ensures (forall p :: !Can(After(c, run), p)) ==> Finished(c, After(c, run))
  {
    RunInv(c, run);
    RunCounts(c, run);
    var t := After(c, run);
    hide Runs, After;
    StepsNatural(c, t);
    if forall p :: !Can(t, p) {
      if c.philos >= 2 {
        NotStuck(c, t);
      } else {
        NoIdeas(c, t);
      }
      AllHome(c, t);
    }
    if p: nat :| Can(t, p) {
      StepCounts(c, t, p);
      StepInv(c, t, p);
      var t' := Step(c, t, p);
      StepsNatural(c, t');
    }
  }

  lemma StepsNatural(c: Config, t: Table)
    requires Inv(c, t)
    ensures AllSteps(c, t.phil) >= 0
  {
    forall p | 0 <= p < |t.phil| ensures StepsOf(c)(t.phil[p]) >= 0 {
      assert MealsOk(c, t, p);
    }
    SumNatural(t.phil, StepsOf(c));
  }
}
