/** The semaphore producer-consumer example: one producer, any number of consumers, a ring of items,
    and counts of sleepers to wake. */
module BoundedBuffer {
  import opened Ring
  import opened Sums

  // MAXELEM, MAXVAL, NCONSUMERS.
  datatype Config = Config(maxElem: nat, maxVal: nat, consumers: nat)

  datatype Flag = Success | Empty | End

  // The next operation of the producer: each semaphore operation is a step, and so is the work between two of them.
  datatype Producer =
    | Lock | Test | Wake | Count | Unlock(full: bool)
    | WaitFull | Relock | Enqueue | Reunlock
    | FinalLock | Finish | FinalWake | FinalCount | FinalUnlock | Stopped

  datatype Consumer = Acquire | Look | Signal | Clear | Release(flag: Flag) | Sleep | Over

  // Who is between Sem_P(&lock) and Sem_V(&lock); kept for the proof, no step reads it.
  datatype Holder = Nobody | TheProducer | TheConsumer(k: nat)

  /** The static variables, the three semaphores, the producer's item, and what each process does next; `taken` lists
      the items in the order they were dequeued, with the consumers that got them. */
  datatype State = State(
    b: Buffer, nempty: int, nfull: bool, producing: bool, lock: nat, full: nat, empty: nat,
    i: nat, prod: Producer, cons: seq<Consumer>, taken: seq<(nat, int)>, holder: Holder)

  function Start(c: Config): State
    requires c.maxElem > 0
  {
    State(Ring.Empty(c.maxElem), 0, false, true, 1, 0, 0, 0, NextItem(c, 0), seq(c.consumers, k => Acquire), [], Nobody)
  }

  // The head of the producer's loop.
  function NextItem(c: Config, i: nat): Producer { if i < c.maxVal then Lock else FinalLock }

  predicate ProducerCan(s: State) {
    match s.prod
    case Lock => s.lock > 0
    case Relock => s.lock > 0
    case FinalLock => s.lock > 0
    case WaitFull => s.full > 0
    case Stopped => false
    case _ => true
  }

  function ProducerStep(c: Config, s: State): State
    requires ProducerCan(s) && InRange(s.b)
  {
    match s.prod
    case Lock => s.(lock := s.lock - 1, prod := Test, holder := TheProducer)
    case Test =>
      if s.b.ct < c.maxElem then
        s.(b := Ring.Enqueue(s.b, s.i), prod := if s.nempty > 0 then Wake else Unlock(false))
      else s.(nfull := true, prod := Unlock(true))
    case Wake => s.(empty := s.empty + 1, prod := Count)
    case Count => s.(nempty := s.nempty - 1, prod := Unlock(false))
    case Unlock(full) =>
      var t := s.(lock := s.lock + 1, holder := Nobody);
      if full then t.(prod := WaitFull) else t.(i := s.i + 1, prod := NextItem(c, s.i + 1))
    case WaitFull => s.(full := s.full - 1, prod := Relock)
    case Relock => s.(lock := s.lock - 1, prod := Enqueue, holder := TheProducer)
    case Enqueue => s.(b := Ring.Enqueue(s.b, s.i), prod := Reunlock)
    case Reunlock => s.(lock := s.lock + 1, holder := Nobody, i := s.i + 1, prod := NextItem(c, s.i + 1))
    case FinalLock => s.(lock := s.lock - 1, prod := Finish, holder := TheProducer)
    case Finish => s.(producing := false, prod := FinalWake)
    case FinalWake => if s.nempty > 0 then s.(empty := s.empty + 1, prod := FinalCount) else s.(prod := FinalUnlock)
    case FinalCount => s.(nempty := s.nempty - 1, prod := FinalWake)
    case FinalUnlock => s.(lock := s.lock + 1, prod := Stopped, holder := Nobody)
  }

  predicate ConsumerCan(s: State, k: nat)
    requires k < |s.cons|
  {
    match s.cons[k]
    case Acquire => s.lock > 0
    case Sleep => s.empty > 0
    case Over => false
    case _ => true
  }

  function Goes(s: State, k: nat, x: Consumer): State
    requires k < |s.cons|
  {
    s.(cons := s.cons[k := x])
  }

  function ConsumerStep(s: State, k: nat): State
    requires k < |s.cons| && ConsumerCan(s, k) && InRange(s.b)
  {
    match s.cons[k]
    case Acquire => Goes(s, k, Look).(lock := s.lock - 1, holder := TheConsumer(k))
    case Look =>
      if s.b.ct > 0 then
        var (b, item) := Dequeue(s.b);
        Goes(s, k, if s.nfull then Signal else Release(Success)).(b := b, taken := s.taken + [(k, item)])
      else if !s.producing then Goes(s, k, Release(End))
      else Goes(s, k, Release(Flag.Empty)).(nempty := s.nempty + 1)
    case Signal => Goes(s, k, Clear).(full := s.full + 1)
    case Clear => Goes(s, k, Release(Success)).(nfull := false)
    case Release(flag) =>
      var next := match flag case Success => Acquire case Empty => Sleep case End => Over;
      Goes(s, k, next).(lock := s.lock + 1, holder := Nobody)
    case Sleep => Goes(s, k, Acquire).(empty := s.empty - 1)
  }

  datatype Who = P | C(k: nat)

  predicate Can(s: State, who: Who) {
    match who
    case P => ProducerCan(s)
    case C(k) => k < |s.cons| && ConsumerCan(s, k)
  }

  function Step(c: Config, s: State, who: Who): State
    requires Can(s, who) && InRange(s.b)
  {
    match who
    case P => ProducerStep(c, s)
    case C(k) => ConsumerStep(s, k)
  }

  // ---------------------------------------------------------------- the invariant

  predicate ProducerInside(x: Producer) {
    x.Test? || x.Wake? || x.Count? || x.Unlock? || x.Enqueue? || x.Reunlock?
    || x.Finish? || x.FinalWake? || x.FinalCount? || x.FinalUnlock?
  }

  predicate ConsumerInside(x: Consumer) { x.Look? || x.Signal? || x.Clear? || x.Release? }

  ghost predicate Mutex(s: State) {
    && s.lock == (if s.holder.Nobody? then 1 else 0)
    && (ProducerInside(s.prod) <==> s.holder.TheProducer?)
    && (forall k :: 0 <= k < |s.cons| ==> (ConsumerInside(s.cons[k]) <==> s.holder == TheConsumer(k)))
    && (s.holder.TheConsumer? ==> s.holder.k < |s.cons|)
  }

  // The producer has enqueued item i.
  predicate Enqueued(x: Producer) { x.Wake? || x.Count? || x == Unlock(false) || x.Reunlock? }

  // The items enqueued so far are 0, 1, ..., Made - 1.
  function Made(s: State): nat { s.i + if Enqueued(s.prod) then 1 else 0 }

  // No run can overrun the buffer.
  predicate Sound(c: Config) { c.maxElem > 0 && Fits(c.maxElem, c.maxVal) }

  // The items taken are 0, 1, 2, ...
  ghost predicate InOrder(s: State) { forall j :: 0 <= j < |s.taken| ==> s.taken[j].1 == j }

  // The buffer holds the items enqueued and not taken.
  ghost predicate Waiting(s: State) { |s.taken| <= Made(s) && Holds(s.b, Span(|s.taken|, Made(s))) }

  ghost predicate Items(c: Config, s: State) {
    && |s.b.buf| == c.maxElem && InRange(s.b)
    && 0 <= s.b.ct == Made(s) - |s.taken| && s.b.ct <= c.maxElem
    && (forall j :: 0 <= j < |s.taken| ==> s.taken[j].0 < |s.cons|)
    && (Sound(c) ==> InOrder(s) && Waiting(s))
  }

  predicate Final(x: Producer) {
    x.FinalLock? || x.Finish? || x.FinalWake? || x.FinalCount? || x.FinalUnlock? || x.Stopped?
  }

  ghost predicate Phase(c: Config, s: State) {
    && |s.cons| == c.consumers
    && (if Final(s.prod) then s.i == c.maxVal else s.i < c.maxVal)
    && (s.producing <==> !(s.prod.FinalWake? || s.prod.FinalCount? || s.prod.FinalUnlock? || s.prod.Stopped?))
    && (forall k :: 0 <= k < |s.cons| && s.cons[k] in {Over, Release(End)} ==> !s.producing && s.b.ct == 0)
    && (s.prod.FinalUnlock? || s.prod.Stopped? ==> s.nempty == 0)
  }

  // The producer found the buffer full and has not enqueued its item yet.
  predicate FoundFull(x: Producer) { x == Unlock(true) || x.WaitFull? || x.Relock? || x.Enqueue? }

  predicate HolderAt(s: State, x: Consumer) {
    s.holder.TheConsumer? && s.holder.k < |s.cons| && s.cons[s.holder.k] == x
  }

  ghost predicate FullSignal(c: Config, s: State) {
    && (FoundFull(s.prod) ==> s.i >= 1)
    && (HolderAt(s, Signal) ==> s.prod.WaitFull?)
    && (HolderAt(s, Clear) ==> s.prod.WaitFull? || s.prod.Relock?)
    && match s.prod
       case Unlock(f) => s.full == 0 && s.nfull == f && (f ==> s.b.ct == c.maxElem)
       case WaitFull =>
         && (s.full == 0 ==> s.nfull && !HolderAt(s, Clear) && (s.b.ct == c.maxElem <==> !HolderAt(s, Signal)))
         && (s.full != 0 ==> s.full == 1 && s.b.ct < c.maxElem && (s.nfull <==> HolderAt(s, Clear)) && !HolderAt(s, Signal))
       case Relock => s.full == 0 && s.b.ct < c.maxElem && (s.nfull <==> HolderAt(s, Clear))
       case Enqueue => s.full == 0 && !s.nfull && s.b.ct < c.maxElem
       case _ => s.full == 0 && !s.nfull
  }

  // The consumer found the buffer empty and has not been woken.
  predicate Waits(x: Consumer) { x == Release(Flag.Empty) || x == Sleep }

  function IsWaiting(x: Consumer): int { One(Waits(x)) }

  function Waiters(cons: seq<Consumer>): int { Sum(cons, IsWaiting) }

  // Each waiter is one of those counted for waking or one already signalled.
  ghost predicate EmptySignal(s: State) {
    && Waiters(s.cons) == s.nempty + s.empty - (if s.prod.Count? || s.prod.FinalCount? then 1 else 0)
    && s.nempty <= |s.cons|
    && s.nempty >= (if s.prod.Wake? || s.prod.Count? || s.prod.FinalCount? then 1 else 0)
  }

  // When all consumers wait for a signal still to come, the buffer is as good as empty.
  ghost predicate AllAsleep(s: State) {
    s.nempty == |s.cons| && s.producing ==>
      s.prod.Wake? || s.prod.Count? || s.b.ct == 0 || (s.b.ct == 1 && !FoundFull(s.prod) && Made(s) >= 2)
  }

  ghost predicate Inv(c: Config, s: State) {
    Mutex(s) && Items(c, s) && Phase(c, s) && FullSignal(c, s) && EmptySignal(s)
  }

  // ---------------------------------------------------------------- every step keeps it

  lemma WaitersBound(cons: seq<Consumer>)
    ensures Waiters(cons) <= |cons|
  {
    CountBounds(cons, IsWaiting);
  }

  lemma PutItem(c: Config, s: State)
    requires Items(c, s) && Sound(c) && s.b.ct < c.maxElem && s.i < c.maxVal && !Enqueued(s.prod)
    ensures Holds(Ring.Enqueue(s.b, s.i), Span(|s.taken|, s.i + 1))
  {
    var q := Span(|s.taken|, s.i);
    RoomIs(c.maxElem, c.maxVal, |q|);
    hide LowPart, PowerOfTwo, Fits, And;
    EnqueueHolds(s.b, q, s.i);
    assert Span(|s.taken|, s.i + 1) == q + [s.i];
  }

  lemma TakeItem(c: Config, s: State)
    requires Items(c, s) && Sound(c) && s.b.ct > 0
    ensures |s.taken| < Made(s) && Dequeue(s.b).1 == |s.taken|
    ensures Holds(Dequeue(s.b).0, Span(|s.taken| + 1, Made(s)))
  {
    var q := Span(|s.taken|, Made(s));
    DequeueHolds(s.b, q);
    assert Span(|s.taken| + 1, Made(s)) == q[1..];
  }

  lemma ProducerMutex(c: Config, s: State)
    requires Inv(c, s) && ProducerCan(s)
    ensures Mutex(ProducerStep(c, s))
  {
  }

  lemma ProducerPuts(c: Config, s: State)
    requires Items(c, s) && ProducerCan(s) && s.b.ct < c.maxElem && s.i < c.maxVal && (s.prod.Test? || s.prod.Enqueue?)
    ensures Items(c, ProducerStep(c, s))
  {
    if Sound(c) {
      PutItem(c, s);
    }
    hide Holds, And, Span, Sound;
  }

  lemma ProducerItems(c: Config, s: State)
    requires Inv(c, s) && ProducerCan(s)
    ensures Items(c, ProducerStep(c, s))
  {
    assert Items(c, s) && (!Final(s.prod) ==> s.i < c.maxVal);
    if s.b.ct < c.maxElem && (s.prod.Test? || s.prod.Enqueue?) {
      hide Inv, Holds, Ring.Enqueue, Span, Sound;
      ProducerPuts(c, s);
    } else {
      assert !s.prod.Enqueue?;
      hide Inv, Holds, Ring.Enqueue, Span, Sound;
    }
  }

  lemma ProducerPhase(c: Config, s: State)
    requires Inv(c, s) && ProducerCan(s)
    ensures Phase(c, ProducerStep(c, s))
  {
    assert Mutex(s) && Phase(c, s);
    hide Inv, And;
  }

  lemma ProducerFull(c: Config, s: State)
    requires Inv(c, s) && ProducerCan(s)
    ensures FullSignal(c, ProducerStep(c, s))
  {
    assert Mutex(s) && FullSignal(c, s) && Phase(c, s) && s.b.ct <= Made(s);
    hide Inv, And;
  }

  lemma ProducerEmpty(c: Config, s: State)
    requires Inv(c, s) && ProducerCan(s)
    ensures EmptySignal(ProducerStep(c, s))
  {
    assert EmptySignal(s);
    hide Inv, And, Waiters;
  }

  lemma ConsumerMutex(c: Config, s: State, k: nat)
    requires Inv(c, s) && k < |s.cons| && ConsumerCan(s, k)
    ensures Mutex(ConsumerStep(s, k))
  {
    assert Mutex(s) && InRange(s.b);
    hide Inv, Dequeue;
  }

  lemma LookTakes(c: Config, s: State, k: nat)
    requires Inv(c, s) && k < |s.cons| && s.cons[k].Look? && s.b.ct > 0
    ensures Items(c, ConsumerStep(s, k))
  {
    if Sound(c) {
      TakeItem(c, s);
    }
    hide Inv, Holds, And, Span, Sound;
    assert Items(c, s);
  }

  lemma ConsumerItems(c: Config, s: State, k: nat)
    requires Inv(c, s) && k < |s.cons| && ConsumerCan(s, k)
    ensures Items(c, ConsumerStep(s, k))
  {
    if s.cons[k].Look? && s.b.ct > 0 {
      LookTakes(c, s, k);
    } else {
      assert Items(c, s);
      hide Inv, Holds, Span, Dequeue, Sound;
    }
  }

  lemma ConsumerPhase(c: Config, s: State, k: nat)
    requires Inv(c, s) && k < |s.cons| && ConsumerCan(s, k)
    ensures Phase(c, ConsumerStep(s, k))
  {
    assert Mutex(s) && Phase(c, s);
    hide Inv;
  }

  lemma ConsumerFull(c: Config, s: State, k: nat)
    requires Inv(c, s) && k < |s.cons| && ConsumerCan(s, k)
    ensures FullSignal(c, ConsumerStep(s, k))
  {
    assert Mutex(s) && FullSignal(c, s) && s.b.ct <= c.maxElem;
    hide Inv;
  }

  lemma ConsumerEmpty(c: Config, s: State, k: nat)
    requires Inv(c, s) && k < |s.cons| && ConsumerCan(s, k)
    ensures EmptySignal(ConsumerStep(s, k))
  {
    SumUpdate(s.cons, IsWaiting, k, ConsumerStep(s, k).cons[k]);
    WaitersBound(ConsumerStep(s, k).cons);
    assert Mutex(s) && EmptySignal(s) && (ConsumerInside(s.cons[k]) ==> !ProducerInside(s.prod));
    hide Inv, Mutex, Waiters, Dequeue;
  }

  lemma StepInv(c: Config, s: State, who: Who)
    requires Inv(c, s) && Can(s, who)
    ensures Inv(c, Step(c, s, who))
  {
    match who
    case P =>
      ProducerMutex(c, s);
      ProducerItems(c, s);
      ProducerPhase(c, s);
      ProducerFull(c, s);
      ProducerEmpty(c, s);
      hide Mutex, Items, Phase, FullSignal, EmptySignal, ProducerStep;
    case C(k) =>
      ConsumerMutex(c, s, k);
      ConsumerItems(c, s, k);
      ConsumerPhase(c, s, k);
      ConsumerFull(c, s, k);
      ConsumerEmpty(c, s, k);
      hide Mutex, Items, Phase, FullSignal, EmptySignal, ConsumerStep;
  }

  lemma StartInv(c: Config)
    requires c.maxElem > 0
    ensures Inv(c, Start(c)) && (c.consumers > 0 ==> AllAsleep(Start(c)))
  {
    EmptyHolds(c.maxElem);
    SumSame(Start(c).cons, IsWaiting, 0);
    assert Span(0, 0) == [];
  }

  // ---------------------------------------------------------------- whole runs

  // The state after a run, if every step of it can be taken.
  predicate Runs(c: Config, run: seq<Who>)
    requires c.maxElem > 0
    decreases |run|, 0
  {
    run == [] || (Runs(c, run[..|run| - 1]) && Can(After(c, run[..|run| - 1]), run[|run| - 1]))
  }

  function After(c: Config, run: seq<Who>): (r: State)
    requires c.maxElem > 0 && Runs(c, run)
    ensures InRange(r.b)
    decreases |run|, 1
  {
    if run == [] then Start(c)
    else
      var s := After(c, run[..|run| - 1]);
      Step(c, s, run[|run| - 1])
  }

  lemma {:induction false} RunInv(c: Config, run: seq<Who>)
    requires c.maxElem > 0 && Runs(c, run)
    ensures Inv(c, After(c, run))
    decreases |run|
  {
    if run == [] {
      StartInv(c);
    } else {
      RunInv(c, run[..|run| - 1]);
      StepInv(c, After(c, run[..|run| - 1]), run[|run| - 1]);
    }
  }

  /** Safety, in every run: at most one process is between its Sem_P(&lock) and Sem_V(&lock); the count stays in range, no
      process about to enqueue finds the buffer full or about to dequeue finds it empty; with a size that is a power of two the items
      taken are 0, 1, 2, ... in order, each by one consumer; and the consumers waiting in EMPTY are those counted in nempty
      and those signalled through empty. */
  lemma Safety(c: Config, run: seq<Who>)
    requires c.maxElem > 0 && Runs(c, run)
    ensures var s := After(c, run);
      && 0 <= s.b.ct <= c.maxElem && (s.prod.Enqueue? ==> s.b.ct < c.maxElem)
      && (ProducerInside(s.prod) ==> forall k :: 0 <= k < |s.cons| ==> !ConsumerInside(s.cons[k]))
      && (forall k, l :: 0 <= k < l < |s.cons| ==> !(ConsumerInside(s.cons[k]) && ConsumerInside(s.cons[l])))
      && (forall j :: 0 <= j < |s.taken| ==> s.taken[j].0 < |s.cons|)
      && |s.taken| <= Made(s) <= c.maxVal && s.b.ct == Made(s) - |s.taken|
      && (Sound(c) ==> InOrder(s) && Waiting(s))
      && (s.holder.Nobody? ==> Waiters(s.cons) == s.nempty + s.empty)
  {
    RunInv(c, run);
    hide Runs, After;
  }

  // ---------------------------------------------------------------- no deadlock

  predicate Stuck(s: State) {
    && (!s.prod.Stopped? || exists k :: 0 <= k < |s.cons| && !s.cons[k].Over?)
    && !ProducerCan(s) && forall k :: 0 <= k < |s.cons| ==> !ConsumerCan(s, k)
  }

  // Either the buffer has two slots, or there are too few items to fill one slot twice.
  predicate Roomy(c: Config) { c.maxElem >= 2 || c.maxVal <= 2 }

  lemma ProducerAsleep(c: Config, s: State)
    requires Inv(c, s) && ProducerCan(s) && AllAsleep(s) && Roomy(c) && c.maxElem > 0 && c.consumers > 0
    ensures AllAsleep(ProducerStep(c, s))
  {
    assert Phase(c, s) && FullSignal(c, s) && EmptySignal(s) && Items(c, s);
    hide Inv, Waiters, And, Sound;
  }

  lemma ConsumerAsleep(c: Config, s: State, k: nat)
    requires Inv(c, s) && k < |s.cons| && ConsumerCan(s, k) && AllAsleep(s) && c.consumers > 0
    ensures AllAsleep(ConsumerStep(s, k))
  {
    WaitersBound(s.cons);
    assert Phase(c, s) && FullSignal(c, s) && EmptySignal(s) && Items(c, s) && Mutex(s);
    if s.cons[k].Look? && s.b.ct == 0 && s.producing {
      assert !s.prod.Wake? && !s.prod.Count?;
    } else {
      NotAllWait(s.cons, k);
    }
    hide Inv, Waiters, And, Sound, Phase, FullSignal;
  }

  // A consumer that moves has not been waiting unsignalled with all the others.
  lemma NotAllWait(cons: seq<Consumer>, k: nat)
    requires k < |cons|
    ensures !Waits(cons[k]) ==> Waiters(cons) < |cons|
  {
    CountBounds(cons, IsWaiting);
  }

  lemma StepAsleep(c: Config, s: State, who: Who)
    requires Inv(c, s) && Can(s, who) && AllAsleep(s) && Roomy(c) && c.maxElem > 0 && c.consumers > 0
    ensures AllAsleep(Step(c, s, who))
  {
    hide Inv, AllAsleep, ProducerStep, ConsumerStep;
    match who
    case P => ProducerAsleep(c, s);
    case C(k) => ConsumerAsleep(c, s, k);
  }

  lemma {:induction false} RunAsleep(c: Config, run: seq<Who>)
    requires c.maxElem > 0 && Runs(c, run) && Roomy(c) && c.consumers > 0
    ensures AllAsleep(After(c, run))
    decreases |run|
  {
    if run == [] {
      StartInv(c);
    } else {
      RunInv(c, run[..|run| - 1]);
      RunAsleep(c, run[..|run| - 1]);
      StepAsleep(c, After(c, run[..|run| - 1]), run[|run| - 1]);
    }
  }

  // Somebody between lock and unlock can always go on.
  lemma InsideGoes(s: State)
    requires Mutex(s) && s.lock == 0
    ensures !Stuck(s)
  {
    if s.holder.TheConsumer? {
      assert ConsumerInside(s.cons[s.holder.k]) && ConsumerCan(s, s.holder.k);
    }
  }

  lemma Blocked(s: State, k: nat)
    requires Mutex(s) && s.lock > 0 && k < |s.cons| && !ConsumerCan(s, k)
    ensures s.cons[k].Over? || (Waits(s.cons[k]) && s.empty == 0)
  {
    assert !ConsumerInside(s.cons[k]);
  }

  // While the producer waits for room, some consumer can go on.
  lemma NotAllBlocked(c: Config, s: State)
    requires Inv(c, s) && AllAsleep(s) && c.consumers > 0 && c.maxElem > 0
    requires s.lock > 0 && s.prod.WaitFull? && s.full == 0
    ensures exists k :: 0 <= k < |s.cons| && ConsumerCan(s, k)
  {
    if forall k :: 0 <= k < |s.cons| ==> !ConsumerCan(s, k) {
      forall k | 0 <= k < |s.cons| ensures Waits(s.cons[k]) && s.empty == 0 {
        Blocked(s, k);
      }
      CountBounds(s.cons, IsWaiting);
      hide Waiters, Items;
    }
  }

  lemma NotStuck(c: Config, s: State)
    requires Inv(c, s) && AllAsleep(s) && c.consumers > 0 && c.maxElem > 0
    ensures !Stuck(s)
  {
    if s.lock == 0 {
      InsideGoes(s);
    } else if s.prod.WaitFull? && s.full == 0 {
      NotAllBlocked(c, s);
    } else if s.prod.Stopped? {
      CountBounds(s.cons, IsWaiting);
      forall k | 0 <= k < |s.cons| && !s.cons[k].Over? ensures exists l :: 0 <= l < |s.cons| && ConsumerCan(s, l) {
        if !ConsumerCan(s, k) {
          Blocked(s, k);
        }
      }
    }
  }

  // ---------------------------------------------------------------- every run ends

  function ConsumerWeight(x: Consumer): int {
    match x
    case Signal => 6
    case Clear => 5
    case Release(Success) => 4
    case Acquire => 3
    case Look => 2
    case Release(_) => 1
    case Sleep => 0
    case Over => 0
  }

  // An iteration is worth 20 steps, an item in the buffer 5, a signal 4, and a last wake 7.
  function ProducerWeight(c: Config, s: State): int {
    var last := 7 * c.consumers + 8;
    var left := 20 * (c.maxVal - s.i) + last;
    match s.prod
    case Lock => left
    case Test => left - 1
    case Wake => left - 7
    case Count => left - 12
    case Unlock(full) => if full then left - 2 else left - 13
    case WaitFull => left - 3
    case Relock => left - 4
    case Enqueue => left - 5
    case Reunlock => left - 11
    case FinalLock => last
    case Finish => last - 1
    case FinalWake => 6 + 7 * s.nempty
    case FinalCount => 1 + 7 * s.nempty
    case FinalUnlock => 2 + 7 * s.nempty
    case Stopped => 7 * s.nempty
  }

  function Weight(c: Config, s: State): int {
    ProducerWeight(c, s) + Sum(s.cons, ConsumerWeight) + 5 * s.b.ct + 4 * s.empty
  }

  lemma WeightNatural(c: Config, s: State)
    requires Inv(c, s)
    ensures Weight(c, s) >= 0
  {
    assert Phase(c, s) && EmptySignal(s) && s.b.ct >= 0;
    SumNatural(s.cons, ConsumerWeight);
    hide Inv, Sum;
  }

  lemma ProducerLighter(c: Config, s: State)
    requires Inv(c, s) && ProducerCan(s)
    ensures Weight(c, ProducerStep(c, s)) < Weight(c, s)
  {
    assert Phase(c, s) && EmptySignal(s);
    hide Inv, Sum, And;
  }

  lemma ConsumerPays(s: State, k: nat)
    requires k < |s.cons| && ConsumerCan(s, k) && InRange(s.b)
    ensures var t := ConsumerStep(s, k);
      && t.cons == s.cons[k := t.cons[k]]
      && ConsumerWeight(t.cons[k]) + 5 * t.b.ct + 4 * t.empty < ConsumerWeight(s.cons[k]) + 5 * s.b.ct + 4 * s.empty
  {
  }

  // A consumer counts itself in nempty only while producing, when the count weighs nothing.
  lemma ProducerSame(c: Config, s: State, k: nat)
    requires Phase(c, s) && k < |s.cons| && ConsumerCan(s, k) && InRange(s.b)
    ensures ProducerWeight(c, ConsumerStep(s, k)) == ProducerWeight(c, s)
  {
  }

  lemma ConsumerLighter(c: Config, s: State, k: nat)
    requires Inv(c, s) && k < |s.cons| && ConsumerCan(s, k)
    ensures Weight(c, ConsumerStep(s, k)) < Weight(c, s)
  {
    assert InRange(s.b) && Phase(c, s);
    hide Inv, Phase, ConsumerStep, Sum, ConsumerWeight, ProducerWeight;
    ProducerSame(c, s, k);
    ConsumerPays(s, k);
    SumUpdate(s.cons, ConsumerWeight, k, ConsumerStep(s, k).cons[k]);
  }

  lemma {:induction false} RunLighter(c: Config, run: seq<Who>)
    requires c.maxElem > 0 && Runs(c, run)
    ensures Weight(c, After(c, run)) + |run| <= Weight(c, Start(c))
    decreases |run|
  {
    if run != [] {
      var before := run[..|run| - 1];
      RunInv(c, before);
      RunLighter(c, before);
      hide Weight;
      match run[|run| - 1]
      case P => ProducerLighter(c, After(c, before));
      case C(k) => ConsumerLighter(c, After(c, before), k);
    }
  }

  lemma StartWeight(c: Config)
    requires c.maxElem > 0
    ensures Weight(c, Start(c)) <= 20 * c.maxVal + 10 * c.consumers + 8
  {
    SumSame(Start(c).cons, ConsumerWeight, 3);
  }

  /** No run is longer than 20 steps for each item and 10 for each consumer, and 8. */
  lemma RunsEnd(c: Config, run: seq<Who>)
    requires c.maxElem > 0 && Runs(c, run)
    ensures |run| <= 20 * c.maxVal + 10 * c.consumers + 8
  {
    hide Runs, After, Start, Weight, Inv;
    RunLighter(c, run);
    RunInv(c, run);
    WeightNatural(c, After(c, run));
    StartWeight(c);
  }

  // All processes have stopped, and as many items as were produced went to one consumer each: 0, ..., maxVal - 1, in order, if the
  // size is sound.
  ghost predicate Delivered(c: Config, s: State) {
    && s.prod.Stopped? && (forall k :: 0 <= k < |s.cons| ==> s.cons[k].Over?)
    && |s.taken| == c.maxVal && (forall j :: 0 <= j < c.maxVal ==> s.taken[j].0 < c.consumers)
    && (Sound(c) ==> InOrder(s))
  }

  lemma Finished(c: Config, s: State)
    requires Inv(c, s) && c.consumers > 0 && !Stuck(s) && forall who :: !Can(s, who)
    ensures Delivered(c, s)
  {
    assert !Can(s, P);
    forall k | 0 <= k < |s.cons| ensures !ConsumerCan(s, k) {
      assert !Can(s, C(k));
    }
    assert s.cons[0].Over?;
    hide Holds, Waiters;
  }

  /** A run that cannot go on has delivered everything. */
  lemma Delivers(c: Config, run: seq<Who>)
    requires c.maxElem > 0 && c.consumers > 0 && Roomy(c) && Runs(c, run)
    requires forall who :: !Can(After(c, run), who)
    ensures Delivered(c, After(c, run))
  {
    hide Runs, After, Inv, AllAsleep, Delivered;
    RunInv(c, run);
    RunAsleep(c, run);
    var s := After(c, run);
    NotStuck(c, s);
    Finished(c, s);
  }

  // ---------------------------------------------------------------- one slot is too few

  lemma Extend(c: Config, run: seq<Who>, who: Who)
    requires c.maxElem > 0 && Runs(c, run) && Can(After(c, run), who)
    ensures Runs(c, run + [who]) && After(c, run + [who]) == Step(c, After(c, run), who)
  {
    assert (run + [who])[..|run|] == run;
  }

  // What the scenario needs to know of a state: no consumer past the first k is asleep, and nobody is inside.
  ghost predicate Scene(c: Config, s: State, prod: Producer, i: nat, ct: nat, full: nat, nfull: bool, k: nat) {
    && |s.cons| == c.consumers && k <= |s.cons| && InRange(s.b) && s.producing && s.lock == 1 && s.empty == 0
    && s.prod == prod && s.i == i && s.b.ct == ct && s.full == full && s.nfull == nfull && s.nempty == k
    && (forall l :: 0 <= l < |s.cons| ==> s.cons[l] == if l < k then Sleep else Acquire)
  }

  // The producer fills the slot and waits for room.
  lemma SceneFill(c: Config) returns (run: seq<Who>)
    requires c.maxElem == 1 && c.maxVal >= 3 && c.consumers > 0
    ensures Runs(c, run) && Scene(c, After(c, run), WaitFull, 1, 1, 0, true, 0)
  {
    run := [];
    var j := 0;
    while j < 6
      invariant j <= 6 && Runs(c, run)
      invariant var s := After(c, run);
        && InRange(s.b) && s.producing && s.lock == (if j in {0, 3, 6} then 1 else 0) && s.full == s.empty == s.nempty == 0
        && s.cons == Start(c).cons && s.nfull == (j >= 5) && s.b.ct == (if j < 2 then 0 else 1) && s.i == (if j < 3 then 0 else 1)
        && s.prod == [Lock, Test, Unlock(false), Lock, Test, Unlock(true), WaitFull][j]
    {
      Extend(c, run, P);
      hide Runs, After, And;
      run := run + [P];
      j := j + 1;
    }
  }

  // The first consumer takes the item and signals.
  lemma SceneTake(c: Config, run: seq<Who>) returns (r: seq<Who>)
    requires c.maxElem == 1 && c.consumers > 0 && Runs(c, run) && Scene(c, After(c, run), WaitFull, 1, 1, 0, true, 0)
    ensures Runs(c, r) && Scene(c, After(c, r), WaitFull, 1, 0, 1, false, 0)
  {
    r := run;
    var j := 0;
    while j < 5
      invariant j <= 5 && Runs(c, r)
      invariant var s := After(c, r);
        && InRange(s.b) && s.producing && s.lock == (if j in {0, 5} then 1 else 0) && s.empty == s.nempty == 0
        && s.prod == WaitFull && s.i == 1
        && s.full == (if j < 3 then 0 else 1) && s.nfull == (j < 4) && s.b.ct == (if j < 2 then 1 else 0)
        && s.cons == After(c, run).cons[0 := [Acquire, Look, Signal, Clear, Release(Success), Acquire][j]]
    {
      Extend(c, r, C(0));
      hide Runs, After, And;
      r := r + [C(0)];
      j := j + 1;
    }
  }

  // Then all consumers find the slot empty, one after the other.
  lemma {:induction false} SceneSleep(c: Config, run: seq<Who>, k: nat) returns (r: seq<Who>)
    requires c.maxElem == 1 && k <= c.consumers && Runs(c, run) && Scene(c, After(c, run), WaitFull, 1, 0, 1, false, 0)
    ensures Runs(c, r) && Scene(c, After(c, r), WaitFull, 1, 0, 1, false, k)
  {
    hide Runs, After, Scene, Step, Can;
    if k == 0 {
      r := run;
    } else {
      r := SceneSleep(c, run, k - 1);
      SleepStep(c, After(c, r), k - 1);
      r := Thrice(c, r, C(k - 1));
    }
  }

  // Acquire, Look, Release.
  lemma SleepStep(c: Config, s: State, k: nat)
    requires k < c.consumers && Scene(c, s, WaitFull, 1, 0, 1, false, k)
    ensures CanThrice(c, s, C(k)) && Scene(c, Step(c, Step(c, Step(c, s, C(k)), C(k)), C(k)), WaitFull, 1, 0, 1, false, k + 1)
  {
    hide And, Dequeue;
  }

  // The producer puts its item in without a signal, finds the slot full and waits, and all are asleep.
  lemma SceneJam(c: Config, run: seq<Who>) returns (r: seq<Who>)
    requires c.maxElem == 1 && c.maxVal >= 3 && Runs(c, run) && Scene(c, After(c, run), WaitFull, 1, 0, 1, false, c.consumers)
    ensures Runs(c, r) && Scene(c, After(c, r), WaitFull, 2, 1, 0, true, c.consumers)
  {
    r := run;
    var j := 0;
    while j < 7
      invariant j <= 7 && Runs(c, r)
      invariant var s := After(c, r);
        && InRange(s.b) && s.producing && s.lock == (if j in {0, 1, 4, 7} then 1 else 0) && s.empty == 0
        && s.cons == After(c, run).cons && s.nempty == c.consumers
        && s.full == (if j == 0 then 1 else 0) && s.nfull == (j >= 6)
        && s.b.ct == (if j < 3 then 0 else 1) && s.i == (if j < 4 then 1 else 2)
        && s.prod == [WaitFull, Relock, Enqueue, Reunlock, Lock, Test, Unlock(true), WaitFull][j]
    {
      Extend(c, r, P);
      hide Runs, After, And;
      r := r + [P];
      j := j + 1;
    }
  }

  /** The program never deadlocks if and only if the buffer has at least two slots or at most two items are produced:
      with a single slot the item enqueued after a wait for room wakes nobody, and the next wait is for ever. */
  lemma NeverDeadlocks(c: Config)
    requires c.maxElem > 0 && c.consumers > 0
    ensures (forall run :: Runs(c, run) ==> !Stuck(After(c, run))) <==> c.maxElem >= 2 || c.maxVal <= 2
  {
    if Roomy(c) {
      forall run | Runs(c, run) ensures !Stuck(After(c, run)) {
        RunInv(c, run);
        RunAsleep(c, run);
        NotStuck(c, After(c, run));
      }
    } else {
      var run := SceneFill(c);
      run := SceneTake(c, run);
      run := SceneSleep(c, run, c.consumers);
      run := SceneJam(c, run);
      assert Stuck(After(c, run));
    }
  }

  // ---------------------------------------------------------------- sizes that are not powers of two

  // The producer has put n items in, and nobody else has done anything.
  ghost predicate Filled(c: Config, s: State, n: nat)
    requires c.maxElem > 0
  {
    s == Start(c).(b := Fill(Ring.Empty(c.maxElem), n), i := n, prod := NextItem(c, n))
  }

  lemma {:induction false} FillRun(c: Config, n: nat) returns (run: seq<Who>)
    requires n <= c.maxVal && n <= c.maxElem && c.maxElem > 0
    ensures Runs(c, run) && Filled(c, After(c, run), n)
  {
    hide Runs, After, Filled, Step, Can;
    if n == 0 {
      run := [];
      FillNone(c);
    } else {
      run := FillRun(c, n - 1);
      FillStep(c, After(c, run), n - 1);
      run := Thrice(c, run, P);
    }
  }

  lemma FillNone(c: Config)
    requires c.maxElem > 0
    ensures Runs(c, []) && Filled(c, After(c, []), 0)
  {
  }

  ghost predicate CanThrice(c: Config, s: State, who: Who) {
    && Can(s, who) && InRange(s.b)
    && var s1 := Step(c, s, who);
       && Can(s1, who) && InRange(s1.b)
       && var s2 := Step(c, s1, who); Can(s2, who) && InRange(s2.b)
  }

  lemma Thrice(c: Config, run: seq<Who>, who: Who) returns (r: seq<Who>)
    requires c.maxElem > 0 && Runs(c, run) && CanThrice(c, After(c, run), who)
    ensures Runs(c, r) && After(c, r) == Step(c, Step(c, Step(c, After(c, run), who), who), who)
  {
    hide Runs, After, Step, Can, InRange;
    Extend(c, run, who);
    Extend(c, run + [who], who);
    Extend(c, run + [who] + [who], who);
    r := run + [who] + [who] + [who];
  }

  // Lock, Test, Unlock.
  lemma FillStep(c: Config, s: State, n: nat)
    requires n < c.maxVal && n < c.maxElem && Filled(c, s, n)
    ensures CanThrice(c, s, P) && Filled(c, Step(c, Step(c, Step(c, s, P), P), P), n + 1)
  {
    FillCount(c.maxElem, n);
    hide And, Ring.Enqueue;
  }

  // With too many items for its size, the producer runs round the ring before a consumer takes the first item.
  lemma OverrunRun(c: Config) returns (run: seq<Who>)
    requires c.maxElem > 0 && c.consumers > 0 && !Sound(c)
    ensures Runs(c, run) && After(c, run).taken == [(0, LowPart(c.maxElem))]
  {
    var n := LowPart(c.maxElem) + 1;
    LowPartWhole(c.maxElem);
    FillOver(c.maxElem);
    FillCount(c.maxElem, n);
    run := FillRun(c, n);
    hide LowPart, PowerOfTwo, And, Fill;
    Extend(c, run, C(0));
    Extend(c, run + [C(0)], C(0));
    run := run + [C(0)] + [C(0)];
    hide Runs, After;
  }

  /** The items come out as 0, 1, 2, ... in every run if and only if the size is a power of two, or there are no more items than
      the largest power of two that divides it. */
  lemma OrderExact(c: Config)
    requires c.maxElem > 0 && c.consumers > 0
    ensures (forall run :: Runs(c, run) ==> InOrder(After(c, run))) <==> PowerOfTwo(c.maxElem) || c.maxVal <= LowPart(c.maxElem)
  {
    if Sound(c) {
      forall run | Runs(c, run) ensures InOrder(After(c, run)) {
        RunInv(c, run);
      }
    } else {
      var run := OverrunRun(c);
      assert After(c, run).taken[0].1 != 0;
    }
  }

  /** A buffer of six slots, which the program's own test of the size lets pass, gives out item 2 first in some run with three items. */
  lemma SizeSix(c: Config)
    requires c.maxElem == 6 && c.maxVal >= 3 && c.consumers > 0
    ensures exists run :: Runs(c, run) && After(c, run).taken == [(0, 2)]
  {
    assert LowPart(6) == 2;
    var run := OverrunRun(c);
  }
}
