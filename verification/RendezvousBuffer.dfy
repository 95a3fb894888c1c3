/** The message-passing producer-consumer example: a buffer process between one producer and any number of
    consumers.  Each communication is the three steps the network guarantees: the sender posts a value, the
    receiver takes it, the sender is released. */
module RendezvousBuffer {
  import opened Ring
  import opened Sums

  // MAXELEM, MAXVAL, NCONSUMERS.
  datatype Config = Config(maxElem: nat, maxVal: nat, consumers: nat)

  // The producer's i-th output; the last one, for i = maxVal, is -1.
  datatype Producer = Send(i: nat) | Sent(i: nat) | Received(i: nat) | Stopped

  // A consumer asks for an item, then waits for it.
  datatype Consumer = Ask | Asked | Heard | Await | Over

  // Serving producer and consumers, emptying the buffer, or ending the last `left` consumers.
  datatype Stage = Serve | Drain | End(left: nat)

  datatype Server =
    | Top(stage: Stage) | Input | Alt(stage: Stage)
    | Reply(stage: Stage, k: nat) | Replied(stage: Stage, k: nat, v: int) | Accepted(stage: Stage, k: nat)
    | Finished

  /** The three programs' states and the buffer; `made` counts the items enqueued and `given` lists the
      replies, each with its consumer. */
  datatype State = State(b: Buffer, prod: Producer, server: Server, cons: seq<Consumer>, made: nat, given: seq<(nat, int)>)

  function Start(c: Config): State
    requires c.maxElem > 0
  {
    State(Empty(c.maxElem), Send(0), Top(Serve), seq(c.consumers, k => Ask), 0, [])
  }

  /** A step of the producer, the buffer process, or consumer k; the buffer taking the request of consumer k; or
      its default clause, which it may choose at any time as requests may still be under way. */
  datatype Move = P | S | Pick(k: nat) | Poll | C(k: nat)

  predicate Can(s: State, m: Move) {
    match m
    case P => s.prod.Send? || s.prod.Received?
    case S => !s.server.Alt? && !s.server.Replied? && !s.server.Finished? && (s.server.Input? ==> s.prod.Sent?)
    case Pick(k) => s.server.Alt? && k < |s.cons| && s.cons[k].Asked?
    case Poll => s.server == Alt(Serve)
    case C(k) => k < |s.cons| && match s.cons[k]
      case Ask => true
      case Heard => true
      case Await => s.server.Replied? && s.server.k == k
      case _ => false
  }

  function Value(c: Config, i: nat): int { if i < c.maxVal then i else -1 }

  // The loops of buffer().
  function Loop(c: Config, s: State, stage: Stage): Server {
    match stage
    case Serve => if s.b.ct < c.maxElem then Input else Alt(Serve)
    case Drain => if s.b.ct > 0 then Alt(Drain) else Top(End(c.consumers))
    case End(left) => if left > 0 then Alt(End(left)) else Finished
  }

  function ServerStep(c: Config, s: State): State
    requires Can(s, S) && InRange(s.b)
  {
    match s.server
    case Top(stage) => s.(server := Loop(c, s, stage))
    case Input =>
      var t := s.(prod := Received(s.prod.i));
      if Value(c, s.prod.i) < 0 then t.(server := Top(Drain))
      else t.(b := Enqueue(s.b, Value(c, s.prod.i)), made := s.made + 1, server := Alt(Serve))
    case Reply(stage, k) =>
      if stage.End? then s.(given := s.given + [(k, -1)], server := Replied(stage, k, -1))
      else
        var (b, v) := Dequeue(s.b);
        s.(b := b, given := s.given + [(k, v)], server := Replied(stage, k, v))
    case Accepted(stage, k) => s.(server := Top(if stage.End? && stage.left > 0 then End(stage.left - 1) else stage))
  }

  function Step(c: Config, s: State, m: Move): State
    requires Can(s, m) && InRange(s.b)
  {
    match m
    case P =>
      s.(prod := match s.prod
         case Send(i) => Sent(i)
         case Received(i) => if i < c.maxVal then Send(i + 1) else Stopped)
    case S => ServerStep(c, s)
    case Pick(k) => s.(server := Reply(s.server.stage, k), cons := s.cons[k := Heard])
    case Poll => s.(server := Top(Serve))
    case C(k) =>
      match s.cons[k]
      case Ask => s.(cons := s.cons[k := Asked])
      case Heard => s.(cons := s.cons[k := Await])
      case Await => s.(cons := s.cons[k := if s.server.v >= 0 then Ask else Over], server := Accepted(s.server.stage, k))
  }

  // ---------------------------------------------------------------- the invariant

  function StageOf(x: Server, c: Config): Stage {
    match x
    case Input => Serve
    case Finished => End(0)
    case _ => x.stage
  }

  // The consumer whose request has been taken and not yet answered.
  predicate Serving(x: Server, k: nat) { (x.Reply? || x.Replied?) && x.k == k }

  function IsOver(x: Consumer): int { One(x.Over?) }

  function Overs(cons: seq<Consumer>): int { Sum(cons, IsOver) }

  // The producer is at the item the buffer process expects.
  ghost predicate Producing(c: Config, s: State) {
    if StageOf(s.server, c).Serve? then
      match s.prod
      case Send(i) => i == s.made
      case Sent(i) => i == s.made
      case Received(i) => i + 1 == s.made
      case Stopped => false
    else s.made == c.maxVal && (s.prod == Received(c.maxVal) || s.prod.Stopped?)
  }

  // No run can overrun the buffer.
  predicate Sound(c: Config) { c.maxElem > 0 && Fits(c.maxElem, c.maxVal) }

  ghost predicate Natural(b: Buffer) { forall i :: 0 <= i < |b.buf| ==> b.buf[i] >= 0 }

  // The buffer holds the items enqueued and not given out.
  ghost predicate Waiting(c: Config, s: State) {
    if StageOf(s.server, c).End? then Holds(s.b, []) else |s.given| <= s.made && Holds(s.b, Span(|s.given|, s.made))
  }

  // The items wait, and there is room or an item where the buffer process relies on it.
  ghost predicate Buffering(c: Config, s: State) {
    && |s.b.buf| == c.maxElem && InRange(s.b) && Natural(s.b) && s.made <= c.maxVal
    && (if StageOf(s.server, c).End? then s.b.ct == 0 && s.made == c.maxVal
        else 0 <= s.b.ct == s.made - |s.given| && s.b.ct <= c.maxElem)
    && (Sound(c) ==> Waiting(c, s))
    && (s.server.Input? ==> s.b.ct < c.maxElem)
    && ((s.server.Alt? || s.server.Reply?) && !s.server.stage.End? ==> s.b.ct > 0)
  }

  // The j-th reply is an item, the j-th one if the size is sound, or -1 after the last item.
  predicate ReplyOk(c: Config, j: nat, reply: (nat, int)) {
    && reply.0 < c.consumers && (if j < c.maxVal then reply.1 >= 0 else reply.1 == -1)
    && (Sound(c) ==> reply.1 == Value(c, j))
  }

  ghost predicate Replies(c: Config, s: State) {
    && (forall j :: 0 <= j < |s.given| ==> ReplyOk(c, j, s.given[j]))
    && (s.server.Replied? ==> |s.given| > 0 && s.given[|s.given| - 1] == (s.server.k, s.server.v))
    && (match StageOf(s.server, c)
        case End(left) =>
          left <= c.consumers && |s.given| == c.maxVal + c.consumers - left + (if s.server.Replied? || s.server.Accepted? then 1 else 0)
          && ((s.server.Alt? || s.server.Reply? || s.server.Replied? || s.server.Accepted?) ==> left > 0)
        case _ => |s.given| <= c.maxVal)
  }

  ghost predicate Consuming(c: Config, s: State) {
    && |s.cons| == c.consumers
    && ((s.server.Reply? || s.server.Replied? || s.server.Accepted?) ==> s.server.k < c.consumers)
    && (forall k :: 0 <= k < c.consumers ==> (s.cons[k].Heard? || s.cons[k].Await? <==> Serving(s.server, k)))
    && Overs(s.cons) == (match StageOf(s.server, c)
                         case End(left) => c.consumers - left + (if s.server.Accepted? then 1 else 0)
                         case _ => 0)
  }

  // No two of the replies -1 go to the same consumer.
  ghost predicate EndsOnce(c: Config, s: State) {
    && (forall j :: c.maxVal <= j < |s.given| && s.given[j].0 < |s.cons| ==>
          s.cons[s.given[j].0].Over? || (j == |s.given| - 1 && s.server.Replied?))
    && (forall j, l :: c.maxVal <= j < l < |s.given| ==> s.given[j].0 != s.given[l].0)
  }

  ghost predicate Inv(c: Config, s: State) {
    Producing(c, s) && Buffering(c, s) && Replies(c, s) && Consuming(c, s) && EndsOnce(c, s)
  }

  lemma InputHolds(c: Config, s: State)
    requires Inv(c, s) && s.server.Input? && s.prod.Sent? && s.prod.i < c.maxVal && Sound(c)
    ensures Waiting(c, ServerStep(c, s))
  {
    var q := Span(|s.given|, s.made);
    RoomIs(c.maxElem, c.maxVal, |q|);
    EnqueueHolds(s.b, q, s.made);
    assert Span(|s.given|, s.made + 1) == q + [s.made];
    hide Holds, Enqueue, Span;
  }

  lemma InputPuts(c: Config, s: State)
    requires Inv(c, s) && s.server.Input? && s.prod.Sent? && s.prod.i < c.maxVal
    ensures Buffering(c, ServerStep(c, s))
  {
    if Sound(c) {
      InputHolds(c, s);
    }
    hide Waiting, Sound, And;
  }

  lemma ReplyHolds(c: Config, s: State)
    requires Inv(c, s) && s.server.Reply? && !s.server.stage.End? && Sound(c)
    ensures Dequeue(s.b).1 == |s.given| && Waiting(c, ServerStep(c, s))
  {
    var q := Span(|s.given|, s.made);
    DequeueHolds(s.b, q);
    assert Span(|s.given| + 1, s.made) == q[1..];
    hide Holds, Dequeue, Span;
  }

  lemma ReplyTakes(c: Config, s: State)
    requires Inv(c, s) && s.server.Reply? && !s.server.stage.End?
    ensures |s.given| < s.made && Dequeue(s.b).1 >= 0 && (Sound(c) ==> Dequeue(s.b).1 == |s.given|)
    ensures Buffering(c, ServerStep(c, s))
  {
    if Sound(c) {
      ReplyHolds(c, s);
    }
    hide Waiting, Sound, And;
  }

  lemma StepBuffering(c: Config, s: State, m: Move)
    requires Inv(c, s) && Can(s, m) && c.maxElem > 0
    ensures Buffering(c, Step(c, s, m))
  {
    if m.S? && s.server.Input? && s.prod.i < c.maxVal {
      InputPuts(c, s);
    } else if m.S? && s.server.Reply? && !s.server.stage.End? {
      ReplyTakes(c, s);
    } else {
      assert Waiting(c, s) && s.b.ct == 0 ==> Holds(s.b, []);
      assert Buffering(c, s) && Replies(c, s) && Producing(c, s) && Consuming(c, s);
      hide Inv, Holds, Enqueue, Dequeue, Span, Overs, Sound;
    }
  }

  lemma StepProducing(c: Config, s: State, m: Move)
    requires Inv(c, s) && Can(s, m)
    ensures Producing(c, Step(c, s, m))
  {
    assert InRange(s.b) && Producing(c, s) && s.made <= c.maxVal;
    hide Inv, Enqueue, Dequeue;
  }

  lemma ReplyReplies(c: Config, s: State)
    requires Inv(c, s) && s.server.Reply?
    ensures Replies(c, ServerStep(c, s))
  {
    if !s.server.stage.End? {
      ReplyTakes(c, s);
    }
    assert InRange(s.b) && Replies(c, s) && s.server.k < c.consumers && s.made <= c.maxVal;
    hide Inv, Dequeue;
  }

  lemma StepReplies(c: Config, s: State, m: Move)
    requires Inv(c, s) && Can(s, m)
    ensures Replies(c, Step(c, s, m))
  {
    if m.S? && s.server.Reply? {
      ReplyReplies(c, s);
    } else {
      assert InRange(s.b) && Replies(c, s);
      assert s.server.Top? && s.server.stage.Drain? && s.b.ct <= 0 ==> |s.given| == c.maxVal;
      hide Inv, Enqueue, Dequeue;
      assert Step(c, s, m).given == s.given;
    }
  }

  lemma PickConsuming(c: Config, s: State, k: nat)
    requires Consuming(c, s) && Can(s, Pick(k)) && InRange(s.b)
    ensures Consuming(c, Step(c, s, Pick(k)))
  {
    SumUpdate(s.cons, IsOver, k, Heard);
    hide Overs;
  }

  lemma ConsumerConsuming(c: Config, s: State, k: nat)
    requires Consuming(c, s) && Can(s, C(k)) && InRange(s.b) && Replies(c, s)
    ensures Consuming(c, Step(c, s, C(k)))
  {
    SumUpdate(s.cons, IsOver, k, Step(c, s, C(k)).cons[k]);
    hide Overs;
  }

  lemma StepConsuming(c: Config, s: State, m: Move)
    requires Inv(c, s) && Can(s, m)
    ensures Consuming(c, Step(c, s, m))
  {
    assert InRange(s.b) && Consuming(c, s) && Replies(c, s);
    hide Inv, Overs, Enqueue, Dequeue;
    match m
    case Pick(k) => PickConsuming(c, s, k);
    case C(k) => ConsumerConsuming(c, s, k);
    case _ =>
  }

  lemma StepEndsOnce(c: Config, s: State, m: Move)
    requires Inv(c, s) && Can(s, m)
    ensures EndsOnce(c, Step(c, s, m))
  {
    assert InRange(s.b) && Consuming(c, s) && Replies(c, s) && EndsOnce(c, s);
    hide Inv, Enqueue, Dequeue, Holds, Overs;
  }

  lemma StepInv(c: Config, s: State, m: Move)
    requires Inv(c, s) && Can(s, m) && c.maxElem > 0
    ensures Inv(c, Step(c, s, m))
  {
    StepProducing(c, s, m);
    StepBuffering(c, s, m);
    StepReplies(c, s, m);
    StepConsuming(c, s, m);
    StepEndsOnce(c, s, m);
    hide Producing, Buffering, Replies, Consuming, EndsOnce, Step;
  }

  lemma StartInv(c: Config)
    requires c.maxElem > 0
    ensures Inv(c, Start(c))
  {
    EmptyHolds(c.maxElem);
    CountBounds(Start(c).cons, IsOver);
    assert Span(0, 0) == [];
    hide Overs;
  }

  // ---------------------------------------------------------------- whole runs

  predicate Runs(c: Config, run: seq<Move>)
    requires c.maxElem > 0
    decreases |run|, 0
  {
    run == [] || (Runs(c, run[..|run| - 1]) && Can(After(c, run[..|run| - 1]), run[|run| - 1]))
  }

  function After(c: Config, run: seq<Move>): (r: State)
    requires c.maxElem > 0 && Runs(c, run)
    ensures InRange(r.b)
    decreases |run|, 1
  {
    if run == [] then Start(c) else Step(c, After(c, run[..|run| - 1]), run[|run| - 1])
  }

  lemma {:induction false} RunInv(c: Config, run: seq<Move>)
    requires c.maxElem > 0 && Runs(c, run)
    ensures Inv(c, After(c, run))
    decreases |run|
  {
    if run == [] {
      StartInv(c);
    } else {
      RunInv(c, run[..|run| - 1]);
      StepInv(c, After(c, run[..|run| - 1]), run[|run| - 1]);
    }
  }

  // The replies are 0, 1, ..., maxVal - 1, and then -1.
  ghost predicate InOrder(c: Config, s: State) {
    forall j :: 0 <= j < |s.given| ==> s.given[j].1 == if j < c.maxVal then j else -1
  }

  /** In every run the buffer process never dequeues when empty or enqueues when full, and its replies are items, 0, 1, ...,
      maxVal - 1 in order if the size is a power of two, and then -1, never twice to the same consumer. */
  lemma Safety(c: Config, run: seq<Move>)
    requires c.maxElem > 0 && Runs(c, run)
    ensures var s := After(c, run);
      && 0 <= s.b.ct <= c.maxElem
      && (s.server.Input? ==> s.b.ct < c.maxElem)
      && (s.server.Reply? && !s.server.stage.End? ==> s.b.ct > 0)
      && |s.given| <= c.maxVal + c.consumers
      && (forall j :: 0 <= j < |s.given| ==> s.given[j].0 < c.consumers && (s.given[j].1 == -1 <==> j >= c.maxVal))
      && (Sound(c) ==> InOrder(c, s))
      && (forall j, l :: c.maxVal <= j < l < |s.given| ==> s.given[j].0 != s.given[l].0)
  {
    RunInv(c, run);
    var s := After(c, run);
    hide Runs, After, Overs;
  }

  // ---------------------------------------------------------------- progress

  // All programs have ended, and every consumer has had its -1.
  ghost predicate Complete(c: Config, s: State) {
    && s.prod.Stopped? && s.server.Finished? && |s.cons| == c.consumers
    && (forall k :: 0 <= k < c.consumers ==> s.cons[k].Over?)
    && |s.given| == c.maxVal + c.consumers
    && (forall j :: 0 <= j < |s.given| ==> (s.given[j].1 == -1 <==> j >= c.maxVal)) && (Sound(c) ==> InOrder(c, s))
  }

  // While the buffer process looks for requests, some consumer has one under way.
  lemma SomebodyAsks(c: Config, s: State)
    requires Inv(c, s) && c.consumers > 0 && s.server.Alt?
    ensures exists k :: 0 <= k < c.consumers && (s.cons[k].Ask? || s.cons[k].Asked?)
  {
    CountBounds(s.cons, IsOver);
    assert Consuming(c, s) && Replies(c, s);
    hide Inv, Overs;
    var k :| 0 <= k < c.consumers && !s.cons[k].Over?;
    assert !Serving(s.server, k);
  }

  lemma CanGoOn(c: Config, s: State)
    requires Inv(c, s) && c.consumers > 0 && c.maxElem > 0
    ensures Complete(c, s) || exists m :: m != Poll && Can(s, m)
  {
    match s.server
    case Top(_) => assert Can(s, S);
    case Reply(_, _) => assert Can(s, S);
    case Accepted(_, _) => assert Can(s, S);
    case Input =>
      assert s.prod.Sent? || Can(s, P);
      assert s.prod.Sent? ==> Can(s, S);
    case Alt(_) =>
      SomebodyAsks(c, s);
      var k :| 0 <= k < c.consumers && (s.cons[k].Ask? || s.cons[k].Asked?);
      assert Can(s, C(k)) || Can(s, Pick(k));
    case Replied(_, k, _) =>
      assert Serving(s.server, k) && Can(s, C(k));
    case Finished =>
      CountBounds(s.cons, IsOver);
      if s.prod.Received? {
        assert Can(s, P);
      }
  }

  /** Until all programs have ended, some step is possible besides the buffer process polling in vain. */
  lemma NeverDeadlocks(c: Config, run: seq<Move>)
    requires c.maxElem > 0 && c.consumers > 0 && Runs(c, run)
    ensures Complete(c, After(c, run)) || exists m :: m != Poll && Can(After(c, run), m)
  {
    RunInv(c, run);
    CanGoOn(c, After(c, run));
  }

  // ---------------------------------------------------------------- and no run goes on for ever

  function ConsumerWeight(x: Consumer): int {
    match x
    case Ask => 3
    case Asked => 2
    case Heard => 1
    case Await => 0
    case Over => 0
  }

  function ProducerWeight(c: Config, x: Producer): int {
    match x
    case Send(i) => 3 * (c.maxVal - i) + 3
    case Sent(i) => 3 * (c.maxVal - i) + 2
    case Received(i) => 3 * (c.maxVal - i) + 1
    case Stopped => 0
  }

  // The serving stage is worth three steps more than the others.
  function ServerWeight(x: Server): nat {
    match x
    case Top(stage) => if stage.Serve? then 5 else if stage.Drain? then 3 else 2
    case Input => 4
    case Alt(stage) => if stage.Serve? then 4 else 1
    case Reply(stage, _) => if stage.Serve? then 3 else 0
    case Replied(stage, _, _) => if stage.Serve? then 11 else 8
    case Accepted(stage, _) => if stage.Serve? then 7 else 4
    case Finished => 0
  }

  // A reply still to come is worth ten steps.
  function Weight(c: Config, s: State): int {
    ProducerWeight(c, s.prod) + ServerWeight(s.server) + Sum(s.cons, ConsumerWeight) + 10 * (c.maxVal + c.consumers - |s.given|)
  }

  lemma StepLighter(c: Config, s: State, m: Move)
    requires Inv(c, s) && Can(s, m)
    ensures Weight(c, Step(c, s, m)) <= Weight(c, s) + if m == Poll then 1 else -1
  {
    var t := Step(c, s, m);
    if m.Pick? || m.C? {
      SumUpdate(s.cons, ConsumerWeight, m.k, t.cons[m.k]);
    }
    assert InRange(s.b) && Producing(c, s);
    hide Inv, Sum, Enqueue, Dequeue;
  }

  lemma WeightNatural(c: Config, s: State)
    requires Inv(c, s)
    ensures Weight(c, s) >= 0
  {
    SumNatural(s.cons, ConsumerWeight);
    hide Sum, Holds;
  }

  function Polls(run: seq<Move>): nat {
    if run == [] then 0 else Polls(run[..|run| - 1]) + if run[|run| - 1].Poll? then 1 else 0
  }

  lemma {:induction false} RunLighter(c: Config, run: seq<Move>)
    requires c.maxElem > 0 && Runs(c, run)
    ensures Weight(c, After(c, run)) + |run| <= Weight(c, Start(c)) + 2 * Polls(run)
    decreases |run|
  {
    if run != [] {
      var before := run[..|run| - 1];
      RunInv(c, before);
      RunLighter(c, before);
      StepLighter(c, After(c, before), run[|run| - 1]);
      hide Weight, Inv;
    }
  }

  lemma StartWeight(c: Config)
    requires c.maxElem > 0
    ensures Weight(c, Start(c)) == 13 * (c.maxVal + c.consumers) + 8
  {
    SumSame(Start(c).cons, ConsumerWeight, 3);
  }

  /** A run takes at most 13 steps for each item and consumer, and 8, and two for each poll in vain. */
  lemma RunsEnd(c: Config, run: seq<Move>)
    requires c.maxElem > 0 && Runs(c, run)
    ensures |run| <= 13 * (c.maxVal + c.consumers) + 8 + 2 * Polls(run)
  {
    hide Runs, After, Start, Weight, Inv;
    RunLighter(c, run);
    RunInv(c, run);
    WeightNatural(c, After(c, run));
    StartWeight(c);
  }

  // ---------------------------------------------------------------- sizes that are not powers of two

  // A run goes on with move m.
  lemma Extend(c: Config, run: seq<Move>, s: State, m: Move) returns (r: seq<Move>, t: State)
    requires c.maxElem > 0 && Runs(c, run) && After(c, run) == s && Can(s, m)
    ensures InRange(s.b) && t == Step(c, s, m) && Runs(c, r) && After(c, r) == t
  {
    r := run + [m];
    assert r[..|run|] == run;
    t := After(c, r);
  }

  // The buffer process has taken n items and is about to look at its first loop again.
  ghost predicate Filled(c: Config, s: State, n: nat)
    requires c.maxElem > 0
  {
    s == Start(c).(b := Fill(Empty(c.maxElem), n), made := n, prod := Send(n))
  }

  // The next item is sent, awaited, enqueued and released, and no consumer has asked.
  lemma FillRound(c: Config, run: seq<Move>, n: nat) returns (r: seq<Move>)
    requires n < c.maxVal && n < c.maxElem && Runs(c, run) && Filled(c, After(c, run), n)
    ensures Runs(c, r) && Filled(c, After(c, r), n + 1)
  {
    hide Runs, After, And, Enqueue;
    FillCount(c.maxElem, n);
    var s: State;
    r, s := Extend(c, run, After(c, run), P);
    r, s := Extend(c, r, s, S);
    r, s := Extend(c, r, s, S);
    r, s := Extend(c, r, s, P);
    r, s := Extend(c, r, s, Poll);
  }

  lemma {:induction false} FillRun(c: Config, n: nat) returns (run: seq<Move>)
    requires n <= c.maxVal && n <= c.maxElem && c.maxElem > 0
    ensures Runs(c, run) && Filled(c, After(c, run), n)
  {
    if n == 0 {
      run := [];
    } else {
      run := FillRun(c, n - 1);
      hide Runs, After, Filled;
      run := FillRound(c, run, n - 1);
    }
  }

  // With too many items for its size, the buffer is overrun before a consumer asks for the first item.
  lemma OverrunRun(c: Config) returns (run: seq<Move>)
    requires c.maxElem > 0 && c.consumers > 0 && !Sound(c)
    ensures Runs(c, run) && After(c, run).given == [(0, LowPart(c.maxElem))]
  {
    var n := LowPart(c.maxElem);
    LowPartWhole(c.maxElem);
    FillOver(c.maxElem);
    run := FillRun(c, n);
    Overrun(c, n);
    hide Runs, After, And, LowPart, PowerOfTwo, Enqueue, Dequeue, Sound;
    FillCount(c.maxElem, n);
    var s: State;
    run, s := Extend(c, run, After(c, run), P);
    run, s := Extend(c, run, s, S);
    run, s := Extend(c, run, s, S);
    run, s := Extend(c, run, s, C(0));
    run, s := Extend(c, run, s, Pick(0));
    run, s := Extend(c, run, s, S);
  }

  lemma Overrun(c: Config, n: nat)
    requires c.maxElem > 0 && n == LowPart(c.maxElem)
    ensures Dequeue(Enqueue(Fill(Empty(c.maxElem), n), n)).1 == n
  {
    FillOver(c.maxElem);
  }

  /** The replies are 0, 1, 2, ..., maxVal - 1 and then -1 in every run if and only if the size is a power of two, or there are no more items
      than the largest power of two that divides it. */
  lemma OrderExact(c: Config)
    requires c.maxElem > 0 && c.consumers > 0
    ensures (forall run :: Runs(c, run) ==> InOrder(c, After(c, run))) <==> PowerOfTwo(c.maxElem) || c.maxVal <= LowPart(c.maxElem)
  {
    if Sound(c) {
      forall run | Runs(c, run) ensures InOrder(c, After(c, run)) {
        RunInv(c, run);
      }
    } else {
      var run := OverrunRun(c);
      assert After(c, run).given[0].1 != 0;
    }
  }
}
