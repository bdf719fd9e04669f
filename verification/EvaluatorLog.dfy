/** How much the senders of the batched evaluator take at a time, and the order in which requests go
    through it: the queue, the batches, the callbacks and the batches queued again. */
module EvaluatorLog {
  import opened Evaluator

  // ------------------------------------------------------------ the size of a batch

  /** No sender claims, holds or has sent more than a batch. */
  ghost predicate SendersFit(ss: seq<Sender>, batch: nat) {
    forall s :: 0 <= s < |ss| ==>
      |BatchOf(ss[s])| <= batch && (ss[s].phase.Claimed? ==> 0 <= ss[s].phase.k <= batch)
  }

  ghost predicate FlightsFit(fs: seq<Flight>, batch: nat) { forall f :: 0 <= f < |fs| ==> |fs[f].todo| <= batch }

  ghost predicate BatchesFit(c: Client, batch: nat) {
    c.batch == batch && SendersFit(c.senders, batch) && FlightsFit(c.flights, batch)
  }

  lemma StepSendersFit(c: Client, a: Action, batch: nat)
    requires BatchesFit(c, batch) && Enabled(c, a) && Covered(c)
    ensures SendersFit(Do(c, a).senders, batch)
  {
    hide FlightsFit;
  }

  lemma StepFlightsFit(c: Client, a: Action, batch: nat)
    requires BatchesFit(c, batch) && Enabled(c, a) && Covered(c)
    ensures FlightsFit(Do(c, a).flights, batch)
  {
    if a.Send? { assert BatchOf(c.senders[a.s]) == c.senders[a.s].phase.batch; }
    hide SendersFit;
  }

  lemma StepFits(c: Client, a: Action, batch: nat)
    requires BatchesFit(c, batch) && Enabled(c, a) && Covered(c)
    ensures BatchesFit(Do(c, a), batch)
  {
    hide SendersFit, FlightsFit;
    StepSendersFit(c, a, batch);
    StepFlightsFit(c, a, batch);
  }

  /** In every run of a new client all batches fit. */
  lemma {:induction false} RunFits(run: seq<Client>, acts: seq<Action>, i: nat, size: nat, batch: nat, once: nat,
      senders: nat)
    requires IsRun(run, acts) && run[0] == Start(size, batch, once, senders) && i < |run|
    ensures BatchesFit(run[i], batch)
  {
    hide BatchesFit, Do;
    if i == 0 {
      StartFits(size, batch, once, senders);
    } else {
      RunFits(run, acts, i - 1, size, batch, once, senders);
      assert Next(run[i - 1], run[i - 1 + 1], acts[i - 1]);
      StartInv(size, batch, once, senders);
      RunConserves(run, acts, i - 1);
      StepFits(run[i - 1], acts[i - 1], batch);
    }
  }

  lemma StartFits(size: nat, batch: nat, once: nat, senders: nat)
    ensures BatchesFit(Start(size, batch, once, senders), batch)
  {
  }

  /** A sender claims a whole batch, or else every announced item; at least one, unless batches are empty. */
  lemma ClaimsMost(run: seq<Client>, acts: seq<Action>, i: nat, size: nat, batch: nat, once: nat, senders: nat)
    requires IsRun(run, acts) && run[0] == Start(size, batch, once, senders) && i < |acts| && acts[i].Claim?
    ensures var s := acts[i].s; s < |run[i + 1].senders| && run[i + 1].senders[s].phase.Claimed?
    ensures var k := run[i + 1].senders[acts[i].s].phase.k;
      0 <= k <= batch && run[i + 1].empty == run[i].empty - k && (k == batch || run[i + 1].empty == 0)
      && (batch > 0 ==> k > 0) && run[i + 1].queue == run[i].queue
  {
    hide BatchesFit, Start, Inv;
    assert Next(run[i], run[i + 1], acts[i]);
    RunFits(run, acts, i, size, batch, once, senders);
    RunFits(run, acts, i + 1, size, batch, once, senders);
    assert run[i].batch == batch by { FitsBatch(run[i], batch); }
  }

  lemma FitsBatch(c: Client, batch: nat)
    requires BatchesFit(c, batch)
    ensures c.batch == batch
  {
  }

  // ------------------------------------------------------------ first in, first out

  /** What a step puts into the queue, and what it takes out. */
  function Entering(c: Client, a: Action): seq<int> {
    if a.Push? && a.p < |c.producers| && c.producers[a.p].todo != [] then [c.producers[a.p].todo[0]] else []
  }

  function Leaving(r: Client, a: Action): seq<int> {
    if a.Pop? && a.s < |r.senders| then BatchOf(r.senders[a.s]) else []
  }

  /** What the first i steps of a run put into the queue, in order, and what they took out. */
  function Entered(run: seq<Client>, acts: seq<Action>, i: nat): seq<int>
    requires i < |run| == |acts| + 1
  {
    if i == 0 then [] else Entered(run, acts, i - 1) + Entering(run[i - 1], acts[i - 1])
  }

  function Left(run: seq<Client>, acts: seq<Action>, i: nat): seq<int>
    requires i < |run| == |acts| + 1
  {
    if i == 0 then [] else Left(run, acts, i - 1) + Leaving(run[i], acts[i - 1])
  }

  lemma StepQueue(c: Client, a: Action)
    requires Enabled(c, a) && Covered(c) && forall s :: 0 <= s < |c.senders| ==> ClaimedOf(c.senders[s]) >= 0
    ensures c.queue + Entering(c, a) == Leaving(Do(c, a), a) + Do(c, a).queue
  {
    if a.Pop? {
      var k := c.senders[a.s].phase.k;
      assert c.queue[..k] + c.queue[k..] == c.queue;
    }
  }

  lemma {:induction false} QueueInOrder(run: seq<Client>, acts: seq<Action>, i: nat)
    requires IsRun(run, acts) && Inv(run[0]) && ClaimsSane(run[0]) && i < |run|
    ensures run[0].queue + Entered(run, acts, i) == Left(run, acts, i) + run[i].queue
    ensures ClaimsSane(run[i])
  {
    hide Inv, Do, Entering, Leaving;
    if i > 0 {
      QueueInOrder(run, acts, i - 1);
      var c, a := run[i - 1], acts[i - 1];
      assert Next(c, run[i - 1 + 1], a);
      RunConserves(run, acts, i - 1);
      StepQueue(c, a);
      StepClaims(c, a);
      calc {
        run[0].queue + Entered(run, acts, i);
        (run[0].queue + Entered(run, acts, i - 1)) + Entering(c, a);
        Left(run, acts, i - 1) + (c.queue + Entering(c, a));
        Left(run, acts, i - 1) + (Leaving(run[i], a) + run[i].queue);
        Left(run, acts, i) + run[i].queue;
      }
    }
  }

  /** Claims are of a number of items. */
  ghost predicate ClaimsSane(c: Client) { forall s :: 0 <= s < |c.senders| ==> ClaimedOf(c.senders[s]) >= 0 }

  lemma StepClaims(c: Client, a: Action)
    requires Inv(c) && ClaimsSane(c) && Enabled(c, a) && Covered(c)
    ensures ClaimsSane(Do(c, a))
  {
    hide SlotsKept, IdsKept, PendingKept, WindowsKept, Sum;
  }

  /** In every run of a new client requests leave the queue in the order in which they entered it. */
  lemma FirstInFirstOut(run: seq<Client>, acts: seq<Action>, i: nat, size: nat, batch: nat, once: nat, senders: nat)
    requires IsRun(run, acts) && run[0] == Start(size, batch, once, senders) && i < |run|
    ensures Entered(run, acts, i) == Left(run, acts, i) + run[i].queue
  {
    hide Inv;
    StartInv(size, batch, once, senders);
    assert ClaimsSane(run[0]);
    QueueInOrder(run, acts, i);
    assert run[0].queue + Entered(run, acts, i) == Entered(run, acts, i);
  }

  // ------------------------------------------------------------ one party

  /** What the producer p put into the queue in the steps i to j, what the sender s took out and what it
      sent, and whose callbacks ran for the flight f, each in order. */
  function PutBy(run: seq<Client>, acts: seq<Action>, p: nat, i: nat, j: nat): seq<int>
    requires i <= j < |run| == |acts| + 1
    decreases j
  {
    if i == j then []
    else PutBy(run, acts, p, i, j - 1) + if acts[j - 1] == Push(p) then Entering(run[j - 1], acts[j - 1]) else []
  }

  function TakenBy(run: seq<Client>, acts: seq<Action>, s: nat, i: nat, j: nat): seq<int>
    requires i <= j < |run| == |acts| + 1
    decreases j
  {
    if i == j then []
    else TakenBy(run, acts, s, i, j - 1) + if acts[j - 1] == Pop(s) then Leaving(run[j], acts[j - 1]) else []
  }

  /** The requests of the newest flight. */
  function Newest(c: Client): seq<int> { if c.flights == [] then [] else c.flights[|c.flights| - 1].todo }

  function SentBy(run: seq<Client>, acts: seq<Action>, s: nat, i: nat, j: nat): seq<int>
    requires i <= j < |run| == |acts| + 1
    decreases j
  {
    if i == j then []
    else SentBy(run, acts, s, i, j - 1) + if acts[j - 1] == Send(s) then Newest(run[j]) else []
  }

  /** The request whose callback ran last. */
  function LastDone(c: Client): seq<int> { if c.done == [] then [] else [c.done[|c.done| - 1]] }

  function CalledFor(run: seq<Client>, acts: seq<Action>, f: nat, i: nat, j: nat): seq<int>
    requires i <= j < |run| == |acts| + 1
    decreases j
  {
    if i == j then []
    else CalledFor(run, acts, f, i, j - 1) + if acts[j - 1] == Callback(f) then LastDone(run[j]) else []
  }

  /** A producer, a new request or a failed batch, is queued from first to last. */
  lemma {:induction false} ProducerInOrder(run: seq<Client>, acts: seq<Action>, p: nat, i: nat, j: nat)
    requires IsRun(run, acts) && i <= j < |run| && p < |run[i].producers|
    ensures p < |run[j].producers|
    ensures RestOf(run[i].producers[p]) == PutBy(run, acts, p, i, j) + RestOf(run[j].producers[p])
    decreases j
  {
    hide Do, Entering, RestOf;
    if i < j {
      ProducerInOrder(run, acts, p, i, j - 1);
      assert Next(run[j - 1], run[j - 1 + 1], acts[j - 1]);
      StepProducer(run[j - 1], acts[j - 1], p);
    }
  }

  lemma StepProducer(c: Client, a: Action, p: nat)
    requires Enabled(c, a) && Covered(c) && p < |c.producers|
    ensures p < |Do(c, a).producers|
    ensures RestOf(c.producers[p]) == (if a == Push(p) then Entering(c, a) else []) + RestOf(Do(c, a).producers[p])
  {
  }

  /** A sender sends what it took out of the queue, in the same order. */
  lemma {:induction false} SenderInOrder(run: seq<Client>, acts: seq<Action>, s: nat, i: nat, j: nat)
    requires IsRun(run, acts) && i <= j < |run| && s < |run[i].senders|
    ensures |run[j].senders| == |run[i].senders|
    ensures BatchOf(run[i].senders[s]) + TakenBy(run, acts, s, i, j)
         == SentBy(run, acts, s, i, j) + BatchOf(run[j].senders[s])
    decreases j
  {
    hide Do, Leaving, BatchOf, Newest;
    if i < j {
      SenderInOrder(run, acts, s, i, j - 1);
      var c, a := run[j - 1], acts[j - 1];
      assert Next(c, run[j - 1 + 1], a);
      StepSender(c, a, s);
      calc {
        BatchOf(run[i].senders[s]) + TakenBy(run, acts, s, i, j);
        (BatchOf(run[i].senders[s]) + TakenBy(run, acts, s, i, j - 1)) + Took(run[j], a, s);
        SentBy(run, acts, s, i, j - 1) + (BatchOf(c.senders[s]) + Took(run[j], a, s));
        SentBy(run, acts, s, i, j) + BatchOf(run[j].senders[s]);
      }
    }
  }

  function Took(r: Client, a: Action, s: nat): seq<int> { if a == Pop(s) then Leaving(r, a) else [] }

  lemma StepSender(c: Client, a: Action, s: nat)
    requires Enabled(c, a) && Covered(c) && s < |c.senders|
    ensures |Do(c, a).senders| == |c.senders|
    ensures BatchOf(c.senders[s]) + Took(Do(c, a), a, s)
         == (if a == Send(s) then Newest(Do(c, a)) else []) + BatchOf(Do(c, a).senders[s])
  {
  }

  /** A flight whose batch does not fail has its callbacks run in the order of the batch. */
  lemma {:induction false} FlightInOrder(run: seq<Client>, acts: seq<Action>, f: nat, i: nat, j: nat)
    requires IsRun(run, acts) && i <= j < |run| && f < |run[i].flights|
    requires Fail(f) !in acts[i..j]
    ensures f < |run[j].flights|
    ensures run[i].flights[f].todo == CalledFor(run, acts, f, i, j) + run[j].flights[f].todo
    decreases j
  {
    hide Do;
    if i < j {
      assert acts[i..j] == acts[i..j - 1] + [acts[j - 1]];
      FlightInOrder(run, acts, f, i, j - 1);
      assert Next(run[j - 1], run[j - 1 + 1], acts[j - 1]);
      StepFlight(run[j - 1], acts[j - 1], f);
    }
  }

  lemma StepFlight(c: Client, a: Action, f: nat)
    requires Enabled(c, a) && Covered(c) && f < |c.flights|
    ensures var r := Do(c, a); f < |r.flights| && (a != Fail(f) ==>
        c.flights[f].todo == (if a == Callback(f) then LastDone(r) else []) + r.flights[f].todo)
  {
  }

  /** When a batch fails none of its callbacks has run, and a new producer queues it for the same sender. */
  lemma FailedBatch(run: seq<Client>, acts: seq<Action>, f: nat, i: nat, j: nat)
    requires IsRun(run, acts) && i <= j < |acts| && f < |run[i].flights| && acts[j] == Fail(f)
    ensures CalledFor(run, acts, f, i, j) == [] && f < |run[j].flights|
    ensures var ps := run[j + 1].producers;
      ps != [] && RestOf(ps[|ps| - 1]) == run[j].flights[f].todo && ps[|ps| - 1].owner == run[j].flights[f].sender
  {
    assert Next(run[j], run[j + 1], acts[j]);
    StillSent(run, acts, f, i, j);
  }

  lemma {:induction false} StillSent(run: seq<Client>, acts: seq<Action>, f: nat, i: nat, j: nat)
    requires IsRun(run, acts) && i <= j < |run| && f < |run[i].flights|
    requires f < |run[j].flights| && run[j].flights[f].status.Sent?
    ensures run[i].flights[f].status.Sent? && CalledFor(run, acts, f, i, j) == []
    decreases j
  {
    hide Do;
    if i < j {
      FlightStays(run, acts, f, i, j - 1);
      assert Next(run[j - 1], run[j - 1 + 1], acts[j - 1]);
      StepSent(run[j - 1], acts[j - 1], f);
      StillSent(run, acts, f, i, j - 1);
    }
  }

  lemma {:induction false} FlightStays(run: seq<Client>, acts: seq<Action>, f: nat, i: nat, j: nat)
    requires IsRun(run, acts) && i <= j < |run| && f < |run[i].flights|
    ensures f < |run[j].flights|
    decreases j
  {
    hide Do;
    if i < j {
      FlightStays(run, acts, f, i, j - 1);
      assert Next(run[j - 1], run[j - 1 + 1], acts[j - 1]);
      StepFlight(run[j - 1], acts[j - 1], f);
    }
  }

  lemma StepSent(c: Client, a: Action, f: nat)
    requires Enabled(c, a) && Covered(c) && f < |c.flights|
    ensures var r := Do(c, a); f < |r.flights| && (r.flights[f].status.Sent? ==>
        c.flights[f].status.Sent? && a != Callback(f))
  {
  }

  // ------------------------------------------------------------ where everybody stands

  function StageTag(g: Stage): nat { match g case Waiting => 0 case Reserved => 1 case Pushed => 2 }

  function PhaseTag(p: Phase): nat {
    match p case Resting => 0 case Permitted => 1 case Claimed(_) => 2 case Holding(_) => 3 case Loaded(_) => 4
  }

  function StatusTag(u: Status): nat { match u case Sent => 0 case Answering => 1 case Over => 2 }

  /** Where a producer, a sender and a flight stand after these actions: each goes by its own last one. */
  function ProducerAfter(acts: seq<Action>, p: int): nat {
    if acts == [] then 0
    else
      match acts[|acts| - 1]
      case Reserve(q) => if q == p then 1 else ProducerAfter(acts[..|acts| - 1], p)
      case Push(q) => if q == p then 2 else ProducerAfter(acts[..|acts| - 1], p)
      case Announce(q) => if q == p then 0 else ProducerAfter(acts[..|acts| - 1], p)
      case _ => ProducerAfter(acts[..|acts| - 1], p)
  }

  function SenderAfter(acts: seq<Action>, s: int): nat {
    if acts == [] then 0
    else
      match acts[|acts| - 1]
      case Permit(t) => if t == s then 1 else SenderAfter(acts[..|acts| - 1], s)
      case Dummy(t) => if t == s then 0 else SenderAfter(acts[..|acts| - 1], s)
      case Claim(t) => if t == s then 2 else SenderAfter(acts[..|acts| - 1], s)
      case Pop(t) => if t == s then 3 else SenderAfter(acts[..|acts| - 1], s)
      case Return(t) => if t == s then 4 else SenderAfter(acts[..|acts| - 1], s)
      case Send(t) => if t == s then 0 else SenderAfter(acts[..|acts| - 1], s)
      case _ => SenderAfter(acts[..|acts| - 1], s)
  }

  function FlightAfter(acts: seq<Action>, f: int): nat {
    if acts == [] then 0
    else
      match acts[|acts| - 1]
      case Answer(g) => if g == f then 1 else FlightAfter(acts[..|acts| - 1], f)
      case Finish(g) => if g == f then 2 else FlightAfter(acts[..|acts| - 1], f)
      case Fail(g) => if g == f then 2 else FlightAfter(acts[..|acts| - 1], f)
      case _ => FlightAfter(acts[..|acts| - 1], f)
  }

  predicate ProducerStands(c: Client, acts: seq<Action>, p: nat) {
    ProducerAfter(acts, p) == if p < |c.producers| then StageTag(c.producers[p].stage) else 0
  }

  predicate SenderStands(c: Client, acts: seq<Action>, s: nat) {
    s < |c.senders| ==> SenderAfter(acts, s) == PhaseTag(c.senders[s].phase)
  }

  predicate FlightStands(c: Client, acts: seq<Action>, f: nat) {
    FlightAfter(acts, f) == if f < |c.flights| then StatusTag(c.flights[f].status) else 0
  }

  predicate Asked(acts: seq<Action>, id: int) { exists j :: 0 <= j < |acts| && acts[j] == Request(id) }

  /** A request is issued exactly by its request; the sizes are those of the start. */
  ghost predicate Standing(c: Client, acts: seq<Action>, start: Client) {
    && (forall p: nat :: ProducerStands(c, acts, p)) && (forall s: nat :: SenderStands(c, acts, s))
    && (forall f: nat :: FlightStands(c, acts, f)) && (forall id :: id in c.issued <==> Asked(acts, id))
    && (c.size, c.batch, c.once, |c.senders|) == (start.size, start.batch, start.once, |start.senders|)
  }

  lemma LastIs(acts: seq<Action>, a: Action)
    ensures (acts + [a])[..|acts + [a]| - 1] == acts && (acts + [a])[|acts + [a]| - 1] == a
  {
  }

  lemma StepProducerStands(c: Client, a: Action, acts: seq<Action>, p: nat)
    requires Enabled(c, a) && Covered(c) && ProducerStands(c, acts, p)
    ensures ProducerStands(Do(c, a), acts + [a], p)
  {
    LastIs(acts, a);
  }

  lemma StepSenderStands(c: Client, a: Action, acts: seq<Action>, s: nat)
    requires Enabled(c, a) && Covered(c) && SenderStands(c, acts, s)
    ensures SenderStands(Do(c, a), acts + [a], s) && |Do(c, a).senders| == |c.senders|
  {
    LastIs(acts, a);
  }

  lemma StepFlightStands(c: Client, a: Action, acts: seq<Action>, f: nat)
    requires Enabled(c, a) && Covered(c) && FlightStands(c, acts, f)
    ensures FlightStands(Do(c, a), acts + [a], f)
  {
    LastIs(acts, a);
  }

  lemma StepIssued(c: Client, a: Action, acts: seq<Action>, id: int)
    requires Enabled(c, a) && Covered(c) && (id in c.issued <==> Asked(acts, id))
    ensures id in Do(c, a).issued <==> Asked(acts + [a], id)
  {
    var l := acts + [a];
    if j :| 0 <= j < |acts| && acts[j] == Request(id) { assert l[j] == Request(id); }
    assert l[|acts|] == a;
  }

  lemma StepSizes(c: Client, a: Action)
    requires Enabled(c, a) && Covered(c)
    ensures var r := Do(c, a); (r.size, r.batch, r.once, |r.senders|) == (c.size, c.batch, c.once, |c.senders|)
  {
  }

  /** In every run of a new client each party stands where its own last action puts it: nobody is moved by
      another, no step is without effect, and a request is issued exactly when it was made. */
  lemma {:induction false} EverybodyStands(run: seq<Client>, acts: seq<Action>, i: nat, size: nat, batch: nat,
      once: nat, senders: nat)
    requires IsRun(run, acts) && run[0] == Start(size, batch, once, senders) && i < |run|
    ensures Standing(run[i], acts[..i], run[0])
  {
    hide Do, Enabled, Covered, ProducerStands, SenderStands, FlightStands, Asked;
    if i == 0 {
      StartStands(size, batch, once, senders);
      assert acts[..0] == [];
    } else {
      EverybodyStands(run, acts, i - 1, size, batch, once, senders);
      var c, a, l := run[i - 1], acts[i - 1], acts[..i - 1];
      assert Next(c, run[i - 1 + 1], a);
      assert acts[..i] == l + [a];
      forall p: nat ensures ProducerStands(run[i], acts[..i], p) { StepProducerStands(c, a, l, p); }
      forall s: nat ensures SenderStands(run[i], acts[..i], s) { StepSenderStands(c, a, l, s); }
      forall f: nat ensures FlightStands(run[i], acts[..i], f) { StepFlightStands(c, a, l, f); }
      forall id ensures id in run[i].issued <==> Asked(acts[..i], id) { StepIssued(c, a, l, id); }
      StepSizes(c, a);
    }
  }

  lemma StartStands(size: nat, batch: nat, once: nat, senders: nat)
    ensures Standing(Start(size, batch, once, senders), [], Start(size, batch, once, senders))
  {
  }
}
