/** The batched evaluator: producers, senders and replies around one queue, step by step. Slots of
    the queue, items announced, callbacks and send permits are conserved by every step. */
module Evaluator {

  // ------------------------------------------------------------ sums over sequences

  function Sum<T>(xs: seq<T>, f: T -> int): int { if xs == [] then 0 else Sum(xs[..|xs| - 1], f) + f(xs[|xs| - 1]) }

  lemma {:induction false} SumUpdate<T>(xs: seq<T>, f: T -> int, i: int, v: T)
    requires 0 <= i < |xs|
    ensures Sum(xs[i := v], f) == Sum(xs, f) - f(xs[i]) + f(v)
    decreases |xs|
  {
    var n := |xs| - 1;
    if i == n { assert xs[i := v][..n] == xs[..n]; }
    else {
      SumUpdate(xs[..n], f, i, v);
      assert xs[i := v][..n] == xs[..n][i := v];
    }
  }

  lemma SumAppend<T>(xs: seq<T>, f: T -> int, v: T)
    ensures Sum(xs + [v], f) == Sum(xs, f) + f(v)
  {
    assert (xs + [v])[..|xs|] == xs;
  }

  lemma {:induction false} SumNotNegative<T>(xs: seq<T>, f: T -> int, i: int)
    requires 0 <= i < |xs| && forall x :: f(x) >= 0
    ensures Sum(xs, f) >= f(xs[i])
    decreases |xs|
  {
    var n := |xs| - 1;
    if i < n { SumNotNegative(xs[..n], f, i); }
    else if n > 0 { SumNotNegative(xs[..n], f, 0); }
  }

  // ------------------------------------------------------------ the client

  /** Where a producer stands with the first entry of its list. */
  datatype Stage = Waiting | Reserved | Pushed

  /** Requests to be queued one after the other. A new request is a list of its own; a failed
      batch is queued again by its reply thread, which owes its sender a permit at the end. */
  datatype Producer = Producer(todo: seq<int>, stage: Stage, owner: int)

  datatype Phase = Resting | Permitted | Claimed(k: nat) | Holding(batch: seq<int>) | Loaded(batch: seq<int>)
  datatype Sender = Sender(permits: int, phase: Phase)

  datatype Status = Sent | Answering | Over
  datatype Flight = Flight(sender: int, todo: seq<int>, status: Status)

  /** `full` counts free slots, `empty` announced items, as the two semaphores do. */
  datatype Client = Client(
    size: nat, batch: nat, once: nat,
    full: int, empty: int, queue: seq<int>, pending: int,
    producers: seq<Producer>, senders: seq<Sender>, flights: seq<Flight>,
    done: seq<int>, issued: set<int>)

  datatype Action =
    | Request(id: int) | Reserve(p: nat) | Push(p: nat) | Announce(p: nat) | Repay(p: nat)
    | Permit(s: nat) | Dummy(s: nat) | Claim(s: nat) | Pop(s: nat) | Return(s: nat) | Send(s: nat)
    | Answer(f: nat) | Callback(f: nat) | Finish(f: nat) | Fail(f: nat)

  predicate Enabled(c: Client, a: Action) {
    match a
    case Request(id) => id !in c.issued
    case Reserve(p) => p < |c.producers| && c.producers[p].stage.Waiting? && c.producers[p].todo != [] && c.full > 0
    case Push(p) => p < |c.producers| && c.producers[p].stage.Reserved? && c.producers[p].todo != []
    case Announce(p) => p < |c.producers| && c.producers[p].stage.Pushed? && c.producers[p].todo != []
    case Repay(p) => p < |c.producers| && c.producers[p].stage.Waiting? && c.producers[p].todo == []
      && 0 <= c.producers[p].owner < |c.senders|
    case Permit(s) => s < |c.senders| && c.senders[s].phase.Resting? && c.senders[s].permits > 0
    case Dummy(s) => s < |c.senders| && c.senders[s].phase.Permitted? && c.empty == 0
    case Claim(s) => s < |c.senders| && c.senders[s].phase.Permitted? && c.empty > 0
    case Pop(s) => s < |c.senders| && c.senders[s].phase.Claimed?
    case Return(s) => s < |c.senders| && c.senders[s].phase.Holding?
    case Send(s) => s < |c.senders| && c.senders[s].phase.Loaded?
    case Answer(f) => f < |c.flights| && c.flights[f].status.Sent?
    case Callback(f) => f < |c.flights| && c.flights[f].status.Answering? && c.flights[f].todo != []
    case Finish(f) => f < |c.flights| && c.flights[f].status.Answering? && c.flights[f].todo == []
      && 0 <= c.flights[f].sender < |c.senders|
    case Fail(f) => f < |c.flights| && c.flights[f].status.Sent?
  }

  /** A producer's next stage, the client otherwise as given. */
  function Advance(c: Client, p: nat, v: Producer): Client
    requires p < |c.producers|
  {
    c.(producers := c.producers[p := v])
  }

  function Turn(c: Client, s: nat, v: Sender): Client
    requires s < |c.senders|
  {
    c.(senders := c.senders[s := v])
  }

  function Land(c: Client, f: nat, v: Flight): Client
    requires f < |c.flights|
  {
    c.(flights := c.flights[f := v])
  }

  function Min(a: int, b: int): int { if a <= b then a else b }

  /** Popping is defined for any claim; that the queue is long enough is proved below. */
  function Do(c: Client, a: Action): Client
    requires Enabled(c, a)
    requires forall s :: 0 <= s < |c.senders| && c.senders[s].phase.Claimed? ==> c.senders[s].phase.k <= |c.queue|
  {
    match a
    case Request(id) => c.(producers := c.producers + [Producer([id], Waiting, -1)], issued := c.issued + {id})
    case Reserve(p) => Advance(c.(full := c.full - 1), p, c.producers[p].(stage := Reserved))
    case Push(p) => Advance(c.(queue := c.queue + [c.producers[p].todo[0]], pending := c.pending + 1), p,
        c.producers[p].(stage := Pushed))
    case Announce(p) => Advance(c.(empty := c.empty + 1), p,
        c.producers[p].(todo := c.producers[p].todo[1..], stage := Waiting))
    case Repay(p) =>
      var s := c.producers[p].owner;
      Turn(Advance(c, p, c.producers[p].(owner := -1)), s, c.senders[s].(permits := c.senders[s].permits + 1))
    case Permit(s) => Turn(c, s, Sender(c.senders[s].permits - 1, Permitted))
    case Dummy(s) => Turn(c.(flights := c.flights + [Flight(s, [], Sent)]), s, c.senders[s].(phase := Resting))
    case Claim(s) => Turn(c.(empty := c.empty - Min(c.batch, c.empty)), s,
        c.senders[s].(phase := Claimed(Min(c.batch, c.empty))))
    case Pop(s) =>
      var k := c.senders[s].phase.k;
      Turn(c.(queue := c.queue[k..]), s, c.senders[s].(phase := Holding(c.queue[..k])))
    case Return(s) =>
      var b := c.senders[s].phase.batch;
      Turn(c.(full := c.full + |b|), s, c.senders[s].(phase := Loaded(b)))
    case Send(s) => Turn(c.(flights := c.flights + [Flight(s, c.senders[s].phase.batch, Sent)]), s,
        c.senders[s].(phase := Resting))
    case Answer(f) => Land(c, f, c.flights[f].(status := Answering))
    case Callback(f) =>
      var fl := c.flights[f];
      Land(c.(done := c.done + [fl.todo[0]], pending := c.pending - 1), f, fl.(todo := fl.todo[1..]))
    case Finish(f) =>
      var s := c.flights[f].sender;
      Turn(Land(c, f, c.flights[f].(status := Over)), s, c.senders[s].(permits := c.senders[s].permits + 1))
    case Fail(f) =>
      var fl := c.flights[f];
      Land(c.(pending := c.pending - |fl.todo|, producers := c.producers + [Producer(fl.todo, Waiting, fl.sender)]),
          f, Flight(fl.sender, [], Over))
  }

  // ------------------------------------------------------------ what is conserved

  function ReservedOf(p: Producer): int { if p.stage.Reserved? then 1 else 0 }
  function PushedOf(p: Producer): int { if p.stage.Pushed? then 1 else 0 }
  /** What a producer still has to queue; a pushed entry is in the queue already. */
  function RestOf(p: Producer): seq<int> { if p.stage.Pushed? && p.todo != [] then p.todo[1..] else p.todo }

  function ClaimedOf(s: Sender): int { if s.phase.Claimed? then s.phase.k else 0 }
  function HeldOf(s: Sender): int { if s.phase.Holding? then |s.phase.batch| else 0 }
  function BatchOf(s: Sender): seq<int> { if s.phase.Holding? || s.phase.Loaded? then s.phase.batch else [] }
  function SizeOf(s: Sender): int { |BatchOf(s)| }

  function LeftOf(f: Flight): int { |f.todo| }

  /** How often the request id occurs in a list, and in the lists of the parties. */
  function Times(l: seq<int>, id: int): nat {
    if l == [] then 0 else Times(l[..|l| - 1], id) + if l[|l| - 1] == id then 1 else 0
  }
  function InProducers(ps: seq<Producer>, id: int): nat {
    if ps == [] then 0 else InProducers(ps[..|ps| - 1], id) + Times(RestOf(ps[|ps| - 1]), id)
  }
  function InSenders(ss: seq<Sender>, id: int): nat {
    if ss == [] then 0 else InSenders(ss[..|ss| - 1], id) + Times(BatchOf(ss[|ss| - 1]), id)
  }
  function InFlights(fs: seq<Flight>, id: int): nat {
    if fs == [] then 0 else InFlights(fs[..|fs| - 1], id) + Times(fs[|fs| - 1].todo, id)
  }

  /** How many places the request id is in. */
  function Places(c: Client, id: int): nat {
    InProducers(c.producers, id) + Times(c.queue, id) + InSenders(c.senders, id) + InFlights(c.flights, id)
      + Times(c.done, id)
  }

  /** Every slot of the queue is free, reserved, taken by an item, or not yet given back. */
  ghost predicate SlotsKept(c: Client) {
    c.full >= 0 && c.full + Sum(c.producers, ReservedOf) + |c.queue| + Sum(c.senders, HeldOf) == c.size
  }

  /** Every item in the queue is announced, claimed, or about to be announced. */
  ghost predicate ItemsKept(c: Client) {
    c.empty >= 0 && c.empty + Sum(c.senders, ClaimedOf) + Sum(c.producers, PushedOf) == |c.queue|
  }

  /** Every request is in exactly one place: being queued, queued, with a sender, sent, or run. */
  ghost predicate IdsKept(c: Client) {
    forall id :: Places(c, id) == if id in c.issued then 1 else 0
  }

  /** The pending count covers the queue, the senders and the flights, but not a failed batch on
      its way back into the queue. */
  ghost predicate PendingKept(c: Client) {
    c.pending == |c.queue| + Sum(c.senders, SizeOf) + Sum(c.flights, LeftOf)
  }

  function Owes(p: Producer, s: int): int { if p.owner == s then 1 else 0 }
  function Flies(f: Flight, s: int): int { if f.sender == s && !f.status.Over? then 1 else 0 }

  function OwedTo(ps: seq<Producer>, s: int): int {
    if ps == [] then 0 else OwedTo(ps[..|ps| - 1], s) + Owes(ps[|ps| - 1], s)
  }
  function FlyingFor(fs: seq<Flight>, s: int): int {
    if fs == [] then 0 else FlyingFor(fs[..|fs| - 1], s) + Flies(fs[|fs| - 1], s)
  }

  function Busy(s: Sender): int { if s.phase.Resting? then 0 else 1 }

  /** The send window of each sender: its permits, its flights, dummies included, the failed
      batches still being queued for it, and the send it is preparing. */
  ghost predicate WindowsKept(c: Client) {
    forall s :: 0 <= s < |c.senders| ==> Window(c, s)
  }

  ghost predicate Window(c: Client, s: int)
    requires 0 <= s < |c.senders|
  {
    c.senders[s].permits >= 0 && c.senders[s].permits + Busy(c.senders[s]) + FlyingFor(c.flights, s)
      + OwedTo(c.producers, s) == c.once
  }

  ghost predicate WellFormed(c: Client) {
    && (forall p :: 0 <= p < |c.producers| ==>
          (c.producers[p].stage.Waiting? || c.producers[p].todo != []) && c.producers[p].owner < |c.senders|)
    && (forall f :: 0 <= f < |c.flights| ==>
          0 <= c.flights[f].sender < |c.senders| && (c.flights[f].status.Over? ==> c.flights[f].todo == []))
  }

  ghost predicate Inv(c: Client) {
    WellFormed(c) && SlotsKept(c) && ItemsKept(c) && IdsKept(c) && PendingKept(c) && WindowsKept(c)
  }

  /** The queue is never popped when it is too short. */
  lemma ClaimCovered(c: Client, s: int)
    requires ItemsKept(c) && 0 <= s < |c.senders| && c.senders[s].phase.Claimed?
    ensures c.senders[s].phase.k <= |c.queue|
  {
    SumNotNegative(c.senders, ClaimedOf, s);
    SumAtLeastZero(c.producers, PushedOf);
  }

  lemma SumAtLeastZero<T>(xs: seq<T>, f: T -> int)
    requires forall x :: f(x) >= 0
    ensures Sum(xs, f) >= 0
  {
    if xs != [] { SumNotNegative(xs, f, 0); }
  }

  // ------------------------------------------------------------ changing one entry

  lemma {:induction false} OwedUpdate(ps: seq<Producer>, p: int, v: Producer, s: int)
    requires 0 <= p < |ps|
    ensures OwedTo(ps[p := v], s) == OwedTo(ps, s) - Owes(ps[p], s) + Owes(v, s)
    decreases |ps|
  {
    var n := |ps| - 1;
    if p == n { assert ps[p := v][..n] == ps[..n]; }
    else { OwedUpdate(ps[..n], p, v, s); assert ps[p := v][..n] == ps[..n][p := v]; }
  }

  lemma {:induction false} FlyingUpdate(fs: seq<Flight>, f: int, v: Flight, s: int)
    requires 0 <= f < |fs|
    ensures FlyingFor(fs[f := v], s) == FlyingFor(fs, s) - Flies(fs[f], s) + Flies(v, s)
    decreases |fs|
  {
    var n := |fs| - 1;
    if f == n { assert fs[f := v][..n] == fs[..n]; }
    else { FlyingUpdate(fs[..n], f, v, s); assert fs[f := v][..n] == fs[..n][f := v]; }
  }

  lemma OwedMore(ps: seq<Producer>, v: Producer, s: int)
    ensures OwedTo(ps + [v], s) == OwedTo(ps, s) + Owes(v, s)
  {
    assert (ps + [v])[..|ps|] == ps;
  }

  lemma FlyingMore(fs: seq<Flight>, v: Flight, s: int)
    ensures FlyingFor(fs + [v], s) == FlyingFor(fs, s) + Flies(v, s)
  {
    assert (fs + [v])[..|fs|] == fs;
  }

  lemma {:induction false} InProducersUpdate(ps: seq<Producer>, p: int, v: Producer, id: int)
    requires 0 <= p < |ps|
    ensures InProducers(ps[p := v], id) == InProducers(ps, id) - Times(RestOf(ps[p]), id) + Times(RestOf(v), id)
    decreases |ps|
  {
    hide Times, RestOf, BatchOf;
    var n := |ps| - 1;
    if p == n { assert ps[p := v][..n] == ps[..n]; }
    else { InProducersUpdate(ps[..n], p, v, id); assert ps[p := v][..n] == ps[..n][p := v]; }
  }

  lemma {:induction false} InSendersUpdate(ss: seq<Sender>, s: int, v: Sender, id: int)
    requires 0 <= s < |ss|
    ensures InSenders(ss[s := v], id) == InSenders(ss, id) - Times(BatchOf(ss[s]), id) + Times(BatchOf(v), id)
    decreases |ss|
  {
    hide Times, RestOf, BatchOf;
    var n := |ss| - 1;
    if s == n { assert ss[s := v][..n] == ss[..n]; }
    else { InSendersUpdate(ss[..n], s, v, id); assert ss[s := v][..n] == ss[..n][s := v]; }
  }

  lemma {:induction false} InFlightsUpdate(fs: seq<Flight>, f: int, v: Flight, id: int)
    requires 0 <= f < |fs|
    ensures InFlights(fs[f := v], id) == InFlights(fs, id) - Times(fs[f].todo, id) + Times(v.todo, id)
    decreases |fs|
  {
    hide Times, RestOf, BatchOf;
    var n := |fs| - 1;
    if f == n { assert fs[f := v][..n] == fs[..n]; }
    else { InFlightsUpdate(fs[..n], f, v, id); assert fs[f := v][..n] == fs[..n][f := v]; }
  }

  lemma {:induction false} TimesConcat(a: seq<int>, b: seq<int>, id: int)
    ensures Times(a + b, id) == Times(a, id) + Times(b, id)
    decreases b
  {
    if b == [] { assert a + b == a; }
    else {
      TimesConcat(a, b[..|b| - 1], id);
      assert (a + b)[..|a + b| - 1] == a + b[..|b| - 1];
    }
  }

  lemma TimesSplit(l: seq<int>, k: int, id: int)
    requires 0 <= k <= |l|
    ensures Times(l, id) == Times(l[..k], id) + Times(l[k..], id)
  {
    TimesConcat(l[..k], l[k..], id);
    assert l[..k] + l[k..] == l;
  }

  lemma TimesFirst(l: seq<int>, id: int)
    requires l != []
    ensures Times(l, id) == Times(l[1..], id) + if l[0] == id then 1 else 0
  {
    TimesSplit(l, 1, id);
    assert l[..1] == [l[0]] && [l[0]][..0] == [];
  }

  lemma TimesLast(l: seq<int>, x: int, id: int)
    ensures Times(l + [x], id) == Times(l, id) + if x == id then 1 else 0
  {
    assert (l + [x])[..|l|] == l;
  }

  lemma MoreParties(ps: seq<Producer>, v: Producer, fs: seq<Flight>, w: Flight, id: int)
    ensures InProducers(ps + [v], id) == InProducers(ps, id) + Times(RestOf(v), id)
    ensures InFlights(fs + [w], id) == InFlights(fs, id) + Times(w.todo, id)
  {
    assert (ps + [v])[..|ps|] == ps && (fs + [w])[..|fs|] == fs;
  }

  // ------------------------------------------------------------ the steps, party by party

  /** One producer moved on: the sums over them. */
  lemma ProducerSums(c: Client, p: int, v: Producer)
    requires 0 <= p < |c.producers|
    ensures Sum(c.producers[p := v], ReservedOf) ==
      Sum(c.producers, ReservedOf) - ReservedOf(c.producers[p]) + ReservedOf(v)
    ensures Sum(c.producers[p := v], PushedOf) == Sum(c.producers, PushedOf) - PushedOf(c.producers[p]) + PushedOf(v)
    ensures forall s :: OwedTo(c.producers[p := v], s) == OwedTo(c.producers, s) - Owes(c.producers[p], s) + Owes(v, s)
  {
    SumUpdate(c.producers, ReservedOf, p, v);
    SumUpdate(c.producers, PushedOf, p, v);
    forall s ensures OwedTo(c.producers[p := v], s) == OwedTo(c.producers, s) - Owes(c.producers[p], s) + Owes(v, s) {
      OwedUpdate(c.producers, p, v, s);
    }
  }

  lemma SenderSums(c: Client, s: int, v: Sender)
    requires 0 <= s < |c.senders|
    ensures Sum(c.senders[s := v], ClaimedOf) == Sum(c.senders, ClaimedOf) - ClaimedOf(c.senders[s]) + ClaimedOf(v)
    ensures Sum(c.senders[s := v], HeldOf) == Sum(c.senders, HeldOf) - HeldOf(c.senders[s]) + HeldOf(v)
    ensures Sum(c.senders[s := v], SizeOf) == Sum(c.senders, SizeOf) - SizeOf(c.senders[s]) + SizeOf(v)
  {
    SumUpdate(c.senders, ClaimedOf, s, v);
    SumUpdate(c.senders, HeldOf, s, v);
    SumUpdate(c.senders, SizeOf, s, v);
  }

  lemma FlightSums(c: Client, f: int, v: Flight)
    requires 0 <= f < |c.flights|
    ensures Sum(c.flights[f := v], LeftOf) == Sum(c.flights, LeftOf) - LeftOf(c.flights[f]) + LeftOf(v)
    ensures forall s ::
      FlyingFor(c.flights[f := v], s) == FlyingFor(c.flights, s) - Flies(c.flights[f], s) + Flies(v, s)
  {
    SumUpdate(c.flights, LeftOf, f, v);
    forall s ensures FlyingFor(c.flights[f := v], s) == FlyingFor(c.flights, s) - Flies(c.flights[f], s) + Flies(v, s) {
      FlyingUpdate(c.flights, f, v, s);
    }
  }

  predicate ByProducer(a: Action) { a.Reserve? || a.Push? || a.Announce? }

  ghost predicate Covered(c: Client) {
    forall s :: 0 <= s < |c.senders| && c.senders[s].phase.Claimed? ==> c.senders[s].phase.k <= |c.queue|
  }

  lemma AllCovered(c: Client)
    requires ItemsKept(c)
    ensures Covered(c)
  {
    forall s | 0 <= s < |c.senders| && c.senders[s].phase.Claimed? ensures c.senders[s].phase.k <= |c.queue| {
      ClaimCovered(c, s);
    }
  }

  lemma ProducerStep(c: Client, a: Action)
    requires Inv(c) && Enabled(c, a) && ByProducer(a) && Covered(c)
    ensures Inv(Do(c, a))
  {
    hide Sum, OwedTo, FlyingFor, Times, InProducers, InSenders, InFlights;
    var r := Do(c, a);
    var p := match a case Reserve(p) => p case Push(p) => p case Announce(p) => p;
    ProducerSums(c, p, r.producers[p]);
    forall id ensures Places(r, id) == Places(c, id) {
      InProducersUpdate(c.producers, p, r.producers[p], id);
      TimesFirst(c.producers[p].todo, id);
      TimesLast(c.queue, c.producers[p].todo[0], id);
    }
    assert forall s :: 0 <= s < |c.senders| ==> Window(c, s) ==> Window(r, s);
  }

  lemma RequestStep(c: Client, id: int)
    requires Inv(c) && id !in c.issued
    ensures Inv(c.(producers := c.producers + [Producer([id], Waiting, -1)], issued := c.issued + {id}))
  {
    var v := Producer([id], Waiting, -1);
    var r := c.(producers := c.producers + [v], issued := c.issued + {id});
    SumAppend(c.producers, ReservedOf, v);
    SumAppend(c.producers, PushedOf, v);
    hide Sum, OwedTo, FlyingFor, InProducers, InSenders, InFlights;
    forall x ensures Places(r, x) == Places(c, x) + if x == id then 1 else 0 {
      MoreParties(c.producers, v, [], Flight(0, [], Over), x);
      TimesLast([], id, x);
      assert [] + [id] == [id];
    }
    hide Times;
    forall s | 0 <= s < |c.senders| ensures Window(r, s) {
      OwedMore(c.producers, v, s);
      assert Window(c, s);
    }
    assert WellFormed(r);
  }

  predicate BySender(a: Action) { a.Permit? || a.Claim? || a.Pop? || a.Return? }

  lemma SenderStep(c: Client, a: Action)
    requires Inv(c) && Enabled(c, a) && BySender(a) && Covered(c)
    ensures Inv(Do(c, a))
  {
    hide Sum, OwedTo, FlyingFor, Times, InProducers, InSenders, InFlights;
    var r := Do(c, a);
    var s := match a case Permit(s) => s case Claim(s) => s case Pop(s) => s case Return(s) => s;
    SenderSums(c, s, r.senders[s]);
    forall id ensures Places(r, id) == Places(c, id) {
      InSendersUpdate(c.senders, s, r.senders[s], id);
      if a.Pop? { TimesSplit(c.queue, c.senders[s].phase.k, id); NoTimes(id); }
    }
    assert forall t :: 0 <= t < |c.senders| ==> Window(c, t) ==> Window(r, t);
  }

  predicate Sends(a: Action) { a.Dummy? || a.Send? }

  /** The client after the sender s has sent the flight v. */
  function Launched(c: Client, s: nat, v: Flight): Client
    requires s < |c.senders|
  {
    Turn(c.(flights := c.flights + [v]), s, c.senders[s].(phase := Resting))
  }

  lemma SendStep(c: Client, a: Action)
    requires Inv(c) && Enabled(c, a) && Sends(a) && Covered(c)
    ensures Inv(Do(c, a))
  {
    var s := match a case Dummy(s) => s case Send(s) => s;
    SendIs(c, a, s);
    hide *;
    var v := Flight(s, BatchOf(c.senders[s]), Sent);
    InvParts(c);
    SendIds(c, s, v);
    SendWindows(c, s, v);
    SendBalances(c, s, v);
    InvWhole(Launched(c, s, v));
  }

  lemma InvParts(c: Client)
    requires Inv(c)
    ensures WellFormed(c) && SlotsKept(c) && ItemsKept(c) && IdsKept(c) && PendingKept(c) && WindowsKept(c)
  {
    hide WellFormed, SlotsKept, ItemsKept, IdsKept, PendingKept, WindowsKept;
  }

  lemma InvWhole(c: Client)
    requires WellFormed(c) && SlotsKept(c) && ItemsKept(c) && IdsKept(c) && PendingKept(c) && WindowsKept(c)
    ensures Inv(c)
  {
    hide WellFormed, SlotsKept, ItemsKept, IdsKept, PendingKept, WindowsKept;
  }

  lemma SendIs(c: Client, a: Action, s: nat)
    requires Enabled(c, a) && Covered(c) && ((a.Dummy? && a == Dummy(s)) || (a.Send? && a == Send(s)))
    ensures s < |c.senders| && Do(c, a) == Launched(c, s, Flight(s, BatchOf(c.senders[s]), Sent))
    ensures c.senders[s].phase.Permitted? || c.senders[s].phase.Loaded?
  {
  }

  lemma SendBalances(c: Client, s: nat, v: Flight)
    requires s < |c.senders| && WellFormed(c) && SlotsKept(c) && ItemsKept(c) && PendingKept(c)
    requires v == Flight(s, BatchOf(c.senders[s]), Sent)
    requires (c.senders[s].phase.Permitted? || c.senders[s].phase.Loaded?)
    ensures var r := Launched(c, s, v); WellFormed(r) && SlotsKept(r) && ItemsKept(r) && PendingKept(r)
  {
    hide Sum;
    var r := Launched(c, s, v);
    SumAppend(c.flights, LeftOf, v);
    SenderSums(c, s, r.senders[s]);
  }

  lemma SendIds(c: Client, s: nat, v: Flight)
    requires IdsKept(c) && s < |c.senders| && v.todo == BatchOf(c.senders[s])
    ensures IdsKept(Launched(c, s, v))
  {
    hide InProducers, InSenders, InFlights, Times;
    var r := Launched(c, s, v);
    forall id ensures Places(r, id) == Places(c, id) {
      InSendersUpdate(c.senders, s, r.senders[s], id);
      MoreParties([], Producer([], Waiting, -1), c.flights, v, id);
      NoTimes(id);
    }
  }

  lemma SendWindows(c: Client, s: nat, v: Flight)
    requires WindowsKept(c) && s < |c.senders| && v.sender == s && v.status.Sent? && !c.senders[s].phase.Resting?
    ensures WindowsKept(Launched(c, s, v))
  {
    hide OwedTo, FlyingFor;
    var r := Launched(c, s, v);
    forall t | 0 <= t < |c.senders| ensures Window(r, t) {
      FlyingMore(c.flights, v, t);
      assert Window(c, t);
    }
  }

  lemma NoTimes(id: int)
    ensures Times([], id) == 0
  {
  }

  predicate ByReply(a: Action) { a.Answer? || a.Callback? }

  lemma ReplyStep(c: Client, a: Action)
    requires Inv(c) && Enabled(c, a) && ByReply(a) && Covered(c)
    ensures Inv(Do(c, a))
  {
    hide Sum, OwedTo, FlyingFor, Times, InProducers, InSenders, InFlights;
    var r := Do(c, a);
    var f := match a case Answer(f) => f case Callback(f) => f;
    FlightSums(c, f, r.flights[f]);
    forall id ensures Places(r, id) == Places(c, id) {
      InFlightsUpdate(c.flights, f, r.flights[f], id);
      if a.Callback? {
        TimesFirst(c.flights[f].todo, id);
        TimesLast(c.done, c.flights[f].todo[0], id);
      }
    }
    assert forall t :: 0 <= t < |c.senders| ==> Window(c, t) ==> Window(r, t);
  }

  /** A finished flight gives its permit back. */
  lemma FinishStep(c: Client, f: nat)
    requires Inv(c) && Enabled(c, Finish(f)) && Covered(c)
    ensures Inv(Do(c, Finish(f)))
  {
    hide Sum, OwedTo, FlyingFor, Times, InProducers, InSenders, InFlights;
    var r := Do(c, Finish(f));
    var s := c.flights[f].sender;
    FlightSums(c, f, r.flights[f]);
    SenderSums(c, s, r.senders[s]);
    forall id ensures Places(r, id) == Places(c, id) {
      InFlightsUpdate(c.flights, f, r.flights[f], id);
      InSendersUpdate(c.senders, s, r.senders[s], id);
    }
    assert forall t :: 0 <= t < |c.senders| ==> Window(c, t) ==> Window(r, t);
  }

  /** So does a reply thread that has queued its failed batch again. */
  lemma RepayStep(c: Client, p: nat)
    requires Inv(c) && Enabled(c, Repay(p)) && Covered(c)
    ensures Inv(Do(c, Repay(p)))
  {
    hide Sum, OwedTo, FlyingFor, Times, InProducers, InSenders, InFlights;
    var r := Do(c, Repay(p));
    var s := c.producers[p].owner;
    ProducerSums(c, p, r.producers[p]);
    SenderSums(c, s, r.senders[s]);
    forall id ensures Places(r, id) == Places(c, id) {
      InProducersUpdate(c.producers, p, r.producers[p], id);
      InSendersUpdate(c.senders, s, r.senders[s], id);
    }
    assert forall t :: 0 <= t < |c.senders| ==> Window(c, t) ==> Window(r, t);
  }

  /** The client after the flight f has failed and its batch waits to be queued again. */
  function Failed(c: Client, f: nat): Client
    requires f < |c.flights|
  {
    var fl := c.flights[f];
    Land(c.(pending := c.pending - |fl.todo|, producers := c.producers + [Producer(fl.todo, Waiting, fl.sender)]), f,
        Flight(fl.sender, [], Over))
  }

  lemma FailIs(c: Client, f: nat)
    requires Enabled(c, Fail(f)) && Covered(c)
    ensures f < |c.flights| && Do(c, Fail(f)) == Failed(c, f) && c.flights[f].status.Sent?
  {
  }

  lemma FailIds(c: Client, f: nat)
    requires f < |c.flights| && IdsKept(c)
    ensures IdsKept(Failed(c, f))
  {
    hide InProducers, InSenders, InFlights, Times;
    var r, fl := Failed(c, f), c.flights[f];
    var v := Producer(fl.todo, Waiting, fl.sender);
    forall id ensures Places(r, id) == Places(c, id) {
      InFlightsUpdate(c.flights, f, r.flights[f], id);
      MoreParties(c.producers, v, [], Flight(0, [], Over), id);
      NoTimes(id);
    }
  }

  lemma FailWindows(c: Client, f: nat)
    requires f < |c.flights| && c.flights[f].status.Sent? && WindowsKept(c)
    ensures WindowsKept(Failed(c, f))
  {
    hide OwedTo, FlyingFor;
    var r, fl := Failed(c, f), c.flights[f];
    var v := Producer(fl.todo, Waiting, fl.sender);
    forall t | 0 <= t < |c.senders| ensures Window(r, t) {
      FlyingUpdate(c.flights, f, r.flights[f], t);
      OwedMore(c.producers, v, t);
      assert Window(c, t);
    }
  }

  lemma FailBalances(c: Client, f: nat)
    requires f < |c.flights| && WellFormed(c) && SlotsKept(c) && ItemsKept(c) && PendingKept(c)
    ensures var r := Failed(c, f); WellFormed(r) && SlotsKept(r) && ItemsKept(r) && PendingKept(r)
  {
    hide Sum;
    var r, fl := Failed(c, f), c.flights[f];
    var v := Producer(fl.todo, Waiting, fl.sender);
    SumAppend(c.producers, ReservedOf, v);
    SumAppend(c.producers, PushedOf, v);
    SumUpdate(c.flights, LeftOf, f, r.flights[f]);
  }

  /** A failed batch goes back to be queued: no request is lost or doubled. */
  lemma FailStep(c: Client, f: nat)
    requires Inv(c) && Enabled(c, Fail(f)) && Covered(c)
    ensures Inv(Do(c, Fail(f)))
  {
    FailIs(c, f);
    hide Do, Enabled, Failed, WellFormed, SlotsKept, ItemsKept, IdsKept, PendingKept, WindowsKept;
    FailIds(c, f);
    FailWindows(c, f);
    FailBalances(c, f);
  }

  /** Every step of every party keeps all five balances. */
  lemma StepConserves(c: Client, a: Action)
    requires Inv(c) && Enabled(c, a)
    ensures Covered(c) && Inv(Do(c, a))
  {
    AllCovered(c);
    hide WellFormed, SlotsKept, ItemsKept, IdsKept, PendingKept, WindowsKept;
    match a
    case Request(id) => RequestStep(c, id);
    case Repay(p) => RepayStep(c, p);
    case Finish(f) => FinishStep(c, f);
    case Fail(f) => FailStep(c, f);
    case _ =>
      if ByProducer(a) { ProducerStep(c, a); }
      else if BySender(a) { SenderStep(c, a); }
      else if Sends(a) { SendStep(c, a); }
      else { ReplyStep(c, a); }
  }

  // ------------------------------------------------------------ whole runs

  function Start(size: nat, batch: nat, once: nat, senders: nat): Client {
    Client(size, batch, once, size, 0, [], 0, [], seq(senders, i => Sender(once, Resting)), [], [], {})
  }

  lemma {:induction false} RestingSums(ss: seq<Sender>, once: int)
    requires forall i :: 0 <= i < |ss| ==> ss[i] == Sender(once, Resting)
    ensures Sum(ss, ClaimedOf) == 0 && Sum(ss, HeldOf) == 0 && Sum(ss, SizeOf) == 0
    ensures forall id :: InSenders(ss, id) == 0
    decreases |ss|
  {
    if ss != [] { RestingSums(ss[..|ss| - 1], once); }
  }

  lemma StartInv(size: nat, batch: nat, once: nat, senders: nat)
    ensures Inv(Start(size, batch, once, senders))
  {
    RestingSums(Start(size, batch, once, senders).senders, once);
  }

  ghost predicate Next(c: Client, r: Client, a: Action) { Enabled(c, a) && Covered(c) && r == Do(c, a) }

  ghost predicate IsRun(run: seq<Client>, acts: seq<Action>) {
    |run| == |acts| + 1 && forall i :: 0 <= i < |acts| ==> Next(run[i], run[i + 1], acts[i])
  }

  lemma {:induction false} RunConserves(run: seq<Client>, acts: seq<Action>, i: nat)
    requires IsRun(run, acts) && Inv(run[0]) && i < |run|
    ensures Inv(run[i])
  {
    hide Inv, Do;
    if i > 0 {
      RunConserves(run, acts, i - 1);
      assert Next(run[i - 1], run[i - 1 + 1], acts[i - 1]);
      StepConserves(run[i - 1], acts[i - 1]);
    }
  }

  // ------------------------------------------------------------ what the balances say

  lemma {:induction false} TimesPositive(l: seq<int>, id: int)
    ensures Times(l, id) > 0 <==> id in l
    decreases l
  {
    if l != [] { TimesPositive(l[..|l| - 1], id); }
  }

  lemma {:induction false} TwiceCounts(l: seq<int>, i: int, j: int)
    requires 0 <= i < j < |l| && l[i] == l[j]
    ensures Times(l, l[i]) >= 2
    decreases l
  {
    var k := l[..|l| - 1];
    if j == |l| - 1 { assert k[i] == l[i]; TimesPositive(k, l[i]); } else { TwiceCounts(k, i, j); }
  }

  /** No callback runs twice, and none runs that was not requested. */
  lemma NoCallbackTwice(c: Client)
    requires Inv(c)
    ensures forall i, j :: 0 <= i < j < |c.done| ==> c.done[i] != c.done[j]
    ensures forall i :: 0 <= i < |c.done| ==> c.done[i] in c.issued
  {
    hide Sum, OwedTo, FlyingFor, InProducers, InSenders, InFlights;
    forall i, j | 0 <= i < j < |c.done| ensures c.done[i] != c.done[j] {
      assert Places(c, c.done[i]) <= 1;
      if c.done[i] == c.done[j] { TwiceCounts(c.done, i, j); }
    }
    forall i | 0 <= i < |c.done| ensures c.done[i] in c.issued {
      TimesPositive(c.done, c.done[i]); assert Places(c, c.done[i]) >= 1;
    }
  }

  lemma {:induction false} CountNotNegative(ps: seq<Producer>, fs: seq<Flight>, s: int)
    ensures OwedTo(ps, s) >= 0 && FlyingFor(fs, s) >= 0
    decreases |ps| + |fs|
  {
    if ps != [] { CountNotNegative(ps[..|ps| - 1], fs, s); }
    if fs != [] { CountNotNegative(ps, fs[..|fs| - 1], s); }
  }

  /** No sender has more requests in flight than its window, dummies included. */
  lemma WindowBound(c: Client, s: int)
    requires Inv(c) && 0 <= s < |c.senders|
    ensures FlyingFor(c.flights, s) + OwedTo(c.producers, s) <= c.once
  {
    CountNotNegative(c.producers, c.flights, s);
    assert Window(c, s);
  }

  lemma {:induction false} LengthsGone(ss: seq<Sender>, fs: seq<Flight>)
    ensures Sum(ss, SizeOf) >= 0 && Sum(fs, LeftOf) >= 0
    ensures Sum(ss, SizeOf) == 0 <==> forall s :: 0 <= s < |ss| ==> BatchOf(ss[s]) == []
    ensures Sum(fs, LeftOf) == 0 <==> forall f :: 0 <= f < |fs| ==> fs[f].todo == []
    decreases |ss| + |fs|
  {
    if ss != [] { LengthsGone(ss[..|ss| - 1], fs); }
    if fs != [] { LengthsGone(ss, fs[..|fs| - 1]); }
  }

  /** The pending count is zero exactly if the queue, the senders and the flights are empty. That
      every request has run takes more: nothing may be waiting to be queued either. */
  lemma PendingMeans(c: Client)
    requires Inv(c)
    ensures c.pending >= 0
    ensures c.pending == 0 <==> c.queue == [] && (forall s :: 0 <= s < |c.senders| ==> BatchOf(c.senders[s]) == [])
                                && (forall f :: 0 <= f < |c.flights| ==> c.flights[f].todo == [])
    ensures c.pending == 0 ==>
      ((forall id :: id in c.issued ==> id in c.done) <==>
        (forall p :: 0 <= p < |c.producers| ==> RestOf(c.producers[p]) == []))
  {
    hide InProducers, InSenders, InFlights, OwedTo, FlyingFor;
    LengthsGone(c.senders, c.flights);
    if c.pending == 0 {
      if p :| 0 <= p < |c.producers| && RestOf(c.producers[p]) != [] { StillWaiting(c, p); }
      if forall p :: 0 <= p < |c.producers| ==> RestOf(c.producers[p]) == [] {
        forall id | id in c.issued ensures id in c.done { AllRun(c, id); }
      }
    }
  }

  lemma {:induction false} HeldByProducer(ps: seq<Producer>, p: int, id: int)
    requires 0 <= p < |ps|
    ensures InProducers(ps, id) >= Times(RestOf(ps[p]), id)
    decreases |ps|
  {
    if p < |ps| - 1 { HeldByProducer(ps[..|ps| - 1], p, id); }
  }

  lemma StillWaiting(c: Client, p: int)
    requires Inv(c) && 0 <= p < |c.producers| && RestOf(c.producers[p]) != []
    ensures var id := RestOf(c.producers[p])[0]; id in c.issued && id !in c.done
  {
    hide InProducers, InSenders, InFlights, OwedTo, FlyingFor, Sum;
    var id := RestOf(c.producers[p])[0];
    TimesPositive(RestOf(c.producers[p]), id);
    HeldByProducer(c.producers, p, id);
    TimesPositive(c.done, id);
    assert 1 <= Places(c, id);
  }

  lemma {:induction false} NobodyHolds(ps: seq<Producer>, ss: seq<Sender>, fs: seq<Flight>, id: int)
    requires forall p :: 0 <= p < |ps| ==> RestOf(ps[p]) == []
    requires forall s :: 0 <= s < |ss| ==> BatchOf(ss[s]) == []
    requires forall f :: 0 <= f < |fs| ==> fs[f].todo == []
    ensures InProducers(ps, id) == 0 && InSenders(ss, id) == 0 && InFlights(fs, id) == 0
    decreases |ps| + |ss| + |fs|
  {
    if ps != [] { NobodyHolds(ps[..|ps| - 1], ss, fs, id); }
    else if ss != [] { NobodyHolds(ps, ss[..|ss| - 1], fs, id); }
    else if fs != [] { NobodyHolds(ps, ss, fs[..|fs| - 1], id); }
  }

  /** No callback is lost: with nothing left anywhere, every request has run. */
  lemma AllRun(c: Client, id: int)
    requires Inv(c) && id in c.issued && c.queue == []
    requires (forall p :: 0 <= p < |c.producers| ==> RestOf(c.producers[p]) == [])
    requires (forall s :: 0 <= s < |c.senders| ==> BatchOf(c.senders[s]) == [])
    requires (forall f :: 0 <= f < |c.flights| ==> c.flights[f].todo == [])
    ensures id in c.done
  {
    hide InProducers, InSenders, InFlights, OwedTo, FlyingFor, Sum;
    NobodyHolds(c.producers, c.senders, c.flights, id);
    NoTimes(id);
    assert Places(c, id) == 1;
    TimesPositive(c.done, id);
  }

  /** How it comes about: when the last batch in the system fails, the count drops to zero although
      none of its requests has run. */
  lemma FailureHidesRequests(c: Client, f: nat, id: int)
    requires Inv(c) && Enabled(c, Fail(f)) && c.pending == |c.flights[f].todo| && id in c.flights[f].todo
    ensures Covered(c) && Do(c, Fail(f)).pending == 0 && id in Do(c, Fail(f)).issued && id !in Do(c, Fail(f)).done
  {
    hide InProducers, InSenders, OwedTo, FlyingFor, Sum, InFlights;
    AllCovered(c);
    TimesPositive(c.flights[f].todo, id);
    HeldByFlight(c.flights, f, id);
    TimesPositive(c.done, id);
    assert 1 <= Places(c, id);
  }

  lemma {:induction false} HeldByFlight(fs: seq<Flight>, f: int, id: int)
    requires 0 <= f < |fs|
    ensures InFlights(fs, id) >= Times(fs[f].todo, id)
    decreases |fs|
  {
    if f < |fs| - 1 { HeldByFlight(fs[..|fs| - 1], f, id); }
  }
}
