/** The event bus of voice_agent/api/events.py. */
module EventBus {

  // -- the bus as a value --------------------------------------------------------------------

  /** One queue that subscribe() handed out, and whether it is still subscribed. */
  datatype Subscriber<E> = Subscriber(items: seq<E>, on: bool)

  /** The queues are numbered in the order they were handed out. */
  datatype Bus<E> = Bus(bound: int, subs: seq<Subscriber<E>>, dropped: nat)

  datatype Step<E> = Subscribe | Unsubscribe(i: nat) | Publish(event: E) | Take(i: nat)

  /** asyncio.Queue.full(): a queue without a positive maxsize is never full. */
  predicate IsFull<E>(bound: int, items: seq<E>) {
    bound > 0 && |items| >= bound
  }

  function Offer<E>(bound: int, s: Subscriber<E>, event: E): Subscriber<E> {
    if s.on && !IsFull(bound, s.items) then s.(items := s.items + [event]) else s
  }

  /** The subscribers that have no room. */
  function Slow<E>(b: Bus<E>): set<nat> {
    set i: nat | i < |b.subs| && b.subs[i].on && IsFull(b.bound, b.subs[i].items)
  }

  function Published<E>(b: Bus<E>, event: E): Bus<E> {
    b.(subs := seq(|b.subs|, i requires 0 <= i < |b.subs| => Offer(b.bound, b.subs[i], event)),
       dropped := b.dropped + |Slow(b)|)
  }

  /** Taking waits while the queue is empty. */
  function Next<E>(b: Bus<E>, step: Step<E>): Bus<E> {
    match step
    case Subscribe => b.(subs := b.subs + [Subscriber([], true)])
    case Unsubscribe(i) => if i < |b.subs| then b.(subs := b.subs[i := b.subs[i].(on := false)]) else b
    case Publish(event) => Published(b, event)
    case Take(i) =>
      if i < |b.subs| && b.subs[i].items != [] then
        b.(subs := b.subs[i := b.subs[i].(items := b.subs[i].items[1..])])
      else
        b
  }

  function After<E>(bound: int, steps: seq<Step<E>>): Bus<E> {
    if steps == [] then Bus(bound, [], 0)
    else Next(After(bound, steps[..|steps| - 1]), steps[|steps| - 1])
  }

  // -- what one subscriber sees of a run -------------------------------------------------------

  function Queue<E>(b: Bus<E>, i: nat): seq<E> {
    if i < |b.subs| then b.subs[i].items else []
  }

  predicate IsOn<E>(b: Bus<E>, i: nat) {
    i < |b.subs| && b.subs[i].on
  }

  /** The events published while it was subscribed. */
  function Offered<E>(bound: int, steps: seq<Step<E>>, i: nat): seq<E> {
    if steps == [] then [] else
      var front, step := steps[..|steps| - 1], steps[|steps| - 1];
      Offered(bound, front, i) + if step.Publish? && IsOn(After(bound, front), i) then [step.event] else []
  }

  /** The events it has taken from its queue. */
  function Taken<E>(bound: int, steps: seq<Step<E>>, i: nat): seq<E> {
    if steps == [] then [] else
      var front, step := steps[..|steps| - 1], steps[|steps| - 1];
      var queue := Queue(After(bound, front), i);
      Taken(bound, front, i) + if step == Take(i) && queue != [] then [queue[0]] else []
  }

  /** Its queue has a bound and is at it when an event is published. */
  predicate Misses<E>(b: Bus<E>, step: Step<E>, i: nat) {
    step.Publish? && IsOn(b, i) && 0 < b.bound <= |Queue(b, i)|
  }

  /** The number of events dropped for it. */
  function Lost<E>(bound: int, steps: seq<Step<E>>, i: nat): nat {
    if steps == [] then 0 else
      var front, step := steps[..|steps| - 1], steps[|steps| - 1];
      Lost(bound, front, i) + if Misses(After(bound, front), step, i) then 1 else 0
  }

  /** Where in what it was offered the events lie that it got. */
  function Kept<E>(bound: int, steps: seq<Step<E>>, i: nat): seq<nat> {
    if steps == [] then [] else
      var front, step := steps[..|steps| - 1], steps[|steps| - 1];
      var b := After(bound, front);
      Kept(bound, front, i)
      + if step.Publish? && IsOn(b, i) && !Misses(b, step, i) then [|Offered(bound, front, i)|] else []
  }

  /** `got` are the elements of `from` at the increasing positions `at`. */
  ghost predicate Selects<E>(at: seq<nat>, from: seq<E>, got: seq<E>) {
    && |at| == |got|
    && (forall j, k :: 0 <= j < k < |at| ==> at[j] < at[k])
    && (forall j :: 0 <= j < |at| ==> at[j] < |from| && got[j] == from[at[j]])
  }

  // -- accounting ---------------------------------------------------------------------------------

  lemma {:induction false} BoundStays<E>(bound: int, steps: seq<Step<E>>)
    ensures After(bound, steps).bound == bound
  {
    if steps != [] {
      BoundStays(bound, steps[..|steps| - 1]);
    }
  }

  /** A subscriber gets an event at the end of its queue if there is room, and misses it only if there is none. */
  lemma RoomMeansDelivery<E>(bound: int, steps: seq<Step<E>>, event: E, i: nat)
    requires IsOn(After(bound, steps), i)
    ensures var queue, all := Queue(After(bound, steps), i), steps + [Publish(event)];
            if bound <= 0 || |queue| < bound then
              Queue(After(bound, all), i) == queue + [event] && Lost(bound, all, i) == Lost(bound, steps, i)
            else
              Queue(After(bound, all), i) == queue && Lost(bound, all, i) == Lost(bound, steps, i) + 1
  {
    BoundStays(bound, steps);
    assert (steps + [Publish(event)])[..|steps|] == steps;
  }

  /** Every event a subscriber was offered is taken, queued or dropped; it never has more queued than the bound. */
  lemma {:induction false} EventsAreAccounted<E>(bound: int, steps: seq<Step<E>>, i: nat)
    ensures |Offered(bound, steps, i)|
         == |Taken(bound, steps, i)| + |Queue(After(bound, steps), i)| + Lost(bound, steps, i)
    ensures bound > 0 ==> |Queue(After(bound, steps), i)| <= bound
    ensures bound <= 0 ==> Lost(bound, steps, i) == 0
  {
    BoundStays(bound, steps);
    if steps != [] {
      var front := steps[..|steps| - 1];
      EventsAreAccounted(bound, front, i);
      BoundStays(bound, front);
    }
  }

  lemma SelectsOneMore<E>(at: seq<nat>, from: seq<E>, got: seq<E>, event: E)
    requires Selects(at, from, got)
    ensures Selects(at + [|from|], from + [event], got + [event])
    ensures Selects(at, from + [event], got)
  {
  }

  /** What it took, and then what is queued for it, is what it was offered, in order, less what was dropped. */
  lemma {:induction false} EventsComeInOrder<E>(bound: int, steps: seq<Step<E>>, i: nat)
    ensures Selects(Kept(bound, steps, i), Offered(bound, steps, i),
                    Taken(bound, steps, i) + Queue(After(bound, steps), i))
  {
    if steps != [] {
      var front, step := steps[..|steps| - 1], steps[|steps| - 1];
      var b := After(bound, front);
      EventsComeInOrder(bound, front, i);
      var got := Taken(bound, front, i) + Queue(b, i);
      if step.Publish? && IsOn(b, i) {
        SelectsOneMore(Kept(bound, front, i), Offered(bound, front, i), got, step.event);
        assert Taken(bound, steps, i) + Queue(After(bound, steps), i)
            == if Misses(b, step, i) then got else got + [step.event];
      } else {
        assert Taken(bound, steps, i) + Queue(After(bound, steps), i) == got;
      }
    }
  }

  function SumLost<E>(bound: int, steps: seq<Step<E>>, n: nat): nat {
    if n == 0 then 0 else SumLost(bound, steps, n - 1) + Lost(bound, steps, n - 1)
  }

  lemma {:induction false} NoneLostBeforeJoining<E>(bound: int, steps: seq<Step<E>>, i: nat)
    requires i >= |After(bound, steps).subs|
    ensures Lost(bound, steps, i) == 0
  {
    if steps != [] {
      NoneLostBeforeJoining(bound, steps[..|steps| - 1], i);
    }
  }

  /** The slow ones among the first n. */
  function SlowBelow<E>(b: Bus<E>, n: nat): set<nat> {
    set i: nat | i < n && i in Slow(b)
  }

  lemma {:induction false} SumOfStep<E>(bound: int, steps: seq<Step<E>>, n: nat)
    requires steps != []
    ensures var front := steps[..|steps| - 1];
            SumLost(bound, steps, n) == SumLost(bound, front, n)
              + if steps[|steps| - 1].Publish? then |SlowBelow(After(bound, front), n)| else 0
  {
    var b := After(bound, steps[..|steps| - 1]);
    if n == 0 {
      assert SlowBelow(b, 0) == {};
    } else {
      SumOfStep(bound, steps, n - 1);
      assert SlowBelow(b, n) == SlowBelow(b, n - 1) + if n - 1 in Slow(b) then {n - 1} else {};
      assert n - 1 !in SlowBelow(b, n - 1);
    }
  }

  /** The counter of the bus is the sum over all subscribers there ever were. */
  lemma {:induction false} DropsAddUp<E>(bound: int, steps: seq<Step<E>>)
    ensures After(bound, steps).dropped == SumLost(bound, steps, |After(bound, steps).subs|)
  {
    if steps != [] {
      var front, step := steps[..|steps| - 1], steps[|steps| - 1];
      var b := After(bound, front);
      DropsAddUp(bound, front);
      SumOfStep(bound, steps, |b.subs|);
      assert SlowBelow(b, |b.subs|) == Slow(b);
      if step.Subscribe? {
        NoneLostBeforeJoining(bound, front, |b.subs|);
        SumOfStep(bound, steps, |b.subs| + 1);
      }
    }
  }

  // -- non-interference --------------------------------------------------------------------------

  /** The run without what the other subscribers do; the ones that joined before i stay, and never take anything. */
  function Solo<E>(steps: seq<Step<E>>, i: nat): seq<Step<E>> {
    if steps == [] then [] else
      var step := steps[|steps| - 1];
      Solo(steps[..|steps| - 1], i)
      + match step
        case Unsubscribe(j) => if j == i then [step] else []
        case Take(j) => if j == i then [step] else []
        case _ => [step]
  }

  ghost predicate Alike<E>(b: Bus<E>, c: Bus<E>, i: nat) {
    && b.bound == c.bound && |b.subs| == |c.subs|
    && (i < |b.subs| ==> b.subs[i] == c.subs[i])
  }

  lemma {:induction false} StepKeepsAlike<E>(b: Bus<E>, c: Bus<E>, step: Step<E>, i: nat)
    requires Alike(b, c, i)
    ensures (step.Unsubscribe? ==> step.i == i) && (step.Take? ==> step.i == i) ==> Alike(Next(b, step), Next(c, step), i)
    ensures (step.Unsubscribe? || step.Take?) && step.i != i ==> Alike(Next(b, step), c, i)
  {
  }

  lemma {:induction false} SoloOfStep<E>(steps: seq<Step<E>>, i: nat)
    requires steps != []
    ensures var front, step := steps[..|steps| - 1], steps[|steps| - 1];
            Solo(steps, i)
              == if (step.Unsubscribe? || step.Take?) && step.i != i then Solo(front, i) else Solo(front, i) + [step]
  {
  }

  lemma {:induction false} SoloIsAlike<E>(bound: int, steps: seq<Step<E>>, i: nat)
    ensures Alike(After(bound, steps), After(bound, Solo(steps, i)), i)
  {
    if steps != [] {
      var front, step := steps[..|steps| - 1], steps[|steps| - 1];
      var alone := Solo(front, i);
      SoloIsAlike(bound, front, i);
      StepKeepsAlike(After(bound, front), After(bound, alone), step, i);
      SoloOfStep(steps, i);
      assert (alone + [step])[..|alone|] == alone;
    }
  }

  /** How fast the others are, and whether they stay, makes no difference to what a subscriber gets. */
  lemma {:induction false} OthersDoNotInterfere<E>(bound: int, steps: seq<Step<E>>, i: nat)
    ensures Queue(After(bound, steps), i) == Queue(After(bound, Solo(steps, i)), i)
    ensures Taken(bound, steps, i) == Taken(bound, Solo(steps, i), i)
    ensures Lost(bound, steps, i) == Lost(bound, Solo(steps, i), i)
  {
    SoloIsAlike(bound, steps, i);
    if steps != [] {
      var front, step := steps[..|steps| - 1], steps[|steps| - 1];
      var alone := Solo(front, i);
      OthersDoNotInterfere(bound, front, i);
      SoloIsAlike(bound, front, i);
      SoloOfStep(steps, i);
      assert (alone + [step])[..|alone|] == alone;
    }
  }

  /** In a sequence without repetition there are as many positions of some elements as there are elements. */
  lemma {:induction false} CountByPosition<T>(all: seq<T>, some: set<T>)
    requires forall i, j :: 0 <= i < j < |all| ==> all[i] != all[j]
    requires forall x :: x in some ==> x in all
    ensures |set i: nat | i < |all| && all[i] in some| == |some|
  {
    if all == [] {
      assert some == {};
    } else {
      var n := |all| - 1;
      var front, x := all[..n], all[n];
      CountByPosition(front, some - {x});
      var at := set i: nat | i < |all| && all[i] in some;
      assert at - {n} == set i: nat | i < |front| && front[i] in some - {x};
      assert n in at <==> x in some;
    }
  }

  // -- the classes -----------------------------------------------------------------------------------

  /** asyncio.Queue, as far as the bus and its clients use it. */
  class EventQueue<E> {
    const maxsize: int
    var items: seq<E>

    constructor (maxsize: int)
      ensures this.maxsize == maxsize && items == []
    {
      this.maxsize := maxsize;
      items := [];
    }

    /** put_nowait; false stands for QueueFull. */
    method PutNowait(event: E) returns (ok: bool)
      modifies this
      ensures ok <==> maxsize <= 0 || |old(items)| < maxsize
      ensures items == if ok then old(items) + [event] else old(items)
    {
      ok := !IsFull(maxsize, items);
      if ok {
        items := items + [event];
      }
    }

    method GetNowait() returns (event: E)
      requires items != []
      modifies this
      ensures old(items) == [event] + items
    {
      event := items[0];
      items := items[1..];
    }
  }

  class EventBus<E> {
    const queueSize: int
    var subscribers: set<EventQueue<E>>
    var dropped: nat
    ghost var handedOut: seq<EventQueue<E>>

    ghost predicate Valid()
      reads this, handedOut
    {
      && (forall i, j :: 0 <= i < j < |handedOut| ==> handedOut[i] != handedOut[j])
      && (forall q :: q in subscribers ==> q in handedOut)
      && (forall q :: q in handedOut ==> q.maxsize == queueSize)
    }

    ghost function Now(): Bus<E>
      reads this, handedOut
    {
      Bus(queueSize,
          seq(|handedOut|, i requires 0 <= i < |handedOut| reads this, handedOut =>
            Subscriber(handedOut[i].items, handedOut[i] in subscribers)),
          dropped)
    }

    constructor (queueSize: int)
      ensures Valid() && Now() == After(queueSize, [])
    {
      this.queueSize := queueSize;
      subscribers := {};
      dropped := 0;
      handedOut := [];
    }

    method Subscribe() returns (q: EventQueue<E>)
      requires Valid()
      modifies this
      ensures Valid() && fresh(q) && handedOut == old(handedOut) + [q] && q in subscribers
      ensures Now() == Next(old(Now()), Step.Subscribe)
    {
      q := new EventQueue(queueSize);
      subscribers := subscribers + {q};
      handedOut := handedOut + [q];
      assert Now().subs == Next(old(Now()), Step.Subscribe).subs;
    }

    /** Idempotent, and no concern of a queue that is not from this bus. */
    method Unsubscribe(q: EventQueue<E>)
      requires Valid()
      modifies this`subscribers
      ensures Valid() && q !in subscribers
      ensures q !in old(subscribers) ==> Now() == old(Now())
      ensures forall i :: 0 <= i < |handedOut| && handedOut[i] == q ==> Now() == Next(old(Now()), Step.Unsubscribe(i))
    {
      subscribers := subscribers - {q};
      if q !in old(subscribers) {
        assert Now().subs == old(Now()).subs;
      }
      forall i | 0 <= i < |handedOut| && handedOut[i] == q
        ensures Now() == Next(old(Now()), Step.Unsubscribe(i))
      {
        assert Now().subs == Next(old(Now()), Step.Unsubscribe(i)).subs;
      }
    }

    /** Every queue but the full ones has got the event, and those are counted; `was` is what the queues held. */
    lemma AllServed(before: Bus<E>, was: map<EventQueue<E>, seq<E>>, event: E, missed: set<EventQueue<E>>)
      requires Valid() && missed <= subscribers && forall q :: q in handedOut ==> q in was
      requires before.bound == queueSize && dropped == before.dropped + |missed| && |before.subs| == |handedOut|
      requires forall i :: 0 <= i < |handedOut| ==>
                 before.subs[i] == Subscriber(was[handedOut[i]], handedOut[i] in subscribers)
      requires forall q :: q in subscribers ==>
                 && (q in missed <==> 0 < queueSize <= |was[q]|)
                 && q.items == if q in missed then was[q] else was[q] + [event]
      requires forall q :: q in handedOut && q !in subscribers ==> q.items == was[q]
      ensures Now() == Next(before, Step.Publish(event))
    {
      CountByPosition(handedOut, missed);
      assert Slow(before) == set i: nat | i < |handedOut| && handedOut[i] in missed;
      assert Now().subs == Next(before, Step.Publish(event)).subs;
    }

    /** The loop over the subscribers: a full queue is counted, every other one gets the event. */
    method OfferToAll(event: E) returns (ghost missed: set<EventQueue<E>>)
      modifies this`dropped, subscribers
      ensures missed <= subscribers && dropped == old(dropped) + |missed|
      ensures forall q :: q in subscribers ==>
                && (q in missed <==> 0 < q.maxsize <= |old(q.items)|)
                && q.items == if q in missed then old(q.items) else old(q.items) + [event]
    {
      missed := {};
      var rest := subscribers;
      while rest != {}
        invariant rest <= subscribers && missed <= subscribers - rest
        invariant forall q :: q in rest ==> q.items == old(q.items)
        invariant forall q :: q in subscribers - rest ==>
                    && (q in missed <==> 0 < q.maxsize <= |old(q.items)|)
                    && q.items == if q in missed then old(q.items) else old(q.items) + [event]
        invariant dropped == old(dropped) + |missed|
        decreases rest
      {
        var q :| q in rest;
        var ok := q.PutNowait(event);
        if !ok {
          dropped := dropped + 1;
          missed := missed + {q};
        }
        rest := rest - {q};
      }
    }

    method Publish(event: E)
      requires Valid()
      modifies this`dropped, subscribers
      ensures Valid() && subscribers == old(subscribers)
      ensures Now() == Next(old(Now()), Step.Publish(event))
    {
      ghost var before, was := Now(), map q | q in handedOut :: q.items;
      ghost var missed := OfferToAll(event);
      AllServed(before, was, event, missed);
    }
  }

  /** A client of the bus gets an event from its queue, subscribed or not. */
  method Consume<E>(bus: EventBus<E>, q: EventQueue<E>) returns (event: E)
    requires bus.Valid() && q in bus.handedOut && q.items != []
    modifies q
    ensures bus.Valid() && old(q.items) == [event] + q.items
    ensures forall i :: 0 <= i < |bus.handedOut| && bus.handedOut[i] == q ==> bus.Now() == Next(old(bus.Now()), Step.Take(i))
  {
    event := q.GetNowait();
    forall i | 0 <= i < |bus.handedOut| && bus.handedOut[i] == q
      ensures bus.Now() == Next(old(bus.Now()), Step.Take(i))
    {
      assert bus.Now().subs == Next(old(bus.Now()), Step.Take(i)).subs;
    }
  }
}
