/**
 The stream of a symbol's orders: a producer task numbers and stores them, consumers ask for everything
 after the last number they have seen and wait when there is nothing new.
 */
module OrderStream {

  import opened Wrappers

  datatype Batch<+T> = Batch(orders: seq<T>, nonce: nat)

  /** What a consumer does between calls: it is free, or it has left waker number `waker`. */
  datatype Consumer<+T> =
    | Free(last: nat, received: seq<T>)
    | Parked(last: nat, received: seq<T>, waker: nat)

  datatype Stream<+T> = Stream(orders: seq<(nat, T)>, nonce: nat, wakers: seq<nat>)

  datatype State<+T> = State(stream: Stream<T>, consumers: seq<Consumer<T>>, fired: set<nat>, nextWaker: nat)

  datatype Event<+T> = Push(order: T) | Join | Next(consumer: nat) | Resume(consumer: nat)

  /** The stored orders numbered above `last`, in order. */
  function Newer<T>(orders: seq<(nat, T)>, last: nat): seq<T> {
    if orders == [] then []
    else
      var (n, o) := orders[|orders| - 1];
      Newer(orders[..|orders| - 1], last) + if n > last then [o] else []
  }

  function Pushed<T>(s: Stream<T>, order: T): Stream<T> {
    Stream(s.orders + [(s.nonce + 1, order)], s.nonce + 1, [])
  }

  function Received<T>(c: Consumer<T>, s: Stream<T>): Consumer<T> {
    Free(s.nonce, c.received + Newer(s.orders, c.last))
  }

  /** Each step is one stretch without waiting. A consumer feeds the returned number into its next call. */
  ghost function Step<T>(st: State<T>, e: Event<T>): State<T> {
    match e
    case Push(order) =>
      st.(stream := Pushed(st.stream, order), fired := st.fired + set w | w in st.stream.wakers)
    case Join => st.(consumers := st.consumers + [Free(0, [])])
    case Next(c) =>
      if c < |st.consumers| && st.consumers[c].Free? then
        var me := st.consumers[c];
        if me.last < st.stream.nonce then st.(consumers := st.consumers[c := Received(me, st.stream)])
        else
          State(st.stream.(wakers := st.stream.wakers + [st.nextWaker]),
                st.consumers[c := Parked(me.last, me.received, st.nextWaker)], st.fired, st.nextWaker + 1)
      else st
    case Resume(c) =>
      if c < |st.consumers| && st.consumers[c].Parked? && st.consumers[c].waker in st.fired then
        st.(consumers := st.consumers[c := Received(st.consumers[c], st.stream)])
      else st
  }

  ghost function Run<T>(st: State<T>, events: seq<Event<T>>): State<T>
    decreases |events|
  {
    if events == [] then st else Run(Step(st, events[0]), events[1..])
  }

  ghost function Initial<T>(): State<T> {
    State(Stream([], 0, []), [], {}, 0)
  }

  /** The orders that a run pushes. */
  function Pushes<T>(events: seq<Event<T>>): seq<T>
    decreases |events|
  {
    if events == [] then []
    else (if events[0].Push? then [events[0].order] else []) + Pushes(events[1..])
  }

  ghost predicate Numbered<T>(s: Stream<T>, all: seq<T>) {
    && s.nonce == |s.orders| == |all|
    && forall k :: 0 <= k < |all| ==> s.orders[k] == (k + 1, all[k])
  }

  lemma {:induction false} NewerIsSuffix<T>(s: Stream<T>, all: seq<T>, last: nat)
    requires Numbered(s, all) && last <= |all|
    ensures Newer(s.orders, last) == all[last..]
    decreases |all|
  {
    if all != [] {
      var n := |all| - 1;
      if last <= n {
        NewerIsSuffix(Stream(s.orders[..n], n, []), all[..n], last);
        assert all[last..] == all[..n][last..] + [all[n]];
      } else {
        NothingNewer(s.orders, last);
      }
    }
  }

  lemma {:induction false} NothingNewer<T>(orders: seq<(nat, T)>, last: nat)
    requires forall k :: 0 <= k < |orders| ==> orders[k].0 <= last
    ensures Newer(orders, last) == []
  {
    if orders != [] { NothingNewer(orders[..|orders| - 1], last); }
  }

  /** A consumer has received exactly the prefix that its number says; while its waker is registered there is
      nothing new, and once it has been fired there is. */
  ghost predicate ConsumerGood<T>(st: State<T>, all: seq<T>, c: Consumer<T>) {
    && c.last <= |all| && c.received == all[..c.last]
    && match c {
         case Free(_, _) => true
         case Parked(_, _, w) =>
           && w < st.nextWaker
           && (w in st.stream.wakers <==> w !in st.fired)
           && (w in st.fired <==> c.last < |all|)
       }
  }

  ghost predicate Good<T>(st: State<T>, all: seq<T>) {
    && Numbered(st.stream, all)
    && (forall c :: 0 <= c < |st.consumers| ==> ConsumerGood(st, all, st.consumers[c]))
    && (forall w :: w in st.fired || w in st.stream.wakers ==> w < st.nextWaker)
  }

  lemma PushGood<T>(st: State<T>, order: T, all: seq<T>)
    requires Good(st, all)
    ensures Good(Step(st, Push(order)), all + [order])
  {
  }

  /** A consumer that takes everything newer has then received the whole stream. */
  lemma ReceivedGood<T>(st: State<T>, all: seq<T>, c: nat)
    requires Good(st, all) && c < |st.consumers|
    ensures Received(st.consumers[c], st.stream) == Free(|all|, all)
  {
    assert ConsumerGood(st, all, st.consumers[c]);
    var last := st.consumers[c].last;
    NewerIsSuffix(st.stream, all, last);
    assert all[..last] + all[last..] == all;
  }

  lemma NextGood<T>(st: State<T>, c: nat, all: seq<T>)
    requires Good(st, all) && c < |st.consumers| && st.consumers[c].Free?
    ensures Good(Step(st, Next(c)), all)
  {
    hide Newer, Received;
    ReceivedGood(st, all, c);
    assert ConsumerGood(st, all, st.consumers[c]);
    assert all[..|all|] == all;
    var r := Step(st, Next(c));
    forall d | 0 <= d < |r.consumers| ensures ConsumerGood(r, all, r.consumers[d]) {
      assert ConsumerGood(st, all, st.consumers[d]);
    }
  }

  lemma ResumeGood<T>(st: State<T>, c: nat, all: seq<T>)
    requires Good(st, all) && c < |st.consumers|
    ensures Good(Step(st, Resume(c)), all)
  {
    hide Newer, Received;
    ReceivedGood(st, all, c);
    assert all[..|all|] == all;
    var r := Step(st, Resume(c));
    forall d | 0 <= d < |r.consumers| ensures ConsumerGood(r, all, r.consumers[d]) {
      assert ConsumerGood(st, all, st.consumers[d]);
    }
  }

  lemma JoinGood<T>(st: State<T>, all: seq<T>)
    requires Good(st, all)
    ensures Good(Step(st, Join), all)
  {
  }

  lemma StepGood<T>(st: State<T>, e: Event<T>, all: seq<T>)
    requires Good(st, all)
    ensures Good(Step(st, e), all + if e.Push? then [e.order] else [])
  {
    hide Good;
    assert all + [] == all;
    match e
    case Push(order) => PushGood(st, order, all);
    case Join => JoinGood(st, all);
    case Next(c) => if c < |st.consumers| && st.consumers[c].Free? { NextGood(st, c, all); }
    case Resume(c) => if c < |st.consumers| { ResumeGood(st, c, all); }
  }

  lemma {:induction false} RunGood<T>(st: State<T>, events: seq<Event<T>>, all: seq<T>)
    requires Good(st, all)
    ensures Good(Run(st, events), all + Pushes(events))
    decreases |events|
  {
    hide Good, Step;
    if events == [] {
      assert all + [] == all;
    } else {
      var e := events[0];
      StepGood(st, e, all);
      var all' := all + if e.Push? then [e.order] else [];
      RunGood(Step(st, e), events[1..], all');
      assert all + Pushes(events) == all' + Pushes(events[1..]);
    }
  }

  /** Exactly once: in every interleaving of pushes, calls and resumptions, what a consumer has received in
      all its calls is the stream's prefix up to its last number, in order, without gap or repeat; and
      a consumer that has been woken has something to receive. */
  lemma EveryOrderOnce<T>(events: seq<Event<T>>, c: nat)
    requires c < |Run(Initial<T>(), events).consumers|
    ensures var st := Run(Initial<T>(), events);
            var me := st.consumers[c];
            && me.last <= st.stream.nonce == |Pushes(events)|
            && me.received == Pushes(events)[..me.last]
            && (me.Parked? && me.waker in st.fired ==> me.last < st.stream.nonce)
            && (me.Parked? && me.waker !in st.fired ==> me.waker in st.stream.wakers && me.last == st.stream.nonce)
  {
    RunGood(Initial<T>(), events, []);
    assert [] + Pushes(events) == Pushes(events);
    var st := Run(Initial<T>(), events);
    assert ConsumerGood(st, Pushes(events), st.consumers[c]);
  }

  /** A new consumer starts at number 0 with nothing received, next to those that there are. */
  lemma JoinAdds<T>(st: State<T>)
    ensures Step(st, Join) == st.(consumers := st.consumers + [Free(0, [])])
  {
  }

  /** Whenever there is something newer, a consumer's call returns with all of it: it has then received the whole
      stream. When there is nothing newer it leaves a fresh waker and keeps what it has. */
  lemma NextDelivers<T>(events: seq<Event<T>>, c: nat)
    requires c < |Run(Initial<T>(), events).consumers| && Run(Initial<T>(), events).consumers[c].Free?
    ensures var st := Run(Initial<T>(), events);
            var (me, r) := (st.consumers[c], Step(st, Next(c)));
            && r.consumers == st.consumers[c := r.consumers[c]] && r.fired == st.fired
            && r.stream.orders == st.stream.orders && r.stream.nonce == st.stream.nonce
            && (me.last < |Pushes(events)| ==>
                  r.consumers[c] == Free(|Pushes(events)|, Pushes(events)) && r.stream.wakers == st.stream.wakers)
            && (me.last == |Pushes(events)| ==>
                  && r.consumers[c] == Parked(me.last, me.received, st.nextWaker) && r.nextWaker == st.nextWaker + 1
                  && r.stream.wakers == st.stream.wakers + [st.nextWaker]
                  && st.nextWaker !in st.fired && st.nextWaker !in st.stream.wakers)
  {
    hide Newer, Received;
    RunGood(Initial<T>(), events, []);
    assert [] + Pushes(events) == Pushes(events);
    var st := Run(Initial<T>(), events);
    assert ConsumerGood(st, Pushes(events), st.consumers[c]);
    ReceivedGood(st, Pushes(events), c);
  }

  /** A parked consumer whose waker has been fired receives the whole stream; until then it stays parked. */
  lemma ResumeDelivers<T>(events: seq<Event<T>>, c: nat)
    requires c < |Run(Initial<T>(), events).consumers| && Run(Initial<T>(), events).consumers[c].Parked?
    ensures var st := Run(Initial<T>(), events);
            var (me, r) := (st.consumers[c], Step(st, Resume(c)));
            && r == st.(consumers := st.consumers[c := r.consumers[c]])
            && r.consumers[c] == if me.waker in st.fired then Free(|Pushes(events)|, Pushes(events)) else me
  {
    hide Newer, Received;
    RunGood(Initial<T>(), events, []);
    assert [] + Pushes(events) == Pushes(events);
    var st := Run(Initial<T>(), events);
    ReceivedGood(st, Pushes(events), c);
  }

  /** No waiter is missed: the next push fires every waker that is registered, so that every parked
      consumer can resume. */
  lemma NextPushWakesAll<T>(events: seq<Event<T>>, order: T, c: nat)
    requires c < |Run(Initial<T>(), events).consumers| && Run(Initial<T>(), events).consumers[c].Parked?
    ensures var r := Step(Run(Initial<T>(), events), Push(order));
            r.stream.wakers == [] && r.consumers[c].Parked? && r.consumers[c].waker in r.fired
  {
    RunGood(Initial<T>(), events, []);
    assert [] + Pushes(events) == Pushes(events);
    var st := Run(Initial<T>(), events);
    assert ConsumerGood(st, Pushes(events), st.consumers[c]);
  }

  /** The shared state of `OrderCatch` and of the producer task. */
  class Catch<T> {
    var orders: seq<(nat, T)>
    var nonce: nat
    var wakers: seq<nat>

    ghost function View(): Stream<T>
      reads this
    {
      Stream(orders, nonce, wakers)
    }

    constructor ()
      ensures View() == Stream([], 0, [])
    {
      orders, nonce, wakers := [], 0, [];
    }

    /** One round of the producer: number, store, take the wakers to fire. */
    method Push(order: T) returns (woken: seq<nat>)
      modifies this
      ensures View() == Pushed(old(View()), order) && woken == old(wakers)
    {
      nonce := nonce + 1;
      orders := orders + [(nonce, order)];
      woken := wakers;
      wakers := [];
    }

    method Collect(last: nat) returns (batch: Batch<T>)
      ensures batch == Batch(Newer(orders, last), nonce)
    {
      var newer: seq<T> := [];
      for i := 0 to |orders|
        invariant newer == Newer(orders[..i], last)
      {
        assert orders[..i + 1][..i] == orders[..i];
        if orders[i].0 > last { newer := newer + [orders[i].1]; }
      }
      assert orders[..|orders|] == orders;
      batch := Batch(newer, nonce);
    }

    /** The first part of `next`: answer at once, or leave a waker and wait. After its waker has fired the
        caller takes the rest with `Collect`. */
    method Next(last: nat, waker: nat) returns (batch: Option<Batch<T>>)
      modifies this`wakers
      ensures last < nonce ==> batch == Some(Batch(Newer(orders, last), nonce)) && View() == old(View())
      ensures last >= nonce ==> batch == None && View() == old(View()).(wakers := old(wakers) + [waker])
    {
      if last < nonce {
        var b := Collect(last);
        return Some(b);
      }
      wakers := wakers + [waker];
      return None;
    }
  }
}
