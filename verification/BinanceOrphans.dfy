/**
 A run over a faithful stream in which `BinanceReplay`'s condition fails: a book is unsubscribed while it
 waits, no message is buffered until the next subscription of its symbol, and its handler, which is
 still suspended, replays across that gap.
 */
module BinanceOrphans {
  import opened Wrappers
  import opened OrderBooks
  import opened ServerHistory
  import opened DepthSync
  import opened BinanceProtocol
  import opened BinanceSafety
  import opened BinanceLoss

  const SIXTH := Update([], [], 6, 6, false)
  const ORPHAN := Handler(SYMBOL, 0, Fetching(2))
  const HEIR := Handler(SYMBOL, 1, Fetching(5))

  ghost function AnyServer(): Servers {
    s => Exchange()
  }

  /** The message for id 4, which brings the bid, comes while nobody is subscribed. */
  function Happens(k: nat): Event
    requires k < 8
  {
    match k
    case 0 => Watch(SYMBOL, true)
    case 1 => Arrive(SYMBOL, FIRST, Some(1), true)
    case 2 => Arrive(SYMBOL, THIRD, Some(2), true)
    case 3 => Unwatch(SYMBOL, true)
    case 4 => Watch(SYMBOL, true)
    case 5 => Arrive(SYMBOL, FIFTH, Some(4), true)
    case 6 => Arrive(SYMBOL, SIXTH, Some(5), true)
    case 7 => SnapshotReturns(0, [Some(SNAPSHOT)])
  }

  ghost predicate At(st: State, subscribed: map<string, nat>, ids: seq<nat>, handlers: map<nat, Handler>,
                     next: nat, init: map<string, seq<Update>>, seen: nat)
  {
    && WellFormed(st) && st.subscribed == subscribed && |st.books| == |ids|
    && (forall i :: 0 <= i < |ids| ==> st.books[i].id == ids[i])
    && st.handlers == handlers && st.nextHandler == next && st.init == init && Lookup(st.seen, SYMBOL, 0) == seen
  }

  /** Where the run stands after `k` events. */
  ghost predicate Reached(st: State, k: nat) {
    match k
    case 0 => st == INITIAL
    case 1 => At(st, map[SYMBOL := 0], [0], map[], 0, map[], 0)
    case 2 => At(st, map[SYMBOL := 0], [1], map[0 := ORPHAN], 1, map[SYMBOL := []], 2)
    case 3 => At(st, map[SYMBOL := 0], [1], map[0 := ORPHAN], 1, map[SYMBOL := [THIRD]], 3)
    case 4 => At(st, map[], [1], map[0 := ORPHAN], 1, map[SYMBOL := [THIRD]], 3)
    case 5 => At(st, map[SYMBOL := 1], [1, 0], map[0 := ORPHAN], 1, map[SYMBOL := [THIRD]], 3)
    case 6 => At(st, map[SYMBOL := 1], [1, 1], map[0 := ORPHAN, 1 := HEIR], 2, map[SYMBOL := [THIRD]], 5)
    case 7 => At(st, map[SYMBOL := 1], [1, 1], map[0 := ORPHAN, 1 := HEIR], 2, map[SYMBOL := [THIRD, SIXTH]], 6)
    case _ => Wrong(st)
  }

  /** The orphan is live without the bid. */
  ghost predicate Wrong(st: State) {
    && |st.books| == 2 && st.books[0].id == 6 && !Agrees(st.books[0].bids, Exchange().bids(6))
    && st.subscribed == map[SYMBOL := 1]
  }

  lemma Subscription(market: Market, st: State, k: nat)
    requires (k == 0 || k == 3 || k == 4) && Reached(st, k)
    ensures Reached(Step(market, st, Happens(k)), k + 1)
    ensures FaithfulEvent(AnyServer(), market, st, Happens(k))
  {
  }

  lemma Beginning(market: Market, st: State, k: nat)
    requires (k == 1 || k == 5) && Reached(st, k)
    ensures Reached(Step(market, st, Happens(k)), k + 1)
    ensures FaithfulEvent(AnyServer(), market, st, Happens(k))
  {
    hide Applied, Judge;
  }

  /** A waiting subscribed book buffers a message. */
  lemma BuffersOne(market: Market, st: State, b: nat, ids: seq<nat>, handlers: map<nat, Handler>, next: nat,
                   buffer: seq<Update>, seen: nat, u: Update)
    requires At(st, map[SYMBOL := b], ids, handlers, next, map[SYMBOL := buffer], seen)
    requires b < |ids| && ids[b] == 1 && seen < u.last
    ensures At(Step(market, st, Arrive(SYMBOL, u, Some(seen), true)),
               map[SYMBOL := b], ids, handlers, next, map[SYMBOL := buffer + [u]], u.last)
  {
    hide Applied, StartSync, Judge;
    assert st.init[SYMBOL := buffer + [u]] == map[SYMBOL := buffer + [u]];
  }

  lemma Buffering(market: Market, st: State, k: nat)
    requires (k == 2 || k == 6) && Reached(st, k)
    ensures Reached(Step(market, st, Happens(k)), k + 1)
    ensures FaithfulEvent(AnyServer(), market, st, Happens(k))
  {
    hide Step;
    assert [] + [THIRD] == [THIRD] && [THIRD] + [SIXTH] == [THIRD, SIXTH];
    if k == 2 {
      BuffersOne(market, st, 0, [1], map[0 := ORPHAN], 1, [], 2, THIRD);
    } else {
      BuffersOne(market, st, 1, [1, 1], map[0 := ORPHAN, 1 := HEIR], 2, [THIRD], 5, SIXTH);
    }
  }

  lemma Replaying(market: Market, st: State)
    requires Reached(st, 7)
    ensures Reached(Step(market, st, Happens(7)), 8)
    ensures FaithfulEvent(AnyServer(), market, st, Happens(7))
  {
    hide ReplayAll, SnapshotBook;
    var pending := [THIRD, SIXTH];
    assert FirstStraddle(pending, 2) == 0 && pending[0..] == pending;
    ReplaysAcross(st.books[0].symbol);
    var r := Step(market, st, Happens(7));
    assert r == LookStep(st, 0, SNAPSHOT, 0);
    assert r.books[0] == ReplayAll(FromSnapshot(st.books[0].symbol, SNAPSHOT).(id := 1), pending);
    assert Entry(r.books[0].bids.levels, 1.0) != Entry(Exchange().bids(6), 1.0);
  }

  lemma ReplaysAcross(symbol: string)
    ensures var r := ReplayAll(FromSnapshot(symbol, SNAPSHOT).(id := 1), [THIRD, SIXTH]);
            r.id == 6 && r.bids.levels == map[] && forall p :: p in r.bids.window
  {
    var b0 := FromSnapshot(symbol, SNAPSHOT).(id := 1);
    var b1 := Applied(b0, THIRD);
    var b2 := Applied(b1, SIXTH);
    assert [THIRD, SIXTH][1..] == [SIXTH] && [SIXTH][1..] == [];
    assert ReplayAll(b0, [THIRD, SIXTH]) == ReplayAll(b1, [SIXTH]) == ReplayAll(b2, []) == b2;
  }

  function Rest(k: nat): (r: seq<Event>)
    requires k <= 8
    decreases 8 - k
  {
    if k == 8 then [] else [Happens(k)] + Rest(k + 1)
  }

  lemma Next(market: Market, st: State, k: nat)
    requires k < 8 && Reached(st, k)
    ensures WellFormed(st) && Reached(Step(market, st, Happens(k)), k + 1)
    ensures FaithfulEvent(AnyServer(), market, st, Happens(k))
  {
    hide Step, Happens, Wrong, FaithfulEvent;
    if k == 7 {
      Replaying(market, st);
    } else if k == 2 || k == 6 {
      Buffering(market, st, k);
    } else if k == 1 || k == 5 {
      Beginning(market, st, k);
    } else {
      Subscription(market, st, k);
    }
  }

  lemma {:induction false} RunsWrong(market: Market, st: State, k: nat)
    requires WellFormed(st) && k <= 8 && Reached(st, k)
    ensures Wrong(Run(market, st, Rest(k))) && FaithfulRun(AnyServer(), market, st, Rest(k))
    decreases 8 - k
  {
    hide Step, Happens, At, Wrong, FaithfulEvent;
    if k < 8 {
      Next(market, st, k);
      RunsWrong(market, Step(market, st, Happens(k)), k + 1);
      assert Rest(k)[0] == Happens(k) && Rest(k)[1..] == Rest(k + 1);
    }
  }

  /** A faithful run on either market after which an unsubscribed book is live and wrong. */
  lemma OrphanGoesWrong(market: Market)
    ensures FaithfulRun(AnyServer(), market, INITIAL, Rest(0))
    ensures var st := Run(market, INITIAL, Rest(0));
            && st.books[0].id == 6 && !Agrees(st.books[0].bids, Exchange().bids(6))
            && forall s :: s in st.subscribed ==> st.subscribed[s] != 0
  {
    RunsWrong(market, INITIAL, 0);
  }
}
