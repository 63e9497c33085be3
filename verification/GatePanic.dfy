/**
 A run of Gate that panics although the exchange only tells the truth. The first book of the
 symbol is unsubscribed while its snapshot is being fetched; the second becomes live with a full
 message; then the first book's handler replays an old removal of a bid that the second has.
 */
module GatePanic {
  import opened Wrappers
  import opened OrderBooks
  import opened ServerHistory
  import opened DepthSync
  import opened GateProtocol
  import opened GateSafety
  import opened GateHistory

  const SYMBOL := "BTC_USDT"

  /** A bid of 5 at price 1 appears at id 4. */
  ghost function Exchange(): Server {
    Server(n => if n < 4 then map[] else map[1.0 := 5.0], n => map[])
  }

  ghost function AnyServer(): Servers {
    s => Exchange()
  }

  const FIRST := Update([], [], 2, 2, false)
  const REMOVAL := Update([(1.0, 0.0)], [], 3, 3, false)
  const FULL := Update([(1.0, 5.0)], [], 4, 4, true)
  const NEXT := Update([], [], 5, 5, false)
  const SNAPSHOT := Snapshot(map[], map[], 2)

  ghost function EventAt(k: nat): Event
    requires k < 8
    ensures ValidEvent(EventAt(k))
  {
    match k
    case 0 => Watch(SYMBOL, true)
    case 1 => Arrive(SYMBOL, FIRST, true)
    case 2 => Arrive(SYMBOL, REMOVAL, true)
    case 3 => Unwatch(SYMBOL, true)
    case 4 => Watch(SYMBOL, true)
    case 5 => Arrive(SYMBOL, FULL, true)
    case 6 => SnapshotReturns(0, [Some(SNAPSHOT), None, None, None, None])
    case 7 => Arrive(SYMBOL, NEXT, true)
  }

  // ---------------------------------------------------------------- the exchange tells the truth

  lemma FullIsTruthful()
    ensures TruthfulMessage(Exchange(), FULL) && Fold(map[], FULL.bids) == map[1.0 := 5.0]
  {
  }

  // ---------------------------------------------------------------- the states on the way

  ghost predicate Idle(st: State, subscribed: map<string, nat>) {
    WellFormed(st) && !st.panicked && st.subscribed == subscribed && st.queues.pending.Keys == subscribed.Keys
    && st.history == map[]
  }

  ghost predicate StillFetching(st: State, init: seq<Update>) {
    st.handlers == map[0 := Handler(SYMBOL, 0, Fetching(2))] && st.nextHandler == 1
    && st.init == map[SYMBOL := init]
  }

  lemma Step0()
    ensures var r := Step(INITIAL, EventAt(0));
            Idle(r, map[SYMBOL := 0]) && |r.books| == 1 && r.books[0].id == 0
            && r.handlers == map[] && r.nextHandler == 0 && r.init == map[]
  {
  }

  lemma Step1(st: State)
    requires Idle(st, map[SYMBOL := 0]) && |st.books| == 1 && st.books[0].id == 0
    requires st.handlers == map[] && st.nextHandler == 0 && st.init == map[]
    ensures var r := Step(st, EventAt(1));
            Idle(r, map[SYMBOL := 0]) && |r.books| == 1 && r.books[0].id == 1 && StillFetching(r, [])
  {
  }

  lemma Step2(st: State)
    requires Idle(st, map[SYMBOL := 0]) && |st.books| == 1 && st.books[0].id == 1 && StillFetching(st, [])
    ensures var r := Step(st, EventAt(2));
            Idle(r, map[SYMBOL := 0]) && |r.books| == 1 && StillFetching(r, [REMOVAL])
  {
    hide Broadcast;
    assert [] + [REMOVAL] == [REMOVAL];
    assert Step(st, EventAt(2)).init == Buffer(st.init, SYMBOL, REMOVAL, true) == map[SYMBOL := [REMOVAL]];
  }

  lemma Step3(st: State)
    requires Idle(st, map[SYMBOL := 0]) && |st.books| == 1 && StillFetching(st, [REMOVAL])
    ensures var r := Step(st, EventAt(3));
            Idle(r, map[]) && |r.books| == 1 && StillFetching(r, [REMOVAL])
  {
  }

  lemma Step4(st: State)
    requires Idle(st, map[]) && |st.books| == 1 && StillFetching(st, [REMOVAL])
    ensures var r := Step(st, EventAt(4));
            Idle(r, map[SYMBOL := 1]) && |r.books| == 2 && r.books[1].id == 0 && StillFetching(r, [REMOVAL])
  {
  }

  /** The second book is live with the bid, and the set knows the bid. */
  ghost predicate Live(st: State, known: set<real>) {
    && WellFormed(st) && !st.panicked && st.subscribed == map[SYMBOL := 1]
    && |st.books| == 2 && st.books[1].id == 4 && st.books[1].bids.levels == map[1.0 := 5.0]
    && st.history == map[SYMBOL := known]
  }

  lemma Step5(st: State)
    requires Idle(st, map[SYMBOL := 1]) && |st.books| == 2 && st.books[1].id == 0 && StillFetching(st, [REMOVAL])
    ensures var r := Step(st, EventAt(5)); Live(r, {1.0}) && StillFetching(r, [REMOVAL])
  {
    FullIsTruthful();
    assert EditHistory({}, FULL.bids) == {1.0};
    assert Step(st, EventAt(5)) == Broadcast(st, SYMBOL, 1, FULL);
  }

  lemma Step6(st: State)
    requires Live(st, {1.0}) && StillFetching(st, [REMOVAL])
    ensures Live(Step(st, EventAt(6)), {})
  {
    hide SnapshotBook, Applied;
    assert Fetch(NO_SNAPSHOT, EventAt(6).responses, 2, 0) == Some(SNAPSHOT);
    assert FirstStraddle([REMOVAL], 2) == 0;
    var book := FromSnapshot(st.books[0].symbol, SNAPSHOT);
    assert book.id == 2 by { SnapshotId(st.books[0].symbol, SNAPSHOT); }
    assert EditHistory({1.0}, REMOVAL.bids) == {};
    assert [REMOVAL][1..] == [] && [REMOVAL][0..] == [REMOVAL];
    assert Replay(book, {1.0}, [REMOVAL]) == Replay(Applied(book, REMOVAL), {}, []);
    assert {1.0} + SNAPSHOT.bids.Keys == {1.0};
    assert Step(st, EventAt(6)) == LookStep(st, 0, SNAPSHOT, 0);
  }

  lemma Step7(st: State)
    requires Live(st, {})
    ensures Step(st, EventAt(7)).panicked
  {
    assert Step(st, EventAt(7)) == Broadcast(st, SYMBOL, 1, NEXT);
    assert LastEntry(NEXT.bids, 1.0).None? && 1.0 in st.books[1].bids.levels;
    BroadcastPanicsIff(st, SYMBOL, 1, NEXT);
  }

  // ---------------------------------------------------------------- the run

  ghost function After(k: nat): (st: State)
    requires k <= 8
    ensures WellFormed(st)
  {
    if k == 0 then INITIAL else Step(After(k - 1), EventAt(k - 1))
  }

  ghost function Events(from: nat): (r: seq<Event>)
    requires from <= 8
    ensures |r| == 8 - from && forall e :: e in r ==> ValidEvent(e)
    decreases 8 - from
  {
    if from == 8 then [] else [EventAt(from)] + Events(from + 1)
  }

  lemma {:induction false} RunsTo(from: nat)
    requires from <= 8
    requires forall k :: 0 <= k < 8 ==> TruthfulEvent(AnyServer(), After(k), EventAt(k))
    ensures Run(After(from), Events(from)) == After(8) && TruthfulRun(AnyServer(), After(from), Events(from))
    decreases 8 - from
  {
    hide Step, TruthfulEvent;
    if from < 8 {
      RunsTo(from + 1);
      assert After(from + 1) == Step(After(from), EventAt(from));
      assert Events(from)[1..] == Events(from + 1);
      assert TruthfulEvent(AnyServer(), After(from), EventAt(from));
    }
  }

  lemma TruthfulAt(st: State, k: nat)
    requires k < 8 && (k == 6 ==> Live(st, {1.0}) && StillFetching(st, [REMOVAL]))
    ensures TruthfulEvent(AnyServer(), st, EventAt(k))
  {
  }

  /** Eight truthful events after which the client has panicked. */
  lemma PanicIsReachable()
    ensures TruthfulRun(AnyServer(), INITIAL, Events(0)) && Run(INITIAL, Events(0)).panicked
  {
    hide Step, TruthfulEvent, EventAt, Idle, Live, StillFetching;
    assert After(0) == INITIAL;
    Step0();
    assert After(1) == Step(After(0), EventAt(0));
    Step1(After(1));
    assert After(2) == Step(After(1), EventAt(1));
    Step2(After(2));
    assert After(3) == Step(After(2), EventAt(2));
    Step3(After(3));
    assert After(4) == Step(After(3), EventAt(3));
    Step4(After(4));
    assert After(5) == Step(After(4), EventAt(4));
    Step5(After(5));
    assert After(6) == Step(After(5), EventAt(5));
    Step6(After(6));
    assert After(7) == Step(After(6), EventAt(6));
    Step7(After(7));
    assert After(8) == Step(After(7), EventAt(7));
    forall k | 0 <= k < 8 ensures TruthfulEvent(AnyServer(), After(k), EventAt(k)) {
      TruthfulAt(After(k), k);
    }
    RunsTo(0);
  }
}
