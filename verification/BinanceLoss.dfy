/**
 Why Binance needs a lossless stream while a book waits: one lost message is not noticed by the
 replay, and the book is live and wrong. Gate's checked replay unsyncs the book instead.
 */
module BinanceLoss {
  import opened Wrappers
  import opened OrderBooks
  import opened ServerHistory
  import opened DepthSync
  import opened BinanceProtocol

  const SYMBOL := "BTCUSDT"

  /** A bid of 5 at price 1 appears at id 4. */
  ghost function Exchange(): Server {
    Server(n => if n < 4 then map[] else map[1.0 := 5.0], n => map[])
  }

  const FIRST := Update([], [], 2, 2, false)
  const THIRD := Update([], [], 3, 3, false)
  const FIFTH := Update([], [], 5, 5, false)
  const SNAPSHOT := Snapshot(map[], map[], 2)

  /** The message for id 4 does not arrive. */
  function Events(): seq<Event> {
    [Watch(SYMBOL, true),
     Arrive(SYMBOL, FIRST, Some(1), true),
     Arrive(SYMBOL, THIRD, Some(2), true),
     Arrive(SYMBOL, FIFTH, Some(4), true),
     SnapshotReturns(0, [Some(SNAPSHOT)])]
  }

  /** Everything that arrives is true. */
  ghost predicate AllTrue() {
    && TruthfulMessage(Exchange(), FIRST) && TruthfulMessage(Exchange(), THIRD) && TruthfulMessage(Exchange(), FIFTH)
    && TruthfulSnapshot(Exchange(), SNAPSHOT)
  }

  /** Some message of the run brings this id. */
  ghost predicate Arrives(id: nat) {
    exists k :: 0 <= k < |Events()| && Events()[k].Arrive? && Events()[k].update.first <= id <= Events()[k].update.last
  }

  lemma AllIsTrue()
    ensures AllTrue()
  {
  }

  lemma OnlyOneIsMissing()
    ensures forall id: nat :: 2 <= id <= 5 ==> (Arrives(id) <==> id != 4)
  {
    assert Events()[1].update == FIRST && Events()[2].update == THIRD && Events()[3].update == FIFTH;
  }

  ghost predicate Waits(st: State, buffer: seq<Update>) {
    && WellFormed(st) && st.subscribed == map[SYMBOL := 0] && |st.books| == 1 && st.books[0].id == 1
    && st.handlers == map[0 := Handler(SYMBOL, 0, Fetching(2))] && st.init == map[SYMBOL := buffer]
  }

  lemma Subscribes(market: Market)
    ensures var st := Step(market, Step(market, INITIAL, Events()[0]), Events()[1]); Waits(st, [])
  {
  }

  lemma Buffers(market: Market, st: State, buffer: seq<Update>, u: Update, previous: Option<nat>)
    requires Waits(st, buffer)
    ensures Waits(Step(market, st, Arrive(SYMBOL, u, previous, true)), buffer + [u])
  {
  }

  /** The replay takes the book past the lost id without its bid. */
  lemma Replays(symbol: string)
    ensures var r := ReplayAll(FromSnapshot(symbol, SNAPSHOT).(id := 1), [THIRD, FIFTH]);
            r.id == 5 && r.bids.levels == map[] && forall p :: p in r.bids.window
  {
    var b0 := FromSnapshot(symbol, SNAPSHOT).(id := 1);
    var b1 := Applied(b0, THIRD);
    var b2 := Applied(b1, FIFTH);
    assert [THIRD, FIFTH][1..] == [FIFTH] && [FIFTH][1..] == [];
    assert ReplayAll(b0, [THIRD, FIFTH]) == ReplayAll(b1, [FIFTH]) == ReplayAll(b2, []) == b2;
  }

  /** All that arrives is true, of the ids 2 to 5 only 4 does not arrive, and the subscribed book ends up live at 5
      and different from the exchange's. */
  lemma LossGoesUnnoticed(market: Market)
    ensures AllTrue() && forall id: nat :: 2 <= id <= 5 ==> (Arrives(id) <==> id != 4)
    ensures var st := Run(market, INITIAL, Events());
            && SYMBOL in st.subscribed && st.books[st.subscribed[SYMBOL]].id == 5
            && !Agrees(st.books[st.subscribed[SYMBOL]].bids, Exchange().bids(5))
  {
    assert AllTrue() by { AllIsTrue(); }
    OnlyOneIsMissing();
    hide Step, Run, Agrees, Exchange, AllTrue, Arrives;
    var events := Events();
    Subscribes(market);
    var s2 := Step(market, Step(market, INITIAL, events[0]), events[1]);
    Buffers(market, s2, [], THIRD, Some(2));
    var s3 := Step(market, s2, events[2]);
    assert [] + [THIRD] == [THIRD];
    Buffers(market, s3, [THIRD], FIFTH, Some(4));
    var s4 := Step(market, s3, events[3]);
    assert [THIRD] + [FIFTH] == [THIRD, FIFTH];
    LooksAndReplays(market, s4);
    RunsThrough(market);
  }

  lemma LooksAndReplays(market: Market, st: State)
    requires Waits(st, [THIRD, FIFTH])
    ensures var r := Step(market, st, SnapshotReturns(0, [Some(SNAPSHOT)]));
            && r.subscribed == map[SYMBOL := 0] && |r.books| == 1 && r.books[0].id == 5
            && !Agrees(r.books[0].bids, Exchange().bids(5))
  {
    hide ReplayAll, SnapshotBook;
    var pending := [THIRD, FIFTH];
    assert FirstStraddle(pending, 2) == 0 && pending[0..] == pending;
    Replays(st.books[0].symbol);
    var r := Step(market, st, SnapshotReturns(0, [Some(SNAPSHOT)]));
    assert r == LookStep(st, 0, SNAPSHOT, 0);
    assert r.books[0] == ReplayAll(FromSnapshot(st.books[0].symbol, SNAPSHOT).(id := 1), pending);
    assert Entry(r.books[0].bids.levels, 1.0) != Entry(Exchange().bids(5), 1.0);
  }

  lemma RunsThrough(market: Market)
    ensures var e := Events();
            Run(market, INITIAL, e)
            == Step(market, Step(market, Step(market, Step(market, Step(market, INITIAL, e[0]), e[1]), e[2]), e[3]), e[4])
  {
  }
}
