/**
 What every event of the Binance protocol does, said of the state's own parts, on both markets. `BinanceSafety` says
 what no faithful event does; here is what each one has to do. `seen` is bookkeeping and may change with
 any message.
 */
module BinanceEffects {
  import opened Wrappers
  import opened OrderBooks
  import opened ServerHistory
  import opened DepthSync
  import opened BinanceProtocol
  import opened BinanceSafety
  import BinanceProgress

  // ---------------------------------------------------------------- messages

  ghost predicate Hears(st: State, symbol: string) {
    WellFormed(st) && symbol in st.subscribed
  }

  /** A message for a symbol that nobody subscribes to is ignored. */
  lemma UnheardIsIgnored(market: Market, st: State, symbol: string, u: Update, previous: Option<nat>, parses: bool)
    requires WellFormed(st) && symbol !in st.subscribed
    ensures Step(market, st, Arrive(symbol, u, previous, parses)) == st
  {
  }

  /** A message for an unsynced book makes it wait, makes room for buffering, and suspends a new handler that asks for
      a snapshot at least as recent as the message. */
  lemma MessageStartsSync(market: Market, st: State, symbol: string, u: Update, previous: Option<nat>, parses: bool)
    requires Hears(st, symbol) && st.books[st.subscribed[symbol]].id == 0
    ensures var b := st.subscribed[symbol];
            var buffer := if symbol in st.init then st.init[symbol] else [];
            var r := Step(market, st, Arrive(symbol, u, previous, parses));
            r == st.(books := st.books[b := st.books[b].(id := 1)],
                     init := st.init[symbol := buffer],
                     handlers := st.handlers[st.nextHandler := Handler(symbol, b, Fetching(u.first))],
                     nextHandler := st.nextHandler + 1, seen := r.seen)
  {
    hide Applied, Judge;
  }

  /** While a book waits, a message that parses goes to the end of its symbol's buffer, and nowhere else. */
  lemma WaitingBuffers(market: Market, st: State, symbol: string, u: Update, previous: Option<nat>, parses: bool)
    requires Hears(st, symbol) && st.books[st.subscribed[symbol]].id == 1
    ensures var r := Step(market, st, Arrive(symbol, u, previous, parses));
            r == if symbol in st.init && parses
                 then st.(init := st.init[symbol := st.init[symbol] + [u]], seen := r.seen)
                 else st.(seen := r.seen)
  {
    hide Applied, Judge;
  }

  /** A message that continues a live book: by its range on the spot market, by the previous message's id on the futures
      market. */
  ghost predicate Continues(market: Market, id: nat, u: Update, previous: Option<nat>) {
    if market == Spot then u.first <= id + 1 && id + 1 <= u.last else previous == Some(id)
  }

  /** A live book takes the message that continues it, price by price, and goes on at its last id; one whose levels do
      not parse is ignored. */
  lemma LiveTakes(market: Market, st: State, symbol: string, u: Update, previous: Option<nat>, parses: bool)
    requires Hears(st, symbol) && st.books[st.subscribed[symbol]].id >= 2 && u.last > 0
    requires Continues(market, st.books[st.subscribed[symbol]].id, u, previous)
    ensures var b := st.subscribed[symbol];
            var r := Step(market, st, Arrive(symbol, u, previous, parses));
            var book := r.books[b];
            && r == st.(books := st.books[b := book], seen := r.seen)
            && (!parses ==> book == st.books[b])
            && (parses ==>
                  && book.id == u.last && book.symbol == st.books[b].symbol
                  && Took(st.books[b].bids.levels, u.bids, u.full, book.bids.levels)
                  && Took(st.books[b].asks.levels, u.asks, u.full, book.asks.levels))
  {
    hide Applied, Took;
    AppliedTakes(st.books[st.subscribed[symbol]], u);
  }

  /** Any other message empties and unsyncs a live book, except that a futures message without the previous id is
      ignored. */
  lemma LiveResets(market: Market, st: State, symbol: string, u: Update, previous: Option<nat>, parses: bool)
    requires Hears(st, symbol) && st.books[st.subscribed[symbol]].id >= 2
    requires !Continues(market, st.books[st.subscribed[symbol]].id, u, previous)
    ensures var b := st.subscribed[symbol];
            var r := Step(market, st, Arrive(symbol, u, previous, parses));
            var book := r.books[b];
            && r == st.(books := st.books[b := book], seen := r.seen)
            && (if market == Future && previous == None then book == st.books[b]
                else book.id == 0 && book.bids.levels == map[] && book.asks.levels == map[]
                     && book.symbol == st.books[b].symbol)
  {
    hide Applied;
  }

  // ---------------------------------------------------------------- watching

  /** A first watch opens an empty unsynced book; when the request fails the symbol is not subscribed. */
  lemma WatchOpens(market: Market, st: State, symbol: string, subscribeOk: bool)
    requires WellFormed(st)
    ensures Step(market, st, Watch(symbol, subscribeOk))
            == if symbol in st.subscribed then st
               else st.(books := st.books + [Book(symbol, EMPTY_SIDE, EMPTY_SIDE, 0)],
                        subscribed := if subscribeOk then st.subscribed[symbol := |st.books|] else st.subscribed)
  {
  }

  /** An unwatch takes the symbol away; when the request fails, everything stays. */
  lemma UnwatchRemoves(market: Market, st: State, symbol: string, unsubscribeOk: bool)
    requires WellFormed(st)
    ensures Step(market, st, Unwatch(symbol, unsubscribeOk))
            == if unsubscribeOk then st.(subscribed := map s | s in st.subscribed && s != symbol :: st.subscribed[s]) else st
  {
    if symbol !in st.subscribed {
      assert (map s | s in st.subscribed && s != symbol :: st.subscribed[s]) == st.subscribed;
    } else {
      assert (map s | s in st.subscribed && s != symbol :: st.subscribed[s]) == st.subscribed - {symbol};
    }
  }

  /** A failed connection empties the maps and the buffers and ends every suspended handler. */
  lemma FailureEmpties(market: Market, st: State)
    requires WellFormed(st)
    ensures Step(market, st, OnFail) == st.(subscribed := map[], init := map[], handlers := map[])
  {
  }

  // ---------------------------------------------------------------- suspended handlers

  /** All bids, or all asks, of some messages, in order. */
  function AllBids(updates: seq<Update>): seq<(real, real)> {
    if updates == [] then [] else updates[0].bids + AllBids(updates[1..])
  }

  function AllAsks(updates: seq<Update>): seq<(real, real)> {
    if updates == [] then [] else updates[0].asks + AllAsks(updates[1..])
  }

  lemma {:induction false} LastEntryOf(a: seq<(real, real)>, b: seq<(real, real)>, p: real)
    ensures LastEntry(a + b, p) == if LastEntry(b, p).Some? then LastEntry(b, p) else LastEntry(a, p)
    decreases |b|
  {
    if b == [] {
      assert a + b == a;
    } else {
      var n := |b| - 1;
      assert (a + b)[..|a + b| - 1] == a + b[..n] && (a + b)[|a + b| - 1] == b[n];
      LastEntryOf(a, b[..n], p);
    }
  }

  lemma TookTwice(before: Levels, a: seq<(real, real)>, between: Levels, b: seq<(real, real)>, after: Levels)
    requires Took(before, a, false, between) && Took(between, b, false, after)
    ensures Took(before, a + b, false, after)
  {
    hide LastEntry;
    forall p { LastEntryOf(a, b, p); }
  }

  lemma TookNothing(levels: Levels)
    ensures Took(levels, [], false, levels)
  {
  }

  /** A replay is one message that lists all their entries. */
  lemma {:induction false} ReplayTakes(book: Book, updates: seq<Update>)
    requires forall i :: 0 <= i < |updates| ==> !updates[i].full && updates[i].last > 0
    ensures var r := ReplayAll(book, updates);
            && Took(book.bids.levels, AllBids(updates), false, r.bids.levels)
            && Took(book.asks.levels, AllAsks(updates), false, r.asks.levels)
            && r.symbol == book.symbol && r.id == if updates == [] then book.id else updates[|updates| - 1].last
    decreases |updates|
  {
    hide Applied, Took;
    if updates == [] {
      TookNothing(book.bids.levels);
      TookNothing(book.asks.levels);
    } else {
      var (u, rest) := (updates[0], updates[1..]);
      var next := Applied(book, u);
      AppliedTakes(book, u);
      ReplayTakes(next, rest);
      var r := ReplayAll(next, rest);
      TookTwice(book.bids.levels, u.bids, next.bids.levels, AllBids(rest), r.bids.levels);
      TookTwice(book.asks.levels, u.asks, next.asks.levels, AllAsks(rest), r.asks.levels);
    }
  }

  /** One look of a handler with a snapshot, after `tries` looks: out of tries it gives up and unsyncs its book; without
      a buffered message that continues the snapshot it sleeps; and otherwise its book becomes the snapshot with all
      the rest of the buffer taken, live at its last id. Every look but the last takes the whole buffer. */
  ghost predicate Looked(st: State, r: State, h: nat, s: Snapshot, tries: nat)
    requires WellFormed(st) && h in st.handlers && st.handlers[h].symbol in st.init
  {
    var Handler(symbol, b, _) := st.handlers[h];
    var pending := st.init[symbol];
    && |r.books| == |st.books|
    && r == st.(books := st.books[b := r.books[b]], handlers := r.handlers,
                init := if tries == MAX_TRIES then st.init else st.init[symbol := []])
    && if tries == MAX_TRIES then
         r.handlers == st.handlers - {h} && r.books[b] == st.books[b].(id := 0)
       else
         && ((forall k :: !FirstToContinue(pending, s.id, k)) ==>
               r.books[b] == st.books[b] && r.handlers == st.handlers[h := Handler(symbol, b, Sleeping(s, tries))])
         && forall k :: FirstToContinue(pending, s.id, k) ==>
              var rest := pending[k..];
              && r.handlers == st.handlers - {h}
              && r.books[b].id == rest[|rest| - 1].last && r.books[b].symbol == st.books[b].symbol
              && Took(s.bids, AllBids(rest), false, r.books[b].bids.levels)
              && Took(s.asks, AllAsks(rest), false, r.books[b].asks.levels)
  }

  ghost predicate Diffs(updates: seq<Update>) {
    forall i :: 0 <= i < |updates| ==> !updates[i].full && updates[i].last > 0
  }

  /** That is what the buffers hold in every state of a faithful run. */
  lemma BuffersHoldDiffs(servers: Servers, market: Market, events: seq<Event>, symbol: string)
    requires FaithfulRun(servers, market, INITIAL, events) && symbol in Run(market, INITIAL, events).init
    ensures Diffs(Run(market, INITIAL, events).init[symbol])
  {
    hide Run, FaithfulRun, Inv;
    BinanceProgress.InitialGood(servers);
    BinanceProgress.RunKeepsGood(servers, market, INITIAL, events);
  }

  lemma LookLooks(st: State, h: nat, s: Snapshot, tries: nat)
    requires WellFormed(st) && h in st.handlers && tries <= MAX_TRIES
    requires st.handlers[h].symbol in st.init && Diffs(st.init[st.handlers[h].symbol])
    ensures Looked(st, LookStep(st, h, s, tries), h, s, tries)
  {
    hide ReplayAll, Took, AllBids, AllAsks, SnapshotBook;
    var Handler(symbol, b, _) := st.handlers[h];
    var pending := st.init[symbol];
    if tries < MAX_TRIES {
      var k := FirstStraddle(pending, s.id);
      StraddleIsFirst(pending, s.id);
      if k < |pending| {
        SnapshotParts(st.books[b].symbol, s);
        ReplayTakes(FromSnapshot(st.books[b].symbol, s).(id := st.books[b].id), pending[k..]);
      } else {
        assert st.books[b := st.books[b]] == st.books;
      }
    }
  }

  lemma SnapshotParts(symbol: string, s: Snapshot)
    ensures var b := FromSnapshot(symbol, s);
            b.bids.levels == s.bids && b.asks.levels == s.asks && b.symbol == symbol
  {
  }

  /** A handler that wakes looks again with the same snapshot, one try later. */
  lemma WakeLooks(market: Market, st: State, h: nat)
    requires WellFormed(st) && h in st.handlers && st.handlers[h].phase.Sleeping?
    requires st.handlers[h].phase.retries < MAX_TRIES
    requires st.handlers[h].symbol in st.init && Diffs(st.init[st.handlers[h].symbol])
    ensures Looked(st, Step(market, st, Wake(h)), h, st.handlers[h].phase.snapshot, st.handlers[h].phase.retries + 1)
  {
    hide LookStep, Looked, Diffs;
    LookLooks(st, h, st.handlers[h].phase.snapshot, st.handlers[h].phase.retries + 1);
  }

  /** The answer that ends the asking: a snapshot is looked at for the first time; an error unsyncs the book. */
  lemma SnapshotLooks(market: Market, st: State, h: nat, responses: seq<Option<Snapshot>>)
    requires WellFormed(st) && Enabled(st, SnapshotReturns(h, responses)) && st.handlers[h].phase.firstId > 0
    requires st.handlers[h].symbol in st.init && Diffs(st.init[st.handlers[h].symbol])
    ensures |responses| > 0
    ensures var b := st.handlers[h].book;
            var r := Step(market, st, SnapshotReturns(h, responses));
            match responses[|responses| - 1] {
              case None => r == st.(books := st.books[b := st.books[b].(id := 0)], handlers := st.handlers - {h})
              case Some(s) => s.id >= st.handlers[h].phase.firstId && Looked(st, r, h, s, 0)
            }
  {
    hide LookStep, Looked, Diffs;
    if responses[|responses| - 1].Some? { LookLooks(st, h, responses[|responses| - 1].value, 0); }
  }
}
