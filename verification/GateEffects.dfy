/**
 What every event of the Gate protocol does, said of the state's own parts: which book, queue, buffer, set or handler
 it changes and to what, and that it changes nothing else. `GateSafety` says what no event does; here is what
 each one has to do.
 */
module GateEffects {
  import opened Wrappers
  import opened OrderBooks
  import opened ServerHistory
  import opened Waiters
  import opened DepthSync
  import opened GateProtocol
  import opened GateSafety
  import opened GateHistory

  // ---------------------------------------------------------------- messages

  ghost predicate Hears(st: State, symbol: string) {
    WellFormed(st) && !st.panicked && symbol in st.subscribed
  }

  /** A message for a symbol that nobody subscribes to is ignored. */
  lemma UnheardIsIgnored(st: State, symbol: string, u: Update, parses: bool)
    requires WellFormed(st) && symbol !in st.subscribed
    ensures Step(st, Arrive(symbol, u, parses)) == st
  {
  }

  /** A diff for an unsynced book makes it wait, makes room for buffering, and suspends a new handler that asks for a
      snapshot at least as recent as the diff. */
  lemma DiffStartsSync(st: State, symbol: string, u: Update, parses: bool)
    requires Hears(st, symbol) && st.books[st.subscribed[symbol]].id == 0 && !u.full
    ensures var b := st.subscribed[symbol];
            var buffer := if symbol in st.init then st.init[symbol] else [];
            Step(st, Arrive(symbol, u, parses))
            == st.(books := st.books[b := st.books[b].(id := 1)],
                   init := st.init[symbol := buffer],
                   handlers := st.handlers[st.nextHandler := Handler(symbol, b, Fetching(u.first))],
                   nextHandler := st.nextHandler + 1)
  {
    hide Broadcast;
  }

  /** While a book waits, a message that parses goes to the end of its symbol's buffer, and nowhere else. */
  lemma WaitingBuffers(st: State, symbol: string, u: Update, parses: bool)
    requires Hears(st, symbol) && st.books[st.subscribed[symbol]].id == 1
    ensures Step(st, Arrive(symbol, u, parses))
            == if symbol in st.init && parses then st.(init := st.init[symbol := st.init[symbol] + [u]]) else st
  {
    hide Broadcast;
  }

  /** A message that does not connect to a live book empties and unsyncs it. */
  lemma GapUnsyncs(st: State, symbol: string, u: Update, parses: bool)
    requires Hears(st, symbol) && st.books[st.subscribed[symbol]].id >= 2
    requires var id := st.books[st.subscribed[symbol]].id; u.first > id + 1 || u.last < id + 1
    ensures var b := st.subscribed[symbol];
            var r := Step(st, Arrive(symbol, u, parses));
            && r == st.(books := st.books[b := r.books[b]])
            && r.books[b].id == 0 && r.books[b].bids.levels == map[] && r.books[b].asks.levels == map[]
            && r.books[b].symbol == st.books[b].symbol
  {
    hide Broadcast;
  }

  /** A message that a book would take: it connects to a live book, or is full for an unsynced one. */
  ghost predicate Fits(st: State, symbol: string, u: Update)
    requires Hears(st, symbol)
  {
    var id := st.books[st.subscribed[symbol]].id;
    (id == 0 && u.full) || (id >= 2 && u.first <= id + 1 && id + 1 <= u.last)
  }

  lemma UnparseableIsIgnored(st: State, symbol: string, u: Update)
    requires Hears(st, symbol) && Fits(st, symbol, u)
    ensures Step(st, Arrive(symbol, u, false)) == st
  {
  }

  /** A message that fits is taken by the book, price by price, and brings it to its last id; its bids are entered in
      the symbol's set, price by price; a bid outside the set panics; and otherwise all who wait for the symbol
      are served with the book. */
  lemma FittingIsTaken(st: State, symbol: string, u: Update)
    requires Hears(st, symbol) && Fits(st, symbol, u) && u.last > 0
    ensures var b := st.subscribed[symbol];
            var r := Step(st, Arrive(symbol, u, true));
            var (book, known) := (r.books[b], Lookup(r.history, symbol, {}));
            && r == st.(books := st.books[b := book], history := st.history[symbol := known],
                        queues := r.queues, panicked := r.panicked)
            && book.id == u.last && book.symbol == st.books[b].symbol
            && Took(st.books[b].bids.levels, u.bids, u.full, book.bids.levels)
            && Took(st.books[b].asks.levels, u.asks, u.full, book.asks.levels)
            && (forall p :: p in known <==> match LastEntry(u.bids, p) {
                                              case Some(q) => q != 0.0
                                              case None => p in Lookup(st.history, symbol, {})
                                            })
            && (r.panicked <==> exists p :: p in book.bids.levels && p !in known)
            && (if r.panicked || symbol !in st.queues.pending then r.queues == st.queues
                else Serves(st.queues, symbol, b, u.last, r.queues))
  {
    hide Applied, EditHistory, LastEntry, Took, Deliver;
    var b := st.subscribed[symbol];
    var r := Step(st, Arrive(symbol, u, true));
    assert r == Broadcast(st, symbol, b, u);
    AppliedTakes(st.books[b], u);
    forall p { EditHistoryAt(Lookup(st.history, symbol, {}), u.bids, p); }
    SubsetAt(Applied(st.books[b], u).bids.levels.Keys, EditHistory(Lookup(st.history, symbol, {}), u.bids));
    if symbol in st.queues.pending { DeliverServes(st.queues, symbol, b, u.last); }
  }

  /** Everyone in a symbol's queue, and nobody else, gets the book at this id, in order. */
  ghost predicate Serves(q: Queues, symbol: string, book: nat, id: nat, r: Queues)
    requires symbol in q.pending
  {
    var (n, waiters) := (|q.delivered|, q.pending[symbol]);
    && r.pending == q.pending[symbol := []] && r.dropped == q.dropped && r.next == q.next
    && |r.delivered| == n + |waiters| && r.delivered[..n] == q.delivered
    && forall i :: 0 <= i < |waiters| ==> r.delivered[n + i] == Delivery(waiters[i], book, id)
  }

  lemma DeliverServes(q: Queues, symbol: string, book: nat, id: nat)
    requires symbol in q.pending
    ensures Serves(q, symbol, book, id, Deliver(q, symbol, book, id))
  {
  }

  // ---------------------------------------------------------------- watching

  /** A watch that is not undone queues one new waiter at the end of its symbol's queue, and, when it is the first,
      opens an empty unsynced book. */
  lemma WatchQueues(st: State, symbol: string, subscribeOk: bool)
    requires WellFormed(st) && !st.panicked && QueuesGood(st.queues, st.subscribed.Keys)
    requires symbol in st.subscribed || subscribeOk
    ensures var r := Step(st, Watch(symbol, subscribeOk));
            var queue := if symbol in st.queues.pending then st.queues.pending[symbol] else [];
            && r.queues == st.queues.(pending := st.queues.pending[symbol := queue + [st.queues.next]],
                                      next := st.queues.next + 1)
            && r == (if symbol in st.subscribed then st
                     else st.(books := st.books + [Book(symbol, EMPTY_SIDE, EMPTY_SIDE, 0)],
                              subscribed := st.subscribed[symbol := |st.books|])).(queues := r.queues)
  {
    hide Conserved, DeliveredLive;
    assert symbol in st.queues.pending <==> symbol in st.subscribed;
  }

  /** So whoever watches gets the next book that a message brings forward, unless that message panics. */
  lemma WatcherIsServed(servers: Servers, st: State, symbol: string, u: Update)
    requires Inv(servers, st) && !st.panicked && symbol in st.subscribed
    requires var watched := Step(st, Watch(symbol, true));
             && TruthfulEvent(servers, watched, Arrive(symbol, u, true)) && Hears(watched, symbol)
             && Fits(watched, symbol, u) && !Step(watched, Arrive(symbol, u, true)).panicked
    ensures var r := Step(Step(st, Watch(symbol, true)), Arrive(symbol, u, true));
            && Delivery(st.queues.next, st.subscribed[symbol], u.last) in r.queues.delivered
            && r.books[st.subscribed[symbol]].id == u.last >= 2
  {
    hide Inv, TruthfulMessage, Broadcast, Took, Conserved, DeliveredLive;
    InvParts(servers, st);
    WatchQueues(st, symbol, true);
    var watched := Step(st, Watch(symbol, true));
    MessageIds(servers(symbol), u);
    FittingIsTaken(watched, symbol, u);
    var r := Step(watched, Arrive(symbol, u, true));
    var (n, waiters) := (|watched.queues.delivered|, watched.queues.pending[symbol]);
    assert waiters[|waiters| - 1] == st.queues.next;
    assert r.queues.delivered[n + (|waiters| - 1)] == Delivery(st.queues.next, st.subscribed[symbol], u.last);
  }

  lemma InvParts(servers: Servers, st: State)
    requires Inv(servers, st)
    ensures WellFormed(st) && QueuesGood(st.queues, st.subscribed.Keys)
  {
  }

  lemma MessageIds(server: Server, u: Update)
    requires TruthfulMessage(server, u)
    ensures u.last >= 2
  {
  }

  /** An unwatch takes the symbol and its queue away; when the request fails, everything stays. */
  lemma UnwatchRemoves(st: State, symbol: string, unsubscribeOk: bool)
    requires WellFormed(st) && !st.panicked && QueuesGood(st.queues, st.subscribed.Keys)
    ensures var r := Step(st, Unwatch(symbol, unsubscribeOk));
            if symbol !in st.subscribed || !unsubscribeOk then r == st
            else
              && r == st.(subscribed := st.subscribed - {symbol}, queues := r.queues)
              && r.queues == st.queues.(pending := st.queues.pending - {symbol}, dropped := r.queues.dropped)
              && forall w :: w in r.queues.dropped <==> w in st.queues.dropped || w in st.queues.pending[symbol]
  {
    hide Conserved, DeliveredLive;
  }

  /** A failed connection empties the maps and the buffers, drops everyone who waits, and ends every suspended handler. */
  lemma FailureEmpties(st: State)
    requires WellFormed(st) && !st.panicked
    ensures var r := Step(st, OnFail);
            && r == st.(subscribed := map[], queues := r.queues, init := map[], handlers := map[])
            && r.queues == st.queues.(pending := map[], dropped := r.queues.dropped)
            && forall w :: w in r.queues.dropped <==> w in st.queues.dropped || IsPending(st.queues, w)
  {
    var r := Step(st, OnFail);
    forall w: nat ensures w in r.queues.dropped <==> w in st.queues.dropped || IsPending(st.queues, w) {
      if IsPending(st.queues, w) {
        var s, i :| s in st.queues.pending && 0 <= i < |st.queues.pending[s]| && st.queues.pending[s][i] == w;
        assert w in st.queues.pending[s];
      }
    }
  }

  // ---------------------------------------------------------------- suspended handlers

  lemma {:induction false} ReplayId(book: Book, known: set<real>, updates: seq<Update>)
    requires updates != [] && !Gap(book.id, updates[0])
    ensures Replay(book, known, updates).0.id == if Connect(updates) then updates[|updates| - 1].last else 0
    decreases |updates|
  {
    hide ApplySide, EditHistory, Connect;
    var next := Applied(book, updates[0]);
    var known' := EditHistory(known, updates[0].bids);
    assert Replay(book, known, updates) == Replay(next, known', updates[1..]);
    if |updates| == 1 {
      assert updates[1..] == [];
      assert Connect(updates) by { ConnectOne(updates); }
    } else {
      ConnectRest(updates);
      if !Gap(updates[0].last, updates[1]) { ReplayId(next, known', updates[1..]); }
    }
  }

  lemma ConnectOne(updates: seq<Update>)
    requires |updates| <= 1
    ensures Connect(updates)
  {
  }

  /** One look of a handler with a snapshot, after `tries` looks: out of tries it gives up and unsyncs its book; without
      a buffered message that continues the snapshot it sleeps; and otherwise its book goes live at the last buffered
      message if these connect, and true, or is unsynced if they do not. Every look but the last takes the whole
      buffer. */
  ghost predicate Looked(servers: Servers, st: State, r: State, h: nat, s: Snapshot, tries: nat)
    requires WellFormed(st) && h in st.handlers && st.handlers[h].symbol in st.init
  {
    var Handler(symbol, b, _) := st.handlers[h];
    var pending := st.init[symbol];
    && r.subscribed == st.subscribed && r.queues == st.queues && r.nextHandler == st.nextHandler
    && r.panicked == st.panicked && |r.books| == |st.books| && r.books == st.books[b := r.books[b]]
    && r.init == (if tries == MAX_TRIES then st.init else st.init[symbol := []])
    && if tries == MAX_TRIES then
         r.handlers == st.handlers - {h} && r.books[b] == st.books[b].(id := 0) && r.history == st.history
       else
         && ((forall k :: !FirstToContinue(pending, s.id, k)) ==>
               && r.books == st.books && r.history == st.history
               && r.handlers == st.handlers[h := Handler(symbol, b, Sleeping(s, tries))])
         && forall k :: FirstToContinue(pending, s.id, k) ==>
              var rest := pending[k..];
              && r.handlers == st.handlers - {h}
              && (Connect(rest) ==> r.books[b].id == rest[|rest| - 1].last >= 2 && GoodBook(servers(symbol), r.books[b]))
              && (!Connect(rest) ==> r.books[b].id == 0)
  }

  lemma LookGivesUpOrSleeps(servers: Servers, st: State, h: nat, s: Snapshot, tries: nat)
    requires Core(servers, st) && h in st.handlers && st.handlers[h].symbol in st.init && tries <= MAX_TRIES
    requires tries == MAX_TRIES
             || FirstStraddle(st.init[st.handlers[h].symbol], s.id) == |st.init[st.handlers[h].symbol]|
    ensures Looked(servers, st, LookStep(st, h, s, tries), h, s, tries)
  {
    hide BooksGood, HandlersGood, SubscribedGood, BuffersGood, Install, GoodBook, Connect, FirstToContinue;
    StraddleIsFirst(st.init[st.handlers[h].symbol], s.id);
    var b := st.handlers[h].book;
    assert st.books[b := st.books[b]] == st.books;
  }

  lemma LookInstalls(servers: Servers, st: State, h: nat, s: Snapshot, tries: nat)
    requires Core(servers, st) && h in st.handlers && st.handlers[h].symbol in st.init && tries < MAX_TRIES
    requires FirstStraddle(st.init[st.handlers[h].symbol], s.id) < |st.init[st.handlers[h].symbol]|
    requires TruthfulSnapshot(servers(st.handlers[h].symbol), s)
    ensures Looked(servers, st, LookStep(st, h, s, tries), h, s, tries)
  {
    hide BooksGood, HandlersGood, SubscribedGood, BuffersGood, Install, Replay, GoodBook, TruthfulSnapshot, FromSnapshot;
    hide Connect, FirstToContinue, FirstStraddle;
    var Handler(symbol, b, _) := st.handlers[h];
    var pending := st.init[symbol];
    var k := FirstStraddle(pending, s.id);
    var taken := st.(init := st.init[symbol := []]);
    StraddleIsFirst(pending, s.id);
    InstalledBook(servers, st, h, s);
    InstallTouches(taken, symbol, b, s, pending[k..]);
    InstallReplays(taken, symbol, b, s, pending[k..]);
  }

  lemma LookLooks(servers: Servers, st: State, h: nat, s: Snapshot, tries: nat)
    requires Core(servers, st) && h in st.handlers && st.handlers[h].symbol in st.init && tries <= MAX_TRIES
    requires TruthfulSnapshot(servers(st.handlers[h].symbol), s)
    ensures Looked(servers, st, LookStep(st, h, s, tries), h, s, tries)
  {
    hide BooksGood, HandlersGood, SubscribedGood, BuffersGood, Looked, LookStep, TruthfulSnapshot;
    var pending := st.init[st.handlers[h].symbol];
    if tries < MAX_TRIES && FirstStraddle(pending, s.id) < |pending| {
      LookInstalls(servers, st, h, s, tries);
    } else {
      LookGivesUpOrSleeps(servers, st, h, s, tries);
    }
  }

  lemma InstallReplays(st: State, symbol: string, b: nat, s: Snapshot, updates: seq<Update>)
    requires b < |st.books|
    ensures var known := Lookup(st.history, symbol, {}) + s.bids.Keys;
            Install(st, symbol, b, s, updates).books[b]
            == Replay(FromSnapshot(st.books[b].symbol, s), known, updates).0
  {
    hide Replay, FromSnapshot;
  }

  /** The book that installing the snapshot and replaying the rest of the buffer makes. */
  lemma InstalledBook(servers: Servers, st: State, h: nat, s: Snapshot)
    requires Core(servers, st) && h in st.handlers && st.handlers[h].symbol in st.init
    requires TruthfulSnapshot(servers(st.handlers[h].symbol), s)
    requires var pending := st.init[st.handlers[h].symbol]; FirstStraddle(pending, s.id) < |pending|
    ensures var Handler(symbol, b, _) := st.handlers[h];
            var rest := st.init[symbol][FirstStraddle(st.init[symbol], s.id)..];
            var known := Lookup(st.history, symbol, {}) + s.bids.Keys;
            var book := Replay(FromSnapshot(st.books[b].symbol, s), known, rest).0;
            && GoodBook(servers(symbol), book)
            && book.id == (if Connect(rest) then rest[|rest| - 1].last else 0)
            && (Connect(rest) ==> book.id >= 2)
  {
    hide BooksGood, SubscribedGood, Replay, GoodBook, TruthfulSnapshot, TruthfulMessage, SnapshotBook, Connect;
    PhaseGood(servers, st, h);
    var Handler(symbol, b, _) := st.handlers[h];
    var k := FirstStraddle(st.init[symbol], s.id);
    var rest := st.init[symbol][k..];
    var known := Lookup(st.history, symbol, {}) + s.bids.Keys;
    FreshBookGood(servers(symbol), symbol, s);
    SnapshotId(symbol, s);
    ReplayGood(servers(symbol), FromSnapshot(symbol, s), known, rest);
    assert rest[0] == st.init[symbol][k];
    ReplayId(FromSnapshot(symbol, s), known, rest);
    MessageIds(servers(symbol), rest[|rest| - 1]);
  }

  /** The look that installs enters the snapshot's bids and those of the messages that it accepts in the symbol's set;
      the last entry for a price decides. */
  lemma LookRecordsBids(st: State, h: nat, s: Snapshot, tries: nat)
    requires WellFormed(st) && h in st.handlers && tries < MAX_TRIES && st.handlers[h].symbol in st.init
    requires var pending := st.init[st.handlers[h].symbol]; FirstStraddle(pending, s.id) < |pending|
    ensures var Handler(symbol, b, _) := st.handlers[h];
            var r := LookStep(st, h, s, tries);
            var known := Lookup(r.history, symbol, {});
            var rest := st.init[symbol][FirstStraddle(st.init[symbol], s.id)..];
            && r.history == st.history[symbol := known]
            && forall p :: p in known <==>
                 match LastEntry(AcceptedBids(FromSnapshot(st.books[b].symbol, s), rest), p) {
                   case Some(q) => q != 0.0
                   case None => p in Lookup(st.history, symbol, {}) || p in s.bids
                 }
  {
    hide Replay, EditHistory, LastEntry, AcceptedBids, SnapshotBook, FirstStraddle;
    var Handler(symbol, b, _) := st.handlers[h];
    var rest := st.init[symbol][FirstStraddle(st.init[symbol], s.id)..];
    var (book, known) := (FromSnapshot(st.books[b].symbol, s), Lookup(st.history, symbol, {}) + s.bids.Keys);
    ReplayEdits(book, known, rest);
    forall p { EditHistoryAt(known, AcceptedBids(book, rest), p); }
  }

  /** A handler that wakes looks again with the same snapshot, one try later. */
  lemma WakeLooks(servers: Servers, st: State, h: nat)
    requires Inv(servers, st) && !st.panicked && h in st.handlers && st.handlers[h].phase.Sleeping?
    ensures st.handlers[h].symbol in st.init
    ensures Looked(servers, st, Step(st, Wake(h)), h, st.handlers[h].phase.snapshot, st.handlers[h].phase.retries + 1)
  {
    hide BooksGood, SubscribedGood, BuffersGood, QueuesGood, LookStep, Looked, TruthfulSnapshot;
    PhaseGood(servers, st, h);
    LookLooks(servers, st, h, st.handlers[h].phase.snapshot, st.handlers[h].phase.retries + 1);
  }

  /** The first answer that decides: an error, or a snapshot at least as recent as the handler's message; old snapshots
      are asked again for, five times in all. */
  ghost predicate Decides(responses: seq<Option<Snapshot>>, firstId: nat, k: nat) {
    && k <= |responses|
    && (forall i :: 0 <= i < k ==> responses[i].Some? && responses[i].value.id < firstId)
    && (k < |responses| ==> responses[k].None? || responses[k].value.id >= firstId)
  }

  /** A handler whose snapshot is decided looks with it, for the first time; on an error, or after five old answers,
      it gives up and unsyncs its book. */
  lemma SnapshotLooks(servers: Servers, st: State, h: nat, responses: seq<Option<Snapshot>>, k: nat)
    requires Inv(servers, st) && !st.panicked && h in st.handlers && st.handlers[h].phase.Fetching?
    requires |responses| == MAX_TRIES && TruthfulEvent(servers, st, SnapshotReturns(h, responses))
    requires Decides(responses, st.handlers[h].phase.firstId, k)
    ensures st.handlers[h].symbol in st.init
    ensures var b := st.handlers[h].book;
            var r := Step(st, SnapshotReturns(h, responses));
            if k < MAX_TRIES && responses[k].Some? then Looked(servers, st, r, h, responses[k].value, 0)
            else r == st.(books := st.books[b := st.books[b].(id := 0)], handlers := st.handlers - {h})
  {
    hide BooksGood, SubscribedGood, BuffersGood, QueuesGood, LookStep, Looked, TruthfulSnapshot;
    PhaseGood(servers, st, h);
    FetchDecides(NO_SNAPSHOT, responses, st.handlers[h].phase.firstId, 0, k);
    if k < MAX_TRIES && responses[k].Some? {
      LookLooks(servers, st, h, responses[k].value, 0);
    }
  }

  lemma {:induction false} FetchDecides(latest: Snapshot, responses: seq<Option<Snapshot>>, firstId: nat, n: nat, k: nat)
    requires |responses| == MAX_TRIES && n <= k && latest.id < firstId && Decides(responses, firstId, k)
    ensures Fetch(latest, responses, firstId, n) == if k < MAX_TRIES then responses[k] else None
    decreases k - n
  {
    if n < k { FetchDecides(responses[n].value, responses, firstId, n + 1, k); }
  }
}
