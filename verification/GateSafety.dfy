/**
 What every run of the Gate protocol keeps, for any interleaving of steps and any loss,
 duplication or reordering of truthful messages.
 */
module GateSafety {
  import opened Wrappers
  import opened OrderBooks
  import opened ServerHistory
  import opened Waiters
  import opened DepthSync
  import opened GateProtocol

  /** The environment tells the truth. A message whose levels do not parse may say anything. */
  ghost predicate TruthfulEvent(servers: Servers, st: State, e: Event) {
    match e
    case Arrive(symbol, u, parses) => 2 <= u.first && (parses ==> TruthfulMessage(servers(symbol), u))
    case SnapshotReturns(h, responses) =>
      forall i :: 0 <= i < |responses| && responses[i].Some? && h in st.handlers ==>
        TruthfulSnapshot(servers(st.handlers[h].symbol), responses[i].value)
    case _ => true
  }

  ghost predicate BooksGood(servers: Servers, books: seq<Book>) {
    forall b :: 0 <= b < |books| ==> GoodBook(servers(books[b].symbol), books[b])
  }

  /** A suspended handler's book is waiting, and no other handler works on it. */
  ghost predicate HandlerGood(servers: Servers, st: State, h: nat)
    requires WellFormed(st) && h in st.handlers
  {
    h < st.nextHandler && Attended(servers, st.handlers[h], st.books, st.init)
  }

  ghost predicate HandlersGood(servers: Servers, st: State)
    requires WellFormed(st)
  {
    && (forall h :: h in st.handlers ==> HandlerGood(servers, st, h))
    && (forall g, h :: g in st.handlers && h in st.handlers && st.handlers[g].book == st.handlers[h].book ==> g == h)
  }

  /** A subscribed book that waits has a suspended handler: it is never stuck. */
  ghost predicate SubscribedGood(st: State)
    requires WellFormed(st)
  {
    forall s :: s in st.subscribed ==>
      var b := st.subscribed[s];
      && st.books[b].symbol == s
      && (st.books[b].id == 1 ==> exists h :: h in st.handlers && st.handlers[h].book == b)
  }

  ghost predicate BuffersGood(servers: Servers, init: map<string, seq<Update>>) {
    forall s, i :: s in init && 0 <= i < |init[s]| ==> TruthfulMessage(servers(s), init[s][i])
  }

  ghost predicate QueuesGood(queues: Queues, subscribed: set<string>) {
    Conserved(queues) && DeliveredLive(queues) && queues.pending.Keys == subscribed
  }

  ghost predicate Core(servers: Servers, st: State) {
    && WellFormed(st)
    && BooksGood(servers, st.books)
    && HandlersGood(servers, st)
    && SubscribedGood(st)
    && BuffersGood(servers, st.init)
  }

  ghost predicate Inv(servers: Servers, st: State) {
    Core(servers, st) && QueuesGood(st.queues, st.subscribed.Keys)
  }

  lemma InitialInv(servers: Servers)
    ensures Inv(servers, INITIAL)
  {
  }

  // ---------------------------------------------------------------- one step

  /** Buffered truthful messages replayed on a good book leave a good book: later, or unsynced. */
  lemma {:induction false} ReplayGood(server: Server, book: Book, known: set<real>, updates: seq<Update>)
    requires book.id >= 2 && GoodBook(server, book)
    requires forall i :: 0 <= i < |updates| ==> TruthfulMessage(server, updates[i])
    ensures var r := Replay(book, known, updates).0;
            GoodBook(server, r) && r.symbol == book.symbol && (r.id == 0 || r.id >= book.id)
    decreases |updates|
  {
    if updates != [] && !Gap(book.id, updates[0]) {
      Absorb(server, book, updates[0], updates[0].first - 1);
      ReplayGood(server, Applied(book, updates[0]), EditHistory(known, updates[0].bids), updates[1..]);
    }
  }

  /** Steps that change one book which no handler waits for. */
  lemma SwapBook(servers: Servers, st: State, r: State, b: nat, book: Book)
    requires Core(servers, st) && b < |st.books| && st.books[b].id != 1
    requires r.books == st.books[b := book] && book.symbol == st.books[b].symbol && book.id != 1
    requires GoodBook(servers(book.symbol), book)
    requires r.subscribed == st.subscribed && r.init == st.init
    requires r.handlers == st.handlers && r.nextHandler == st.nextHandler
    ensures Core(servers, r)
  {
  }

  /** Steps that end a handler and with it the waiting of its book. */
  lemma EndSync(servers: Servers, st: State, r: State, h: nat, book: Book)
    requires Core(servers, st) && h in st.handlers
    requires r.books == st.books[st.handlers[h].book := book]
    requires book.symbol == st.handlers[h].symbol && book.id != 1 && GoodBook(servers(book.symbol), book)
    requires r.subscribed == st.subscribed && r.init.Keys == st.init.Keys && BuffersGood(servers, r.init)
    requires r.handlers == st.handlers - {h} && r.nextHandler == st.nextHandler
    ensures Core(servers, r)
  {
    hide GoodBook, TruthfulMessage, TruthfulSnapshot;
    assert HandlerGood(servers, st, h);
    forall g | g in r.handlers ensures HandlerGood(servers, r, g) {
      assert HandlerGood(servers, st, g);
    }
    forall s | s in r.subscribed && r.books[r.subscribed[s]].id == 1
      ensures exists g :: g in r.handlers && r.handlers[g].book == r.subscribed[s]
    {
      var g :| g in st.handlers && st.handlers[g].book == st.subscribed[s];
      assert g in r.handlers;
    }
  }

  lemma StartSyncKeepsHandlers(servers: Servers, st: State, symbol: string, firstId: nat)
    requires Core(servers, st) && symbol in st.subscribed && firstId >= 2
    requires st.books[st.subscribed[symbol]].id == 0
    ensures HandlersGood(servers, StartSync(st, symbol, st.subscribed[symbol], firstId))
  {
  }

  lemma StartSyncKeepsCore(servers: Servers, st: State, symbol: string, firstId: nat)
    requires Core(servers, st) && symbol in st.subscribed && firstId >= 2
    requires st.books[st.subscribed[symbol]].id == 0
    ensures Core(servers, StartSync(st, symbol, st.subscribed[symbol], firstId))
  {
    hide GoodSide, TruthfulMessage, TruthfulSnapshot;
    StartSyncKeepsHandlers(servers, st, symbol, firstId);
    var b := st.subscribed[symbol];
    var r := StartSync(st, symbol, b, firstId);
    assert r.handlers[st.nextHandler].book == b;
    forall s | s in r.subscribed && r.books[r.subscribed[s]].id == 1
      ensures exists g :: g in r.handlers && r.handlers[g].book == r.subscribed[s]
    {
      if s != symbol {
        var g :| g in st.handlers && st.handlers[g].book == st.subscribed[s];
        assert HandlerGood(servers, st, g) && r.handlers[g] == st.handlers[g];
      }
    }
  }

  /** Steps that only change the buffers or the phase of one sleeping handler. */
  lemma Resleep(servers: Servers, st: State, r: State)
    requires Core(servers, st)
    requires r.books == st.books && r.subscribed == st.subscribed && r.nextHandler == st.nextHandler
    requires r.init.Keys == st.init.Keys && BuffersGood(servers, r.init)
    requires r.handlers.Keys == st.handlers.Keys
    requires forall h :: h in r.handlers ==>
               && r.handlers[h].symbol == st.handlers[h].symbol && r.handlers[h].book == st.handlers[h].book
               && (r.handlers[h].phase == st.handlers[h].phase
                   || match r.handlers[h].phase {
                        case Fetching(_) => false
                        case Sleeping(s, n) => n < MAX_TRIES && TruthfulSnapshot(servers(r.handlers[h].symbol), s)
                      })
    ensures Core(servers, r)
  {
  }

  lemma ApplyKeepsCore(servers: Servers, st: State, r: State, symbol: string, u: Update)
    requires Core(servers, st) && symbol in st.subscribed && TruthfulMessage(servers(symbol), u) && u.first >= 2
    requires var b := st.subscribed[symbol];
             && st.books[b].id != 1 && (st.books[b].id == 0 ==> u.full) && (st.books[b].id != 0 ==> !Gap(st.books[b].id, u))
             && r.books == st.books[b := Applied(st.books[b], u)]
    requires r.subscribed == st.subscribed && r.init == st.init
    requires r.handlers == st.handlers && r.nextHandler == st.nextHandler
    ensures Core(servers, r)
  {
    hide HandlersGood, BuffersGood, GoodBook, TruthfulMessage, Applied;
    var b := st.subscribed[symbol];
    AppliedGood(servers(symbol), st.books[b], u);
    SwapBook(servers, st, r, b, Applied(st.books[b], u));
  }

  lemma AppliedGood(server: Server, book: Book, u: Update)
    requires GoodBook(server, book) && TruthfulMessage(server, u)
    requires if book.id == 0 then u.full else book.id >= 2 && !Gap(book.id, u)
    ensures GoodBook(server, Applied(book, u)) && Applied(book, u).symbol == book.symbol && Applied(book, u).id >= 2
  {
    Absorb(server, book, u, u.first - 1);
  }

  lemma ArriveKeepsCore(servers: Servers, st: State, symbol: string, u: Update, parses: bool)
    requires Core(servers, st) && TruthfulEvent(servers, st, Arrive(symbol, u, parses))
    ensures Core(servers, ArriveStep(st, symbol, u, parses))
  {
    hide HandlersGood, GoodSide, TruthfulSide, ApplySide;
    if symbol in st.subscribed {
      var b := st.subscribed[symbol];
      var id := st.books[b].id;
      var r := ArriveStep(st, symbol, u, parses);
      if id == 1 {
        Resleep(servers, st, r);
      } else if id == 0 && !u.full {
        StartSyncKeepsCore(servers, st, symbol, u.first);
      } else if id != 0 && Gap(id, u) {
        SwapBook(servers, st, r, b, ClearBook(st.books[b]));
      } else if parses {
        ApplyKeepsCore(servers, st, r, symbol, u);
      }
    }
  }

  /** Waiters are served only with a book that the message has just brought to its own last id. */
  lemma ArriveKeepsQueues(servers: Servers, st: State, symbol: string, u: Update, parses: bool)
    requires Inv(servers, st) && TruthfulEvent(servers, st, Arrive(symbol, u, parses))
    ensures var r := ArriveStep(st, symbol, u, parses); QueuesGood(r.queues, r.subscribed.Keys)
  {
    hide BooksGood, BuffersGood, HandlersGood, SubscribedGood, Conserved, ApplySide, EditHistory, TruthfulSide;
    if symbol in st.subscribed && parses {
      DeliverConserves(st.queues, symbol, st.subscribed[symbol], u.last);
    }
  }

  /** The snapshot and the straddling rest of the buffer make the book live, or unsync it. */
  lemma InstallKeepsCore(servers: Servers, st: State, h: nat, s: Snapshot, k: nat)
    requires Core(servers, st) && h in st.handlers
    requires TruthfulSnapshot(servers(st.handlers[h].symbol), s)
    requires var symbol := st.handlers[h].symbol; symbol in st.init && k < |st.init[symbol]|
    ensures var Handler(symbol, b, _) := st.handlers[h];
            var pending := st.init[symbol];
            Core(servers, Finish(Install(st.(init := st.init[symbol := []]), symbol, b, s, pending[k..]), h))
  {
    hide GoodBook, TruthfulSnapshot, Replay, TruthfulMessage;
    var Handler(symbol, b, _) := st.handlers[h];
    var pending := st.init[symbol];
    assert HandlerGood(servers, st, h);
    var known := Lookup(st.history, symbol, {}) + s.bids.Keys;
    var book := FromSnapshot(symbol, s);
    FreshBookGood(servers(symbol), symbol, s);
    ReplayGood(servers(symbol), book, known, pending[k..]);
    var r := Finish(Install(st.(init := st.init[symbol := []]), symbol, b, s, pending[k..]), h);
    EndSync(servers, st, r, h, Replay(book, known, pending[k..]).0);
  }

  /** Looking at the buffer, with a truthful snapshot in hand. */
  lemma LookKeepsCore(servers: Servers, st: State, h: nat, s: Snapshot, retries: nat)
    requires Core(servers, st) && h in st.handlers && retries <= MAX_TRIES
    requires TruthfulSnapshot(servers(st.handlers[h].symbol), s)
    ensures Core(servers, LookStep(st, h, s, retries))
    ensures LookStep(st, h, s, retries).queues == st.queues
    ensures LookStep(st, h, s, retries).subscribed == st.subscribed
  {
    hide Replay, TruthfulSnapshot, TruthfulMessage, SnapshotBook, Agrees;
    var Handler(symbol, b, _) := st.handlers[h];
    var r := LookStep(st, h, s, retries);
    assert HandlerGood(servers, st, h);
    if retries == MAX_TRIES {
      EndSync(servers, st, r, h, st.books[b].(id := 0));
    } else {
      var k := FirstStraddle(st.init[symbol], s.id);
      if k == |st.init[symbol]| {
        Resleep(servers, st, r);
      } else {
        InstallKeepsCore(servers, st, h, s, k);
      }
    }
  }

  lemma PhaseGood(servers: Servers, st: State, h: nat)
    requires Core(servers, st) && h in st.handlers
    ensures HandlerGood(servers, st, h)
  {
  }

  lemma SnapshotKeepsInv(servers: Servers, st: State, h: nat, responses: seq<Option<Snapshot>>)
    requires |responses| == MAX_TRIES && h in st.handlers && st.handlers[h].phase.Fetching?
    requires Inv(servers, st) && TruthfulEvent(servers, st, SnapshotReturns(h, responses))
    ensures Inv(servers, SnapshotStep(st, h, responses))
  {
    hide QueuesGood, LookStep, GoodSide, TruthfulSnapshot;
    PhaseGood(servers, st, h);
    match Fetch(NO_SNAPSHOT, responses, st.handlers[h].phase.firstId, 0)
    case None =>
      var b := st.handlers[h].book;
      EndSync(servers, st, SnapshotStep(st, h, responses), h, st.books[b].(id := 0));
    case Some(s) =>
      LookKeepsCore(servers, st, h, s, 0);
  }

  lemma WakeKeepsInv(servers: Servers, st: State, h: nat)
    requires Inv(servers, st) && h in st.handlers && st.handlers[h].phase.Sleeping?
    ensures Inv(servers, WakeStep(st, h))
  {
    hide Core, QueuesGood, LookStep;
    PhaseGood(servers, st, h);
    LookKeepsCore(servers, st, h, st.handlers[h].phase.snapshot, st.handlers[h].phase.retries + 1);
  }

  /** The map lookup in `watch` always finds its queue. */
  lemma WatchKeepsQueues(st: State, symbol: string, subscribeOk: bool)
    requires WellFormed(st) && QueuesGood(st.queues, st.subscribed.Keys)
    ensures var r := WatchStep(st, symbol, subscribeOk); QueuesGood(r.queues, r.subscribed.Keys)
    ensures WatchStep(st, symbol, subscribeOk).panicked == st.panicked
  {
    var q1 := if symbol in st.subscribed then st.queues else Open(st.queues, symbol);
    OpenConserves(st.queues, symbol);
    EnqueueConserves(q1, symbol);
    DropConserves(Enqueue(q1, symbol), symbol);
  }

  /** A first watch whose subscription fails leaves no trace but its own dropped waiter. */
  lemma FailedWatchIsUndone(st: State, symbol: string)
    requires WellFormed(st) && QueuesGood(st.queues, st.subscribed.Keys) && symbol !in st.subscribed
    ensures var r := WatchStep(st, symbol, false);
            && r.subscribed == st.subscribed && r.queues.pending == st.queues.pending
            && r.queues.delivered == st.queues.delivered && r.queues.dropped == st.queues.dropped + {st.queues.next}
            && r.books[..|st.books|] == st.books && r.init == st.init && r.history == st.history
            && r.handlers == st.handlers
  {
    var q := Enqueue(Open(st.queues, symbol), symbol);
    assert q.pending[symbol] == [st.queues.next];
    assert (q.pending - {symbol}) == st.queues.pending;
  }

  /** A message that a subscribed book applies serves everyone who waits for that symbol, with that book. */
  lemma AppliedMessageServes(servers: Servers, st: State, symbol: string, u: Update)
    requires Inv(servers, st) && TruthfulEvent(servers, st, Arrive(symbol, u, true)) && symbol in st.subscribed
    requires var id := st.books[st.subscribed[symbol]].id; if id == 0 then u.full else id != 1 && !Gap(id, u)
    requires !st.panicked && !ArriveStep(st, symbol, u, true).panicked
    ensures var r := ArriveStep(st, symbol, u, true);
            var b := st.subscribed[symbol];
            && r.books[b].id == u.last >= 2 && r.queues.pending == st.queues.pending[symbol := []]
            && forall w :: w in st.queues.pending[symbol] ==> Delivery(w, b, u.last) in r.queues.delivered
  {
    hide BooksGood, BuffersGood, HandlersGood, SubscribedGood, Conserved, ApplySide, EditHistory, TruthfulSide;
    var r := ArriveStep(st, symbol, u, true);
    var waiters := st.queues.pending[symbol];
    var b := st.subscribed[symbol];
    assert r.queues == Deliver(st.queues, symbol, b, u.last);
    forall w | w in waiters ensures Delivery(w, b, u.last) in r.queues.delivered {
      var i :| 0 <= i < |waiters| && waiters[i] == w;
      assert r.queues.delivered[|st.queues.delivered| + i] == Delivery(w, b, u.last);
    }
  }

  lemma OpenKeepsCore(servers: Servers, st: State, symbol: string)
    requires Core(servers, st)
    ensures Core(servers, OpenStep(st, symbol))
  {
    hide TruthfulMessage, GoodSide, TruthfulSnapshot;
    var r := OpenStep(st, symbol);
    forall h | h in r.handlers ensures HandlerGood(servers, r, h) {
      assert HandlerGood(servers, st, h);
    }
  }

  /** Fewer subscriptions leave the synchronisation as it is. */
  lemma UnsubscribeKeepsCore(servers: Servers, st: State, r: State)
    requires Core(servers, st)
    requires r.books == st.books && r.init == st.init
    requires r.handlers == st.handlers && r.nextHandler == st.nextHandler
    requires forall s :: s in r.subscribed ==> s in st.subscribed && r.subscribed[s] == st.subscribed[s]
    ensures Core(servers, r)
  {
  }

  lemma WatchKeepsInv(servers: Servers, st: State, symbol: string, subscribeOk: bool)
    requires Inv(servers, st)
    ensures Inv(servers, WatchStep(st, symbol, subscribeOk))
  {
    hide BooksGood, BuffersGood, HandlersGood, SubscribedGood, QueuesGood, OpenStep;
    WatchKeepsQueues(st, symbol, subscribeOk);
    OpenKeepsCore(servers, st, symbol);
    UnsubscribeKeepsCore(servers, OpenStep(st, symbol), WatchStep(st, symbol, subscribeOk));
  }

  lemma UnwatchKeepsInv(servers: Servers, st: State, symbol: string, unsubscribeOk: bool)
    requires Inv(servers, st)
    ensures Inv(servers, UnwatchStep(st, symbol, unsubscribeOk))
  {
    hide BooksGood, BuffersGood, HandlersGood, SubscribedGood, Conserved;
    DropConserves(st.queues, symbol);
    UnsubscribeKeepsCore(servers, st, UnwatchStep(st, symbol, unsubscribeOk));
  }

  lemma FailKeepsInv(servers: Servers, st: State)
    requires Inv(servers, st)
    ensures Inv(servers, FailStep(st))
  {
    DropAllConserves(st.queues);
  }

  lemma StepKeepsInv(servers: Servers, st: State, e: Event)
    requires Inv(servers, st) && ValidEvent(e) && TruthfulEvent(servers, st, e)
    ensures Inv(servers, Step(st, e))
  {
    hide Core, QueuesGood, TruthfulEvent, ArriveStep, SnapshotStep, WakeStep, WatchStep, UnwatchStep, FailStep;
    if Enabled(st, e) {
      match e
      case Watch(symbol, ok) => WatchKeepsInv(servers, st, symbol, ok);
      case Unwatch(symbol, ok) => UnwatchKeepsInv(servers, st, symbol, ok);
      case OnFail => FailKeepsInv(servers, st);
      case Arrive(symbol, u, parses) =>
        ArriveKeepsCore(servers, st, symbol, u, parses);
        ArriveKeepsQueues(servers, st, symbol, u, parses);
      case SnapshotReturns(h, responses) => SnapshotKeepsInv(servers, st, h, responses);
      case Wake(h) => WakeKeepsInv(servers, st, h);
    }
  }

  // ---------------------------------------------------------------- whole runs

  ghost predicate TruthfulRun(servers: Servers, st: State, events: seq<Event>)
    requires WellFormed(st) && forall e :: e in events ==> ValidEvent(e)
    decreases |events|
  {
    events == [] || (TruthfulEvent(servers, st, events[0]) && TruthfulRun(servers, Step(st, events[0]), events[1..]))
  }

  lemma {:induction false} RunKeepsInv(servers: Servers, st: State, events: seq<Event>)
    requires Inv(servers, st) && (forall e :: e in events ==> ValidEvent(e)) && TruthfulRun(servers, st, events)
    ensures Inv(servers, Run(st, events))
    decreases |events|
  {
    if events != [] {
      StepKeepsInv(servers, st, events[0]);
      RunKeepsInv(servers, Step(st, events[0]), events[1..]);
    }
  }

  // ---------------------------------------------------------------- what that means

  /** Gate safety: after any truthful run, every live book is the exchange's book at exactly its id on
      the tracked prices, and nothing else. */
  lemma EveryRunIsSafe(servers: Servers, events: seq<Event>, b: nat)
    requires (forall e :: e in events ==> ValidEvent(e)) && TruthfulRun(servers, INITIAL, events)
    requires b < |Run(INITIAL, events).books| && Run(INITIAL, events).books[b].id >= 2
    ensures var book := Run(INITIAL, events).books[b];
            var server := servers(book.symbol);
            && Agrees(book.bids, server.bids(book.id)) && Agrees(book.asks, server.asks(book.id))
            && ((forall p :: p in book.bids.window) ==> book.bids.levels == server.bids(book.id))
            && ((forall p :: p in book.asks.window) ==> book.asks.levels == server.asks(book.id))
    ensures Conserved(Run(INITIAL, events).queues) && DeliveredLive(Run(INITIAL, events).queues)
  {
    InitialInv(servers);
    RunKeepsInv(servers, INITIAL, events);
    var book := Run(INITIAL, events).books[b];
    assert GoodBook(servers(book.symbol), book);
    SameEntries(book.bids.levels, servers(book.symbol).bids(book.id));
    SameEntries(book.asks.levels, servers(book.symbol).asks(book.id));
  }

  /** In any truthful run, a live book with a level inside the window of its last snapshot or full
      message shows the exchange's best price and quantity. */
  lemma EveryRunShowsBestPrices(servers: Servers, events: seq<Event>, b: nat, d: Direction, p: real)
    requires (forall e :: e in events ==> ValidEvent(e)) && TruthfulRun(servers, INITIAL, events)
    requires b < |Run(INITIAL, events).books| && Run(INITIAL, events).books[b].id >= 2
    requires var side := SideOf(d, Run(INITIAL, events).books[b]);
             IsBest(d, side.levels, p) && exists k :: k in side.levels && k in side.window
    ensures var book := Run(INITIAL, events).books[b];
            var truth := TruthOf(d, servers(book.symbol), book.id);
            IsBest(d, truth, p) && truth[p] == SideOf(d, book).levels[p]
  {
    InitialInv(servers);
    RunKeepsInv(servers, INITIAL, events);
    var book := Run(INITIAL, events).books[b];
    assert GoodBook(servers(book.symbol), book);
    BestPriceIsServers(d, SideOf(d, book), TruthOf(d, servers(book.symbol), book.id), p);
  }
}
