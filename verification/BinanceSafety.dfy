/**
 What every run of the Binance protocol keeps when the stream is in order and, while a book waits,
 lossless and parseable: the replay needs no check of its own, even over a buffer with
 entries from an earlier failed attempt or of an earlier subscription.
 */
module BinanceSafety {
  import opened Wrappers
  import opened OrderBooks
  import opened ServerHistory
  import opened DepthSync
  import opened BinanceProtocol

  /** The id after which a message's diff begins: spot messages start where their range starts, futures
      messages where the previous message ended. */
  function Before(market: Market, u: Update, previous: Option<nat>): nat {
    if market.Future? && previous.Some? then previous.value else if u.first > 0 then u.first - 1 else 0
  }

  /** The stream's promise for one message. A live book relies on nothing but the truth. */
  ghost predicate FaithfulArrival(servers: Servers, market: Market, st: State, symbol: string, u: Update,
                                  previous: Option<nat>, parses: bool)
    requires WellFormed(st)
  {
    var before := Before(market, u, previous);
    && 2 <= u.first <= u.last && !u.full && before < u.first
    && (parses ==> Truthful(servers(symbol), u, before))
    && (symbol in st.subscribed && st.books[st.subscribed[symbol]].id <= 1 ==>
          (market.Future? ==> previous.Some?) && Lookup(st.seen, symbol, 0) <= before)
    && (symbol in st.subscribed && st.books[st.subscribed[symbol]].id == 1 ==>
          parses && Lookup(st.seen, symbol, 0) == before)
  }

  ghost predicate FaithfulEvent(servers: Servers, market: Market, st: State, e: Event)
    requires WellFormed(st)
  {
    match e
    case Arrive(symbol, u, previous, parses) => FaithfulArrival(servers, market, st, symbol, u, previous, parses)
    case SnapshotReturns(h, responses) =>
      forall i :: 0 <= i < |responses| && responses[i].Some? && h in st.handlers ==>
        TruthfulSnapshot(servers(st.handlers[h].symbol), responses[i].value)
    case _ => true
  }

  // ---------------------------------------------------------------- contiguous messages

  /** Each message continues the one before it, the first one the given id. */
  ghost predicate Chain(server: Server, id: nat, updates: seq<Update>)
    decreases |updates|
  {
    updates == [] || (Truthful(server, updates[0], id) && !updates[0].full
                      && Chain(server, updates[0].last, updates[1..]))
  }

  /** A diff tells the truth from any id inside it, too. */
  lemma TruthFromInside(server: Server, u: Update, before: nat, id: nat)
    requires Truthful(server, u, before) && before <= id < u.last && !u.full
    ensures Truthful(server, u, id)
  {
  }

  lemma {:induction false} ReplayAllGood(server: Server, book: Book, updates: seq<Update>)
    requires book.id >= 2 && GoodBook(server, book) && Chain(server, book.id, updates)
    ensures var r := ReplayAll(book, updates);
            GoodBook(server, r) && r.symbol == book.symbol && r.id >= 2
    decreases |updates|
  {
    if updates != [] {
      Absorb(server, book, updates[0], book.id);
      ReplayAllGood(server, Applied(book, updates[0]), updates[1..]);
    }
  }

  /** The replay on the waiting book's id is the replay on the snapshot's. */
  lemma ReplayIgnoresId(book: Book, id: nat, updates: seq<Update>)
    requires updates != [] && updates[0].last > 0
    ensures ReplayAll(book.(id := id), updates) == ReplayAll(book, updates)
  {
  }

  lemma {:induction false} ChainAppends(server: Server, id: nat, updates: seq<Update>, u: Update)
    requires Chain(server, id, updates) && !u.full
    requires Truthful(server, u, if updates == [] then id else updates[|updates| - 1].last)
    ensures Chain(server, id, updates + [u])
    decreases |updates|
  {
    if updates == [] {
      assert [] + [u] == [u] && [u][1..] == [];
    } else {
      assert (updates + [u])[1..] == updates[1..] + [u];
      ChainAppends(server, updates[0].last, updates[1..], u);
    }
  }

  lemma {:induction false} ChainSuffix(server: Server, id: nat, updates: seq<Update>, k: nat)
    requires Chain(server, id, updates) && k < |updates|
    ensures exists from: nat :: Chain(server, from, updates[k..])
    decreases k
  {
    if k == 0 {
      assert updates[0..] == updates;
    } else {
      ChainSuffix(server, updates[0].last, updates[1..], k - 1);
      assert updates[1..][k - 1..] == updates[k..];
    }
  }

  /** A chain's first message may start below its `first`; the messages' own ranges are truthful. */
  ghost predicate Ranged(updates: seq<Update>, server: Server) {
    forall i :: 0 <= i < |updates| ==> TruthfulMessage(server, updates[i])
  }

  /** A buffer: first leftovers that end at or below `floor`, then a chain that ends at the last id seen. */
  ghost predicate Split(server: Server, buffer: seq<Update>, c: nat, floor: nat, seen: nat) {
    && c <= |buffer|
    && (forall i :: 0 <= i < c ==> buffer[i].last <= floor)
    && Ranged(buffer[c..], server)
    && (exists id: nat :: Chain(server, id, buffer[c..]))
    && (c < |buffer| ==> buffer[|buffer| - 1].last == seen)
  }

  ghost predicate BufferGood(server: Server, buffer: seq<Update>, floor: nat, seen: nat) {
    exists c: nat :: Split(server, buffer, c, floor, seen)
  }

  lemma BufferFromLeftovers(server: Server, buffer: seq<Update>, floor: nat, seen: nat)
    requires forall i :: 0 <= i < |buffer| ==> buffer[i].last <= floor
    ensures BufferGood(server, buffer, floor, seen)
  {
    assert Chain(server, 0, buffer[|buffer|..]);
    assert Split(server, buffer, |buffer|, floor, seen);
  }

  lemma BufferGrows(server: Server, buffer: seq<Update>, floor: nat, seen: nat, u: Update, before: nat)
    requires BufferGood(server, buffer, floor, seen)
    requires Truthful(server, u, before) && before == seen && before < u.first && 2 <= u.first <= u.last && !u.full
    ensures BufferGood(server, buffer + [u], floor, u.last)
  {
    var c: nat :| Split(server, buffer, c, floor, seen);
    var id: nat :| Chain(server, id, buffer[c..]);
    TruthFromInside(server, u, before, u.first - 1);
    assert (buffer + [u])[c..] == buffer[c..] + [u];
    if c == |buffer| {
      assert buffer[c..] == [] && [] + [u] == [u] && [u][1..] == [];
      assert Chain(server, before, (buffer + [u])[c..]);
    } else {
      ChainAppends(server, id, buffer[c..], u);
    }
    assert Split(server, buffer + [u], c, floor, u.last);
  }

  /** The message that continues a snapshot at or above the floor is in the chain, and so is all that
      follows it: what is replayed is contiguous with the snapshot. */
  lemma StraddleStartsChain(server: Server, buffer: seq<Update>, floor: nat, seen: nat, id: nat, k: nat)
    requires BufferGood(server, buffer, floor, seen) && floor <= id
    requires k == FirstStraddle(buffer, id) && k < |buffer|
    ensures Chain(server, id, buffer[k..])
  {
    var c: nat :| Split(server, buffer, c, floor, seen);
    assert Straddles(buffer[k], id);
    assert k >= c;
    var from: nat :| Chain(server, from, buffer[c..]);
    ChainSuffix(server, from, buffer[c..], k - c);
    assert buffer[c..][k - c..] == buffer[k..] && buffer[c..][k - c] == buffer[k];
    assert TruthfulMessage(server, buffer[k]);
    var from': nat :| Chain(server, from', buffer[k..]);
    TruthFromInside(server, buffer[k], buffer[k].first - 1, id);
  }

  // ---------------------------------------------------------------- the invariant

  ghost predicate BooksGood(servers: Servers, books: seq<Book>, subscribed: map<string, nat>) {
    forall s :: s in subscribed && subscribed[s] < |books| ==>
      GoodBook(servers(s), books[subscribed[s]]) && books[subscribed[s]].symbol == s
  }

  ghost predicate HandlerGood(servers: Servers, st: State, h: nat)
    requires WellFormed(st) && h in st.handlers
  {
    h < st.nextHandler && Attended(servers, st.handlers[h], st.books, st.init)
  }

  ghost predicate HandlersGood(servers: Servers, st: State)
    requires WellFormed(st)
  {
    && (forall h :: h in st.handlers ==> HandlerGood(servers, st, h))
    && (forall g, h :: g in st.handlers && h in st.handlers && st.handlers[g].book == st.handlers[h].book ==> g == h)
  }

  /** The ids below which a handler finds nothing that continues its snapshot. */
  function Floor(phase: Phase): nat {
    match phase
    case Fetching(firstId) => firstId
    case Sleeping(s, _) => s.id
  }

  /** A waiting subscribed book has a handler, and the buffer suits it. */
  ghost predicate Waiting(servers: Servers, st: State, s: string)
    requires WellFormed(st) && s in st.subscribed
  {
    st.books[st.subscribed[s]].id == 1 ==>
      exists h :: h in st.handlers && st.handlers[h].book == st.subscribed[s]
                  && BufferGood(servers(s), Lookup(st.init, s, []), Floor(st.handlers[h].phase), Lookup(st.seen, s, 0))
  }

  ghost predicate SyncsGood(servers: Servers, st: State)
    requires WellFormed(st)
  {
    forall s :: s in st.subscribed ==> Waiting(servers, st, s)
  }

  /** Nothing buffered is later than what has been seen. */
  ghost predicate BuffersSeen(init: map<string, seq<Update>>, seen: map<string, nat>) {
    forall s, i :: s in init && 0 <= i < |init[s]| ==> init[s][i].last <= Lookup(seen, s, 0)
  }

  ghost predicate Inv(servers: Servers, st: State) {
    && WellFormed(st)
    && BooksGood(servers, st.books, st.subscribed)
    && HandlersGood(servers, st)
    && SyncsGood(servers, st)
    && BuffersSeen(st.init, st.seen)
  }

  lemma InitialInv(servers: Servers)
    ensures Inv(servers, INITIAL)
  {
  }

  // ---------------------------------------------------------------- one step

  lemma PhaseGood(servers: Servers, st: State, h: nat)
    requires Inv(servers, st) && h in st.handlers
    ensures HandlerGood(servers, st, h)
  {
  }

  /** A subscribed book that is not waiting changes or stays, and the last id seen moves on. */
  lemma LiveKeepsInv(servers: Servers, st: State, r: State, symbol: string, book: Book, seen: nat)
    requires Inv(servers, st) && symbol in st.subscribed
    requires var b := st.subscribed[symbol];
             && st.books[b].id != 1 && r.books == st.books[b := book]
             && book.id != 1 && book.symbol == symbol && GoodBook(servers(symbol), book)
    requires r == st.(books := r.books, seen := st.seen[symbol := seen]) && seen >= Lookup(st.seen, symbol, 0)
    ensures Inv(servers, r)
  {
    hide BufferGood, GoodBook, TruthfulSnapshot;
    forall h | h in r.handlers ensures HandlerGood(servers, r, h) {
      assert HandlerGood(servers, st, h);
    }
    forall s | s in r.subscribed ensures Waiting(servers, r, s) {
      assert Waiting(servers, st, s);
    }
  }

  lemma StartSyncKeepsInv(servers: Servers, st: State, symbol: string, u: Update, before: nat)
    requires Inv(servers, st) && symbol in st.subscribed && st.books[st.subscribed[symbol]].id == 0
    requires 2 <= u.first <= u.last && Lookup(st.seen, symbol, 0) <= before < u.first
    ensures Inv(servers, StartSync(st, symbol, st.subscribed[symbol], u.first).(seen := st.seen[symbol := u.last]))
  {
    hide GoodSide, HandlersGood, SyncsGood;
    StartSyncKeepsHandlers(servers, st, symbol, u.first);
    StartSyncKeepsSyncs(servers, st, symbol, u, before);
    var r := StartSync(st, symbol, st.subscribed[symbol], u.first).(seen := st.seen[symbol := u.last]);
    HandlersIgnoreSeen(servers, StartSync(st, symbol, st.subscribed[symbol], u.first), r);
  }

  lemma HandlersIgnoreSeen(servers: Servers, st: State, r: State)
    requires WellFormed(st) && HandlersGood(servers, st) && r == st.(seen := r.seen)
    ensures HandlersGood(servers, r)
  {
  }

  lemma StartSyncKeepsSyncs(servers: Servers, st: State, symbol: string, u: Update, before: nat)
    requires Inv(servers, st) && symbol in st.subscribed && st.books[st.subscribed[symbol]].id == 0
    requires Lookup(st.seen, symbol, 0) <= before < u.first
    ensures SyncsGood(servers, StartSync(st, symbol, st.subscribed[symbol], u.first).(seen := st.seen[symbol := u.last]))
  {
    hide GoodBook, TruthfulSnapshot, BufferGood;
    var b := st.subscribed[symbol];
    var r := StartSync(st, symbol, b, u.first).(seen := st.seen[symbol := u.last]);
    BufferFromLeftovers(servers(symbol), Lookup(st.init, symbol, []), u.first, u.last);
    assert r.handlers[st.nextHandler].book == b;
    forall s | s in r.subscribed ensures Waiting(servers, r, s) {
      assert Waiting(servers, st, s);
      if s != symbol && r.books[r.subscribed[s]].id == 1 {
        var h :| h in st.handlers && st.handlers[h].book == st.subscribed[s]
                 && BufferGood(servers(s), Lookup(st.init, s, []), Floor(st.handlers[h].phase), Lookup(st.seen, s, 0));
        assert HandlerGood(servers, st, h) && r.handlers[h] == st.handlers[h];
      }
    }
  }

  lemma StartSyncKeepsHandlers(servers: Servers, st: State, symbol: string, firstId: nat)
    requires Inv(servers, st) && symbol in st.subscribed && st.books[st.subscribed[symbol]].id == 0 && firstId >= 2
    ensures HandlersGood(servers, StartSync(st, symbol, st.subscribed[symbol], firstId))
  {
  }

  lemma BufferKeepsInv(servers: Servers, st: State, symbol: string, u: Update, before: nat)
    requires Inv(servers, st) && symbol in st.subscribed && st.books[st.subscribed[symbol]].id == 1
    requires Truthful(servers(symbol), u, before) && before == Lookup(st.seen, symbol, 0) && before < u.first
    requires 2 <= u.first <= u.last && !u.full
    ensures Inv(servers, st.(init := Buffer(st.init, symbol, u, true), seen := st.seen[symbol := u.last]))
  {
    hide GoodBook, TruthfulSnapshot, BufferGood, Truthful;
    var r := st.(init := Buffer(st.init, symbol, u, true), seen := st.seen[symbol := u.last]);
    assert Waiting(servers, st, symbol);
    var g :| g in st.handlers && st.handlers[g].book == st.subscribed[symbol]
             && BufferGood(servers(symbol), Lookup(st.init, symbol, []), Floor(st.handlers[g].phase), before);
    assert HandlerGood(servers, st, g);
    BufferGrows(servers(symbol), st.init[symbol], Floor(st.handlers[g].phase), before, u, before);
    assert r.init[symbol] == st.init[symbol] + [u];
    forall h | h in r.handlers ensures HandlerGood(servers, r, h) {
      assert HandlerGood(servers, st, h);
    }
    forall s | s in r.subscribed ensures Waiting(servers, r, s) {
      assert Waiting(servers, st, s);
    }
  }

  lemma ArriveKeepsInv(servers: Servers, market: Market, st: State, symbol: string, u: Update,
                       previous: Option<nat>, parses: bool)
    requires Inv(servers, st) && FaithfulArrival(servers, market, st, symbol, u, previous, parses)
    ensures Inv(servers, ArriveStep(market, st, symbol, u, previous, parses))
  {
    hide HandlersGood, SyncsGood, BuffersSeen, GoodSide, TruthfulSide, ApplySide;
    if symbol in st.subscribed {
      var b := st.subscribed[symbol];
      var id := st.books[b].id;
      var before := Before(market, u, previous);
      var r := ArriveStep(market, st, symbol, u, previous, parses);
      if id == 0 {
        StartSyncKeepsInv(servers, st, symbol, u, before);
      } else if id == 1 {
        BufferKeepsInv(servers, st, symbol, u, before);
      } else {
        if parses && Judge(market, id, u, previous).Accept? {
          Absorb(servers(symbol), st.books[b], u, before);
        }
        var seen := Lookup(st.seen, symbol, 0);
        LiveKeepsInv(servers, st, r, symbol, r.books[b], if u.last > seen then u.last else seen);
      }
    }
  }

  /** A handler ends and its book no longer waits, or the buffer was taken and it sleeps on. */
  lemma EndKeepsInv(servers: Servers, st: State, r: State, h: nat, book: Book)
    requires Inv(servers, st) && h in st.handlers
    requires r.books == st.books[st.handlers[h].book := book] && book.symbol == st.handlers[h].symbol
    requires st.handlers[h].symbol in st.subscribed && st.subscribed[st.handlers[h].symbol] == st.handlers[h].book
             ==> book.id != 1 && GoodBook(servers(book.symbol), book)
    requires r.init == st.init || r.init == st.init[st.handlers[h].symbol := []]
    requires r.handlers == st.handlers - {h}
    requires r.subscribed == st.subscribed && r.nextHandler == st.nextHandler && r.seen == st.seen
    ensures Inv(servers, r)
  {
    hide GoodBook, TruthfulSnapshot, BufferGood;
    var (symbol, b) := (st.handlers[h].symbol, st.handlers[h].book);
    assert HandlerGood(servers, st, h);
    forall g | g in r.handlers ensures HandlerGood(servers, r, g) {
      assert HandlerGood(servers, st, g);
    }
    forall s | s in r.subscribed ensures Waiting(servers, r, s) {
      assert Waiting(servers, st, s);
      if r.books[r.subscribed[s]].id == 1 {
        assert r.subscribed[s] != b;
        var g :| g in st.handlers && st.handlers[g].book == st.subscribed[s]
                 && BufferGood(servers(s), Lookup(st.init, s, []), Floor(st.handlers[g].phase), Lookup(st.seen, s, 0));
        assert g in r.handlers;
        BufferFromLeftovers(servers(s), [], Floor(st.handlers[g].phase), Lookup(st.seen, s, 0));
      }
    }
  }

  lemma SleepKeepsInv(servers: Servers, st: State, h: nat, s: Snapshot, retries: nat)
    requires Inv(servers, st) && h in st.handlers && retries < MAX_TRIES
    requires TruthfulSnapshot(servers(st.handlers[h].symbol), s)
    ensures var Handler(symbol, b, _) := st.handlers[h];
            Inv(servers, st.(init := st.init[symbol := []],
                             handlers := st.handlers[h := Handler(symbol, b, Sleeping(s, retries))]))
  {
    hide GoodBook, TruthfulSnapshot, BufferGood;
    var Handler(symbol, b, _) := st.handlers[h];
    var r := st.(init := st.init[symbol := []], handlers := st.handlers[h := Handler(symbol, b, Sleeping(s, retries))]);
    assert HandlerGood(servers, st, h);
    forall g | g in r.handlers ensures HandlerGood(servers, r, g) {
      assert HandlerGood(servers, st, g);
    }
    forall t | t in r.subscribed ensures Waiting(servers, r, t) {
      assert Waiting(servers, st, t);
      if r.books[r.subscribed[t]].id == 1 {
        var g :| g in st.handlers && st.handlers[g].book == st.subscribed[t]
                 && BufferGood(servers(t), Lookup(st.init, t, []), Floor(st.handlers[g].phase), Lookup(st.seen, t, 0));
        assert HandlerGood(servers, st, g) && g in r.handlers && r.handlers[g].book == st.subscribed[t];
        BufferFromLeftovers(servers(t), [], Floor(r.handlers[g].phase), Lookup(st.seen, t, 0));
      }
    }
  }

  /** The replay on the subscribed book that the handler works for makes a good live book. */
  lemma InstalledGood(servers: Servers, st: State, h: nat, s: Snapshot)
    requires Inv(servers, st) && h in st.handlers && Floor(st.handlers[h].phase) <= s.id
    requires var Handler(symbol, b, _) := st.handlers[h];
             && TruthfulSnapshot(servers(symbol), s)
             && symbol in st.subscribed && st.subscribed[symbol] == b
             && symbol in st.init && FirstStraddle(st.init[symbol], s.id) < |st.init[symbol]|
    ensures var Handler(symbol, b, _) := st.handlers[h];
            var pending := st.init[symbol];
            var r := ReplayAll(FromSnapshot(symbol, s).(id := 1), pending[FirstStraddle(pending, s.id)..]);
            GoodBook(servers(symbol), r) && r.symbol == symbol && r.id >= 2
  {
    hide GoodBook, TruthfulSnapshot, BufferGood, BooksGood, BuffersSeen, FirstStraddle, ReplayAll, Chain;
    var Handler(symbol, b, _) := st.handlers[h];
    PhaseGood(servers, st, h);
    assert Waiting(servers, st, symbol);
    var g :| g in st.handlers && st.handlers[g].book == b
             && BufferGood(servers(symbol), Lookup(st.init, symbol, []), Floor(st.handlers[g].phase),
                           Lookup(st.seen, symbol, 0));
    assert g == h;
    var pending := st.init[symbol];
    var k := FirstStraddle(pending, s.id);
    StraddleStartsChain(servers(symbol), pending, Floor(st.handlers[h].phase), Lookup(st.seen, symbol, 0), s.id, k);
    FreshBookGood(servers(symbol), symbol, s);
    SnapshotId(symbol, s);
    ReplayAllGood(servers(symbol), FromSnapshot(symbol, s), pending[k..]);
    StraddleLast(pending, s.id);
    ReplayIgnoresId(FromSnapshot(symbol, s), 1, pending[k..]);
  }

  lemma StraddleLast(pending: seq<Update>, id: nat)
    requires FirstStraddle(pending, id) < |pending|
    ensures pending[FirstStraddle(pending, id)].last > 0
  {
  }

  lemma {:induction false} ReplayAllSymbol(book: Book, updates: seq<Update>)
    ensures ReplayAll(book, updates).symbol == book.symbol
    decreases |updates|
  {
    hide ApplySide;
    if updates != [] { ReplayAllSymbol(Applied(book, updates[0]), updates[1..]); }
  }

  lemma {:induction false} ReplayIsLive(book: Book, updates: seq<Update>)
    requires updates != [] && forall i :: 0 <= i < |updates| ==> updates[i].last >= 2
    ensures ReplayAll(book, updates).id >= 2
    decreases |updates|
  {
    hide ApplySide;
    var next := Applied(book, updates[0]);
    if |updates| == 1 {
      assert ReplayAll(book, updates) == ReplayAll(next, []);
    } else {
      ReplayIsLive(next, updates[1..]);
    }
  }

  lemma LookKeepsInv(servers: Servers, st: State, h: nat, s: Snapshot, retries: nat)
    requires Inv(servers, st) && h in st.handlers && retries <= MAX_TRIES
    requires TruthfulSnapshot(servers(st.handlers[h].symbol), s) && Floor(st.handlers[h].phase) <= s.id
    ensures Inv(servers, LookStep(st, h, s, retries))
  {
    hide GoodSide, TruthfulSnapshot, HandlersGood, SyncsGood, BuffersSeen, FirstStraddle, ReplayAll, SnapshotBook;
    var Handler(symbol, b, _) := st.handlers[h];
    PhaseGood(servers, st, h);
    var r := LookStep(st, h, s, retries);
    if retries == MAX_TRIES {
      EndKeepsInv(servers, st, r, h, st.books[b].(id := 0));
    } else {
      var pending := st.init[symbol];
      var k := FirstStraddle(pending, s.id);
      if k == |pending| {
        SleepKeepsInv(servers, st, h, s, retries);
      } else {
        StraddleBound(pending, s.id);
        var book := FromSnapshot(symbol, s).(id := 1);
        SnapshotSymbol(symbol, s);
        ReplayAllSymbol(book, pending[k..]);
        if symbol in st.subscribed && st.subscribed[symbol] == b {
          InstalledGood(servers, st, h, s);
        }
        EndKeepsInv(servers, st, r, h, ReplayAll(book, pending[k..]));
      }
    }
  }

  lemma SnapshotSymbol(symbol: string, s: Snapshot)
    ensures FromSnapshot(symbol, s).symbol == symbol
  {
  }

  lemma StraddleBound(pending: seq<Update>, id: nat)
    ensures FirstStraddle(pending, id) <= |pending|
  {
  }

  lemma SnapshotKeepsInv(servers: Servers, market: Market, st: State, h: nat, responses: seq<Option<Snapshot>>)
    requires Inv(servers, st) && Enabled(st, SnapshotReturns(h, responses))
    requires FaithfulEvent(servers, market, st, SnapshotReturns(h, responses))
    ensures Inv(servers, SnapshotStep(st, h, responses))
  {
    hide GoodSide, TruthfulSnapshot, HandlersGood, SyncsGood, BuffersSeen, LookStep, BooksGood;
    PhaseGood(servers, st, h);
    match Answer(responses)
    case None =>
      var b := st.handlers[h].book;
      EndKeepsInv(servers, st, SnapshotStep(st, h, responses), h, st.books[b].(id := 0));
    case Some(s) => LookKeepsInv(servers, st, h, s, 0);
  }

  lemma WakeKeepsInv(servers: Servers, st: State, h: nat)
    requires Inv(servers, st) && h in st.handlers && st.handlers[h].phase.Sleeping?
    ensures Inv(servers, WakeStep(st, h))
  {
    hide GoodSide, TruthfulSnapshot, HandlersGood, SyncsGood, BuffersSeen, LookStep, BooksGood;
    PhaseGood(servers, st, h);
    LookKeepsInv(servers, st, h, st.handlers[h].phase.snapshot, st.handlers[h].phase.retries + 1);
  }

  lemma SubscriptionKeepsInv(servers: Servers, st: State, r: State)
    requires Inv(servers, st)
    requires r.init == st.init && r.handlers == st.handlers && r.nextHandler == st.nextHandler && r.seen == st.seen
    requires r.books == st.books || exists s :: r.books == st.books + [Book(s, EMPTY_SIDE, EMPTY_SIDE, 0)]
    requires forall s :: s in r.subscribed ==>
               (s in st.subscribed && r.subscribed[s] == st.subscribed[s])
               || (r.subscribed[s] == |st.books| && r.books == st.books + [Book(s, EMPTY_SIDE, EMPTY_SIDE, 0)])
    ensures Inv(servers, r)
  {
    hide GoodSide, TruthfulSnapshot, BufferGood;
    forall h | h in r.handlers ensures HandlerGood(servers, r, h) {
      assert HandlerGood(servers, st, h);
    }
    forall s | s in r.subscribed ensures Waiting(servers, r, s) {
      if s in st.subscribed { assert Waiting(servers, st, s); }
    }
  }

  lemma StepKeepsInv(servers: Servers, market: Market, st: State, e: Event)
    requires Inv(servers, st) && FaithfulEvent(servers, market, st, e)
    ensures Inv(servers, Step(market, st, e))
  {
    hide BooksGood, HandlersGood, SyncsGood, BuffersSeen, ArriveStep, SnapshotStep, WakeStep, FaithfulArrival;
    if Enabled(st, e) {
      match e
      case Watch(symbol, ok) => SubscriptionKeepsInv(servers, st, Step(market, st, e));
      case Unwatch(symbol, ok) => SubscriptionKeepsInv(servers, st, Step(market, st, e));
      case OnFail => FailKeepsInv(servers, st);
      case Arrive(symbol, u, previous, parses) => ArriveKeepsInv(servers, market, st, symbol, u, previous, parses);
      case SnapshotReturns(h, responses) => SnapshotKeepsInv(servers, market, st, h, responses);
      case Wake(h) => WakeKeepsInv(servers, st, h);
    }
  }

  lemma FailKeepsInv(servers: Servers, st: State)
    requires Inv(servers, st)
    ensures Inv(servers, FailStep(st))
  {
  }

  // ---------------------------------------------------------------- whole runs

  ghost predicate FaithfulRun(servers: Servers, market: Market, st: State, events: seq<Event>)
    requires WellFormed(st)
    decreases |events|
  {
    events == [] || (FaithfulEvent(servers, market, st, events[0])
                     && FaithfulRun(servers, market, Step(market, st, events[0]), events[1..]))
  }

  lemma {:induction false} RunKeepsInv(servers: Servers, market: Market, st: State, events: seq<Event>)
    requires Inv(servers, st) && FaithfulRun(servers, market, st, events)
    ensures Inv(servers, Run(market, st, events))
    decreases |events|
  {
    hide BooksGood, HandlersGood, SyncsGood, BuffersSeen, Step, FaithfulEvent;
    if events != [] {
      StepKeepsInv(servers, market, st, events[0]);
      RunKeepsInv(servers, market, Step(market, st, events[0]), events[1..]);
    }
  }

  /** Binance safety, for both markets: in every run over an in-order stream that is lossless and parseable
      while books wait, every subscribed live book is the exchange's book at its id on the tracked prices. */
  lemma EveryRunIsSafe(servers: Servers, market: Market, events: seq<Event>, symbol: string)
    requires FaithfulRun(servers, market, INITIAL, events)
    requires var st := Run(market, INITIAL, events);
             symbol in st.subscribed && st.books[st.subscribed[symbol]].id >= 2
    ensures var st := Run(market, INITIAL, events);
            var book := st.books[st.subscribed[symbol]];
            && Agrees(book.bids, servers(symbol).bids(book.id))
            && Agrees(book.asks, servers(symbol).asks(book.id))
  {
    InitialInv(servers);
    RunKeepsInv(servers, market, INITIAL, events);
  }
}
