/**
 Gate keeps, per symbol, a set of bid prices that outlives the books, and panics when a live book
 has a bid outside it. That panic can happen, because a handler whose book has been unsubscribed
 still edits the set. This module says exactly when: the sets know all bids of the live books until a
 step resumes such a handler and its replay finally removes one of them; from then on some next
 message panics.
 */
module GateHistory {
  import opened Wrappers
  import opened OrderBooks
  import opened ServerHistory
  import opened Waiters
  import opened DepthSync
  import opened GateProtocol
  import opened GateSafety

  /** The last entry for a price decides whether the set keeps it. */
  lemma {:induction false} EditHistoryAt(known: set<real>, entries: seq<(real, real)>, p: real)
    ensures p in EditHistory(known, entries)
       <==> match LastEntry(entries, p) { case None => p in known case Some(q) => q != 0.0 }
  {
    if entries != [] {
      EditHistoryAt(known, entries[..|entries| - 1], p);
    }
  }

  /** A message keeps a covered book covered. */
  lemma FoldCovered(levels: Levels, known: set<real>, entries: seq<(real, real)>)
    requires levels.Keys <= known
    ensures Fold(levels, entries).Keys <= EditHistory(known, entries)
  {
  }

  lemma {:induction false} ReplayCovered(book: Book, known: set<real>, updates: seq<Update>)
    requires book.bids.levels.Keys <= known
    ensures var (r, known') := Replay(book, known, updates); r.bids.levels.Keys <= known'
    decreases |updates|
  {
    if updates != [] && !Gap(book.id, updates[0]) {
      FoldCovered(if updates[0].full then map[] else book.bids.levels, known, updates[0].bids);
      ReplayCovered(Applied(book, updates[0]), EditHistory(known, updates[0].bids), updates[1..]);
    }
  }

  lemma SubsetAt(a: set<real>, b: set<real>)
    ensures a <= b <==> forall p :: p in a ==> p in b
  {
    if forall p :: p in a ==> p in b {
      forall p | p in a ensures p in b {}
      assert a <= b;
    }
  }

  /** A broadcast panics exactly when the message neither replaces the book nor mentions some bid
      of the book that the set has lost. */
  lemma BroadcastPanicsIff(st: State, symbol: string, b: nat, u: Update)
    requires WellFormed(st) && b < |st.books| && !st.panicked
    ensures Broadcast(st, symbol, b, u).panicked
       <==> !u.full && exists p :: p in st.books[b].bids.levels && p !in Lookup(st.history, symbol, {})
                                   && LastEntry(u.bids, p).None?
  {
    var levels := if u.full then map[] else st.books[b].bids.levels;
    var known := Lookup(st.history, symbol, {});
    var book := Applied(st.books[b], u);
    assert book.bids.levels == Fold(levels, u.bids);
    forall p ensures p in Fold(levels, u.bids) && p !in EditHistory(known, u.bids)
                <==> p in levels && p !in known && LastEntry(u.bids, p).None?
    {
      FoldAt(levels, u.bids, p);
      EditHistoryAt(known, u.bids, p);
    }
    SubsetAt(book.bids.levels.Keys, EditHistory(known, u.bids));
    if Broadcast(st, symbol, b, u).panicked {
      var p :| p in book.bids.levels.Keys && p !in EditHistory(known, u.bids);
      assert p in levels;
    } else {
      forall p | p in levels && LastEntry(u.bids, p).None? ensures p in known {
        assert p in Fold(levels, u.bids) ==> p in EditHistory(known, u.bids);
      }
    }
  }

  // ---------------------------------------------------------------- when a replay uncovers a bid

  /** The bid entries of the buffered messages that a replay accepts. */
  ghost function AcceptedBids(book: Book, updates: seq<Update>): seq<(real, real)>
    decreases |updates|
  {
    if updates == [] || Gap(book.id, updates[0]) then []
    else updates[0].bids + AcceptedBids(Applied(book, updates[0]), updates[1..])
  }

  lemma {:induction false} EditHistoryAppends(known: set<real>, a: seq<(real, real)>, b: seq<(real, real)>)
    ensures EditHistory(known, a + b) == EditHistory(EditHistory(known, a), b)
    decreases |b|
  {
    if b == [] {
      assert a + b == a;
    } else {
      var n := |b| - 1;
      EditHistoryAppends(known, a, b[..n]);
      assert (a + b)[..|a + b| - 1] == a + b[..n];
    }
  }

  lemma {:induction false} ReplayEdits(book: Book, known: set<real>, updates: seq<Update>)
    ensures Replay(book, known, updates).1 == EditHistory(known, AcceptedBids(book, updates))
    decreases |updates|
  {
    if updates != [] && !Gap(book.id, updates[0]) {
      var rest := Applied(book, updates[0]);
      ReplayEdits(rest, EditHistory(known, updates[0].bids), updates[1..]);
      EditHistoryAppends(known, updates[0].bids, AcceptedBids(rest, updates[1..]));
    }
  }

  /** A handler whose book is unsubscribed replays its buffer while the symbol's subscribed book is live
      and covered: that book stays covered if and only if the replay does not finally remove one of its
      bids. */
  lemma OrphanReplayCoversIff(servers: Servers, st: State, h: nat, s: Snapshot, retries: nat)
    requires Core(servers, st) && h in st.handlers && retries < MAX_TRIES
    requires var x := st.handlers[h];
             && x.symbol in st.subscribed && st.subscribed[x.symbol] != x.book
             && st.books[st.subscribed[x.symbol]].bids.levels.Keys <= Lookup(st.history, x.symbol, {})
             && FirstStraddle(Lookup(st.init, x.symbol, []), s.id) < |Lookup(st.init, x.symbol, [])|
    ensures var x := st.handlers[h];
            var live := st.books[st.subscribed[x.symbol]].bids.levels.Keys;
            var pending := Lookup(st.init, x.symbol, []);
            var replayed := AcceptedBids(FromSnapshot(x.symbol, s), pending[FirstStraddle(pending, s.id)..]);
            && LookStep(st, h, s, retries).books[st.subscribed[x.symbol]] == st.books[st.subscribed[x.symbol]]
            && (live <= Lookup(LookStep(st, h, s, retries).history, x.symbol, {})
                <==> forall p :: p in live ==> LastEntry(replayed, p) != Some(0.0))
  {
    hide BooksGood, BuffersGood, SubscribedGood, Replay, AcceptedBids, EditHistory, SnapshotBook;
    PhaseGood(servers, st, h);
    var x := st.handlers[h];
    var live := st.books[st.subscribed[x.symbol]].bids.levels.Keys;
    var pending := Lookup(st.init, x.symbol, []);
    var updates := pending[FirstStraddle(pending, s.id)..];
    var known := Lookup(st.history, x.symbol, {}) + s.bids.Keys;
    var book := FromSnapshot(x.symbol, s);
    ReplayEdits(book, known, updates);
    var after := Lookup(LookStep(st, h, s, retries).history, x.symbol, {});
    var replayed := AcceptedBids(book, updates);
    assert after == EditHistory(known, replayed);
    SubsetAt(live, after);
    forall p | p in live ensures p in after <==> LastEntry(replayed, p) != Some(0.0) {
      EditHistoryAt(known, replayed, p);
    }
  }

  // ---------------------------------------------------------------- when the sets know every live book's bids

  ghost predicate SymbolKnown(st: State, s: string)
    requires WellFormed(st) && s in st.subscribed
  {
    var book := st.books[st.subscribed[s]];
    book.id >= 2 ==> book.bids.levels.Keys <= Lookup(st.history, s, {})
  }

  ghost predicate Known(st: State)
    requires WellFormed(st)
  {
    forall s :: s in st.subscribed ==> SymbolKnown(st, s)
  }

  /** Knowing a live book's bids is what stands between it and a panic: some next message panics exactly
      when the set has lost one of them. */
  lemma SomeMessagePanicsIff(st: State, s: string)
    requires WellFormed(st) && !st.panicked && s in st.subscribed && st.books[st.subscribed[s]].id >= 2
    ensures (exists u :: ArriveStep(st, s, u, true).panicked) <==> !SymbolKnown(st, s)
  {
    hide Broadcast;
    var b := st.subscribed[s];
    var (bids, known) := (st.books[b].bids.levels.Keys, Lookup(st.history, s, {}));
    SubsetAt(bids, known);
    forall u ensures ArriveStep(st, s, u, true).panicked ==> !SymbolKnown(st, s) {
      BroadcastPanicsIff(st, s, b, u);
    }
    if !SymbolKnown(st, s) {
      var p :| p in bids && p !in known;
      var u := Update([], [], st.books[b].id + 1, st.books[b].id + 1, false);
      assert LastEntry(u.bids, p).None?;
      BroadcastPanicsIff(st, s, b, u);
      assert ArriveStep(st, s, u, true).panicked;
    }
  }

  /** The same for true messages, of an exchange that lists no empty levels: some true next message panics exactly
      when one of the lost bids is the same at the next id, so that the message need not mention it. */
  lemma TruthfulMessagePanicsIff(servers: Servers, st: State, s: string)
    requires WellFormed(st) && !st.panicked && s in st.subscribed && st.books[st.subscribed[s]].id >= 2
    requires var next := st.books[st.subscribed[s]].id + 1;
             NoZeros(servers(s).bids(next)) && NoZeros(servers(s).asks(next))
    ensures var book := st.books[st.subscribed[s]];
            (exists u :: TruthfulMessage(servers(s), u) && ArriveStep(st, s, u, true).panicked)
            <==> exists p :: p in book.bids.levels && p !in Lookup(st.history, s, {})
                             && Entry(servers(s).bids(book.id), p) == Entry(servers(s).bids(book.id + 1), p)
  {
    hide Broadcast, LastEntry;
    var b := st.subscribed[s];
    var (book, known, bids) := (st.books[b], Lookup(st.history, s, {}), servers(s).bids);
    forall u | TruthfulMessage(servers(s), u) && ArriveStep(st, s, u, true).panicked
      ensures exists p :: p in book.bids.levels && p !in known && Entry(bids(book.id), p) == Entry(bids(book.id + 1), p)
    {
      BroadcastPanicsIff(st, s, b, u);
      var p :| p in book.bids.levels && p !in known && LastEntry(u.bids, p).None?;
      assert u.first - 1 <= book.id < book.id + 1 <= u.last;
      assert Entry(bids(book.id), p) == Entry(bids(u.last), p) == Entry(bids(book.id + 1), p);
    }
    if p :| p in book.bids.levels && p !in known && Entry(bids(book.id), p) == Entry(bids(book.id + 1), p) {
      var bidList := NextDiff(bids, book.id);
      var askList := NextDiff(servers(s).asks, book.id);
      var u := Update(bidList, askList, book.id + 1, book.id + 1, false);
      BroadcastPanicsIff(st, s, b, u);
      assert LastEntry(u.bids, p).None?;
      assert TruthfulMessage(servers(s), u) && ArriveStep(st, s, u, true).panicked;
    }
  }

  lemma BroadcastKnown(st: State, symbol: string, u: Update)
    requires WellFormed(st) && Known(st) && !st.panicked && symbol in st.subscribed
    requires st.books[st.subscribed[symbol]].id >= 2 || u.full
    requires forall s :: s in st.subscribed && st.subscribed[s] == st.subscribed[symbol] ==> s == symbol
    ensures var r := Broadcast(st, symbol, st.subscribed[symbol], u); Known(r) && !r.panicked
  {
    var b := st.subscribed[symbol];
    assert SymbolKnown(st, symbol);
    FoldCovered(if u.full then map[] else st.books[b].bids.levels, Lookup(st.history, symbol, {}), u.bids);
    var r := Broadcast(st, symbol, b, u);
    forall s | s in r.subscribed ensures SymbolKnown(r, s) {
      assert SymbolKnown(st, s);
    }
  }

  lemma ArriveKnown(servers: Servers, st: State, symbol: string, u: Update, parses: bool)
    requires Core(servers, st) && Known(st) && !st.panicked
    ensures var r := ArriveStep(st, symbol, u, parses); Known(r) && !r.panicked
  {
    hide BooksGood, BuffersGood, HandlersGood, Broadcast, Applied, EditHistory;
    if symbol in st.subscribed {
      var id := st.books[st.subscribed[symbol]].id;
      if parses && ((id == 0 && u.full) || (id >= 2 && !Gap(id, u))) {
        BroadcastKnown(st, symbol, u);
      } else {
        var r := ArriveStep(st, symbol, u, parses);
        forall s | s in r.subscribed ensures SymbolKnown(r, s) {
          assert SymbolKnown(st, s);
        }
      }
    }
  }

  /** A look uncovers: its handler's book is no longer the symbol's, and the replay finally removes a bid of the
      book that is, while that one is live. */
  ghost predicate LookUncovers(st: State, h: nat, snapshot: Snapshot, retries: nat)
    requires WellFormed(st) && h in st.handlers
  {
    var x := st.handlers[h];
    var pending := Lookup(st.init, x.symbol, []);
    var k := FirstStraddle(pending, snapshot.id);
    && retries < MAX_TRIES && k < |pending|
    && x.symbol in st.subscribed && st.subscribed[x.symbol] != x.book
    && var live := st.books[st.subscribed[x.symbol]];
       var replayed := AcceptedBids(FromSnapshot(x.symbol, snapshot), pending[k..]);
       live.id >= 2 && exists p :: p in live.bids.levels && LastEntry(replayed, p) == Some(0.0)
  }

  /** What a look can touch: its own book, its own symbol's buffer, and its own symbol's set. */
  lemma LookTouches(st: State, h: nat, snapshot: Snapshot, retries: nat)
    requires WellFormed(st) && h in st.handlers
    ensures var r := LookStep(st, h, snapshot, retries);
            var Handler(symbol, b, _) := st.handlers[h];
            && r.subscribed == st.subscribed && r.panicked == st.panicked && r.books == st.books[b := r.books[b]]
            && (r.init == st.init[symbol := []] || (r.init == st.init && r.books[b].id <= st.books[b].id))
            && forall s :: s != symbol ==> Lookup(r.history, s, {}) == Lookup(st.history, s, {})
  {
    hide Install, FirstStraddle;
    var Handler(symbol, b, _) := st.handlers[h];
    if symbol in st.init {
      var pending := st.init[symbol];
      var k := FirstStraddle(pending, snapshot.id);
      if k < |pending| { InstallTouches(st.(init := st.init[symbol := []]), symbol, b, snapshot, pending[k..]); }
    }
  }

  lemma InstallTouches(st: State, symbol: string, b: nat, s: Snapshot, updates: seq<Update>)
    requires b < |st.books|
    ensures var r := Install(st, symbol, b, s, updates);
            && r == st.(books := r.books, history := r.history) && r.books == st.books[b := r.books[b]]
            && forall t :: t != symbol ==> Lookup(r.history, t, {}) == Lookup(st.history, t, {})
  {
    hide Replay, SnapshotBook;
  }

  lemma LookKnownIff(servers: Servers, st: State, h: nat, snapshot: Snapshot, retries: nat)
    requires Core(servers, st) && Known(st) && h in st.handlers && retries <= MAX_TRIES
    ensures Known(LookStep(st, h, snapshot, retries)) <==> !LookUncovers(st, h, snapshot, retries)
  {
    hide BooksGood, BuffersGood, LookStep, LookUncovers;
    PhaseGood(servers, st, h);
    var x := st.handlers[h];
    var r := LookStep(st, h, snapshot, retries);
    LookTouches(st, h, snapshot, retries);
    forall s | s in r.subscribed && s != x.symbol ensures SymbolKnown(r, s) {
      assert SymbolKnown(st, s);
    }
    if x.symbol in st.subscribed {
      assert SymbolKnown(st, x.symbol);
      OwnLookKnownIff(servers, st, h, snapshot, retries);
    } else if LookUncovers(st, h, snapshot, retries) {
      SymbolIsUncovered(st, h, snapshot, retries);
    }
  }

  lemma SymbolIsUncovered(st: State, h: nat, snapshot: Snapshot, retries: nat)
    requires WellFormed(st) && h in st.handlers && LookUncovers(st, h, snapshot, retries)
    ensures st.handlers[h].symbol in st.subscribed
  {
  }

  /** The same for the handler's own symbol. */
  lemma OwnLookKnownIff(servers: Servers, st: State, h: nat, snapshot: Snapshot, retries: nat)
    requires Core(servers, st) && h in st.handlers && retries <= MAX_TRIES
    requires st.handlers[h].symbol in st.subscribed && SymbolKnown(st, st.handlers[h].symbol)
    ensures SymbolKnown(LookStep(st, h, snapshot, retries), st.handlers[h].symbol)
       <==> !LookUncovers(st, h, snapshot, retries)
  {
    hide BooksGood, BuffersGood, SubscribedGood, Replay, AcceptedBids, EditHistory, SnapshotBook;
    PhaseGood(servers, st, h);
    var Handler(symbol, b, _) := st.handlers[h];
    var pending := st.init[symbol];
    var k := FirstStraddle(pending, snapshot.id);
    if retries < MAX_TRIES && k < |pending| {
      if st.subscribed[symbol] == b {
        SnapshotBids(symbol, snapshot);
        ReplayCovered(FromSnapshot(symbol, snapshot), Lookup(st.history, symbol, {}) + snapshot.bids.Keys, pending[k..]);
      } else if st.books[st.subscribed[symbol]].id >= 2 {
        OrphanReplayCoversIff(servers, st, h, snapshot, retries);
      }
    }
  }

  lemma SnapshotBids(symbol: string, s: Snapshot)
    ensures FromSnapshot(symbol, s).bids.levels == s.bids
  {
  }

  /** A step uncovers: it resumes a handler whose look does. */
  ghost predicate Uncovers(st: State, e: Event)
    requires WellFormed(st) && ValidEvent(e)
  {
    Enabled(st, e) &&
    match e {
      case Wake(h) => LookUncovers(st, h, st.handlers[h].phase.snapshot, st.handlers[h].phase.retries + 1)
      case SnapshotReturns(h, responses) =>
        var s := Fetch(NO_SNAPSHOT, responses, st.handlers[h].phase.firstId, 0);
        s.Some? && LookUncovers(st, h, s.value, 0)
      case _ => false
    }
  }

  /** Exactly when a set loses a live book's bid: from a state in which the sets know every live book's bids, no
      step panics, and they still know them after it if and only if it does not uncover one. */
  lemma StepKnownIff(servers: Servers, st: State, e: Event)
    requires Inv(servers, st) && Known(st) && !st.panicked && ValidEvent(e)
    ensures !Step(st, e).panicked && (Known(Step(st, e)) <==> !Uncovers(st, e))
  {
    hide BooksGood, BuffersGood, HandlersGood, SubscribedGood, QueuesGood, LookStep, LookUncovers, ArriveStep, WatchStep;
    hide SnapshotStep, Drop, DropAll;
    if Enabled(st, e) {
      match e
      case Arrive(symbol, u, parses) => ArriveKnown(servers, st, symbol, u, parses);
      case Wake(h) =>
        PhaseGood(servers, st, h);
        LookTouches(st, h, st.handlers[h].phase.snapshot, st.handlers[h].phase.retries + 1);
        LookKnownIff(servers, st, h, st.handlers[h].phase.snapshot, st.handlers[h].phase.retries + 1);
      case SnapshotReturns(h, responses) => SnapshotKnownIff(servers, st, h, responses);
      case Watch(symbol, ok) => WatchKnown(st, symbol, ok);
      case Unwatch(_, _) =>
        var r := Step(st, e);
        forall s | s in r.subscribed ensures SymbolKnown(r, s) { assert SymbolKnown(st, s); }
      case OnFail =>
    }
  }

  lemma SnapshotKnownIff(servers: Servers, st: State, h: nat, responses: seq<Option<Snapshot>>)
    requires Core(servers, st) && Known(st) && !st.panicked && |responses| == MAX_TRIES
    requires h in st.handlers && st.handlers[h].phase.Fetching?
    ensures !SnapshotStep(st, h, responses).panicked
    ensures Known(SnapshotStep(st, h, responses))
       <==> var s := Fetch(NO_SNAPSHOT, responses, st.handlers[h].phase.firstId, 0);
            !(s.Some? && LookUncovers(st, h, s.value, 0))
  {
    hide BooksGood, BuffersGood, LookStep, LookUncovers;
    PhaseGood(servers, st, h);
    match Fetch(NO_SNAPSHOT, responses, st.handlers[h].phase.firstId, 0)
    case Some(s) =>
      LookTouches(st, h, s, 0);
      LookKnownIff(servers, st, h, s, 0);
    case None =>
      var r := SnapshotStep(st, h, responses);
      forall s | s in r.subscribed ensures SymbolKnown(r, s) { assert SymbolKnown(st, s); }
  }

  lemma WatchKnown(st: State, symbol: string, subscribeOk: bool)
    requires WellFormed(st) && QueuesGood(st.queues, st.subscribed.Keys) && Known(st) && !st.panicked
    ensures var r := WatchStep(st, symbol, subscribeOk); Known(r) && !r.panicked
  {
    hide Conserved, DeliveredLive;
    WatchKeepsQueues(st, symbol, subscribeOk);
    var r := WatchStep(st, symbol, subscribeOk);
    forall s | s in r.subscribed ensures SymbolKnown(r, s) {
      if s in st.subscribed { assert SymbolKnown(st, s); }
    }
  }

  ghost predicate CoveringRun(st: State, events: seq<Event>)
    requires WellFormed(st) && forall e :: e in events ==> ValidEvent(e)
    decreases |events|
  {
    events == [] || (!Uncovers(st, events[0]) && CoveringRun(Step(st, events[0]), events[1..]))
  }

  /** A truthful run in which no step uncovers a bid does not panic: not at the bid check, and not at the lookup
      in `watch`. */
  lemma {:induction false} CoveringRunsDoNotPanic(servers: Servers, st: State, events: seq<Event>)
    requires Inv(servers, st) && Known(st) && !st.panicked && (forall e :: e in events ==> ValidEvent(e))
    requires TruthfulRun(servers, st, events) && CoveringRun(st, events)
    ensures Known(Run(st, events)) && !Run(st, events).panicked
    decreases |events|
  {
    hide Step, BooksGood, HandlersGood, SubscribedGood, BuffersGood, QueuesGood, TruthfulEvent, Uncovers, Known;
    if events != [] {
      StepKeepsInv(servers, st, events[0]);
      StepKnownIff(servers, st, events[0]);
      CoveringRunsDoNotPanic(servers, Step(st, events[0]), events[1..]);
    }
  }

  /** Before the first step that uncovers a bid nothing panics; the first panic of a run comes after it. */
  lemma {:induction false} PanicNeedsUncovering(servers: Servers, st: State, events: seq<Event>)
    requires Inv(servers, st) && Known(st) && !st.panicked && (forall e :: e in events ==> ValidEvent(e))
    requires TruthfulRun(servers, st, events) && Run(st, events).panicked
    ensures exists k :: 0 <= k < |events| && !Run(st, events[..k]).panicked && Known(Run(st, events[..k]))
                        && Uncovers(Run(st, events[..k]), events[k])
    decreases |events|
  {
    hide Step, BooksGood, HandlersGood, SubscribedGood, BuffersGood, QueuesGood, TruthfulEvent, Uncovers, Known;
    if Uncovers(st, events[0]) {
      assert events[..0] == [] && Run(st, events[..0]) == st;
    } else {
      var st' := Step(st, events[0]);
      StepKeepsInv(servers, st, events[0]);
      StepKnownIff(servers, st, events[0]);
      PanicNeedsUncovering(servers, st', events[1..]);
      var k :| 0 <= k < |events[1..]| && !Run(st', events[1..][..k]).panicked && Known(Run(st', events[1..][..k]))
               && Uncovers(Run(st', events[1..][..k]), events[1..][k]);
      var upTo := events[..k + 1];
      assert upTo[0] == events[0] && upTo[1..] == events[1..][..k];
      assert Run(st, upTo) == Run(st', upTo[1..]);
    }
  }

  // ---------------------------------------------------------------- a sufficient condition on the messages

  /** A full message reaches an unsynced book only when the symbol's buffer is empty. */
  ghost predicate QuietFull(st: State, e: Event)
    requires WellFormed(st)
  {
    e.Arrive? && e.update.full && e.symbol in st.subscribed && st.books[st.subscribed[e.symbol]].id == 0 ==>
      Lookup(st.init, e.symbol, []) == []
  }

  /** While a symbol's book is live its buffer is empty, so that no handler can replay anything. */
  ghost predicate SymbolEmptied(st: State, s: string)
    requires WellFormed(st) && s in st.subscribed
  {
    st.books[st.subscribed[s]].id >= 2 ==> Lookup(st.init, s, []) == []
  }

  ghost predicate Emptied(st: State)
    requires WellFormed(st)
  {
    forall s :: s in st.subscribed ==> SymbolEmptied(st, s)
  }

  lemma EmptiedDoesNotUncover(servers: Servers, st: State, e: Event)
    requires Inv(servers, st) && Emptied(st) && ValidEvent(e)
    ensures !Uncovers(st, e)
  {
    hide BooksGood, BuffersGood, HandlersGood, QueuesGood, AcceptedBids;
    if Enabled(st, e) && (e.Wake? || e.SnapshotReturns?) {
      var s := st.handlers[e.handler].symbol;
      if s in st.subscribed { assert SymbolEmptied(st, s); }
    }
  }

  /** What a message can touch: its symbol's book and buffer; a live book comes with its buffer unchanged. */
  lemma ArriveTouches(st: State, symbol: string, u: Update, parses: bool)
    requires WellFormed(st) && symbol in st.subscribed
    ensures var r := ArriveStep(st, symbol, u, parses);
            var b := st.subscribed[symbol];
            && r.subscribed == st.subscribed && r.books == st.books[b := r.books[b]]
            && (forall s :: s != symbol ==> Lookup(r.init, s, []) == Lookup(st.init, s, []))
            && (r.books[b].id >= 2 ==> r.init == st.init && (st.books[b].id >= 2 || (u.full && st.books[b].id == 0)))
  {
    hide Broadcast;
  }

  lemma ArriveKeepsEmptied(servers: Servers, st: State, symbol: string, u: Update, parses: bool)
    requires Core(servers, st) && Emptied(st) && QuietFull(st, Arrive(symbol, u, parses))
    ensures Emptied(ArriveStep(st, symbol, u, parses))
  {
    hide BooksGood, BuffersGood, HandlersGood, ArriveStep;
    if symbol in st.subscribed {
      ArriveTouches(st, symbol, u, parses);
      var r := ArriveStep(st, symbol, u, parses);
      forall s | s in r.subscribed ensures SymbolEmptied(r, s) {
        assert SymbolEmptied(st, s);
      }
    } else {
      assert ArriveStep(st, symbol, u, parses) == st by { NotSubscribed(st, symbol, u, parses); }
    }
  }

  lemma NotSubscribed(st: State, symbol: string, u: Update, parses: bool)
    requires WellFormed(st) && symbol !in st.subscribed
    ensures ArriveStep(st, symbol, u, parses) == st
  {
  }

  lemma LookKeepsEmptied(servers: Servers, st: State, h: nat, snapshot: Snapshot, retries: nat)
    requires Core(servers, st) && Emptied(st) && h in st.handlers && retries <= MAX_TRIES
    ensures Emptied(LookStep(st, h, snapshot, retries))
  {
    hide BooksGood, BuffersGood, LookStep;
    PhaseGood(servers, st, h);
    LookTouches(st, h, snapshot, retries);
    var r := LookStep(st, h, snapshot, retries);
    forall s | s in r.subscribed ensures SymbolEmptied(r, s) {
      assert SymbolEmptied(st, s);
    }
  }

  lemma StepKeepsEmptied(servers: Servers, st: State, e: Event)
    requires Inv(servers, st) && Emptied(st) && ValidEvent(e) && QuietFull(st, e)
    ensures Emptied(Step(st, e))
  {
    hide BooksGood, BuffersGood, HandlersGood, SubscribedGood, QueuesGood, LookStep, ArriveStep;
    hide SnapshotStep, WatchStep, Emptied;
    if Enabled(st, e) {
      match e
      case Arrive(symbol, u, parses) => ArriveKeepsEmptied(servers, st, symbol, u, parses);
      case Wake(h) =>
        PhaseGood(servers, st, h);
        LookKeepsEmptied(servers, st, h, st.handlers[h].phase.snapshot, st.handlers[h].phase.retries + 1);
      case SnapshotReturns(h, responses) => SnapshotKeepsEmptied(servers, st, h, responses);
      case Watch(symbol, ok) => WatchKeepsEmptied(st, symbol, ok);
      case Unwatch(_, _) => OthersStayEmptied(st, Step(st, e));
      case OnFail => OthersStayEmptied(st, Step(st, e));
    }
  }

  lemma WatchKeepsEmptied(st: State, symbol: string, subscribeOk: bool)
    requires WellFormed(st) && Emptied(st)
    ensures Emptied(WatchStep(st, symbol, subscribeOk))
  {
    hide Emptied, OpenStep, Drop, Enqueue;
    OpenKeepsEmptied(st, symbol);
    OthersStayEmptied(OpenStep(st, symbol), WatchStep(st, symbol, subscribeOk));
  }

  lemma OpenKeepsEmptied(st: State, symbol: string)
    requires WellFormed(st) && Emptied(st)
    ensures Emptied(OpenStep(st, symbol))
  {
    hide Open;
    var r := OpenStep(st, symbol);
    forall s | s in r.subscribed ensures SymbolEmptied(r, s) {
      if s in st.subscribed { assert SymbolEmptied(st, s); }
    }
  }

  lemma SnapshotKeepsEmptied(servers: Servers, st: State, h: nat, responses: seq<Option<Snapshot>>)
    requires Core(servers, st) && Emptied(st) && |responses| == MAX_TRIES
    requires h in st.handlers && st.handlers[h].phase.Fetching?
    ensures Emptied(SnapshotStep(st, h, responses))
  {
    hide BooksGood, BuffersGood, LookStep, Emptied;
    PhaseGood(servers, st, h);
    match Fetch(NO_SNAPSHOT, responses, st.handlers[h].phase.firstId, 0)
    case Some(s) => LookKeepsEmptied(servers, st, h, s, 0);
    case None => OthersStayEmptied(st, SnapshotStep(st, h, responses));
  }

  lemma OthersStayEmptied(st: State, r: State)
    requires WellFormed(st) && WellFormed(r) && Emptied(st) && (r.init == st.init || r.subscribed == map[])
    requires forall s :: s in r.subscribed ==>
               var id := r.books[r.subscribed[s]].id;
               id >= 2 ==> s in st.subscribed && st.books[st.subscribed[s]].id == id
    ensures Emptied(r)
  {
    forall s | s in r.subscribed ensures SymbolEmptied(r, s) {
      if s in st.subscribed { assert SymbolEmptied(st, s); }
    }
  }

  ghost predicate QuietRun(st: State, events: seq<Event>)
    requires WellFormed(st) && forall e :: e in events ==> ValidEvent(e)
    decreases |events|
  {
    events == [] || (QuietFull(st, events[0]) && QuietRun(Step(st, events[0]), events[1..]))
  }

  /** In particular no run panics in which full messages keep off non-empty buffers: it uncovers nothing. */
  lemma {:induction false} QuietRunsDoNotPanic(servers: Servers, st: State, events: seq<Event>)
    requires Inv(servers, st) && Known(st) && Emptied(st) && !st.panicked && (forall e :: e in events ==> ValidEvent(e))
    requires TruthfulRun(servers, st, events) && QuietRun(st, events)
    ensures CoveringRun(st, events) && !Run(st, events).panicked
    decreases |events|
  {
    hide Step, BooksGood, HandlersGood, SubscribedGood, BuffersGood, QueuesGood, TruthfulEvent;
    hide QuietFull, Uncovers, Known, Emptied;
    if events != [] {
      StepKeepsInv(servers, st, events[0]);
      EmptiedDoesNotUncover(servers, st, events[0]);
      StepKnownIff(servers, st, events[0]);
      StepKeepsEmptied(servers, st, events[0]);
      QuietRunsDoNotPanic(servers, Step(st, events[0]), events[1..]);
    }
  }
}
