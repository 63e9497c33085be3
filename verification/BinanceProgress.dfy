/**
 Binance, over faithful streams: ids only grow while a book is live, a waiting book is disturbed by nobody,
 every sync ends, and the best prices are the exchange's.
 */
module BinanceProgress {
  import opened Wrappers
  import opened OrderBooks
  import opened ServerHistory
  import opened DepthSync
  import opened BinanceProtocol
  import opened BinanceSafety

  /** The handler that an event resumes. */
  ghost predicate Resumes(st: State, e: Event, h: nat) {
    Enabled(st, e) && ((e.SnapshotReturns? || e.Wake?) && e.handler == h)
  }

  /** Only diffs with real ids are buffered. */
  ghost predicate RealIds(init: map<string, seq<Update>>) {
    forall s, i :: s in init && 0 <= i < |init[s]| ==> init[s][i].last >= 2 && !init[s][i].full
  }

  ghost predicate Good(servers: Servers, st: State) {
    Inv(servers, st) && RealIds(st.init)
  }

  // ---------------------------------------------------------------- one resumption

  /** What one look does: only the handler's own book changes, and the handler either ends with its book
      unsynced or live, or sleeps with less patience. */
  lemma LookEnds(servers: Servers, st: State, h: nat, s: Snapshot, retries: nat)
    requires Good(servers, st) && h in st.handlers && retries <= MAX_TRIES
    ensures var r := LookStep(st, h, s, retries);
            var b := st.handlers[h].book;
            && r.books == st.books[b := r.books[b]] && RealIds(r.init) && r.nextHandler == st.nextHandler
            && (h in r.handlers ==> r.books == st.books && r.handlers == st.handlers[h := r.handlers[h]]
                                    && r.handlers[h].book == b && r.handlers[h].phase == Sleeping(s, retries)
                                    && retries < MAX_TRIES)
            && (h !in r.handlers ==> r.handlers == st.handlers - {h} && r.books[b].id != 1)
  {
    hide BooksGood, SyncsGood, BuffersSeen, TruthfulSnapshot, SnapshotBook, ReplayAll;
    PhaseGood(servers, st, h);
    var Handler(symbol, b, _) := st.handlers[h];
    if retries < MAX_TRIES {
      var k := FirstStraddle(st.init[symbol], s.id);
      if k < |st.init[symbol]| {
        ReplayIsLive(FromSnapshot(st.books[b].symbol, s).(id := st.books[b].id), st.init[symbol][k..]);
      }
    }
  }

  /** How many more times a handler can be resumed. */
  ghost function Patience(st: State, h: nat): nat {
    if h !in st.handlers then 0 else PhasePatience(st.handlers[h].phase)
  }

  /** Resuming a handler touches no other handler and no other book; the handler ends with its book
      unsynced or live, or it sleeps with strictly less patience than it had. */
  lemma ResumeEnds(servers: Servers, st: State, market: Market, e: Event, h: nat)
    requires Good(servers, st) && Resumes(st, e, h)
    ensures var r := Step(market, st, e);
            var b := st.handlers[h].book;
            && r.books == st.books[b := r.books[b]] && RealIds(r.init) && r.nextHandler == st.nextHandler
            && (h !in r.handlers ==> r.handlers == st.handlers - {h} && r.books[b].id != 1)
            && (h in r.handlers ==> r.books == st.books && r.handlers == st.handlers[h := r.handlers[h]]
                                    && r.handlers[h].book == b && Patience(r, h) < Patience(st, h))
  {
    hide BooksGood, SyncsGood, BuffersSeen, TruthfulSnapshot, LookStep, RealIds;
    PhaseGood(servers, st, h);
    if e.Wake? {
      LookEnds(servers, st, h, st.handlers[h].phase.snapshot, st.handlers[h].phase.retries + 1);
    } else {
      match Answer(e.responses)
      case None =>
      case Some(s) => LookEnds(servers, st, h, s, 0);
    }
  }

  // ---------------------------------------------------------------- one step

  /** What a message does: only the symbol's own book changes; a live book moves to a later id or is unsynced. */
  lemma ArriveAdvances(servers: Servers, market: Market, st: State, symbol: string, u: Update,
                       previous: Option<nat>, parses: bool)
    requires WellFormed(st) && RealIds(st.init) && FaithfulArrival(servers, market, st, symbol, u, previous, parses)
    ensures var r := ArriveStep(market, st, symbol, u, previous, parses);
            forall b :: 0 <= b < |st.books| ==>
              Advances(st.books[b], r.books[b]) && (st.books[b].id == 1 ==> r.books[b] == st.books[b])
  {
    hide ApplySide, TruthfulSide, Buffer;
  }

  lemma ArriveAddsAtMostOne(servers: Servers, market: Market, st: State, symbol: string, u: Update,
                            previous: Option<nat>, parses: bool)
    requires WellFormed(st) && RealIds(st.init) && FaithfulArrival(servers, market, st, symbol, u, previous, parses)
    ensures var r := ArriveStep(market, st, symbol, u, previous, parses);
            && RealIds(r.init) && st.nextHandler <= r.nextHandler
            && (forall h :: h in st.handlers && h < st.nextHandler ==> h in r.handlers && r.handlers[h] == st.handlers[h])
            && (forall h :: h in r.handlers && h < st.nextHandler ==> h in st.handlers)
  {
    hide Applied, Truthful, Judge, ClearBook;
  }

  /** On every step, every book advances: while it stays live its id strictly increases or it is untouched. */
  lemma StepAdvances(servers: Servers, market: Market, st: State, e: Event, b: nat)
    requires Good(servers, st) && FaithfulEvent(servers, market, st, e) && b < |st.books|
    ensures Advances(st.books[b], Step(market, st, e).books[b])
  {
    hide BooksGood, SyncsGood, BuffersSeen, TruthfulSnapshot, SnapshotStep, WakeStep, ArriveStep, RealIds, FaithfulArrival;
    if Enabled(st, e) {
      if e.Arrive? {
        ArriveAdvances(servers, market, st, e.symbol, e.update, e.previous, e.parses);
      } else if e.SnapshotReturns? || e.Wake? {
        PhaseGood(servers, st, e.handler);
        ResumeEnds(servers, st, market, e, e.handler);
      }
    }
  }

  /** A book that waits is changed by nobody but its own handler; a handler that is not resumed is left
      alone, unless the connection fails, which also ends every subscription. */
  lemma WaitingIsUndisturbed(servers: Servers, market: Market, st: State, e: Event, h: nat)
    requires Good(servers, st) && FaithfulEvent(servers, market, st, e) && h in st.handlers && !Resumes(st, e, h)
    ensures var r := Step(market, st, e);
            && r.books[st.handlers[h].book] == st.books[st.handlers[h].book]
            && (h in r.handlers ==> r.handlers[h] == st.handlers[h])
            && (h !in r.handlers ==> e.OnFail? && r.subscribed == map[])
  {
    hide BooksGood, SyncsGood, BuffersSeen, TruthfulSnapshot, SnapshotStep, WakeStep, ArriveStep, RealIds, FaithfulArrival;
    PhaseGood(servers, st, h);
    if Enabled(st, e) {
      if e.Arrive? {
        ArriveAdvances(servers, market, st, e.symbol, e.update, e.previous, e.parses);
        ArriveAddsAtMostOne(servers, market, st, e.symbol, e.update, e.previous, e.parses);
      } else if e.SnapshotReturns? || e.Wake? {
        assert st.handlers[e.handler].book != st.handlers[h].book;
        ResumeEnds(servers, st, market, e, e.handler);
      }
    }
  }

  /** Handler numbers are used once, and the buffered ids stay real. */
  lemma NumbersAreFresh(servers: Servers, market: Market, st: State, e: Event)
    requires Good(servers, st) && FaithfulEvent(servers, market, st, e)
    ensures var r := Step(market, st, e);
            && RealIds(r.init) && st.nextHandler <= r.nextHandler
            && forall h :: h < st.nextHandler && h !in st.handlers ==> h !in r.handlers
  {
    hide BooksGood, SyncsGood, BuffersSeen, TruthfulSnapshot, SnapshotStep, WakeStep, ArriveStep, FaithfulArrival;
    if Enabled(st, e) {
      if e.Arrive? {
        ArriveAddsAtMostOne(servers, market, st, e.symbol, e.update, e.previous, e.parses);
      } else if e.SnapshotReturns? || e.Wake? {
        ResumeEnds(servers, st, market, e, e.handler);
      }
    }
  }

  lemma StepCostsPatience(servers: Servers, market: Market, st: State, e: Event, h: nat)
    requires Good(servers, st) && FaithfulEvent(servers, market, st, e) && h < st.nextHandler
    ensures Patience(Step(market, st, e), h) + (if Resumes(st, e, h) then 1 else 0) <= Patience(st, h)
    ensures h < Step(market, st, e).nextHandler && Good(servers, Step(market, st, e))
  {
    hide Step, BooksGood, HandlersGood, SyncsGood, BuffersSeen, RealIds, FaithfulEvent;
    NumbersAreFresh(servers, market, st, e);
    StepKeepsInv(servers, market, st, e);
    if h in st.handlers {
      if Resumes(st, e, h) {
        PhaseGood(servers, st, h);
        ResumeEnds(servers, st, market, e, h);
      } else {
        WaitingIsUndisturbed(servers, market, st, e, h);
      }
    }
  }

  // ---------------------------------------------------------------- whole runs

  /** How often a run resumes a handler. */
  ghost function Resumptions(market: Market, st: State, events: seq<Event>, h: nat): nat
    requires WellFormed(st)
    decreases |events|
  {
    if events == [] then 0
    else (if Resumes(st, events[0], h) then 1 else 0) + Resumptions(market, Step(market, st, events[0]), events[1..], h)
  }

  /** Every sync ends: in no faithful run is a handler resumed more often than its patience allows, which is at
      most six times; by then it has ended, so its book is unsynced or live, or unsubscribed. */
  lemma {:induction false} SyncEnds(servers: Servers, market: Market, st: State, events: seq<Event>, h: nat)
    requires Good(servers, st) && h < st.nextHandler && FaithfulRun(servers, market, st, events)
    ensures Resumptions(market, st, events, h) + Patience(Run(market, st, events), h) <= Patience(st, h) <= 6
    ensures h in Run(market, st, events).handlers ==> Patience(Run(market, st, events), h) > 0
    decreases |events|
  {
    hide Step, BooksGood, HandlersGood, SyncsGood, BuffersSeen, RealIds, FaithfulEvent, Resumes;
    if events == [] {
      if h in st.handlers { PhaseGood(servers, st, h); }
    } else {
      StepCostsPatience(servers, market, st, events[0], h);
      SyncEnds(servers, market, Step(market, st, events[0]), events[1..], h);
    }
  }

  /** Every state of a faithful run is one that these lemmas are about. */
  lemma {:induction false} RunKeepsGood(servers: Servers, market: Market, st: State, events: seq<Event>)
    requires Good(servers, st) && FaithfulRun(servers, market, st, events)
    ensures Good(servers, INITIAL) && Good(servers, Run(market, st, events))
    decreases |events|
  {
    hide Step, BooksGood, HandlersGood, SyncsGood, BuffersSeen, RealIds, FaithfulEvent;
    InitialGood(servers);
    if events != [] {
      NumbersAreFresh(servers, market, st, events[0]);
      StepKeepsInv(servers, market, st, events[0]);
      RunKeepsGood(servers, market, Step(market, st, events[0]), events[1..]);
    }
  }

  lemma InitialGood(servers: Servers)
    ensures Good(servers, INITIAL)
  {
  }

  /** In every faithful run, a live subscribed book with a level inside the window of its snapshot shows the
      exchange's best price and quantity. */
  lemma EveryRunShowsBestPrices(servers: Servers, market: Market, events: seq<Event>, symbol: string, d: Direction, p: real)
    requires FaithfulRun(servers, market, INITIAL, events)
    requires var st := Run(market, INITIAL, events);
             && symbol in st.subscribed && st.books[st.subscribed[symbol]].id >= 2
             && var side := SideOf(d, st.books[st.subscribed[symbol]]);
                IsBest(d, side.levels, p) && exists k :: k in side.levels && k in side.window
    ensures var st := Run(market, INITIAL, events);
            var book := st.books[st.subscribed[symbol]];
            var truth := TruthOf(d, servers(symbol), book.id);
            IsBest(d, truth, p) && truth[p] == SideOf(d, book).levels[p]
  {
    hide Run, FaithfulRun, HandlersGood, SyncsGood, BuffersSeen, IsBest, GoodSide;
    InitialInv(servers);
    RunKeepsInv(servers, market, INITIAL, events);
    var st := Run(market, INITIAL, events);
    var book := st.books[st.subscribed[symbol]];
    assert GoodBook(servers(symbol), book);
    BestPriceIsServers(d, SideOf(d, book), TruthOf(d, servers(symbol), book.id), p);
  }
}
