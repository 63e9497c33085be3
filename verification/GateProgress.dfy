/**
 Gate: ids only grow while a book is live, no book is stuck syncing, no sync runs twice, and
 every sync ends.
 */
module GateProgress {
  import opened Wrappers
  import opened OrderBooks
  import opened ServerHistory
  import opened DepthSync
  import opened GateProtocol
  import opened GateSafety

  /** The handler that an event resumes. */
  ghost predicate Resumes(st: State, e: Event, h: nat) {
    Enabled(st, e) && ((e.SnapshotReturns? || e.Wake?) && e.handler == h)
  }

  /** How many more times a handler can be resumed. */
  ghost function Patience(st: State, h: nat): nat {
    if h !in st.handlers then 0 else PhasePatience(st.handlers[h].phase)
  }

  lemma {:induction false} ReplayAdvances(book: Book, known: set<real>, updates: seq<Update>)
    requires book.id >= 2
    ensures var r := Replay(book, known, updates).0;
            r.id == 0 || r.id >= book.id
    decreases |updates|
  {
    hide ApplySide;
    if updates != [] && !Gap(book.id, updates[0]) {
      ReplayAdvances(Applied(book, updates[0]), EditHistory(known, updates[0].bids), updates[1..]);
    }
  }

  /** What one look does: only the handler's own book changes, and the handler either ends with its book
      unsynced or live, or sleeps with less patience. */
  lemma LookEnds(servers: Servers, st: State, h: nat, s: Snapshot, retries: nat)
    requires Core(servers, st) && h in st.handlers && retries <= MAX_TRIES && s.id >= 2
    ensures var r := LookStep(st, h, s, retries);
            var b := st.handlers[h].book;
            && r.books == st.books[b := r.books[b]]
            && (h in r.handlers ==> r.books == st.books && r.handlers == st.handlers[h := r.handlers[h]]
                                    && r.handlers[h].book == b && r.handlers[h].phase == Sleeping(s, retries)
                                    && retries < MAX_TRIES)
            && (h !in r.handlers ==> r.handlers == st.handlers - {h} && r.books[b].id != 1)
  {
    hide BooksGood, BuffersGood, SubscribedGood, TruthfulSnapshot, SnapshotBook, ApplySide;
    PhaseGood(servers, st, h);
    var Handler(symbol, b, _) := st.handlers[h];
    if retries < MAX_TRIES {
      var k := FirstStraddle(st.init[symbol], s.id);
      if k < |st.init[symbol]| {
        var book := FromSnapshot(st.books[b].symbol, s);
        assert book.id == s.id by { SnapshotId(st.books[b].symbol, s); }
        ReplayAdvances(book, Lookup(st.history, symbol, {}) + s.bids.Keys, st.init[symbol][k..]);
      }
    }
  }

  lemma FetchedId(servers: Servers, st: State, h: nat, responses: seq<Option<Snapshot>>)
    requires Core(servers, st) && h in st.handlers && st.handlers[h].phase.Fetching? && |responses| == MAX_TRIES
    ensures var r := Fetch(NO_SNAPSHOT, responses, st.handlers[h].phase.firstId, 0); r.Some? ==> r.value.id >= 2
  {
  }

  /** Resuming a handler touches no other handler and no other book; the handler ends with its book
      unsynced or live, or it sleeps with strictly less patience than it had. */
  lemma ResumeEnds(servers: Servers, st: State, e: Event, h: nat)
    requires Inv(servers, st) && ValidEvent(e) && Resumes(st, e, h)
    ensures var r := Step(st, e);
            var b := st.handlers[h].book;
            && r.books == st.books[b := r.books[b]]
            && (h !in r.handlers ==> r.handlers == st.handlers - {h} && r.books[b].id != 1)
            && (h in r.handlers ==> r.books == st.books && r.handlers == st.handlers[h := r.handlers[h]]
                                    && r.handlers[h].book == b && Patience(r, h) < Patience(st, h))
  {
    hide BooksGood, BuffersGood, SubscribedGood, TruthfulSnapshot, QueuesGood, LookStep;
    PhaseGood(servers, st, h);
    if e.Wake? {
      var Sleeping(s, retries) := st.handlers[h].phase;
      SleepingId(servers, st, h);
      LookEnds(servers, st, h, s, retries + 1);
    } else {
      FetchedId(servers, st, h, e.responses);
      match Fetch(NO_SNAPSHOT, e.responses, st.handlers[h].phase.firstId, 0)
      case None =>
      case Some(s) => LookEnds(servers, st, h, s, 0);
    }
  }

  lemma SleepingId(servers: Servers, st: State, h: nat)
    requires Core(servers, st) && h in st.handlers && st.handlers[h].phase.Sleeping?
    ensures st.handlers[h].phase.snapshot.id >= 2
  {
  }

  /** A book that waits is changed by nobody but its own handler; a handler that is not resumed is left
      alone, unless the connection fails, which also ends every subscription. */
  lemma WaitingIsUndisturbed(servers: Servers, st: State, e: Event, h: nat)
    requires Inv(servers, st) && ValidEvent(e) && h in st.handlers && !Resumes(st, e, h)
    ensures var r := Step(st, e);
            && r.books[st.handlers[h].book] == st.books[st.handlers[h].book]
            && (h in r.handlers ==> r.handlers[h] == st.handlers[h])
            && (h !in r.handlers ==> e.OnFail? && r.subscribed == map[])
  {
    hide BooksGood, BuffersGood, SubscribedGood, TruthfulSnapshot, QueuesGood, SnapshotStep, WakeStep;
    PhaseGood(servers, st, h);
    if Enabled(st, e) && (e.SnapshotReturns? || e.Wake?) {
      assert st.handlers[e.handler].book != st.handlers[h].book;
      ResumeEnds(servers, st, e, e.handler);
    }
  }

  lemma ArriveAdvances(servers: Servers, st: State, symbol: string, u: Update, parses: bool, b: nat)
    requires WellFormed(st) && b < |st.books| && TruthfulEvent(servers, st, Arrive(symbol, u, parses))
    ensures Advances(st.books[b], ArriveStep(st, symbol, u, parses).books[b])
  {
    hide ApplySide, EditHistory, TruthfulSide;
  }

  /** On every step, every book advances: while it stays live its id strictly increases or it is untouched. */
  lemma StepAdvances(servers: Servers, st: State, e: Event, b: nat)
    requires Inv(servers, st) && ValidEvent(e) && TruthfulEvent(servers, st, e) && b < |st.books|
    ensures Advances(st.books[b], Step(st, e).books[b])
  {
    hide BooksGood, BuffersGood, SubscribedGood, TruthfulSnapshot, QueuesGood, SnapshotStep, WakeStep, ArriveStep;
    if Enabled(st, e) {
      if e.Arrive? {
        ArriveAdvances(servers, st, e.symbol, e.update, e.parses, b);
      } else if e.SnapshotReturns? || e.Wake? {
        PhaseGood(servers, st, e.handler);
        ResumeEnds(servers, st, e, e.handler);
        StepKeepsInv(servers, st, e);
      }
    }
  }

  /** A handler number is used once: after its handler ended it never comes back. */
  lemma NumbersAreFresh(st: State, e: Event, h: nat)
    requires WellFormed(st) && ValidEvent(e) && h < st.nextHandler && h !in st.handlers
    ensures h !in Step(st, e).handlers && h < Step(st, e).nextHandler
  {
    hide LookStep, Broadcast, Fetch;
    if Enabled(st, e) {
      if e.Wake? {
        LookStartsNobody(st, e.handler, st.handlers[e.handler].phase.snapshot, st.handlers[e.handler].phase.retries + 1);
      } else if e.SnapshotReturns? {
        match Fetch(NO_SNAPSHOT, e.responses, st.handlers[e.handler].phase.firstId, 0)
        case None =>
        case Some(s) => LookStartsNobody(st, e.handler, s, 0);
      }
    }
  }

  lemma LookStartsNobody(st: State, h: nat, s: Snapshot, retries: nat)
    requires WellFormed(st) && h in st.handlers
    ensures var r := LookStep(st, h, s, retries);
            r.handlers.Keys <= st.handlers.Keys && r.nextHandler == st.nextHandler
  {
    hide Replay, FirstStraddle, SnapshotBook;
  }

  lemma StepCostsPatience(servers: Servers, st: State, e: Event, h: nat)
    requires Inv(servers, st) && ValidEvent(e) && h < st.nextHandler
    ensures Patience(Step(st, e), h) + (if Resumes(st, e, h) then 1 else 0) <= Patience(st, h)
    ensures h < Step(st, e).nextHandler
  {
    hide Step, BooksGood, HandlersGood, SubscribedGood, BuffersGood, QueuesGood, TruthfulEvent;
    if h !in st.handlers {
      NumbersAreFresh(st, e, h);
    } else {
      if Resumes(st, e, h) {
        ResumeEnds(servers, st, e, h);
        PhaseGood(servers, st, h);
      } else {
        WaitingIsUndisturbed(servers, st, e, h);
      }
      NextGrows(st, e);
      PhaseGood(servers, st, h);
    }
  }

  lemma NextGrows(st: State, e: Event)
    requires WellFormed(st) && ValidEvent(e)
    ensures st.nextHandler <= Step(st, e).nextHandler
  {
    hide Applied, EditHistory, Replay, FirstStraddle, Fetch;
  }

  /** How often a run resumes a handler. */
  ghost function Resumptions(st: State, events: seq<Event>, h: nat): nat
    requires WellFormed(st) && forall e :: e in events ==> ValidEvent(e)
    decreases |events|
  {
    if events == [] then 0
    else (if Resumes(st, events[0], h) then 1 else 0) + Resumptions(Step(st, events[0]), events[1..], h)
  }

  /** Every sync ends: in no run is a handler resumed more often than its patience allows, which is at
      most six times; by then it has ended, so its book is unsynced or live, or unsubscribed. */
  lemma {:induction false} SyncEnds(servers: Servers, st: State, events: seq<Event>, h: nat)
    requires Inv(servers, st) && h < st.nextHandler
    requires (forall e :: e in events ==> ValidEvent(e)) && TruthfulRun(servers, st, events)
    ensures Resumptions(st, events, h) + Patience(Run(st, events), h) <= Patience(st, h) <= 6
    ensures h in Run(st, events).handlers ==> Patience(Run(st, events), h) > 0
    decreases |events|
  {
    hide Step, BooksGood, HandlersGood, SubscribedGood, BuffersGood, QueuesGood, TruthfulEvent, Resumes;
    if events == [] {
      if h in st.handlers { PhaseGood(servers, st, h); }
    } else {
      StepKeepsInv(servers, st, events[0]);
      StepCostsPatience(servers, st, events[0], h);
      SyncEnds(servers, Step(st, events[0]), events[1..], h);
    }
  }
}
