/**
 The Gate client: the protocol's steps performed in place on shared books, queues and buffers.
 Every method takes the client's state exactly where the corresponding step of `GateProtocol`
 takes its value, so what `GateSafety`, `GateProgress` and `GateHistory` prove holds of the client.
 */
module GateClient {
  import opened Wrappers
  import opened OrderBooks
  import opened Waiters
  import opened DepthSync
  import opened GateProtocol
  import opened GateSafety

  /** The first snapshot recent enough, of at most five requests. */
  method FetchSnapshot(responses: seq<Option<Snapshot>>, firstId: nat) returns (r: Option<Snapshot>)
    requires |responses| == MAX_TRIES
    ensures r == Fetch(NO_SNAPSHOT, responses, firstId, 0)
  {
    var processed := NO_SNAPSHOT;
    var retries := 0;
    while processed.id < firstId
      invariant retries <= MAX_TRIES
      invariant Fetch(NO_SNAPSHOT, responses, firstId, 0) == Fetch(processed, responses, firstId, retries)
      decreases MAX_TRIES - retries
    {
      if retries == MAX_TRIES { return None; }
      if responses[retries].None? { return None; }
      processed := responses[retries].value;
      retries := retries + 1;
    }
    return Some(processed);
  }

  method RecordBids(known: set<real>, entries: seq<(real, real)>) returns (r: set<real>)
    ensures r == EditHistory(known, entries)
  {
    r := known;
    for i := 0 to |entries|
      invariant r == EditHistory(known, entries[..i])
    {
      assert entries[..i + 1][..i] == entries[..i];
      if entries[i].1 == 0.0 { r := r - {entries[i].0}; } else { r := r + {entries[i].0}; }
    }
    assert entries[..|entries|] == entries;
  }

  /** The buffered messages applied to a book that has just taken a snapshot. */
  method ReplayOn(arena: seq<OrderBook>, b: nat, known: set<real>, updates: seq<Update>) returns (r: set<real>)
    requires Distinct(arena) && b < |arena|
    modifies arena[b]
    ensures var (book, known') := Replay(old(BooksOf(arena))[b], known, updates);
            BooksOf(arena) == old(BooksOf(arena))[b := book] && r == known'
  {
    hide Applied, EditHistory;
    ghost var books := BooksOf(arena);
    r := known;
    var i := 0;
    while i < |updates|
      invariant i <= |updates|
      invariant BooksOf(arena) == books[b := BooksOf(arena)[b]]
      invariant Replay(books[b], known, updates) == Replay(BooksOf(arena)[b], r, updates[i..])
    {
      var update := updates[i];
      assert updates[i..][0] == update && updates[i..][1..] == updates[i + 1..];
      var id := arena[b].updateId;
      assert id == BooksOf(arena)[b].id;
      if update.first > id + 1 || update.last < id + 1 {
        SetIdOf(arena, b, 0);
        return;
      }
      ApplyTo(arena, b, update);
      r := RecordBids(r, update.bids);
      i := i + 1;
    }
  }

  class Client {
    var arena: seq<OrderBook>
    var subscribed: map<string, nat>
    var pending: map<string, seq<nat>>
    var nextWaiter: nat
    var init: map<string, seq<Update>>
    var history: map<string, set<real>>
    var tasks: map<nat, Handler>
    var nextTask: nat
    var panicked: bool
    ghost var delivered: seq<Delivery>
    ghost var dropped: set<nat>

    ghost function Queues(): Queues
      reads this
    {
      Waiters.Queues(pending, delivered, dropped, nextWaiter)
    }

    ghost function View(): State
      reads this, arena
    {
      State(BooksOf(arena), subscribed, Queues(), init, history, tasks, nextTask, panicked)
    }

    ghost predicate Valid()
      reads this, arena
    {
      Distinct(arena) && WellFormed(View())
    }

    constructor ()
      ensures Valid() && View() == INITIAL && fresh(arena)
    {
      arena, subscribed, pending, nextWaiter := [], map[], map[], 0;
      init, history, tasks, nextTask, panicked := map[], map[], map[], 0, false;
      delivered, dropped := [], {};
    }

    method BroadcastUpdate(symbol: string, b: nat, update: Update)
      requires Valid() && b < |arena|
      modifies this`history, this`pending, this`delivered, this`panicked, arena[b]
      ensures View() == Broadcast(old(View()), symbol, b, update) && Valid()
    {
      hide Applied, EditHistory;
      ApplyTo(arena, b, update);
      var book := arena[b];
      assert book.Value() == BooksOf(arena)[b];
      hide BooksOf;
      var known := RecordBids(Lookup(history, symbol, {}), update.bids);
      history := history[symbol := known];
      if !(book.bids.Keys <= known) {
        panicked := true;
        return;
      }
      if symbol in pending {
        delivered := delivered + Deliveries(pending[symbol], b, book.updateId);
        pending := pending[symbol := []];
      }
    }

    /** The first message for an unsynced book: mark it, make room for buffering, suspend at the snapshot. */
    method BeginSync(symbol: string, b: nat, firstId: nat)
      requires Valid() && b < |arena|
      modifies this`init, this`tasks, this`nextTask, arena[b]
      ensures View() == StartSync(old(View()), symbol, b, firstId) && Valid()
    {
      SetIdOf(arena, b, 1);
      init := init[symbol := Lookup(init, symbol, [])];
      tasks := tasks[nextTask := Handler(symbol, b, Fetching(firstId))];
      nextTask := nextTask + 1;
    }

    method HandleMessage(symbol: string, update: Update, parses: bool)
      requires Valid()
      modifies this`history, this`pending, this`delivered, this`panicked, this`init, this`tasks, this`nextTask, arena
      ensures View() == ArriveStep(old(View()), symbol, update, parses) && Valid()
    {
      hide Broadcast, StartSync;
      if symbol !in subscribed { return; }
      var b := subscribed[symbol];
      var id := arena[b].updateId;
      if id == 0 {
        if update.full {
          if parses { BroadcastUpdate(symbol, b, update); }
          return;
        }
        BeginSync(symbol, b, update.first);
      } else if id == 1 {
        if symbol in init && parses {
          init := init[symbol := init[symbol] + [update]];
        }
      } else if update.first > id + 1 || update.last < id + 1 {
        Clear(arena, b);
      } else if parses {
        BroadcastUpdate(symbol, b, update);
      }
    }

    /** The snapshot becomes the book and the rest of the buffer is replayed on it. */
    method InstallOn(symbol: string, b: nat, snapshot: Snapshot, updates: seq<Update>)
      requires Valid() && b < |arena|
      modifies this`history, arena[b]
      ensures View() == Install(old(View()), symbol, b, snapshot, updates) && Valid()
    {
      hide Replay;
      TakeSnapshot(arena, b, snapshot, snapshot.id);
      var known := Lookup(history, symbol, {}) + snapshot.bids.Keys;
      var known' := ReplayOn(arena, b, known, updates);
      history := history[symbol := known'];
    }

    method Look(h: nat, snapshot: Snapshot, retries: nat)
      requires Valid() && h in tasks
      modifies this`history, this`init, this`tasks, arena
      ensures View() == LookStep(old(View()), h, snapshot, retries) && Valid()
    {
      hide Install, FirstStraddle;
      var Handler(symbol, b, _) := tasks[h];
      if retries == MAX_TRIES {
        SetIdOf(arena, b, 0);
        tasks := tasks - {h};
        return;
      }
      if symbol !in init {
        tasks := tasks - {h};
        return;
      }
      var taken := init[symbol];
      init := init[symbol := []];
      assert View() == old(View()).(init := old(init)[symbol := []]);
      var idx := FindStraddle(taken, snapshot.id);
      if idx == |taken| {
        tasks := tasks[h := Handler(symbol, b, Sleeping(snapshot, retries))];
        return;
      }
      InstallOn(symbol, b, snapshot, taken[idx..]);
      ghost var installed := View();
      tasks := tasks - {h};
      assert View() == Finish(installed, h);
    }

    method ResumeSnapshot(h: nat, responses: seq<Option<Snapshot>>)
      requires Valid() && h in tasks && tasks[h].phase.Fetching? && |responses| == MAX_TRIES
      modifies this`history, this`init, this`tasks, arena
      ensures View() == SnapshotStep(old(View()), h, responses) && Valid()
    {
      hide LookStep, Fetch;
      var snapshot := FetchSnapshot(responses, tasks[h].phase.firstId);
      if snapshot.None? {
        SetIdOf(arena, tasks[h].book, 0);
        tasks := tasks - {h};
      } else {
        Look(h, snapshot.value, 0);
      }
    }

    method ResumeSleep(h: nat)
      requires Valid() && h in tasks && tasks[h].phase.Sleeping?
      modifies this`history, this`init, this`tasks, arena
      ensures View() == WakeStep(old(View()), h) && Valid()
    {
      hide LookStep;
      Look(h, tasks[h].phase.snapshot, tasks[h].phase.retries + 1);
    }

    method OpenBook(symbol: string)
      requires Valid()
      modifies this`arena, this`subscribed, this`pending
      ensures View() == OpenStep(old(View()), symbol) && Valid()
      ensures forall o :: o in arena ==> o in old(arena) || fresh(o)
    {
      if symbol in subscribed { return; }
      var book := new OrderBook(symbol);
      subscribed := subscribed[symbol := |arena|];
      arena := arena + [book];
      assert BooksOf(arena) == old(BooksOf(arena)) + [book.Value()];
      if symbol !in pending { pending := pending[symbol := []]; }
    }

    method Join(symbol: string, undo: bool)
      requires Valid()
      modifies this`subscribed, this`pending, this`nextWaiter, this`panicked, this`dropped
      ensures View() == JoinStep(old(View()), symbol, undo) && Valid()
    {
      hide BooksOf;
      if symbol !in pending {
        panicked := true;
        return;
      }
      pending := pending[symbol := pending[symbol] + [nextWaiter]];
      nextWaiter := nextWaiter + 1;
      if undo {
        subscribed := subscribed - {symbol};
        dropped := dropped + set i | i in pending[symbol];
        pending := pending - {symbol};
      }
    }

    method Watch(symbol: string, subscribeOk: bool)
      requires Valid()
      modifies this
      ensures View() == WatchStep(old(View()), symbol, subscribeOk) && Valid()
      ensures forall o :: o in arena ==> o in old(arena) || fresh(o)
    {
      hide OpenStep, JoinStep;
      var first := symbol !in subscribed;
      OpenBook(symbol);
      Join(symbol, first && !subscribeOk);
    }

    method Unwatch(symbol: string, unsubscribeOk: bool)
      requires Valid()
      modifies this`subscribed, this`pending, this`dropped
      ensures View() == UnwatchStep(old(View()), symbol, unsubscribeOk) && Valid()
    {
      if symbol !in subscribed { return; }
      var book := subscribed[symbol];
      subscribed := subscribed - {symbol};
      if unsubscribeOk {
        if symbol in pending { dropped := dropped + set i | i in pending[symbol]; }
        pending := pending - {symbol};
      } else {
        subscribed := subscribed[symbol := book];
      }
    }

    method OnFail()
      requires Valid()
      modifies this`subscribed, this`pending, this`dropped, this`init, this`tasks
      ensures View() == FailStep(old(View())) && Valid()
    {
      subscribed := map[];
      dropped := dropped + set s, i | s in pending && i in pending[s] :: i;
      pending := map[];
      init := map[];
      tasks := map[];
    }

    /** Any event, truthful or not: the client does what the protocol does, and after truthful ones it
        keeps everything that `GateSafety` proves. A panicked client does nothing more. */
    method Perform(e: Event)
      requires Valid() && ValidEvent(e)
      modifies this, arena
      ensures View() == Step(old(View()), e) && Valid()
      ensures forall o :: o in arena ==> o in old(arena) || fresh(o)
      ensures forall servers :: old(Inv(servers, View()) && TruthfulEvent(servers, View(), e)) ==> Inv(servers, View())
    {
      hide Inv, TruthfulEvent, ArriveStep, SnapshotStep, WakeStep, WatchStep, UnwatchStep, FailStep, BooksOf;
      ghost var before := View();
      forall servers | Inv(servers, before) && TruthfulEvent(servers, before, e) ensures Inv(servers, Step(before, e)) {
        StepKeepsInv(servers, before, e);
      }
      if panicked { return; }
      match e
      case Watch(symbol, ok) => Watch(symbol, ok);
      case Unwatch(symbol, ok) => Unwatch(symbol, ok);
      case OnFail => OnFail();
      case Arrive(symbol, update, parses) => HandleMessage(symbol, update, parses);
      case SnapshotReturns(h, responses) =>
        if h in tasks && tasks[h].phase.Fetching? { ResumeSnapshot(h, responses); }
      case Wake(h) =>
        if h in tasks && tasks[h].phase.Sleeping? { ResumeSleep(h); }
    }
  }
}
