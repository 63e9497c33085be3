/**
 The Binance client: the steps of `BinanceProtocol` performed in place on shared books and buffers.
 What `BinanceSafety` proves holds of it.
 */
module BinanceClient {
  import opened Wrappers
  import opened OrderBooks
  import opened DepthSync
  import opened BinanceProtocol
  import opened BinanceSafety

  /** Asks until an answer decides. */
  method FetchSnapshot(responses: seq<Option<Snapshot>>, firstId: nat) returns (r: Option<Snapshot>)
    requires Decisive(responses, firstId)
    ensures r == Answer(responses)
  {
    var snapshot := NO_SNAPSHOT;
    var asked := 0;
    while snapshot.id < firstId
      invariant asked <= |responses|
      invariant asked == 0 ==> snapshot == NO_SNAPSHOT
      invariant asked > 0 ==> responses[asked - 1] == Some(snapshot)
      decreases |responses| - asked
    {
      var response := responses[asked];
      if response.None? { return None; }
      snapshot := response.value;
      asked := asked + 1;
    }
    return Some(snapshot);
  }

  /** The buffered messages applied in order to the book that has just taken a snapshot's levels. */
  method ReplayOn(arena: seq<OrderBook>, b: nat, updates: seq<Update>)
    requires Distinct(arena) && b < |arena|
    modifies arena[b]
    ensures BooksOf(arena) == old(BooksOf(arena))[b := ReplayAll(old(BooksOf(arena))[b], updates)]
  {
    hide Applied;
    ghost var books := BooksOf(arena);
    for i := 0 to |updates|
      invariant BooksOf(arena) == books[b := BooksOf(arena)[b]]
      invariant ReplayAll(books[b], updates) == ReplayAll(BooksOf(arena)[b], updates[i..])
    {
      assert updates[i..][0] == updates[i] && updates[i..][1..] == updates[i + 1..];
      ApplyTo(arena, b, updates[i]);
    }
  }

  class Client {
    const market: Market
    var arena: seq<OrderBook>
    var subscribed: map<string, nat>
    var init: map<string, seq<Update>>
    var tasks: map<nat, Handler>
    var nextTask: nat
    ghost var seen: map<string, nat>

    ghost function View(): State
      reads this, arena
    {
      State(BooksOf(arena), subscribed, init, tasks, nextTask, seen)
    }

    ghost predicate Valid()
      reads this, arena
    {
      Distinct(arena) && WellFormed(View())
    }

    constructor (market: Market)
      ensures Valid() && View() == INITIAL && fresh(arena) && this.market == market
    {
      this.market := market;
      arena, subscribed, init, tasks, nextTask, seen := [], map[], map[], map[], 0, map[];
    }

    /** A live book takes, ignores, or is reset by the next message. */
    method Live(b: nat, update: Update, previous: Option<nat>, parses: bool)
      requires Valid() && b < |arena|
      modifies arena[b]
      ensures Valid()
      ensures var books := old(BooksOf(arena));
              BooksOf(arena) == match Judge(market, books[b].id, update, previous) {
                                  case Ignore => books
                                  case Reset => books[b := ClearBook(books[b])]
                                  case Accept => if parses then books[b := Applied(books[b], update)] else books
                                }
    {
      hide Applied;
      var id := arena[b].updateId;
      assert id == BooksOf(arena)[b].id;
      if market.Spot? {
        if update.first > id + 1 || update.last < id + 1 {
          Clear(arena, b);
          return;
        }
      } else {
        if previous.None? { return; }
        if previous.value != id {
          Clear(arena, b);
          return;
        }
      }
      if parses { ApplyTo(arena, b, update); }
    }

    /** The first message for an unsynced book: mark it, make room for buffering, suspend at the snapshot. */
    method BeginSync(symbol: string, b: nat, firstId: nat)
      requires Valid() && b < |arena|
      modifies this`init, this`tasks, this`nextTask, arena[b]
      ensures View() == StartSync(old(View()), symbol, b, firstId) && Valid()
    {
      SetIdOf(arena, b, 1);
      init := init[symbol := Lookup(init, symbol, [])];
      tasks := tasks[nextTask := Handler(symbol, b, Fetching(firstId))];
      nextTask := nextTask + 1;
    }

    method ReceiveOn(symbol: string, b: nat, update: Update, previous: Option<nat>, parses: bool)
      requires Valid() && b < |arena|
      modifies this`init, this`tasks, this`nextTask, arena[b]
      ensures View() == Receive(market, old(View()), symbol, b, update, previous, parses) && Valid()
    {
      hide Applied, Judge, StartSync;
      var id := arena[b].updateId;
      assert id == BooksOf(arena)[b].id;
      if id == 0 {
        BeginSync(symbol, b, update.first);
      } else if id == 1 {
        if symbol in init && parses {
          init := init[symbol := init[symbol] + [update]];
        }
      } else {
        Live(b, update, previous, parses);
      }
    }

    method HandleMessage(symbol: string, update: Update, previous: Option<nat>, parses: bool)
      requires Valid()
      modifies this`init, this`tasks, this`nextTask, this`seen, arena
      ensures View() == ArriveStep(market, old(View()), symbol, update, previous, parses) && Valid()
    {
      hide Receive;
      if symbol !in subscribed { return; }
      ReceiveOn(symbol, subscribed[symbol], update, previous, parses);
      ghost var last := Lookup(seen, symbol, 0);
      seen := seen[symbol := if update.last > last then update.last else last];
    }

    method InstallOn(b: nat, snapshot: Snapshot, updates: seq<Update>)
      requires Valid() && b < |arena|
      modifies arena[b]
      ensures View() == Install(old(View()), b, snapshot, updates) && Valid()
    {
      hide ReplayAll, FromSnapshot;
      assert arena[b].updateId == BooksOf(arena)[b].id;
      TakeSnapshot(arena, b, snapshot, arena[b].updateId);
      ReplayOn(arena, b, updates);
    }

    method Look(h: nat, snapshot: Snapshot, retries: nat)
      requires Valid() && h in tasks
      modifies this`init, this`tasks, arena
      ensures View() == LookStep(old(View()), h, snapshot, retries) && Valid()
    {
      hide Install, FirstStraddle;
      var Handler(symbol, b, _) := tasks[h];
      if retries == MAX_TRIES {
        SetIdOf(arena, b, 0);
        tasks := tasks - {h};
        return;
      }
      if symbol !in init {
        tasks := tasks - {h};
        return;
      }
      var taken := init[symbol];
      init := init[symbol := []];
      assert View() == old(View()).(init := old(init)[symbol := []]);
      var idx := FindStraddle(taken, snapshot.id);
      if idx == |taken| {
        tasks := tasks[h := Handler(symbol, b, Sleeping(snapshot, retries))];
        return;
      }
      InstallOn(b, snapshot, taken[idx..]);
      ghost var installed := View();
      tasks := tasks - {h};
      assert View() == Finish(installed, h);
    }

    method ResumeSnapshot(h: nat, responses: seq<Option<Snapshot>>)
      requires Valid() && Enabled(View(), SnapshotReturns(h, responses))
      modifies this`init, this`tasks, arena
      ensures View() == SnapshotStep(old(View()), h, responses) && Valid()
    {
      hide LookStep;
      var snapshot := FetchSnapshot(responses, tasks[h].phase.firstId);
      if snapshot.None? {
        SetIdOf(arena, tasks[h].book, 0);
        tasks := tasks - {h};
      } else {
        Look(h, snapshot.value, 0);
      }
    }

    method ResumeSleep(h: nat)
      requires Valid() && h in tasks && tasks[h].phase.Sleeping?
      modifies this`init, this`tasks, arena
      ensures View() == WakeStep(old(View()), h) && Valid()
    {
      hide LookStep;
      Look(h, tasks[h].phase.snapshot, tasks[h].phase.retries + 1);
    }

    method Watch(symbol: string, subscribeOk: bool)
      requires Valid()
      modifies this`arena, this`subscribed
      ensures View() == WatchStep(old(View()), symbol, subscribeOk) && Valid()
      ensures forall o :: o in arena ==> o in old(arena) || fresh(o)
    {
      if symbol in subscribed { return; }
      var book := new OrderBook(symbol);
      subscribed := subscribed[symbol := |arena|];
      arena := arena + [book];
      assert BooksOf(arena) == old(BooksOf(arena)) + [book.Value()];
      if !subscribeOk {
        subscribed := subscribed - {symbol};
        assert subscribed == old(subscribed);
      }
    }

    method Unwatch(symbol: string, unsubscribeOk: bool)
      requires Valid()
      modifies this`subscribed
      ensures View() == UnwatchStep(old(View()), symbol, unsubscribeOk) && Valid()
    {
      if symbol !in subscribed { return; }
      var book := subscribed[symbol];
      subscribed := subscribed - {symbol};
      if !unsubscribeOk {
        subscribed := subscribed[symbol := book];
      }
    }

    method OnFail()
      requires Valid()
      modifies this`subscribed, this`init, this`tasks
      ensures View() == FailStep(old(View())) && Valid()
    {
      subscribed := map[];
      init := map[];
      tasks := map[];
    }

    /** Any event, faithful or not: the client does what the protocol does, and after faithful ones it keeps
        everything that `BinanceSafety` proves. */
    method Perform(e: Event)
      requires Valid()
      modifies this, arena
      ensures View() == Step(market, old(View()), e) && Valid()
      ensures forall o :: o in arena ==> o in old(arena) || fresh(o)
      ensures forall servers :: old(Inv(servers, View()) && FaithfulEvent(servers, market, View(), e)) ==>
                Inv(servers, View())
    {
      hide Inv, FaithfulEvent, ArriveStep, SnapshotStep, WakeStep, WatchStep, UnwatchStep, FailStep, BooksOf;
      ghost var before := View();
      forall servers | Inv(servers, before) && FaithfulEvent(servers, market, before, e)
        ensures Inv(servers, Step(market, before, e))
      {
        StepKeepsInv(servers, market, before, e);
      }
      match e
      case Watch(symbol, ok) => Watch(symbol, ok);
      case Unwatch(symbol, ok) => Unwatch(symbol, ok);
      case OnFail => OnFail();
      case Arrive(symbol, update, previous, parses) => HandleMessage(symbol, update, previous, parses);
      case SnapshotReturns(h, responses) =>
        if h in tasks && tasks[h].phase.Fetching? && Decisive(responses, tasks[h].phase.firstId) {
          ResumeSnapshot(h, responses);
        }
      case Wake(h) =>
        if h in tasks && tasks[h].phase.Sleeping? { ResumeSleep(h); }
    }
  }
}
