/**
 Binance: the same synchronisation as Gate's with three differences. A replay applies the buffered
 messages without checking that they connect; a live futures book checks the previous message's
 id instead of a range; and the snapshot is asked for until it is recent enough. Waiters are
 served as at Gate and are left out here.
 */
module BinanceProtocol {
  import opened Wrappers
  import opened OrderBooks
  import opened DepthSync

  datatype Market = Spot | Future

  /** `seen` is bookkeeping: the last id of a symbol's messages that reached a subscribed book. */
  datatype State = State(
    books: seq<Book>,
    subscribed: map<string, nat>,
    init: map<string, seq<Update>>,
    handlers: map<nat, Handler>,
    nextHandler: nat,
    seen: map<string, nat>)

  datatype Event =
    | Watch(symbol: string, subscribeOk: bool)
    | Unwatch(symbol: string, unsubscribeOk: bool)
    | OnFail
    | Arrive(symbol: string, update: Update, previous: Option<nat>, parses: bool)
    | SnapshotReturns(handler: nat, responses: seq<Option<Snapshot>>)
    | Wake(handler: nat)

  const INITIAL := State([], map[], map[], map[], 0, map[])

  ghost predicate WellFormed(st: State) {
    && (forall s :: s in st.subscribed ==> st.subscribed[s] < |st.books|)
    && (forall h :: h in st.handlers ==> st.handlers[h].book < |st.books|)
  }

  ghost function SetBook(st: State, b: nat, book: Book): State
    requires b < |st.books|
  {
    st.(books := st.books[b := book])
  }

  /** A live book's test of the next message: by range on the spot market, by chain on the futures market.
      A futures message without the previous id is ignored. */
  datatype Verdict = Accept | Ignore | Reset

  function Judge(market: Market, id: nat, u: Update, previous: Option<nat>): Verdict {
    match market
    case Spot => if Gap(id, u) then Reset else Accept
    case Future => if previous.None? then Ignore else if previous.value != id then Reset else Accept
  }

  ghost function StartSync(st: State, symbol: string, b: nat, firstId: nat): (r: State)
    requires WellFormed(st) && b < |st.books|
    ensures WellFormed(r) && |r.books| == |st.books|
  {
    SetBook(st, b, st.books[b].(id := 1)).(
      init := st.init[symbol := Lookup(st.init, symbol, [])],
      handlers := st.handlers[st.nextHandler := Handler(symbol, b, Fetching(firstId))],
      nextHandler := st.nextHandler + 1)
  }

  ghost function Receive(market: Market, st: State, symbol: string, b: nat, u: Update, previous: Option<nat>, parses: bool)
    : (r: State)
    requires WellFormed(st) && b < |st.books|
    ensures WellFormed(r) && |r.books| == |st.books|
  {
    var id := st.books[b].id;
    if id == 1 then st.(init := Buffer(st.init, symbol, u, parses))
    else if id == 0 then StartSync(st, symbol, b, u.first)
    else
      match Judge(market, id, u, previous)
      case Ignore => st
      case Reset => SetBook(st, b, ClearBook(st.books[b]))
      case Accept => if parses then SetBook(st, b, Applied(st.books[b], u)) else st
  }

  ghost function ArriveStep(market: Market, st: State, symbol: string, u: Update, previous: Option<nat>, parses: bool)
    : (r: State)
    requires WellFormed(st)
    ensures WellFormed(r) && |r.books| == |st.books|
  {
    if symbol !in st.subscribed then st
    else
      var seen := Lookup(st.seen, symbol, 0);
      Receive(market, st, symbol, st.subscribed[symbol], u, previous, parses).(
        seen := st.seen[symbol := if u.last > seen then u.last else seen])
  }

  /** Answers up to the one that ends the asking: an error, or a snapshot that is recent enough. Nothing is
      asked for a message with id 0. */
  predicate Decisive(responses: seq<Option<Snapshot>>, firstId: nat) {
    && (responses == [] <==> firstId == 0)
    && (forall i :: 0 <= i < |responses| - 1 ==> responses[i].Some? && responses[i].value.id < firstId)
    && (responses != [] && responses[|responses| - 1].Some? ==> responses[|responses| - 1].value.id >= firstId)
  }

  function Answer(responses: seq<Option<Snapshot>>): Option<Snapshot> {
    if responses == [] then Some(NO_SNAPSHOT) else responses[|responses| - 1]
  }

  ghost function ReplayAll(book: Book, updates: seq<Update>): Book
    decreases |updates|
  {
    if updates == [] then book else ReplayAll(Applied(book, updates[0]), updates[1..])
  }

  ghost function Finish(st: State, h: nat): State {
    st.(handlers := st.handlers - {h})
  }

  /** The snapshot's levels, at the waiting book's id until the first replayed message sets it. */
  ghost function Install(st: State, b: nat, s: Snapshot, updates: seq<Update>): State
    requires b < |st.books|
  {
    SetBook(st, b, ReplayAll(FromSnapshot(st.books[b].symbol, s).(id := st.books[b].id), updates))
  }

  ghost function LookStep(st: State, h: nat, snapshot: Snapshot, retries: nat): (r: State)
    requires WellFormed(st) && h in st.handlers
    ensures WellFormed(r) && |r.books| == |st.books|
  {
    var Handler(symbol, b, _) := st.handlers[h];
    if retries == MAX_TRIES then Finish(SetBook(st, b, st.books[b].(id := 0)), h)
    else if symbol !in st.init then Finish(st, h)
    else
      var pending := st.init[symbol];
      var st' := st.(init := st.init[symbol := []]);
      var k := FirstStraddle(pending, snapshot.id);
      if k == |pending| then
        st'.(handlers := st.handlers[h := Handler(symbol, b, Sleeping(snapshot, retries))])
      else Finish(Install(st', b, snapshot, pending[k..]), h)
  }

  ghost function SnapshotStep(st: State, h: nat, responses: seq<Option<Snapshot>>): (r: State)
    requires WellFormed(st) && h in st.handlers
    ensures WellFormed(r) && |r.books| == |st.books|
  {
    match Answer(responses)
    case None =>
      var b := st.handlers[h].book;
      Finish(SetBook(st, b, st.books[b].(id := 0)), h)
    case Some(s) => LookStep(st, h, s, 0)
  }

  ghost function WakeStep(st: State, h: nat): (r: State)
    requires WellFormed(st) && h in st.handlers && st.handlers[h].phase.Sleeping?
    ensures WellFormed(r) && |r.books| == |st.books|
  {
    LookStep(st, h, st.handlers[h].phase.snapshot, st.handlers[h].phase.retries + 1)
  }

  ghost function WatchStep(st: State, symbol: string, subscribeOk: bool): (r: State)
    requires WellFormed(st)
    ensures WellFormed(r) && |st.books| <= |r.books|
  {
    if symbol in st.subscribed then st
    else
      var st' := st.(books := st.books + [Book(symbol, EMPTY_SIDE, EMPTY_SIDE, 0)]);
      if subscribeOk then st'.(subscribed := st.subscribed[symbol := |st.books|]) else st'
  }

  ghost function UnwatchStep(st: State, symbol: string, unsubscribeOk: bool): (r: State)
    requires WellFormed(st)
    ensures WellFormed(r) && r.books == st.books
  {
    if symbol in st.subscribed && unsubscribeOk then st.(subscribed := st.subscribed - {symbol}) else st
  }

  /** The connection failed: subscriptions, buffers and suspended handlers end. */
  ghost function FailStep(st: State): (r: State)
    requires WellFormed(st)
    ensures WellFormed(r) && r.books == st.books
  {
    st.(subscribed := map[], init := map[], handlers := map[])
  }

  ghost predicate Enabled(st: State, e: Event) {
    && (e.SnapshotReturns? ==> e.handler in st.handlers && st.handlers[e.handler].phase.Fetching?
                               && Decisive(e.responses, st.handlers[e.handler].phase.firstId))
    && (e.Wake? ==> e.handler in st.handlers && st.handlers[e.handler].phase.Sleeping?)
  }

  ghost function Step(market: Market, st: State, e: Event): (r: State)
    requires WellFormed(st)
    ensures WellFormed(r) && |st.books| <= |r.books|
  {
    if !Enabled(st, e) then st
    else
      match e
      case Watch(symbol, ok) => WatchStep(st, symbol, ok)
      case Unwatch(symbol, ok) => UnwatchStep(st, symbol, ok)
      case OnFail => FailStep(st)
      case Arrive(symbol, u, previous, parses) => ArriveStep(market, st, symbol, u, previous, parses)
      case SnapshotReturns(h, responses) => SnapshotStep(st, h, responses)
      case Wake(h) => WakeStep(st, h)
  }

  ghost function Run(market: Market, st: State, events: seq<Event>): (r: State)
    requires WellFormed(st)
    ensures WellFormed(r) && |st.books| <= |r.books|
    decreases |events|
  {
    if events == [] then st else Run(market, Step(market, st, events[0]), events[1..])
  }
}
