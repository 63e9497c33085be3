/**
 Gate: a book per watched symbol, rebuilt from a snapshot request and a stream of diffs.

 A book's id is its state: 0 is unsynced, 1 is waiting for a snapshot, 2 or more is live.
 A message handler runs without interruption except at two points: while its snapshot is being
 fetched and while it sleeps before another look at the message buffer. Each uninterrupted
 stretch is one step of this state machine; the steps are functions on values, and the class in
 `GateClient` performs them in place.
 */
module GateProtocol {
  import opened Wrappers
  import opened OrderBooks
  import opened DepthSync
  import opened Waiters

  /** `books` holds every book ever created; a position in it stands for the shared reference. */
  datatype State = State(
    books: seq<Book>,
    subscribed: map<string, nat>,
    queues: Queues,
    init: map<string, seq<Update>>,
    history: map<string, set<real>>,
    handlers: map<nat, Handler>,
    nextHandler: nat,
    panicked: bool)

  datatype Event =
    | Watch(symbol: string, subscribeOk: bool)
    | Unwatch(symbol: string, unsubscribeOk: bool)
    | OnFail
    | Arrive(symbol: string, update: Update, parses: bool)
    | SnapshotReturns(handler: nat, responses: seq<Option<Snapshot>>)
    | Wake(handler: nat)

  const INITIAL := State([], map[], NO_WAITERS, map[], map[], map[], 0, false)

  ghost predicate WellFormed(st: State) {
    && (forall s :: s in st.subscribed ==> st.subscribed[s] < |st.books|)
    && (forall h :: h in st.handlers ==> st.handlers[h].book < |st.books|)
  }

  ghost predicate ValidEvent(e: Event) {
    e.SnapshotReturns? ==> |e.responses| == MAX_TRIES
  }

  // ---------------------------------------------------------------- the steps

  ghost function SetBook(st: State, b: nat, book: Book): State
    requires b < |st.books|
  {
    st.(books := st.books[b := book])
  }

  ghost function SetId(st: State, b: nat, id: nat): State
    requires b < |st.books|
  {
    SetBook(st, b, st.books[b].(id := id))
  }

  /** The symbol's set of known bid prices after a message, entry by entry. */
  function EditHistory(known: set<real>, entries: seq<(real, real)>): set<real> {
    if entries == [] then known
    else
      var (p, q) := entries[|entries| - 1];
      var rest := EditHistory(known, entries[..|entries| - 1]);
      if q == 0.0 then rest - {p} else rest + {p}
  }

  /** Apply a message to a book, record its bid prices, check them, hand the book to the waiters. */
  ghost function Broadcast(st: State, symbol: string, b: nat, u: Update): (r: State)
    requires WellFormed(st) && b < |st.books|
    ensures WellFormed(r) && r.books == st.books[b := Applied(st.books[b], u)]
    ensures r.subscribed == st.subscribed && r.init == st.init
    ensures r.handlers == st.handlers && r.nextHandler == st.nextHandler
  {
    var book := Applied(st.books[b], u);
    var known := EditHistory(Lookup(st.history, symbol, {}), u.bids);
    var st' := SetBook(st, b, book).(history := st.history[symbol := known]);
    if !(book.bids.levels.Keys <= known) then st'.(panicked := true)
    else if symbol !in st.queues.pending then st'
    else st'.(queues := Deliver(st.queues, symbol, b, book.id))
  }

  /** The first message for an unsynced book starts a handler that asks for a snapshot. */
  ghost function StartSync(st: State, symbol: string, b: nat, firstId: nat): (r: State)
    requires WellFormed(st) && b < |st.books|
    ensures WellFormed(r) && |r.books| == |st.books|
  {
    SetId(st, b, 1).(
      init := st.init[symbol := Lookup(st.init, symbol, [])],
      handlers := st.handlers[st.nextHandler := Handler(symbol, b, Fetching(firstId))],
      nextHandler := st.nextHandler + 1)
  }

  ghost function ArriveStep(st: State, symbol: string, u: Update, parses: bool): (r: State)
    requires WellFormed(st)
    ensures WellFormed(r) && |r.books| == |st.books|
  {
    if symbol !in st.subscribed then st
    else
      var b := st.subscribed[symbol];
      var id := st.books[b].id;
      if id == 1 then st.(init := Buffer(st.init, symbol, u, parses))
      else if id == 0 && !u.full then StartSync(st, symbol, b, u.first)
      else if id != 0 && Gap(id, u) then SetBook(st, b, ClearBook(st.books[b]))
      else if parses then Broadcast(st, symbol, b, u)
      else st
  }

  /** The snapshot requests of one handler: the first answer recent enough, of at most five. */
  function Fetch(latest: Snapshot, responses: seq<Option<Snapshot>>, firstId: nat, retries: nat): (r: Option<Snapshot>)
    requires |responses| == MAX_TRIES && retries <= MAX_TRIES
    ensures r.Some? && firstId > latest.id ==>
              exists k :: retries <= k < MAX_TRIES && responses[k] == r && r.value.id >= firstId
                          && forall i :: retries <= i < k ==> responses[i].Some? && responses[i].value.id < firstId
    ensures r.None? ==>
              exists k :: retries <= k <= MAX_TRIES && (k < MAX_TRIES ==> responses[k].None?)
                          && forall i :: retries <= i < k ==> responses[i].Some? && responses[i].value.id < firstId
    decreases MAX_TRIES - retries
  {
    if latest.id >= firstId then Some(latest)
    else if retries == MAX_TRIES then None
    else
      match responses[retries]
      case None => None
      case Some(s) => Fetch(s, responses, firstId, retries + 1)
  }

  /** Buffered messages applied to a fresh snapshot; a message that does not connect unsyncs the book. */
  ghost function Replay(book: Book, known: set<real>, updates: seq<Update>): (Book, set<real>)
    decreases |updates|
  {
    if updates == [] then (book, known)
    else if Gap(book.id, updates[0]) then (book.(id := 0), known)
    else Replay(Applied(book, updates[0]), EditHistory(known, updates[0].bids), updates[1..])
  }

  ghost function Finish(st: State, h: nat): State {
    st.(handlers := st.handlers - {h})
  }

  ghost function Install(st: State, symbol: string, b: nat, s: Snapshot, updates: seq<Update>): State
    requires b < |st.books|
  {
    var known := Lookup(st.history, symbol, {}) + s.bids.Keys;
    var (book, known') := Replay(FromSnapshot(st.books[b].symbol, s), known, updates);
    SetBook(st, b, book).(history := st.history[symbol := known'])
  }

  /** One look at the buffer: take it all, and either go live, sleep, or give up. */
  ghost function LookStep(st: State, h: nat, snapshot: Snapshot, retries: nat): (r: State)
    requires WellFormed(st) && h in st.handlers
    ensures WellFormed(r) && |r.books| == |st.books|
  {
    var Handler(symbol, b, _) := st.handlers[h];
    if retries == MAX_TRIES then Finish(SetId(st, b, 0), h)
    else if symbol !in st.init then Finish(st, h)
    else
      var pending := st.init[symbol];
      var st' := st.(init := st.init[symbol := []]);
      var k := FirstStraddle(pending, snapshot.id);
      if k == |pending| then
        st'.(handlers := st.handlers[h := Handler(symbol, b, Sleeping(snapshot, retries))])
      else Finish(Install(st', symbol, b, snapshot, pending[k..]), h)
  }

  ghost function SnapshotStep(st: State, h: nat, responses: seq<Option<Snapshot>>): (r: State)
    requires WellFormed(st) && |responses| == MAX_TRIES
    requires h in st.handlers && st.handlers[h].phase.Fetching?
    ensures WellFormed(r) && |r.books| == |st.books|
  {
    match Fetch(NO_SNAPSHOT, responses, st.handlers[h].phase.firstId, 0)
    case None => Finish(SetId(st, st.handlers[h].book, 0), h)
    case Some(s) => LookStep(st, h, s, 0)
  }

  ghost function WakeStep(st: State, h: nat): (r: State)
    requires WellFormed(st)
    requires h in st.handlers && st.handlers[h].phase.Sleeping?
    ensures WellFormed(r) && |r.books| == |st.books|
  {
    LookStep(st, h, st.handlers[h].phase.snapshot, st.handlers[h].phase.retries + 1)
  }

  /** The first watcher of a symbol opens an empty book and a queue. */
  ghost function OpenStep(st: State, symbol: string): (r: State)
    requires WellFormed(st)
    ensures WellFormed(r) && |st.books| <= |r.books| && symbol in r.subscribed
  {
    if symbol in st.subscribed then st
    else
      st.(books := st.books + [Book(symbol, EMPTY_SIDE, EMPTY_SIDE, 0)],
          subscribed := st.subscribed[symbol := |st.books|],
          queues := Open(st.queues, symbol))
  }

  /** A watcher joins the queue; a failed first subscription is undone. */
  ghost function JoinStep(st: State, symbol: string, undo: bool): (r: State)
    requires WellFormed(st)
    ensures WellFormed(r) && r.books == st.books
  {
    if symbol !in st.queues.pending then st.(panicked := true)
    else
      var queues := Enqueue(st.queues, symbol);
      if undo then st.(subscribed := st.subscribed - {symbol}, queues := Drop(queues, symbol))
      else st.(queues := queues)
  }

  ghost function WatchStep(st: State, symbol: string, subscribeOk: bool): (r: State)
    requires WellFormed(st)
    ensures WellFormed(r) && |st.books| <= |r.books|
  {
    JoinStep(OpenStep(st, symbol), symbol, symbol !in st.subscribed && !subscribeOk)
  }

  ghost function UnwatchStep(st: State, symbol: string, unsubscribeOk: bool): (r: State)
    requires WellFormed(st)
    ensures WellFormed(r) && r.books == st.books
  {
    if symbol in st.subscribed && unsubscribeOk then
      st.(subscribed := st.subscribed - {symbol}, queues := Drop(st.queues, symbol))
    else st
  }

  /** The connection failed: its task, and with it every suspended handler, ends. */
  ghost function FailStep(st: State): State {
    st.(subscribed := map[], queues := DropAll(st.queues), init := map[], handlers := map[])
  }

  /** What can happen next. Nothing happens after a panic, or to a handler that is not suspended there. */
  ghost predicate Enabled(st: State, e: Event) {
    && !st.panicked
    && (e.SnapshotReturns? ==> e.handler in st.handlers && st.handlers[e.handler].phase.Fetching?)
    && (e.Wake? ==> e.handler in st.handlers && st.handlers[e.handler].phase.Sleeping?)
  }

  ghost function Step(st: State, e: Event): (r: State)
    requires WellFormed(st) && ValidEvent(e)
    ensures WellFormed(r) && |st.books| <= |r.books|
  {
    if !Enabled(st, e) then st
    else
      match e
      case Watch(symbol, ok) => WatchStep(st, symbol, ok)
      case Unwatch(symbol, ok) => UnwatchStep(st, symbol, ok)
      case OnFail => FailStep(st)
      case Arrive(symbol, u, parses) => ArriveStep(st, symbol, u, parses)
      case SnapshotReturns(h, responses) => SnapshotStep(st, h, responses)
      case Wake(h) => WakeStep(st, h)
  }

  /** A whole run from a state. */
  ghost function Run(st: State, events: seq<Event>): (r: State)
    requires WellFormed(st) && forall e :: e in events ==> ValidEvent(e)
    ensures WellFormed(r) && |st.books| <= |r.books|
    decreases |events|
  {
    if events == [] then st else Run(Step(st, events[0]), events[1..])
  }
}
