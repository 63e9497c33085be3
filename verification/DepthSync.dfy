/**
 What the two exchanges' clients share: a book waits at id 1 while a handler fetches a snapshot and
 then looks, at most five times, for the buffered message that continues it.
 */
module DepthSync {
  import opened OrderBooks
  import opened ServerHistory

  const SNAPSHOT_LIMIT := 100
  const MAX_TRIES := 5

  datatype Snapshot = Snapshot(bids: Levels, asks: Levels, id: nat)

  /** What the asking for a snapshot starts with. */
  const NO_SNAPSHOT := Snapshot(map[], map[], 0)

  /** Where a suspended message handler stands. */
  datatype Phase = Fetching(firstId: nat) | Sleeping(snapshot: Snapshot, retries: nat)

  datatype Handler = Handler(symbol: string, book: nat, phase: Phase)

  /** A book either stays as it is, is unsynced, starts waiting, or is live at a later id. */
  ghost predicate Advances(before: Book, after: Book) {
    || after == before
    || after.id == 0
    || (before.id == 0 && after.id == 1)
    || (after.id >= 2 && after.id > before.id)
  }

  /** How many more times a handler in this phase can be resumed. */
  function PhasePatience(phase: Phase): nat {
    match phase
    case Fetching(_) => MAX_TRIES + 1
    case Sleeping(_, retries) => if retries < MAX_TRIES then MAX_TRIES - retries else 0
  }

  function Lookup<V>(m: map<string, V>, key: string, default: V): V {
    if key in m then m[key] else default
  }

  /** While a book waits, messages that parse are buffered. */
  function Buffer(init: map<string, seq<Update>>, symbol: string, u: Update, parses: bool): map<string, seq<Update>> {
    if symbol in init && parses then init[symbol := init[symbol] + [u]] else init
  }

  ghost function ClearBook(b: Book): Book {
    Book(b.symbol, EMPTY_SIDE, EMPTY_SIDE, 0)
  }

  predicate Straddles(u: Update, id: nat) {
    u.first <= id + 1 && u.last > id
  }

  /** The position of the first buffered message that continues the snapshot. */
  function FirstStraddle(pending: seq<Update>, id: nat): (k: nat)
    ensures k <= |pending|
    ensures k < |pending| ==> Straddles(pending[k], id)
    ensures forall i :: 0 <= i < k ==> !Straddles(pending[i], id)
  {
    if pending == [] then 0
    else if Straddles(pending[0], id) then 0
    else 1 + FirstStraddle(pending[1..], id)
  }

  /** The first buffered message that begins no later than the id after the snapshot's and ends later. */
  ghost predicate FirstToContinue(pending: seq<Update>, id: nat, k: int) {
    && 0 <= k < |pending| && pending[k].first <= id + 1 && pending[k].last > id
    && forall i :: 0 <= i < k ==> pending[i].first > id + 1 || pending[i].last <= id
  }

  lemma StraddleIsFirst(pending: seq<Update>, id: nat)
    ensures var k := FirstStraddle(pending, id);
            && (k < |pending| ==> FirstToContinue(pending, id, k))
            && forall i :: FirstToContinue(pending, id, i) ==> i == k < |pending|
  {
    var k := FirstStraddle(pending, id);
    forall i | FirstToContinue(pending, id, i) ensures i == k < |pending| {
      assert Straddles(pending[i], id);
      assert k <= i && Straddles(pending[k], id);
    }
  }

  /** Every message continues the one before it: it begins no later than the next id and ends later. */
  ghost predicate Connect(updates: seq<Update>) {
    forall i :: 0 < i < |updates| ==>
      updates[i].first <= updates[i - 1].last + 1 && updates[i].last > updates[i - 1].last
  }

  lemma ConnectRest(updates: seq<Update>)
    requires |updates| >= 2
    ensures Connect(updates) <==> !Gap(updates[0].last, updates[1]) && Connect(updates[1..])
  {
    var rest := updates[1..];
    if !Gap(updates[0].last, updates[1]) && Connect(rest) {
      forall i | 0 < i < |updates|
        ensures updates[i].first <= updates[i - 1].last + 1 && updates[i].last > updates[i - 1].last
      {
        if i > 1 { assert rest[i - 1] == updates[i] && rest[i - 2] == updates[i - 1]; }
      }
    }
    if Connect(updates) {
      forall i | 0 < i < |rest| ensures rest[i].first <= rest[i - 1].last + 1 && rest[i].last > rest[i - 1].last {
        assert rest[i] == updates[i + 1] && rest[i - 1] == updates[i];
      }
    }
  }

  ghost function FromSnapshot(symbol: string, s: Snapshot): Book {
    SnapshotBook(symbol, s.bids, s.asks, s.id, SNAPSHOT_LIMIT)
  }

  type Servers = string -> Server

  /** Real update ids start at 2, because 0 and 1 are the book's own states. */
  ghost predicate TruthfulMessage(server: Server, u: Update) {
    2 <= u.first <= u.last && Truthful(server, u, u.first - 1)
  }

  ghost predicate TruthfulSnapshot(server: Server, s: Snapshot) {
    && s.id >= 2
    && TruthfulTop(Bid, s.bids, server.bids(s.id), SNAPSHOT_LIMIT)
    && TruthfulTop(Ask, s.asks, server.asks(s.id), SNAPSHOT_LIMIT)
  }

  /** A suspended handler's book is waiting, its symbol has a buffer, and it holds true things. */
  ghost predicate Attended(servers: Servers, x: Handler, books: seq<Book>, init: map<string, seq<Update>>)
    requires x.book < |books|
  {
    && books[x.book].symbol == x.symbol && books[x.book].id == 1
    && x.symbol in init
    && match x.phase {
         case Fetching(firstId) => firstId >= 2
         case Sleeping(s, retries) => retries < MAX_TRIES && TruthfulSnapshot(servers(x.symbol), s)
       }
  }

  lemma FreshBookGood(server: Server, symbol: string, s: Snapshot)
    requires TruthfulSnapshot(server, s)
    ensures GoodBook(server, FromSnapshot(symbol, s)) && FromSnapshot(symbol, s).id >= 2
  {
  }

  lemma SnapshotId(symbol: string, s: Snapshot)
    ensures FromSnapshot(symbol, s).id == s.id
  {
  }

  method FindStraddle(pending: seq<Update>, id: nat) returns (k: nat)
    ensures k == FirstStraddle(pending, id) && k <= |pending|
  {
    k := 0;
    while k < |pending| && !Straddles(pending[k], id)
      invariant k <= |pending|
      invariant FirstStraddle(pending, id) == k + FirstStraddle(pending[k..], id)
    {
      assert pending[k..][1..] == pending[k + 1..];
      k := k + 1;
    }
  }

  ghost function BooksOf(arena: seq<OrderBook>): (r: seq<Book>)
    reads arena
    ensures |r| == |arena|
  {
    seq(|arena|, i requires 0 <= i < |arena| reads arena => arena[i].Value())
  }

  // ---------------------------------------------------------------- shared books, changed in place

  ghost predicate Distinct(arena: seq<OrderBook>) {
    forall i, j :: 0 <= i < j < |arena| ==> arena[i] != arena[j]
  }

  /** The books' values, given what they were and that only one object changed. */
  lemma OneBookChanged(arena: seq<OrderBook>, before: seq<Book>, b: nat)
    requires b < |arena| == |before|
    requires forall i :: 0 <= i < |arena| && i != b ==> arena[i].Value() == before[i]
    ensures BooksOf(arena) == before[b := arena[b].Value()]
  {
  }

  method ApplyTo(arena: seq<OrderBook>, b: nat, update: Update)
    requires Distinct(arena) && b < |arena|
    modifies arena[b]
    ensures BooksOf(arena) == old(BooksOf(arena))[b := Applied(old(BooksOf(arena))[b], update)]
  {
    hide Applied;
    ghost var before := BooksOf(arena);
    arena[b].ApplyUpdate(update);
    OneBookChanged(arena, before, b);
  }

  method SetIdOf(arena: seq<OrderBook>, b: nat, id: nat)
    requires Distinct(arena) && b < |arena|
    modifies arena[b]
    ensures BooksOf(arena) == old(BooksOf(arena))[b := old(BooksOf(arena))[b].(id := id)]
  {
    ghost var before := BooksOf(arena);
    arena[b].updateId := id;
    OneBookChanged(arena, before, b);
  }

  method Clear(arena: seq<OrderBook>, b: nat)
    requires Distinct(arena) && b < |arena|
    modifies arena[b]
    ensures BooksOf(arena) == old(BooksOf(arena))[b := ClearBook(old(BooksOf(arena))[b])]
  {
    ghost var before := BooksOf(arena);
    var book := arena[b];
    book.asks, book.bids, book.updateId := map[], map[], 0;
    book.bidWindow, book.bidSeen, book.askWindow, book.askSeen := iset{}, iset{}, iset{}, iset{};
    OneBookChanged(arena, before, b);
  }

  method TakeSnapshot(arena: seq<OrderBook>, b: nat, snapshot: Snapshot, id: nat)
    requires Distinct(arena) && b < |arena|
    modifies arena[b]
    ensures BooksOf(arena) == old(BooksOf(arena))[b := FromSnapshot(old(BooksOf(arena))[b].symbol, snapshot).(id := id)]
  {
    ghost var before := BooksOf(arena);
    var book := arena[b];
    book.asks, book.bids, book.updateId := snapshot.asks, snapshot.bids, id;
    book.bidWindow, book.bidSeen := Coverage(Bid, snapshot.bids.Keys, SNAPSHOT_LIMIT), iset{};
    book.askWindow, book.askSeen := Coverage(Ask, snapshot.asks.Keys, SNAPSHOT_LIMIT), iset{};
    OneBookChanged(arena, before, b);
  }
}
