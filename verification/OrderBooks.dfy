/**
 The local order book and the diff messages that change it.

 Prices and quantities are exact reals. A book side is a finite map from price to
 quantity; the order of the original's tree map matters only for the best price and is
 given by `AsGood`. Each side also carries, for the proofs only, the prices it vouches
 for: the window of the last snapshot or full message, and the prices seen since.
 */
module OrderBooks {

  import opened Wrappers

  type Levels = map<real, real>

  datatype Update = Update(
    bids: seq<(real, real)>, asks: seq<(real, real)>, first: nat, last: nat, full: bool)

  datatype Direction = Bid | Ask

  datatype Side = Side(levels: Levels, window: iset<real>, seen: iset<real>)

  datatype Book = Book(symbol: string, bids: Side, asks: Side, id: nat)

  const EMPTY_SIDE := Side(map[], iset{}, iset{})

  /** A price's quantity on a side, if the side lists it. */
  function Entry(levels: Levels, p: real): Option<real> {
    if p in levels then Some(levels[p]) else None
  }

  /** Bids are best first from the highest price, asks from the lowest. */
  predicate AsGood(d: Direction, p: real, q: real) {
    if d.Bid? then p >= q else p <= q
  }

  /** The last entry that a message lists for a price. */
  function LastEntry(entries: seq<(real, real)>, p: real): (r: Option<real>)
    ensures r.None? <==> forall i :: 0 <= i < |entries| ==> entries[i].0 != p
    ensures r.Some? ==> exists i :: 0 <= i < |entries| && entries[i] == (p, r.value)
                                 && forall j :: i < j < |entries| ==> entries[j].0 != p
  {
    if entries == [] then None
    else
      var last := entries[|entries| - 1];
      if last.0 == p then Some(last.1) else LastEntry(entries[..|entries| - 1], p)
  }

  /** What an entry says about its price: quantity zero means that the level is gone. */
  function Meaning(q: real): Option<real> {
    if q == 0.0 then None else Some(q)
  }

  /** Entries applied one at a time, in order. */
  function Fold(levels: Levels, entries: seq<(real, real)>): Levels {
    if entries == [] then levels
    else
      var (p, q) := entries[|entries| - 1];
      var rest := Fold(levels, entries[..|entries| - 1]);
      if q == 0.0 then rest - {p} else rest[p := q]
  }

  /** The last entry for a price decides its level; other prices keep theirs. */
  lemma {:induction false} FoldAt(levels: Levels, entries: seq<(real, real)>, p: real)
    ensures Entry(Fold(levels, entries), p)
         == match LastEntry(entries, p) { case None => Entry(levels, p) case Some(q) => Meaning(q) }
  {
    if entries != [] {
      FoldAt(levels, entries[..|entries| - 1], p);
    }
  }

  /** The prices that a top-of-book listing of the given keys accounts for: everything when it is
      shorter than its limit, otherwise every price as good as one that it lists. */
  ghost predicate Covers(d: Direction, keys: set<real>, limit: nat, p: real) {
    |keys| < limit || exists k :: k in keys && AsGood(d, p, k)
  }

  ghost function Coverage(d: Direction, keys: set<real>, limit: nat): iset<real> {
    iset p: real | Covers(d, keys, limit, p)
  }

  ghost function Listed(entries: seq<(real, real)>): iset<real> {
    iset p: real | LastEntry(entries, p).Some?
  }

  /** One side after a message. A full message replaces the side. */
  ghost function ApplySide(d: Direction, s: Side, entries: seq<(real, real)>, full: bool): Side {
    if full then
      var levels := Fold(map[], entries);
      Side(levels, Coverage(d, levels.Keys, 0), iset{})
    else
      Side(Fold(s.levels, entries), s.window, s.seen + Listed(entries))
  }

  ghost function Applied(b: Book, u: Update): Book {
    Book(b.symbol,
         ApplySide(Bid, b.bids, u.bids, u.full),
         ApplySide(Ask, b.asks, u.asks, u.full),
         if u.last > 0 then u.last
         else if |u.bids| > 0 || |u.asks| > 0 then b.id + 1 else b.id)
  }

  /** What a message makes of one side, price by price: the last entry for a price decides, and an unlisted price keeps
      its level unless the message is full. */
  ghost predicate Took(before: Levels, entries: seq<(real, real)>, full: bool, after: Levels) {
    forall p :: Entry(after, p) == match LastEntry(entries, p) {
                                     case Some(q) => Meaning(q)
                                     case None => if full then None else Entry(before, p)
                                   }
  }

  /** A message is taken on both sides; its last id becomes the book's, or, if it has none, a message that lists
      anything moves the id on by one. */
  lemma AppliedTakes(b: Book, u: Update)
    ensures var r := Applied(b, u);
            && r.symbol == b.symbol
            && Took(b.bids.levels, u.bids, u.full, r.bids.levels) && Took(b.asks.levels, u.asks, u.full, r.asks.levels)
            && (u.last > 0 ==> r.id == u.last)
            && (u.last == 0 ==> r.id == if u.bids == [] && u.asks == [] then b.id else b.id + 1)
  {
    hide LastEntry;
    var (bids, asks) := (if u.full then map[] else b.bids.levels, if u.full then map[] else b.asks.levels);
    forall p ensures Entry(map[], p) == None {}
    forall p { FoldAt(bids, u.bids, p); }
    forall p { FoldAt(asks, u.asks, p); }
  }

  /** A message does not connect to a book at `id`. */
  predicate Gap(id: nat, u: Update) {
    u.first > id + 1 || u.last < id + 1
  }

  /** The shared, mutable order book. */
  class OrderBook {
    ghost const symbol: string
    var bids: Levels
    var asks: Levels
    var updateId: nat
    ghost var bidWindow: iset<real>
    ghost var bidSeen: iset<real>
    ghost var askWindow: iset<real>
    ghost var askSeen: iset<real>

    ghost function Value(): Book
      reads this
    {
      Book(symbol, Side(bids, bidWindow, bidSeen), Side(asks, askWindow, askSeen), updateId)
    }

    constructor (ghost symbol: string)
      ensures Value() == Book(symbol, EMPTY_SIDE, EMPTY_SIDE, 0)
    {
      this.symbol := symbol;
      bids, asks, updateId := map[], map[], 0;
      bidWindow, bidSeen, askWindow, askSeen := iset{}, iset{}, iset{}, iset{};
    }

    method ApplyUpdate(update: Update)
      modifies this
      ensures Value() == Applied(old(Value()), update)
    {
      if update.full {
        asks := map[];
        bids := map[];
      }
      ghost var bids0, asks0 := bids, asks;
      for i := 0 to |update.bids|
        invariant bids == Fold(bids0, update.bids[..i])
        invariant asks == asks0 && updateId == old(updateId)
        invariant bidWindow == old(bidWindow) && bidSeen == old(bidSeen)
        invariant askWindow == old(askWindow) && askSeen == old(askSeen)
      {
        var (price, qty) := update.bids[i];
        assert update.bids[..i + 1][..i] == update.bids[..i];
        if qty == 0.0 { bids := bids - {price}; } else { bids := bids[price := qty]; }
      }
      assert update.bids[..|update.bids|] == update.bids;
      for i := 0 to |update.asks|
        invariant asks == Fold(asks0, update.asks[..i])
        invariant bids == Fold(bids0, update.bids) && updateId == old(updateId)
        invariant bidWindow == old(bidWindow) && bidSeen == old(bidSeen)
        invariant askWindow == old(askWindow) && askSeen == old(askSeen)
      {
        var (price, qty) := update.asks[i];
        assert update.asks[..i + 1][..i] == update.asks[..i];
        if qty == 0.0 { asks := asks - {price}; } else { asks := asks[price := qty]; }
      }
      assert update.asks[..|update.asks|] == update.asks;
      if |update.bids| > 0 || |update.asks| > 0 {
        updateId := updateId + 1;
      }
      if update.last > 0 {
        updateId := update.last;
      }
      bidWindow := if update.full then Coverage(Bid, bids.Keys, 0) else bidWindow;
      askWindow := if update.full then Coverage(Ask, asks.Keys, 0) else askWindow;
      bidSeen := if update.full then iset{} else bidSeen + Listed(update.bids);
      askSeen := if update.full then iset{} else askSeen + Listed(update.asks);
    }
  }
}
