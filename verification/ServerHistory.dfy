/**
 The exchange's side of the synchronisation: what its book was at every id, when a message or a
 snapshot tells the truth about it, and what a local side means.
 */
module ServerHistory {
  import opened Wrappers
  import opened OrderBooks

  /** The exchange's book of one symbol at every update id. */
  datatype Server = Server(bids: nat -> Levels, asks: nat -> Levels)

  ghost function Tracked(s: Side): iset<real> {
    s.window + s.seen
  }

  /** The side is the exchange's side restricted to the tracked prices. */
  ghost predicate Agrees(s: Side, truth: Levels) {
    forall p :: Entry(s.levels, p) == if p in Tracked(s) then Entry(truth, p) else None
  }

  ghost predicate UpClosed(d: Direction, window: iset<real>) {
    forall p, q :: q in window && AsGood(d, p, q) ==> p in window
  }

  ghost predicate GoodSide(d: Direction, s: Side, truth: Levels) {
    Agrees(s, truth) && UpClosed(d, s.window)
  }

  /** A live book (id 2 or more) is the exchange's book at exactly that id. */
  ghost predicate GoodBook(server: Server, b: Book) {
    b.id >= 2 ==> GoodSide(Bid, b.bids, server.bids(b.id)) && GoodSide(Ask, b.asks, server.asks(b.id))
  }

  /** A diff over ids (before, last]: a listed price's last entry is its quantity at `last`,
      and an unlisted price did not change in between. */
  ghost predicate TruthfulDiff(h: nat -> Levels, entries: seq<(real, real)>, before: nat, last: nat) {
    forall p ::
      match LastEntry(entries, p) {
        case Some(q) => Meaning(q) == Entry(h(last), p)
        case None => forall n: nat :: before <= n <= last ==> Entry(h(n), p) == Entry(h(last), p)
      }
  }

  /** A listing of the best levels, complete when shorter than `limit`. */
  ghost predicate TruthfulTop(d: Direction, levels: Levels, truth: Levels, limit: nat) {
    Agrees(Side(levels, Coverage(d, levels.Keys, limit), iset{}), truth)
  }

  ghost predicate TruthfulSide(
    d: Direction, h: nat -> Levels, entries: seq<(real, real)>, before: nat, last: nat, full: bool)
  {
    if full then TruthfulTop(d, Fold(map[], entries), h(last), 0)
    else TruthfulDiff(h, entries, before, last)
  }

  /** A message whose diff covers the ids after `before`. */
  ghost predicate Truthful(server: Server, u: Update, before: nat) {
    && 2 <= u.last && before < u.last
    && TruthfulSide(Bid, server.bids, u.bids, before, u.last, u.full)
    && TruthfulSide(Ask, server.asks, u.asks, before, u.last, u.full)
  }

  lemma CoverageUpClosed(d: Direction, keys: set<real>, limit: nat)
    ensures UpClosed(d, Coverage(d, keys, limit))
  {
  }

  /** Absorption on one side: a diff that starts at or before the book's id and ends after it
      brings the side to the exchange's side at the diff's end, whatever part of the diff the
      book already contains. */
  lemma AbsorbSide(d: Direction, s: Side, h: nat -> Levels, entries: seq<(real, real)>,
                   before: nat, id: nat, last: nat, full: bool)
    requires before <= id <= last
    requires GoodSide(d, s, h(id)) || full
    requires TruthfulSide(d, h, entries, before, last, full)
    ensures GoodSide(d, ApplySide(d, s, entries, full), h(last))
    ensures !full ==> ApplySide(d, s, entries, full).window == s.window
    ensures !full ==> Tracked(ApplySide(d, s, entries, full)) == Tracked(s) + Listed(entries)
  {
    var r := ApplySide(d, s, entries, full);
    if full {
      CoverageUpClosed(d, Fold(map[], entries).Keys, 0);
    } else {
      forall p ensures Entry(r.levels, p) == if p in Tracked(r) then Entry(h(last), p) else None {
        FoldAt(s.levels, entries, p);
        if LastEntry(entries, p).None? {
          assert Entry(h(id), p) == Entry(h(last), p);
        }
      }
    }
  }

  /** Overlap absorption for whole books: every truthful message that passes the gap test takes a
      good live book to a good live book at the message's last id, strictly later. */
  lemma Absorb(server: Server, b: Book, u: Update, before: nat)
    requires Truthful(server, u, before)
    requires u.full || (b.id >= 2 && GoodBook(server, b) && before <= b.id < u.last)
    ensures Applied(b, u).id == u.last
    ensures GoodBook(server, Applied(b, u))
  {
    var id := if u.full then u.last else b.id;
    var before' := if u.full then u.last else before;
    AbsorbSide(Bid, b.bids, server.bids, u.bids, before', id, u.last, u.full);
    AbsorbSide(Ask, b.asks, server.asks, u.asks, before', id, u.last, u.full);
  }

  ghost function SnapshotBook(symbol: string, bids: Levels, asks: Levels, id: nat, limit: nat): Book {
    Book(symbol, Side(bids, Coverage(Bid, bids.Keys, limit), iset{}),
         Side(asks, Coverage(Ask, asks.Keys, limit), iset{}), id)
  }

  /** A truthful snapshot makes a good book; a listing shorter than its limit makes the whole book. */
  lemma SnapshotIsGood(server: Server, symbol: string, bids: Levels, asks: Levels, id: nat, limit: nat)
    requires TruthfulTop(Bid, bids, server.bids(id), limit) && TruthfulTop(Ask, asks, server.asks(id), limit)
    ensures GoodBook(server, SnapshotBook(symbol, bids, asks, id, limit))
    ensures |bids| < limit ==> bids == server.bids(id)
    ensures |asks| < limit ==> asks == server.asks(id)
  {
    CoverageUpClosed(Bid, bids.Keys, limit);
    CoverageUpClosed(Ask, asks.Keys, limit);
    SameEntries(bids, server.bids(id));
    SameEntries(asks, server.asks(id));
    assert |bids.Keys| == |bids| && |asks.Keys| == |asks|;
  }

  lemma SameEntries(a: Levels, b: Levels)
    ensures (forall p :: Entry(a, p) == Entry(b, p)) ==> a == b
  {
    if forall p :: Entry(a, p) == Entry(b, p) {
      forall p ensures p in a <==> p in b { assert Entry(a, p) == Entry(b, p); }
      forall p | p in a ensures a[p] == b[p] { assert Entry(a, p) == Entry(b, p); }
    }
  }

  lemma EmptyAt(prices: set<real>)
    ensures (forall q :: q !in prices) ==> prices == {}
  {
    if forall q :: q !in prices { assert |prices| == 0; }
  }

  lemma SomePrice(prices: set<real>) returns (p: real)
    requires prices != {}
    ensures p in prices
  {
    EmptyAt(prices);
    p :| p in prices;
  }

  // ---------------------------------------------------------------- the next message

  predicate NoZeros(levels: Levels) {
    forall p :: p in levels ==> levels[p] != 0.0
  }

  function Amount(levels: Levels, p: real): real {
    if p in levels then levels[p] else 0.0
  }

  lemma {:induction false} ListPrices(levels: Levels, prices: set<real>) returns (entries: seq<(real, real)>)
    ensures forall p :: LastEntry(entries, p) == if p in prices then Some(Amount(levels, p)) else None
    decreases |prices|
  {
    if prices == {} {
      entries := [];
    } else {
      var q := SomePrice(prices);
      var rest := ListPrices(levels, prices - {q});
      entries := rest + [(q, Amount(levels, q))];
      assert entries[..|entries| - 1] == rest;
    }
  }

  /** A diff of one id can always be told, and it need not mention what stays as it is. */
  lemma NextDiff(h: nat -> Levels, id: nat) returns (entries: seq<(real, real)>)
    requires NoZeros(h(id + 1))
    ensures TruthfulDiff(h, entries, id, id + 1)
    ensures forall p :: LastEntry(entries, p).None? <==> Entry(h(id), p) == Entry(h(id + 1), p)
  {
    var changed := set p | p in h(id).Keys + h(id + 1).Keys && Entry(h(id), p) != Entry(h(id + 1), p);
    entries := ListPrices(h(id + 1), changed);
    forall p ensures p in changed <==> Entry(h(id), p) != Entry(h(id + 1), p) {}
  }

  ghost function SideOf(d: Direction, b: Book): Side {
    if d.Bid? then b.bids else b.asks
  }

  ghost function TruthOf(d: Direction, server: Server, id: nat): Levels {
    if d.Bid? then server.bids(id) else server.asks(id)
  }

  /** The first entry of a side in book order, as `get_price` reads it. */
  ghost predicate IsBest(d: Direction, levels: Levels, p: real) {
    p in levels && forall q :: q in levels ==> AsGood(d, p, q)
  }

  /** While the best local level lies inside the window, it is the exchange's best level with the
      exchange's quantity, however many levels outside the window are missing. */
  lemma BestPriceIsServers(d: Direction, s: Side, truth: Levels, p: real)
    requires GoodSide(d, s, truth)
    requires IsBest(d, s.levels, p) && exists k :: k in s.levels && k in s.window
    ensures IsBest(d, truth, p) && truth[p] == s.levels[p]
  {
    var k :| k in s.levels && k in s.window;
    assert AsGood(d, p, k);
    assert Entry(s.levels, p) == Entry(truth, p);
    forall q | q in truth ensures AsGood(d, p, q) {
      if AsGood(d, q, p) {
        assert q in s.window;
        assert Entry(s.levels, q) == Entry(truth, q);
      }
    }
  }
}
