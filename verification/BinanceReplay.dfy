/**
 When Binance's unchecked replay is right. The replayed messages are true and in order, but some may be
 missing: lost on the way, or sent while nobody was subscribed. The book that the replay makes is the
 exchange's whatever the missing messages said if and only if none is missing, and that can be read off
 the messages' ids beforehand.
 */
module BinanceReplay {
  import opened Wrappers
  import opened OrderBooks
  import opened ServerHistory
  import opened DepthSync
  import opened BinanceProtocol
  import opened BinanceSafety

  /** A message as it was sent: the buffer keeps the update, not the previous message's id. */
  datatype Sent = Sent(update: Update, previous: Option<nat>)

  function Updates(sent: seq<Sent>): (r: seq<Update>)
    ensures |r| == |sent| && forall i :: 0 <= i < |sent| ==> r[i] == sent[i].update
  {
    seq(|sent|, i requires 0 <= i < |sent| => sent[i].update)
  }

  function Start(market: Market, m: Sent): nat {
    Before(market, m.update, m.previous)
  }

  /** Diffs with real ids that follow each other, possibly overlapping, possibly with some left out. */
  ghost predicate InOrder(market: Market, sent: seq<Sent>) {
    && (forall i :: 0 <= i < |sent| ==>
          var u := sent[i].update;
          2 <= u.first <= u.last && Start(market, sent[i]) < u.first && !u.full)
    && (forall i, j :: 0 <= i < j < |sent| ==>
          Start(market, sent[i]) <= Start(market, sent[j]) && sent[i].update.last < sent[j].update.last)
  }

  /** The test that the replay leaves out: every message begins at or before the end of the one before it. */
  predicate Connected(market: Market, id: nat, sent: seq<Sent>)
    decreases |sent|
  {
    sent == [] || (Start(market, sent[0]) <= id && Connected(market, sent[0].update.last, sent[1..]))
  }

  /** On the spot market that is the gap test which Gate's replay makes. */
  lemma SpotConnects(id: nat, m: Sent)
    requires 2 <= m.update.first && id < m.update.last
    ensures Start(Spot, m) <= id <==> !Gap(id, m.update)
  {
  }

  /** An exchange of which the snapshot and all these messages are true. */
  ghost predicate Consistent(server: Server, market: Market, s: Snapshot, sent: seq<Sent>) {
    && TruthfulSnapshot(server, s)
    && forall i :: 0 <= i < |sent| ==> Truthful(server, sent[i].update, Start(market, sent[i]))
  }

  ghost function Replayed(symbol: string, s: Snapshot, sent: seq<Sent>): Book {
    ReplayAll(FromSnapshot(symbol, s).(id := 1), Updates(sent))
  }

  // ---------------------------------------------------------------- nothing is missing

  lemma {:induction false} ConnectedChain(server: Server, market: Market, id: nat, sent: seq<Sent>)
    requires InOrder(market, sent) && Connected(market, id, sent) && (sent != [] ==> id < sent[0].update.last)
    requires forall i :: 0 <= i < |sent| ==> Truthful(server, sent[i].update, Start(market, sent[i]))
    ensures Chain(server, id, Updates(sent))
    decreases |sent|
  {
    hide Truthful, Before;
    if sent != [] {
      var rest := sent[1..];
      TruthFromInside(server, sent[0].update, Start(market, sent[0]), id);
      assert Updates(sent)[1..] == Updates(rest);
      ConnectedChain(server, market, sent[0].update.last, rest);
    }
  }

  lemma ConnectedIsRight(server: Server, market: Market, symbol: string, s: Snapshot, sent: seq<Sent>)
    requires sent != [] && InOrder(market, sent) && Straddles(sent[0].update, s.id)
    requires Consistent(server, market, s, sent) && Connected(market, s.id, sent)
    ensures GoodBook(server, Replayed(symbol, s, sent))
  {
    hide Truthful, TruthfulSnapshot, GoodBook, Chain, ReplayAll, Connected, Before, SnapshotBook;
    ConnectedChain(server, market, s.id, sent);
    FreshBookGood(server, symbol, s);
    SnapshotId(symbol, s);
    ReplayAllGood(server, FromSnapshot(symbol, s), Updates(sent));
    ReplayIgnoresId(FromSnapshot(symbol, s), 1, Updates(sent));
  }

  // ---------------------------------------------------------------- something is missing

  /** A price above finitely many. */
  lemma {:induction false} PriceAbove(prices: set<real>) returns (p: real)
    ensures forall q :: q in prices ==> q < p
    decreases |prices|
  {
    if prices == {} {
      p := 0.0;
    } else {
      var q := SomePrice(prices);
      var others := prices - {q};
      var rest := PriceAbove(others);
      p := if q < rest then rest else q + 1.0;
      forall o | o in prices ensures o < p {
        assert o == q || o in others;
      }
    }
  }

  /** A bid above everything that the snapshot and the messages list. */
  lemma UnlistedBid(s: Snapshot, updates: seq<Update>) returns (p: real)
    ensures forall q :: q in s.bids ==> q < p
    ensures forall i :: 0 <= i < |updates| ==> LastEntry(updates[i].bids, p).None?
  {
    hide LastEntry;
    var listed := set i, j | 0 <= i < |updates| && 0 <= j < |updates[i].bids| :: updates[i].bids[j].0;
    p := PriceAbove(s.bids.Keys + listed);
    forall i | 0 <= i < |updates| ensures LastEntry(updates[i].bids, p).None? {
      forall j | 0 <= j < |updates[i].bids| ensures updates[i].bids[j].0 != p {
        assert updates[i].bids[j].0 in listed;
      }
    }
  }

  /** Replaying leaves a price alone that no message lists. */
  lemma {:induction false} ReplayUnlisted(book: Book, updates: seq<Update>, p: real)
    requires forall i :: 0 <= i < |updates| ==>
               !updates[i].full && updates[i].last > 0 && LastEntry(updates[i].bids, p).None?
    ensures var r := ReplayAll(book, updates);
            && (p in r.bids.levels <==> p in book.bids.levels) && r.bids.window == book.bids.window
            && r.id == if updates == [] then book.id else updates[|updates| - 1].last
    decreases |updates|
  {
    hide LastEntry, Fold;
    if updates != [] {
      FoldAt(book.bids.levels, updates[0].bids, p);
      ReplayUnlisted(Applied(book, updates[0]), updates[1..], p);
    }
  }

  /** The first message that does not begin where the one before it ended. */
  lemma {:induction false} FirstBreak(market: Market, id: nat, sent: seq<Sent>) returns (k: nat)
    requires !Connected(market, id, sent) && Start(market, sent[0]) <= id
    ensures 0 < k < |sent| && sent[k - 1].update.last < Start(market, sent[k])
    decreases |sent|
  {
    hide Before;
    if Start(market, sent[1]) <= sent[0].update.last {
      k := FirstBreak(market, sent[0].update.last, sent[1..]);
      k := k + 1;
    } else {
      k := 1;
    }
  }

  /** The same exchange with one more bid from an id on. */
  ghost function WithBidAfter(server: Server, id: nat, p: real): Server {
    Server((n: nat) => if n <= id then server.bids(n) else server.bids(n)[p := 1.0], server.asks)
  }

  lemma DiffAcross(server: Server, id: nat, p: real, u: Update, before: nat)
    requires Truthful(server, u, before) && !u.full && (u.last <= id || (id < before && LastEntry(u.bids, p).None?))
    ensures Truthful(WithBidAfter(server, id, p), u, before)
  {
    hide LastEntry;
    var server' := WithBidAfter(server, id, p);
    forall q ensures match LastEntry(u.bids, q) {
                       case Some(amount) => Meaning(amount) == Entry(server'.bids(u.last), q)
                       case None => forall n: nat :: before <= n <= u.last ==>
                                      Entry(server'.bids(n), q) == Entry(server'.bids(u.last), q)
                     }
    {
      if LastEntry(u.bids, q).None? {
        forall n: nat | before <= n <= u.last ensures Entry(server'.bids(n), q) == Entry(server'.bids(u.last), q) {
          assert Entry(server.bids(n), q) == Entry(server.bids(u.last), q);
        }
      }
    }
  }

  /** A bid that came in the missing part is consistent with everything that did arrive. */
  lemma StaysConsistent(server: Server, market: Market, s: Snapshot, sent: seq<Sent>, k: nat, p: real)
    requires Consistent(server, market, s, sent) && InOrder(market, sent) && 0 < k < |sent|
    requires s.id <= sent[k - 1].update.last < Start(market, sent[k])
    requires forall i :: 0 <= i < |sent| ==> LastEntry(sent[i].update.bids, p).None?
    ensures Consistent(WithBidAfter(server, sent[k - 1].update.last, p), market, s, sent)
  {
    hide Truthful, LastEntry, Before;
    var id := sent[k - 1].update.last;
    var server' := WithBidAfter(server, id, p);
    assert server'.bids(s.id) == server.bids(s.id);
    forall i | 0 <= i < |sent| ensures Truthful(server', sent[i].update, Start(market, sent[i])) {
      DiffAcross(server, id, p, sent[i].update, Start(market, sent[i]));
    }
  }

  lemma BreakIsWrong(server: Server, market: Market, symbol: string, s: Snapshot, sent: seq<Sent>) returns (server': Server)
    requires sent != [] && InOrder(market, sent) && Straddles(sent[0].update, s.id)
    requires Consistent(server, market, s, sent) && !Connected(market, s.id, sent)
    ensures Consistent(server', market, s, sent) && !GoodBook(server', Replayed(symbol, s, sent))
  {
    hide Truthful, LastEntry, Before, ReplayAll, Connected;
    var k := FirstBreak(market, s.id, sent);
    var p := UnlistedBid(s, Updates(sent));
    var id := sent[k - 1].update.last;
    server' := WithBidAfter(server, id, p);
    StaysConsistent(server, market, s, sent, k, p);
    ReplayUnlisted(FromSnapshot(symbol, s).(id := 1), Updates(sent), p);
    var r := Replayed(symbol, s, sent);
    assert r.id == sent[|sent| - 1].update.last > id;
    UnlistedIsTracked(symbol, s, p);
    assert Entry(r.bids.levels, p) == None && Entry(server'.bids(r.id), p) == Some(1.0) && p in Tracked(r.bids);
  }

  lemma UnlistedIsTracked(symbol: string, s: Snapshot, p: real)
    requires forall q :: q in s.bids ==> q < p
    ensures var b := FromSnapshot(symbol, s); p in b.bids.window && p !in b.bids.levels
  {
    if |s.bids.Keys| >= SNAPSHOT_LIMIT {
      var q := SomePrice(s.bids.Keys);
      assert AsGood(Bid, p, q);
    }
  }

  // ---------------------------------------------------------------- the exact condition

  /** True messages in order, the first of which continues a true snapshot, are replayed to the exchange's book,
      whichever exchange they come from, if and only if they are connected. */
  lemma ReplayRightIff(market: Market, symbol: string, s: Snapshot, sent: seq<Sent>)
    requires sent != [] && InOrder(market, sent) && Straddles(sent[0].update, s.id)
    requires exists server :: Consistent(server, market, s, sent)
    ensures (forall server :: Consistent(server, market, s, sent) ==> GoodBook(server, Replayed(symbol, s, sent)))
       <==> Connected(market, s.id, sent)
  {
    hide Consistent, InOrder, Connected, GoodBook, Replayed;
    if Connected(market, s.id, sent) {
      forall server | Consistent(server, market, s, sent) ensures GoodBook(server, Replayed(symbol, s, sent)) {
        ConnectedIsRight(server, market, symbol, s, sent);
      }
    } else {
      var server :| Consistent(server, market, s, sent);
      var server' := BreakIsWrong(server, market, symbol, s, sent);
    }
  }

  /** The same for a look of any handler, its book subscribed or not, that finds the message that continues its
      snapshot: the book goes live, and right, if and only if the rest of the buffer is connected. */
  lemma LookRightIff(market: Market, st: State, h: nat, s: Snapshot, retries: nat, sent: seq<Sent>)
    requires WellFormed(st) && h in st.handlers && retries < MAX_TRIES && s.id >= 2
    requires var Handler(symbol, b, _) := st.handlers[h];
             && symbol in st.init && st.books[b].id == 1
             && var k := FirstStraddle(st.init[symbol], s.id);
                k < |st.init[symbol]| && st.init[symbol][k..] == Updates(sent)
    requires InOrder(market, sent) && exists server :: Consistent(server, market, s, sent)
    ensures var book := LookStep(st, h, s, retries).books[st.handlers[h].book];
            && book.id >= 2
            && ((forall server :: Consistent(server, market, s, sent) ==> GoodBook(server, book))
                <==> Connected(market, s.id, sent))
  {
    hide Consistent, Connected, GoodBook, ReplayAll, FromSnapshot;
    var Handler(symbol, b, _) := st.handlers[h];
    var k := FirstStraddle(st.init[symbol], s.id);
    assert Updates(sent)[0] == st.init[symbol][k];
    var book := LookStep(st, h, s, retries).books[b];
    assert book == Replayed(st.books[b].symbol, s, sent);
    ReplayIsLive(FromSnapshot(st.books[b].symbol, s).(id := 1), Updates(sent));
    ReplayRightIff(market, st.books[b].symbol, s, sent);
  }
}
