/**
 The callers of `watch` that wait for the next book, and where each of them ends up.
 The queues are the original's; the two logs record, for the proofs, how a waiter left them.
 */
module Waiters {

  /** A waiter received book number `book` when its id was `id`. */
  datatype Delivery = Delivery(waiter: nat, book: nat, id: nat)

  datatype Queues = Queues(
    pending: map<string, seq<nat>>, delivered: seq<Delivery>, dropped: set<nat>, next: nat)

  const NO_WAITERS := Queues(map[], [], {}, 0)

  function Open(q: Queues, symbol: string): Queues {
    if symbol in q.pending then q else q.(pending := q.pending[symbol := []])
  }

  function Enqueue(q: Queues, symbol: string): Queues
    requires symbol in q.pending
  {
    q.(pending := q.pending[symbol := q.pending[symbol] + [q.next]], next := q.next + 1)
  }

  function Deliveries(waiters: seq<nat>, book: nat, id: nat): seq<Delivery> {
    seq(|waiters|, i requires 0 <= i < |waiters| => Delivery(waiters[i], book, id))
  }

  function Deliver(q: Queues, symbol: string, book: nat, id: nat): Queues
    requires symbol in q.pending
  {
    q.(pending := q.pending[symbol := []],
       delivered := q.delivered + Deliveries(q.pending[symbol], book, id))
  }

  function Drop(q: Queues, symbol: string): Queues {
    if symbol in q.pending then
      q.(pending := q.pending - {symbol}, dropped := q.dropped + set i | i in q.pending[symbol])
    else q
  }

  function DropAll(q: Queues): Queues {
    q.(pending := map[],
       dropped := q.dropped + set s, i | s in q.pending && i in q.pending[s] :: i)
  }

  ghost predicate IsPending(q: Queues, w: nat) {
    exists s, i :: s in q.pending && 0 <= i < |q.pending[s]| && q.pending[s][i] == w
  }

  ghost predicate IsDelivered(q: Queues, w: nat) {
    exists i :: 0 <= i < |q.delivered| && q.delivered[i].waiter == w
  }

  ghost predicate QueuedOnce(q: Queues) {
    forall s, i, t, j ::
      s in q.pending && t in q.pending && 0 <= i < |q.pending[s]| && 0 <= j < |q.pending[t]| ==>
      q.pending[s][i] == q.pending[t][j] ==> s == t && i == j
  }

  ghost predicate DeliveredOnce(q: Queues) {
    forall i, j :: 0 <= i < j < |q.delivered| ==> q.delivered[i].waiter != q.delivered[j].waiter
  }

  /** Every waiter ever issued is in exactly one place: one slot of one queue, one delivery, or dropped. */
  ghost predicate Conserved(q: Queues) {
    && QueuedOnce(q) && DeliveredOnce(q)
    && (forall w: nat :: w < q.next <==> IsPending(q, w) || IsDelivered(q, w) || w in q.dropped)
    && (forall w: nat :: IsPending(q, w) ==> !IsDelivered(q, w) && w !in q.dropped)
    && (forall w: nat :: IsDelivered(q, w) ==> w !in q.dropped)
  }

  /** Every delivery happened while the book was live. */
  ghost predicate DeliveredLive(q: Queues) {
    forall i :: 0 <= i < |q.delivered| ==> q.delivered[i].id >= 2
  }

  lemma OpenConserves(q: Queues, symbol: string)
    requires Conserved(q)
    ensures Conserved(Open(q, symbol))
  {
    var r := Open(q, symbol);
    forall w: nat ensures IsPending(r, w) <==> IsPending(q, w) {
      if IsPending(q, w) {
        var s, i :| s in q.pending && 0 <= i < |q.pending[s]| && q.pending[s][i] == w;
        assert r.pending[s][i] == w;
      }
    }
    forall w: nat ensures IsDelivered(r, w) <==> IsDelivered(q, w) {}
  }

  lemma EnqueueConserves(q: Queues, symbol: string)
    requires symbol in q.pending && Conserved(q)
    ensures Conserved(Enqueue(q, symbol))
  {
    var r := Enqueue(q, symbol);
    var at := |q.pending[symbol]|;
    assert r.pending[symbol][at] == q.next;
    forall w: nat ensures IsPending(r, w) <==> IsPending(q, w) || w == q.next {
      if IsPending(q, w) {
        var s, i :| s in q.pending && 0 <= i < |q.pending[s]| && q.pending[s][i] == w;
        assert r.pending[s][i] == w;
      }
      if IsPending(r, w) && w != q.next {
        var s, i :| s in r.pending && 0 <= i < |r.pending[s]| && r.pending[s][i] == w;
        assert q.pending[s][i] == w;
      }
    }
    forall s, i | s in q.pending && 0 <= i < |q.pending[s]| ensures q.pending[s][i] != q.next {
      assert IsPending(q, q.pending[s][i]);
    }
    forall w: nat ensures IsDelivered(r, w) <==> IsDelivered(q, w) {}
  }

  lemma DeliverConserves(q: Queues, symbol: string, book: nat, id: nat)
    requires symbol in q.pending && Conserved(q)
    ensures Conserved(Deliver(q, symbol, book, id))
    ensures DeliveredLive(q) && id >= 2 ==> DeliveredLive(Deliver(q, symbol, book, id))
  {
    var r := Deliver(q, symbol, book, id);
    var n := |q.delivered|;
    forall w: nat ensures IsPending(r, w) <==> IsPending(q, w) && w !in q.pending[symbol] {
      if IsPending(q, w) && w !in q.pending[symbol] {
        var s, i :| s in q.pending && 0 <= i < |q.pending[s]| && q.pending[s][i] == w;
        assert r.pending[s][i] == w;
      }
      if IsPending(r, w) {
        var s, i :| s in r.pending && 0 <= i < |r.pending[s]| && r.pending[s][i] == w;
        assert q.pending[s][i] == w;
      }
    }
    forall w: nat ensures IsDelivered(r, w) <==> IsDelivered(q, w) || w in q.pending[symbol] {
      if IsDelivered(q, w) {
        var i :| 0 <= i < |q.delivered| && q.delivered[i].waiter == w;
        assert r.delivered[i].waiter == w;
      }
      if w in q.pending[symbol] {
        var i :| 0 <= i < |q.pending[symbol]| && q.pending[symbol][i] == w;
        assert r.delivered[n + i].waiter == w;
      }
    }
    forall i, j | 0 <= i < j < |r.delivered| ensures r.delivered[i].waiter != r.delivered[j].waiter {
      if i < n <= j {
        assert IsDelivered(q, r.delivered[i].waiter);
        assert IsPending(q, r.delivered[j].waiter) by {
          assert q.pending[symbol][j - n] == r.delivered[j].waiter;
        }
      }
    }
    forall w | w in q.pending[symbol] ensures IsPending(q, w) {}
  }

  lemma DropConserves(q: Queues, symbol: string)
    requires Conserved(q)
    ensures Conserved(Drop(q, symbol))
  {
    if symbol in q.pending {
      var r := Drop(q, symbol);
      forall w: nat ensures IsPending(r, w) <==> IsPending(q, w) && w !in q.pending[symbol] {
        if IsPending(q, w) && w !in q.pending[symbol] {
          var s, i :| s in q.pending && 0 <= i < |q.pending[s]| && q.pending[s][i] == w;
          assert r.pending[s][i] == w;
        }
        if IsPending(r, w) {
          var s, i :| s in r.pending && 0 <= i < |r.pending[s]| && r.pending[s][i] == w;
          assert q.pending[s][i] == w;
        }
      }
      forall w | w in q.pending[symbol] ensures IsPending(q, w) {}
      forall w: nat ensures IsDelivered(r, w) <==> IsDelivered(q, w) {}
    }
  }

  lemma DropAllConserves(q: Queues)
    requires Conserved(q)
    ensures Conserved(DropAll(q))
  {
    var r := DropAll(q);
    forall w: nat ensures w in r.dropped <==> w in q.dropped || IsPending(q, w) {
      if IsPending(q, w) {
        var s, i :| s in q.pending && 0 <= i < |q.pending[s]| && q.pending[s][i] == w;
        assert w in q.pending[s];
      }
    }
    forall w: nat ensures IsDelivered(r, w) <==> IsDelivered(q, w) {}
  }
}
