/** The scheduled-call queue, std::multimap<Ts, SchedItem>: entries ordered by
    fire time, equal times in insertion order. Each entry carries the sequence
    number it was inserted with; that number is the handle a done item keeps
    to its timeout guard, so erasing through a stale handle finds nothing. */
module SchedQueue {
  import opened Actions

  /** DoneItem::schedItem: no guard yet, or the sequence number of one. */
  datatype Handle = NoHandle | At(id: nat)

  datatype Entry = Entry(ts: int, id: nat, action: Action)

  /** Iteration order of the multimap: by time, then by insertion. */
  predicate Before(a: Entry, b: Entry)
  {
    a.ts < b.ts || (a.ts == b.ts && a.id < b.id)
  }

  predicate Sorted(q: seq<Entry>)
  {
    forall i, j :: 0 <= i < j < |q| ==> Before(q[i], q[j])
  }

  /** Every entry was inserted before sequence number n was handed out. */
  predicate IdsBelow(q: seq<Entry>, n: nat)
  {
    forall x :: x in q ==> x.id < n
  }

  function Weight(q: seq<Entry>): nat
  {
    if q == [] then 0 else ActionWeight(q[0].action) + Weight(q[1..])
  }

  lemma SortedCons(x: Entry, t: seq<Entry>)
    requires Sorted(t)
    requires forall y :: y in t ==> Before(x, y)
    ensures Sorted([x] + t)
  {
    var r := [x] + t;
    forall i, j | 0 <= i < j < |r|
      ensures Before(r[i], r[j])
    {
      assert r[j] == t[j - 1];
      if i > 0 {
        assert r[i] == t[i - 1];
      }
    }
  }

  /** Number of leading entries whose fire time is not later than ts. */
  function UpperBound(q: seq<Entry>, ts: int): (k: nat)
    ensures k <= |q|
    ensures forall i :: 0 <= i < k ==> q[i].ts <= ts
  {
    if q == [] || ts < q[0].ts then 0 else 1 + UpperBound(q[1..], ts)
  }

  /** In a sorted queue every entry past the upper bound fires strictly later. */
  lemma {:induction false} UpperBoundSplits(q: seq<Entry>, ts: int)
    requires Sorted(q)
    ensures forall i :: UpperBound(q, ts) <= i < |q| ==> q[i].ts > ts
    decreases q
  {
    if q != [] && q[0].ts <= ts {
      UpperBoundSplits(q[1..], ts);
      forall i | UpperBound(q, ts) <= i < |q|
        ensures q[i].ts > ts
      {
        assert q[1..][i - 1] == q[i];
      }
    } else if q != [] {
      forall i | 0 <= i < |q|
        ensures q[i].ts > ts
      {
        assert i == 0 || Before(q[0], q[i]);
      }
    }
  }

  /** multimap::emplace: the entry goes after every entry whose fire time is
      not later than its own. */
  function InsertSorted(q: seq<Entry>, e: Entry): (r: seq<Entry>)
    ensures |r| == |q| + 1
    ensures multiset(r) == multiset(q) + multiset{e}
    ensures Weight(r) == Weight(q) + ActionWeight(e.action)
    decreases q
  {
    if q == [] || e.ts < q[0].ts then [e] + q
    else
      var t := InsertSorted(q[1..], e);
      assert q == [q[0]] + q[1..];
      [q[0]] + t
  }

  /** The new entry lands exactly at the upper bound of its fire time. */
  lemma {:induction false} InsertSortedPosition(q: seq<Entry>, e: Entry)
    ensures InsertSorted(q, e) == q[..UpperBound(q, e.ts)] + [e] + q[UpperBound(q, e.ts)..]
    decreases q
  {
    if q != [] && q[0].ts <= e.ts {
      var t := q[1..];
      var k := UpperBound(t, e.ts);
      InsertSortedPosition(t, e);
      assert InsertSorted(q, e) == [q[0]] + InsertSorted(t, e);
      ConsInsertAt(q[0], t, e, k);
      assert q == [q[0]] + t;
    }
  }

  /** Splicing e in at position k of t, then putting x in front, splices e
      in at position k + 1 of x :: t. */
  lemma ConsInsertAt(x: Entry, t: seq<Entry>, e: Entry, k: nat)
    requires k <= |t|
    ensures [x] + (t[..k] + [e] + t[k..]) == ([x] + t)[..k + 1] + [e] + ([x] + t)[k + 1..]
  {
    var q := [x] + t;
    assert q[..k + 1] == [x] + t[..k];
    assert q[k + 1..] == t[k..];
  }

  /** An entry no earlier than anything queued goes to the back. */
  lemma {:induction false} InsertAtBack(q: seq<Entry>, e: Entry)
    requires forall i :: 0 <= i < |q| ==> q[i].ts <= e.ts
    ensures InsertSorted(q, e) == q + [e]
    decreases q
  {
    if q != [] {
      var t := q[1..];
      assert forall i :: 0 <= i < |t| ==> t[i] == q[i + 1];
      InsertAtBack(t, e);
      assert InsertSorted(q, e) == [q[0]] + InsertSorted(t, e);
      assert q == [q[0]] + t;
    }
  }

  /** Inserting an entry with a fresh sequence number keeps the queue in
      iteration order: ties with earlier entries go after them. */
  lemma {:induction false} InsertSortedKeepsOrder(q: seq<Entry>, e: Entry)
    requires Sorted(q) && IdsBelow(q, e.id)
    ensures Sorted(InsertSorted(q, e))
    decreases q
  {
    if q == [] || e.ts < q[0].ts {
      forall y | y in q
        ensures Before(e, y)
      {
        var k :| 0 <= k < |q| && q[k] == y;
        assert k == 0 || Before(q[0], q[k]);
      }
      SortedCons(e, q);
    } else {
      var t := InsertSorted(q[1..], e);
      assert Sorted(q[1..]) && IdsBelow(q[1..], e.id);
      InsertSortedKeepsOrder(q[1..], e);
      forall y | y in t
        ensures Before(q[0], y)
      {
        assert y in multiset(t);
        if y != e {
          var k :| 0 <= k < |q[1..]| && q[1..][k] == y;
          assert Before(q[0], q[k + 1]);
        }
      }
      SortedCons(q[0], t);
    }
  }

  /** Every other entry is left as it was, in the same order: erasing the new
      entry's handle gives back the old queue. */
  lemma {:induction false} InsertSortedThenErase(q: seq<Entry>, e: Entry)
    requires IdsBelow(q, e.id)
    ensures Erase(InsertSorted(q, e), At(e.id)) == q
    decreases q
  {
    if q == [] || e.ts < q[0].ts {
      assert Erase([e] + q, At(e.id)) == Erase(q, At(e.id));
    } else {
      assert IdsBelow(q[1..], e.id);
      InsertSortedThenErase(q[1..], e);
      var r := InsertSorted(q, e);
      assert r[1..] == InsertSorted(q[1..], e);
      assert q == [q[0]] + q[1..];
    }
  }

  /** multimap::erase through a handle; a handle whose entry is gone (or no
      handle at all) erases nothing. */
  function Erase(q: seq<Entry>, h: Handle): (r: seq<Entry>)
    ensures forall x :: x in r <==> x in q && !(h.At? && x.id == h.id)
    ensures Weight(r) <= Weight(q)
    ensures (forall x :: x in q ==> !(h.At? && x.id == h.id)) ==> r == q
    ensures Sorted(q) ==> Sorted(r)
    decreases q
  {
    if q == [] then []
    else
      var t := Erase(q[1..], h);
      assert q == [q[0]] + q[1..];
      if h.At? && q[0].id == h.id then t
      else
        assert Sorted(q) ==> Sorted([q[0]] + t) by {
          if Sorted(q) {
            forall y | y in t
              ensures Before(q[0], y)
            {
              var k :| 0 <= k < |q[1..]| && q[1..][k] == y;
              assert Before(q[0], q[k + 1]);
            }
            SortedCons(q[0], t);
          }
        }
        [q[0]] + t
  }

  /** The head of a sorted queue is an entry with the earliest fire time. */
  lemma HeadIsEarliest(q: seq<Entry>)
    requires Sorted(q) && q != []
    ensures forall x :: x in q ==> q[0].ts <= x.ts
  {
    forall x | x in q
      ensures q[0].ts <= x.ts
    {
      var k :| 0 <= k < |q| && q[k] == x;
      assert k == 0 || Before(q[0], q[k]);
    }
  }

  /** Popping the head removes exactly its weight. */
  lemma WeightOfHead(q: seq<Entry>)
    requires q != []
    ensures Weight(q) == ActionWeight(q[0].action) + Weight(q[1..])
  {
  }
}
