/** Properties of schedCall and schedHandler: where a call is placed in the
    queue, and how ordered calls chain on each other. */
module SchedProps {
  import opened Timing
  import opened Actions
  import opened SchedQueue
  import opened Engine

  /** schedHandler inserts exactly one entry, with the next sequence number,
      keeps the queue in iteration order, leaves every other entry as it
      was, and lowers the wake-up time to the new entry's time if earlier. */
  lemma SchedHandlerAddsOne(s: LoopState, a: Action, ts: int)
    requires Valid(s)
    ensures var r := SchedHandler(s, a, ts).0;
      Sorted(r.queue) &&
      |r.queue| == |s.queue| + 1 &&
      Entry(ts, s.nextId, a) in r.queue &&
      (forall e :: e in r.queue && e.id == s.nextId ==> e == Entry(ts, s.nextId, a)) &&
      Erase(r.queue, At(s.nextId)) == s.queue &&
      r.nextEventTs == (if ts < s.nextEventTs then ts else s.nextEventTs) &&
      r == s.(queue := r.queue, nextId := s.nextId + 1, nextEventTs := r.nextEventTs)
  {
    var e := Entry(ts, s.nextId, a);
    var q := InsertSorted(s.queue, e);
    InsertSortedThenErase(s.queue, e);
    assert e in multiset(q);
    forall x | x in q && x.id == s.nextId
      ensures x == e
    {
      assert x in multiset(s.queue) + multiset{e};
    }
  }

  /** A non-negative delay counts from the clock: the call is queued at a
      time within the jitter window around now + after; a zero jitter
      window with a non-zero percentage is rand() % 0. */
  lemma SchedCallFromNow(s: LoopState, body: seq<Step>, after: int, jitterPct: int, rnd: RandValue)
    requires after >= 0
    ensures var p := EffectivePct(s, jitterPct);
            var r := SchedCall(s, body, after, jitterPct, rnd);
      (r.1 == Ok <==> JitterDefined(after, p)) &&
      (r.1 != Ok ==> r == (s, Undefined("rand() % 0"))) &&
      (r.1 == Ok ==> exists t :: Jittered(t, s.now + after, after, p) &&
                                r.0 == SchedHandler(s, Callback(body), t).0)
  {
    var p := EffectivePct(s, jitterPct);
    assert Abs(after) == after;
    if JitterDefined(after, p) {
      var t := FireTime(NominalTs(s, after), after, p, rnd);
      FireTimeJittered(s.now + after, after, p, rnd);
      assert SchedCall(s, body, after, jitterPct, rnd).0 == SchedHandler(s, Callback(body), t).0;
    }
  }

  /** A negative delay counts -after from the anchor (the previous ordered
      fire time, or the clock when there was none); the fire time becomes
      the next anchor. */
  lemma SchedCallOrdered(s: LoopState, body: seq<Step>, after: int, jitterPct: int, rnd: RandValue)
    requires after < 0
    ensures var p := EffectivePct(s, jitterPct);
            var anchor := OrderAnchor(s);
            var r := SchedCall(s, body, after, jitterPct, rnd);
      (r.1 == Ok <==> JitterDefined(-after, p)) &&
      (r.1 != Ok ==> r == (s.(lastOrderTs := anchor), Undefined("rand() % 0"))) &&
      (r.1 == Ok ==> exists t :: Jittered(t, anchor + -after, -after, p) &&
                                r.0 == SchedHandler(s.(lastOrderTs := t), Callback(body), t).0)
  {
    var p := EffectivePct(s, jitterPct);
    if JitterDefined(-after, p) {
      var anchor := OrderAnchor(s);
      var t := FireTime(anchor + -after, -after, p, rnd);
      FireTimeJittered(anchor + -after, -after, p, rnd);
      assert SchedCall(s, body, after, jitterPct, rnd).0 == SchedHandler(s.(lastOrderTs := t), Callback(body), t).0;
    }
  }

  /** With a percentage in [0, 100] an ordered call never fires before its
      anchor, so successive ordered calls fire in the order they were made. */
  lemma OrderedAnchorAdvances(s: LoopState, body: seq<Step>, after: int, jitterPct: int, rnd: RandValue)
    requires after < 0
    requires 0 <= EffectivePct(s, jitterPct) <= 100
    ensures var r := SchedCall(s, body, after, jitterPct, rnd);
      r.1 == Ok ==> OrderAnchor(s) <= r.0.lastOrderTs
  {
    SchedCallOrdered(s, body, after, jitterPct, rnd);
  }

  /** An ordered call without jitter fires exactly -after past the anchor. */
  lemma OrderedWithoutJitter(s: LoopState, body: seq<Step>, d: int, rnd: RandValue)
    requires d > 0
    ensures var t := OrderAnchor(s) + d;
      SchedCall(s, body, -d, 0, rnd) == (SchedHandler(s.(lastOrderTs := t), Callback(body), t).0, Ok)
  {
    SchedCallOrdered(s, body, -d, 0, rnd);
    assert JitterDefined(d, 0);
    var t :| Jittered(t, OrderAnchor(s) + d, d, 0) &&
             SchedCall(s, body, -d, 0, rnd).0 == SchedHandler(s.(lastOrderTs := t), Callback(body), t).0;
    assert t == OrderAnchor(s) + d;
  }

  /** Two ordered calls without jitter: the first fires `d1` after the anchor,
      the second `d2` after the first. */
  lemma OrderedCallsChain(s: LoopState, b1: seq<Step>, d1: int, r1: RandValue,
                          b2: seq<Step>, d2: int, r2: RandValue)
    requires Valid(s) && d1 > 0 && d2 > 0
    requires OrderAnchor(s) + d1 != 0
    ensures var s1 := SchedCall(s, b1, -d1, 0, r1).0;
            var s2 := SchedCall(s1, b2, -d2, 0, r2).0;
            var t1 := OrderAnchor(s) + d1;
      Entry(t1, s.nextId, Callback(b1)) in s2.queue &&
      Entry(t1 + d2, s.nextId + 1, Callback(b2)) in s2.queue &&
      s2.lastOrderTs == t1 + d2
  {
    var t1 := OrderAnchor(s) + d1;
    OrderedWithoutJitter(s, b1, d1, r1);
    var s1 := SchedCall(s, b1, -d1, 0, r1).0;
    SchedHandlerAddsOne(s.(lastOrderTs := t1), Callback(b1), t1);
    assert OrderAnchor(s1) == t1;
    OrderedWithoutJitter(s1, b2, d2, r2);
    var s2 := SchedCall(s1, b2, -d2, 0, r2).0;
    SchedHandlerAddsOne(s1.(lastOrderTs := t1 + d2), Callback(b2), t1 + d2);
    var e1 := Entry(t1, s.nextId, Callback(b1));
    assert e1 in multiset(s2.queue) by {
      assert e1 in multiset(s1.queue);
      assert s2.queue == InsertSorted(s1.queue, Entry(t1 + d2, s1.nextId, Callback(b2)));
    }
  }
}
