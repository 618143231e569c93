/** Properties of done-item registration: addDoneToMap, the two
    constructors, and addDone before the loop runs. */
module RegistryProps {
  import opened Actions
  import opened SchedQueue
  import opened DoneItems
  import opened Engine

  /** addDoneToMap inserts a new tag with its deadline defaulted; a duplicate
      tag is a usage error that leaves the registry as it was. Either way a
      "_default" tag marks the loop as having the default item. */
  lemma AddDoneToMapRegisters(s: LoopState, tag: string, item: DoneItem)
    ensures var r := AddDoneToMap(s, tag, item);
      (r.1 == Ok <==> tag !in s.dones) &&
      r.0.hasDefaultDone == (s.hasDefaultDone || tag == DefaultTag) &&
      r.0.complete == s.complete &&
      (r.1 == Ok ==> r.0.dones == s.dones[tag := Defaulted(item, s.defaultDoneTimeout)]) &&
      (r.1 != Ok ==> r.0.dones == s.dones &&
                     r.1 == Misuse("addDone: Duplicate done() tag '" + tag + "'") &&
                     r.0.errorMsg == r.1.msg)
  {
  }

  /** EventLoop(timeout) registers "_default" alone, with the loop's timeout. */
  lemma InitDefaultRegistersDefault(timeout: int, clock: int)
    ensures var s := InitDefault(timeout, clock);
      s.dones.Keys == {DefaultTag} &&
      s.dones[DefaultTag] == DoneItem(CompleteNot, timeout, 0, NoHandle) &&
      s.hasDefaultDone && s.queue == [] && s.complete == CompleteNot && s.now == clock
  {
  }

  /** The tags of a list of items. */
  function TagSet(items: seq<Tagged>): (ts: set<string>)
    ensures forall i :: 0 <= i < |items| ==> items[i].tag in ts
    ensures forall t :: t in ts ==> exists i :: 0 <= i < |items| && items[i].tag == t
  {
    set i | 0 <= i < |items| :: items[i].tag
  }

  lemma TagSetTail(items: seq<Tagged>)
    requires items != []
    ensures TagSet(items) == {items[0].tag} + TagSet(items[1..])
  {
    assert forall i :: 1 <= i < |items| ==> items[i] == items[1..][i - 1];
  }

  predicate DistinctTags(items: seq<Tagged>)
  {
    forall i, j :: 0 <= i < j < |items| ==> items[i].tag != items[j].tag
  }

  /** The items' tags are pairwise distinct and none is in `keys`. */
  predicate NewTags(keys: set<string>, items: seq<Tagged>)
  {
    DistinctTags(items) && forall i :: 0 <= i < |items| ==> items[i].tag !in keys
  }

  lemma NewTagsTail(keys: set<string>, items: seq<Tagged>)
    requires items != []
    ensures NewTags(keys, items) <==>
            items[0].tag !in keys && NewTags(keys + {items[0].tag}, items[1..])
  {
    var rest := items[1..];
    assert forall i :: 0 <= i < |rest| ==> rest[i] == items[i + 1];
    if items[0].tag !in keys && NewTags(keys + {items[0].tag}, rest) {
      forall i, j | 0 <= i < j < |items|
        ensures items[i].tag != items[j].tag
      {
        if i > 0 {
          assert items[i].tag == rest[i - 1].tag && items[j].tag == rest[j - 1].tag;
        } else {
          assert items[j].tag == rest[j - 1].tag;
        }
      }
    }
  }

  /** Registering a list one item at a time succeeds exactly when its tags
      are distinct and new. */
  lemma {:induction false} AddAllToMapAccepts(s: LoopState, items: seq<Tagged>)
    ensures AddAllToMap(s, items).1 == Ok <==> NewTags(s.dones.Keys, items)
    decreases items
  {
    if items != [] {
      var r1 := AddDoneToMap(s, items[0].tag, items[0].item);
      NewTagsTail(s.dones.Keys, items);
      if r1.1 == Ok {
        assert r1.0.dones.Keys == s.dones.Keys + {items[0].tag};
        AddAllToMapAccepts(r1.0, items[1..]);
      }
    }
  }

  /** A successful registration adds exactly the listed tags and keeps
      every earlier item. */
  lemma {:induction false} AddAllToMapContents(s: LoopState, items: seq<Tagged>)
    requires AddAllToMap(s, items).1 == Ok
    ensures var r := AddAllToMap(s, items).0;
      r.dones.Keys == s.dones.Keys + TagSet(items) &&
      r.hasDefaultDone == (s.hasDefaultDone || DefaultTag in TagSet(items)) &&
      r.defaultDoneTimeout == s.defaultDoneTimeout &&
      (forall k :: k in s.dones ==> r.dones[k] == s.dones[k])
    decreases items
  {
    if items != [] {
      var x := items[0];
      var rest := items[1..];
      var r1 := AddDoneToMap(s, x.tag, x.item);
      AddDoneToMapRegisters(s, x.tag, x.item);
      assert AddAllToMap(s, items) == AddAllToMap(r1.0, rest);
      AddAllToMapContents(r1.0, rest);
      TagSetTail(items);
    }
  }

  /** A successful registration stores each listed item under its tag with
      its deadline defaulted. */
  lemma {:induction false} AddAllToMapValues(s: LoopState, items: seq<Tagged>)
    requires AddAllToMap(s, items).1 == Ok
    ensures var r := AddAllToMap(s, items).0;
      forall i :: 0 <= i < |items| ==>
        items[i].tag in r.dones && r.dones[items[i].tag] == Defaulted(items[i].item, s.defaultDoneTimeout)
    decreases items
  {
    if items != [] {
      var x := items[0];
      var rest := items[1..];
      var r1 := AddDoneToMap(s, x.tag, x.item);
      AddDoneToMapRegisters(s, x.tag, x.item);
      assert AddAllToMap(s, items) == AddAllToMap(r1.0, rest);
      AddAllToMapContents(r1.0, rest);
      AddAllToMapValues(r1.0, rest);
      var r := AddAllToMap(r1.0, rest).0;
      forall i | 0 <= i < |items|
        ensures items[i].tag in r.dones && r.dones[items[i].tag] == Defaulted(items[i].item, s.defaultDoneTimeout)
      {
        if i > 0 {
          assert items[i] == rest[i - 1];
        } else {
          assert r.dones[x.tag] == r1.0.dones[x.tag];
        }
      }
    }
  }

  /** EventLoop(doneItems, timeout) registers exactly the listed tags (no
      "_default" unless listed), and fails exactly when a tag repeats. */
  lemma InitWithDonesRegisters(items: seq<Tagged>, timeout: int, clock: int)
    ensures var r := InitWithDones(items, timeout, clock);
      (r.1 == Ok <==> DistinctTags(items)) &&
      (r.1 == Ok ==>
         r.0.dones.Keys == TagSet(items) &&
         r.0.hasDefaultDone == (DefaultTag in TagSet(items)) &&
         (forall i :: 0 <= i < |items| ==> r.0.dones[items[i].tag] == Defaulted(items[i].item, timeout)))
  {
    AddAllToMapAccepts(Empty(timeout, clock), items);
    if InitWithDones(items, timeout, clock).1 == Ok {
      AddAllToMapContents(Empty(timeout, clock), items);
      AddAllToMapValues(Empty(timeout, clock), items);
    }
  }

  /** addDoneToLoop queues the item's guard at the item's deadline, keeps
      its handle in the item, and changes nothing else in the registry. */
  lemma AddDoneToLoopQueuesGuard(s: LoopState, tag: string)
    requires Valid(s) && tag in s.dones
    ensures var r := AddDoneToLoop(s, tag);
      Entry(s.dones[tag].deadline, s.nextId, Guard(tag)) in r.queue &&
      (forall x :: x in s.queue ==> x in r.queue) &&
      (forall x :: x in r.queue ==> x in s.queue || x == Entry(s.dones[tag].deadline, s.nextId, Guard(tag))) &&
      Erase(r.queue, At(s.nextId)) == s.queue &&
      |r.queue| == |s.queue| + 1
  {
    var e := Entry(s.dones[tag].deadline, s.nextId, Guard(tag));
    var q := InsertSorted(s.queue, e);
    InsertSortedThenErase(s.queue, e);
    assert e in multiset(q);
    forall x | x in q
      ensures x in s.queue || x == e
    {
      assert x in multiset(s.queue) + multiset{e};
    }
    forall x | x in s.queue
      ensures x in q
    {
      assert x in multiset(q);
    }
  }

  /** addDoneToLoop takes the next sequence number for the guard and records
      it as the item's handle; no other item, the completion state and the
      error message stay. */
  lemma AddDoneToLoopKeepsHandle(s: LoopState, tag: string)
    requires Valid(s) && tag in s.dones
    ensures var r := AddDoneToLoop(s, tag);
      r.nextId == s.nextId + 1 &&
      r.dones.Keys == s.dones.Keys &&
      r.dones[tag] == s.dones[tag].(schedItem := At(s.nextId)) &&
      (forall k :: k in s.dones && k != tag ==> r.dones[k] == s.dones[k]) &&
      r.complete == s.complete && r.errorMsg == s.errorMsg
  {
  }

  /** addDone registers the item and at once queues its guard at the item's
      deadline as it stands, which before run() is still relative; a
      duplicate tag throws before any guard is queued. */
  lemma AddDoneQueuesGuard(s: LoopState, tag: string, item: DoneItem)
    requires Valid(s)
    ensures var r := AddDone(s, tag, item);
            var d := Defaulted(item, s.defaultDoneTimeout).deadline;
      (r.1 == Ok <==> tag !in s.dones) &&
      (r.1 != Ok ==> r.0.queue == s.queue) &&
      (r.1 == Ok ==> Entry(d, s.nextId, Guard(tag)) in r.0.queue &&
                     r.0.dones[tag] == Defaulted(item, s.defaultDoneTimeout).(schedItem := At(s.nextId)) &&
                     Erase(r.0.queue, At(s.nextId)) == s.queue)
  {
    var r1 := AddDoneToMap(s, tag, item);
    if r1.1 == Ok {
      AddDoneToLoopQueuesGuard(r1.0, tag);
      AddDoneToLoopKeepsHandle(r1.0, tag);
    }
  }
}
