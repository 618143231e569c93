/** addDone() before run(): the guard is queued at the item's deadline as it
    stands, which is still the relative timeout, and run() arms the item a
    second time without erasing that first guard. The first guard then fires
    at the relative deadline read as an absolute time. */
module StaleGuard {
  import opened Strings
  import opened Actions
  import opened SchedQueue
  import opened DoneItems
  import opened Engine
  import opened RegistryProps
  import opened RunProps
  import opened ResolveProps

  /** An entry no later than everything queued stays at the head when
      another entry is inserted at or after its time. */
  lemma InsertKeepsHead(q: seq<Entry>, e: Entry)
    requires q != [] && q[0].ts <= e.ts
    ensures InsertSorted(q, e) != [] && InsertSorted(q, e)[0] == q[0]
  {
  }

  /** Arming one item whose shifted deadline is no earlier than the head
      keeps that head. */
  lemma ArmOneKeepsHead(s: LoopState, k: string, t: int)
    requires Valid(s) && k in s.dones && s.queue != []
    requires s.queue[0].ts <= s.dones[k].deadline + t
    ensures ArmOne(s, k, t).queue != [] && ArmOne(s, k, t).queue[0] == s.queue[0]
  {
    ArmOneInserts(s, k, t);
    InsertKeepsHead(s.queue, Entry(s.dones[k].deadline + t, s.nextId, Guard(k)));
  }

  /** Arming the items of ks keeps the head when none of their shifted
      deadlines is earlier than it. */
  lemma {:induction false} ArmSetKeepsHead(s: LoopState, ks: set<string>, t: int)
    requires Valid(s) && ks <= s.dones.Keys && s.queue != []
    requires forall k :: k in ks ==> s.queue[0].ts <= s.dones[k].deadline + t
    ensures var r := ArmKeys(s, SortedKeys(ks), t);
      r.queue != [] && r.queue[0] == s.queue[0]
    decreases ks
  {
    if ks == {} {
      assert SortedKeys(ks) == [];
    } else {
      LeastExists(ks);
      var k0 :| IsLeast(k0, ks);
      ArmKeysLeast(s, ks, k0, t);
      ArmOneKeepsHead(s, k0, t);
      ArmOneItem(s, k0, t);
      var s1 := ArmOne(s, k0, t);
      forall k | k in ks - {k0}
        ensures s1.queue[0].ts <= s1.dones[k].deadline + t
      {
        assert s1.dones[k] == s.dones[k];
      }
      ArmSetKeepsHead(s1, ks - {k0}, t);
    }
  }

  /** addDoneToLoop inserts the guard at the item's deadline as it stands. */
  lemma AddDoneToLoopInserts(s: LoopState, tag: string)
    requires tag in s.dones
    ensures AddDoneToLoop(s, tag).queue == InsertSorted(s.queue, Entry(s.dones[tag].deadline, s.nextId, Guard(tag)))
  {
    var h := SchedHandler(s, Guard(tag), s.dones[tag].deadline).0;
    assert AddDoneToLoop(s, tag).queue == h.queue;
  }

  /** addDone(tag, item) on a loop that has not run yet puts the item's guard
      at the head when its timeout is earlier than every queued entry. */
  lemma AddDoneGuardAtHead(s: LoopState, tag: string, item: DoneItem)
    requires Valid(s) && tag !in s.dones && 0 <= item.deadline
    requires forall x :: x in s.queue ==> item.deadline < x.ts
    ensures var a := AddDone(s, tag, item);
      a.1 == Ok && Valid(a.0) &&
      a.0.queue == [Entry(item.deadline, s.nextId, Guard(tag))] + s.queue &&
      a.0.dones.Keys == s.dones.Keys + {tag} &&
      a.0.dones[tag] == item.(schedItem := At(s.nextId)) &&
      (forall k :: k in s.dones ==> a.0.dones[k] == s.dones[k]) &&
      a.0.now == s.now && a.0.complete == s.complete
  {
    var m := AddDoneToMap(s, tag, item);
    assert m.1 == Ok && m.0.dones == s.dones[tag := item];
    assert AddDone(s, tag, item).0 == AddDoneToLoop(m.0, tag);
    AddDoneToLoopKeepsHandle(m.0, tag);
    AddDoneToLoopInserts(m.0, tag);
    var g := Entry(item.deadline, s.nextId, Guard(tag));
    assert InsertSorted(s.queue, g) == [g] + s.queue;
  }

  /** When arming leaves a pending item's guard at the head of the queue,
      run() fires it first: the clock moves to the guard's time if that is
      later, and the run ends in ERROR with the item's "Timeout" message. */
  lemma RunFiresHeadGuard(a: LoopState, tag: string)
    requires Valid(a) && a.queue != [] && a.complete == CompleteNot
    requires tag in a.dones && a.dones[tag].complete == CompleteNot && tag != ""
    requires AddAllDonesToLoop(a).queue != [] && AddAllDonesToLoop(a).queue[0].action == Guard(tag)
    ensures var ts := AddAllDonesToLoop(a).queue[0].ts;
      var r := Run(a);
      r.1 == Ok && r.0.complete == CompleteError &&
      r.0.errorMsg == TaggedMsg(tag, TimeoutMsg) &&
      tag in r.0.dones && r.0.dones[tag].complete == CompleteError &&
      r.0.now == (if ts > a.now then ts else a.now)
  {
    AddAllDonesToLoopArms(a);
    var armed := AddAllDonesToLoop(a);
    var p := PopHead(armed);
    RunLoopTurn(armed);
    TimeoutGuardFires(p, tag);
    var r := Invoke(p, Guard(tag));
    assert RunLoop(armed) == r;
  }

  /** An item added before run() with a timeout earlier than anything queued
      and than every other item's absolute deadline times out as soon as the
      loop starts: its first guard, queued at the relative timeout, is the
      head after arming, fires with the clock at the later of the two, and
      the run ends in ERROR with the item's "Timeout" message, even though
      its re-armed guard lies at now + timeout. */
  lemma AddDoneBeforeRunTimesOut(s: LoopState, tag: string, item: DoneItem)
    requires Valid(s) && s.complete == CompleteNot && 0 <= s.now
    requires tag !in s.dones && tag != "" && item.complete == CompleteNot && 0 <= item.deadline
    requires forall x :: x in s.queue ==> item.deadline < x.ts
    requires forall k :: k in s.dones ==> item.deadline <= s.dones[k].deadline + s.now
    ensures var a := AddDone(s, tag, item);
      a.1 == Ok &&
      var r := Run(a.0);
      r.1 == Ok && r.0.complete == CompleteError &&
      r.0.errorMsg == TaggedMsg(tag, TimeoutMsg) &&
      tag in r.0.dones && r.0.dones[tag].complete == CompleteError &&
      r.0.now == (if item.deadline > s.now then item.deadline else s.now)
  {
    AddDoneGuardAtHead(s, tag, item);
    var a := AddDone(s, tag, item).0;
    ArmSetKeepsHead(a, a.dones.Keys, a.now);
    RunFiresHeadGuard(a, tag);
  }
}
