/** Properties of run(): arming the guards, the loop's exit condition, and
    the verdict it reaches. */
module RunProps {
  import opened Strings
  import opened Actions
  import opened SchedQueue
  import opened DoneItems
  import opened Engine
  import opened RegistryProps
  import opened GuardInvariant

  /** The guard ArmOne queues for item k. */
  function ArmedGuard(s: LoopState, k: string, t: int): Entry
    requires k in s.dones
  {
    Entry(s.dones[k].deadline + t, s.nextId, Guard(k))
  }

  /** One item armed: the queue grows by one entry, the next sequence
      number is taken, and the completion state and message stay. */
  lemma ArmOneCounts(s: LoopState, k: string, t: int)
    requires Valid(s) && k in s.dones
    ensures var r := ArmOne(s, k, t);
      Valid(r) && r.nextId == s.nextId + 1 && |r.queue| == |s.queue| + 1 &&
      r.complete == s.complete && r.errorMsg == s.errorMsg
  {
    var s0 := s.(dones := s.dones[k := s.dones[k].(deadline := s.dones[k].deadline + t)]);
    assert ArmOne(s, k, t) == AddDoneToLoop(s0, k);
    AddDoneToLoopQueuesGuard(s0, k);
    AddDoneToLoopKeepsHandle(s0, k);
  }

  /** One item armed: its deadline is shifted by t and its handle names the
      sequence number its guard was queued with; other items stay. */
  lemma ArmOneItem(s: LoopState, k: string, t: int)
    requires Valid(s) && k in s.dones
    ensures var r := ArmOne(s, k, t);
      r.dones.Keys == s.dones.Keys &&
      r.dones[k] == s.dones[k].(deadline := s.dones[k].deadline + t, schedItem := At(s.nextId)) &&
      forall j :: j in s.dones && j != k ==> r.dones[j] == s.dones[j]
  {
    var d0 := s.dones[k].(deadline := s.dones[k].deadline + t);
    var s0 := s.(dones := s.dones[k := d0]);
    assert ArmOne(s, k, t) == AddDoneToLoop(s0, k);
    AddDoneToLoopKeepsHandle(s0, k);
    assert ArmOne(s, k, t).dones[k] == d0.(schedItem := At(s.nextId));
  }

  /** One item armed: its guard is queued and nothing queued is removed. */
  lemma ArmOneQueuesGuard(s: LoopState, k: string, t: int)
    requires Valid(s) && k in s.dones
    ensures var r := ArmOne(s, k, t);
      ArmedGuard(s, k, t) in r.queue &&
      (forall e :: e in s.queue ==> e in r.queue) &&
      (forall e :: e in r.queue ==> e in s.queue || e == ArmedGuard(s, k, t))
  {
    var d0 := s.dones[k].(deadline := s.dones[k].deadline + t);
    var s0 := s.(dones := s.dones[k := d0]);
    assert ArmOne(s, k, t) == AddDoneToLoop(s0, k);
    AddDoneToLoopQueuesGuard(s0, k);
    assert ArmedGuard(s, k, t) == Entry(s0.dones[k].deadline, s0.nextId, Guard(k));
  }

  /** Arming inserts the guard into the queue at the item's shifted deadline
      and pulls the wakeup time forward to it if need be. */
  lemma ArmOneInserts(s: LoopState, k: string, t: int)
    requires Valid(s) && k in s.dones
    ensures var d := s.dones[k].deadline + t;
      ArmOne(s, k, t).queue == InsertSorted(s.queue, Entry(d, s.nextId, Guard(k))) &&
      ArmOne(s, k, t).nextEventTs == (if d < s.nextEventTs then d else s.nextEventTs)
  {
    var d := s.dones[k].deadline + t;
    var s0 := s.(dones := s.dones[k := s.dones[k].(deadline := d)]);
    assert ArmOne(s, k, t) == AddDoneToLoop(s0, k);
    var h := SchedHandler(s0, Guard(k), d).0;
    assert AddDoneToLoop(s0, k).queue == h.queue && AddDoneToLoop(s0, k).nextEventTs == h.nextEventTs;
    assert h.queue == InsertSorted(s.queue, Entry(d, s.nextId, Guard(k)));
  }

  /** Arming a list of items never removes a queued entry or touches
      another item, and advances the sequence number by their count. */
  lemma {:induction false} ArmKeysFrame(s: LoopState, keys: seq<string>, t: int)
    requires Valid(s)
    requires forall i :: 0 <= i < |keys| ==> keys[i] in s.dones
    ensures var r := ArmKeys(s, keys, t);
      r.nextId == s.nextId + |keys| &&
      |r.queue| == |s.queue| + |keys| &&
      (forall e :: e in s.queue ==> e in r.queue) &&
      (forall k :: k in s.dones && k !in keys ==> k in r.dones && r.dones[k] == s.dones[k]) &&
      r.errorMsg == s.errorMsg
    decreases keys
  {
    if keys != [] {
      ArmOneCounts(s, keys[0], t);
      ArmOneItem(s, keys[0], t);
      ArmOneQueuesGuard(s, keys[0], t);
      var s1 := ArmOne(s, keys[0], t);
      assert forall i :: 0 <= i < |keys[1..]| ==> keys[1..][i] == keys[i + 1];
      ArmKeysFrame(s1, keys[1..], t);
    }
  }

  /** One item armed: it becomes guarded by the entry just queued, and every
      other guarded item stays guarded. */
  lemma ArmOneGuards(s: LoopState, k0: string, t: int, k: string)
    requires Valid(s) && k0 in s.dones && k in s.dones
    requires k == k0 || GuardedBy(s.queue, k, s.dones[k].schedItem)
    ensures var r := ArmOne(s, k0, t);
      GuardedBy(r.queue, k, r.dones[k].schedItem)
  {
    ArmOneItem(s, k0, t);
    ArmOneQueuesGuard(s, k0, t);
    var r := ArmOne(s, k0, t);
    var g := ArmedGuard(s, k0, t);
    if k == k0 {
      forall x | x in r.queue && x.id == s.nextId
        ensures x.action == Guard(k0)
      {
        assert x !in s.queue;
      }
    } else {
      var h := s.dones[k].schedItem;
      var w :| w in s.queue && w.id == h.id;
      assert w in r.queue;
      assert h.id < s.nextId;
    }
  }

  /** Arming the items of ks in key order leaves every pending item guarded,
      given that the pending items outside ks already were. */
  lemma {:induction false} ArmSetGuards(s: LoopState, ks: set<string>, t: int)
    requires Valid(s) && ks <= s.dones.Keys
    requires forall k :: k in s.dones && k !in ks && s.dones[k].complete == CompleteNot ==>
               GuardedBy(s.queue, k, s.dones[k].schedItem)
    ensures Armed(ArmKeys(s, SortedKeys(ks), t))
    decreases ks
  {
    if ks == {} {
      assert SortedKeys(ks) == [];
    } else {
      LeastExists(ks);
      var k0 :| IsLeast(k0, ks);
      ArmKeysLeast(s, ks, k0, t);
      ArmOneCounts(s, k0, t);
      ArmOneItem(s, k0, t);
      var s1 := ArmOne(s, k0, t);
      forall k | k in s1.dones && k !in ks - {k0} && s1.dones[k].complete == CompleteNot
        ensures GuardedBy(s1.queue, k, s1.dones[k].schedItem)
      {
        ArmOneGuards(s, k0, t, k);
      }
      ArmSetGuards(s1, ks - {k0}, t);
    }
  }

  /** Arming the items of ks in key order shifts each of their deadlines by
      t, once, and no other item's. */
  lemma {:induction false} ArmSetDeadlines(s: LoopState, ks: set<string>, t: int)
    requires Valid(s) && ks <= s.dones.Keys
    ensures var r := ArmKeys(s, SortedKeys(ks), t);
      forall k :: k in s.dones ==>
        k in r.dones && r.dones[k].deadline == s.dones[k].deadline + (if k in ks then t else 0)
    decreases ks
  {
    if ks == {} {
      assert SortedKeys(ks) == [];
    } else {
      LeastExists(ks);
      var k0 :| IsLeast(k0, ks);
      ArmKeysLeast(s, ks, k0, t);
      ArmOneCounts(s, k0, t);
      ArmOneItem(s, k0, t);
      var s1 := ArmOne(s, k0, t);
      ArmSetDeadlines(s1, ks - {k0}, t);
      var r := ArmKeys(s1, SortedKeys(ks - {k0}), t);
      forall k | k in s.dones
        ensures r.dones[k].deadline == s.dones[k].deadline + (if k in ks then t else 0)
      {
        if k == k0 {
          assert k !in ks - {k0};
          assert r.dones[k].deadline == s1.dones[k].deadline;
        } else {
          assert s1.dones[k] == s.dones[k];
          assert (k in ks) == (k in ks - {k0});
          assert r.dones[k].deadline == s1.dones[k].deadline + (if k in ks - {k0} then t else 0);
        }
      }
    }
  }

  /** Arming one item queues its guard at its new deadline, under the
      handle the item now holds. */
  lemma ArmOneGuardAt(s: LoopState, k: string, t: int)
    requires Valid(s) && k in s.dones
    ensures var r := ArmOne(s, k, t);
      Valid(r) && r.dones.Keys == s.dones.Keys && r.dones[k].schedItem.At? &&
      Entry(r.dones[k].deadline, r.dones[k].schedItem.id, Guard(k)) in r.queue
  {
    ArmOneCounts(s, k, t);
    ArmOneItem(s, k, t);
    ArmOneQueuesGuard(s, k, t);
  }

  /** Arming other items keeps an item, and the guard queued for it. */
  lemma ArmKeysKeepsGuard(s: LoopState, keys: seq<string>, t: int, k: string)
    requires Valid(s) && k in s.dones && k !in keys && s.dones[k].schedItem.At?
    requires forall i :: 0 <= i < |keys| ==> keys[i] in s.dones
    requires Entry(s.dones[k].deadline, s.dones[k].schedItem.id, Guard(k)) in s.queue
    ensures var r := ArmKeys(s, keys, t);
      k in r.dones && r.dones[k] == s.dones[k] &&
      Entry(s.dones[k].deadline, s.dones[k].schedItem.id, Guard(k)) in r.queue
  {
    ArmKeysFrame(s, keys, t);
  }

  /** Arming the items of ks in key order leaves each of them guarded by an
      entry at its new deadline, under the handle it now holds. */
  lemma {:induction false} ArmSetQueuesGuards(s: LoopState, ks: set<string>, t: int)
    requires Valid(s) && ks <= s.dones.Keys
    ensures var r := ArmKeys(s, SortedKeys(ks), t);
      forall k :: k in ks ==>
        k in r.dones && r.dones[k].schedItem.At? &&
        Entry(r.dones[k].deadline, r.dones[k].schedItem.id, Guard(k)) in r.queue
    decreases ks
  {
    if ks == {} {
      assert SortedKeys(ks) == [];
    } else {
      LeastExists(ks);
      var k0 :| IsLeast(k0, ks);
      ArmKeysLeast(s, ks, k0, t);
      ArmOneGuardAt(s, k0, t);
      var s1 := ArmOne(s, k0, t);
      ArmSetQueuesGuards(s1, ks - {k0}, t);
      var keys := SortedKeys(ks - {k0});
      forall i | 0 <= i < |keys|
        ensures keys[i] in s1.dones
      {
        assert keys[i] in keys;
      }
      ArmKeysKeepsGuard(s1, keys, t, k0);
    }
  }

  /** Arming the items of ks in key order gives each of them a handle and
      leaves completion codes, ranks and the handles of other items as they
      were. */
  lemma {:induction false} ArmSetItems(s: LoopState, ks: set<string>, t: int)
    requires Valid(s) && ks <= s.dones.Keys
    ensures var r := ArmKeys(s, SortedKeys(ks), t);
      forall k :: k in s.dones ==>
        k in r.dones &&
        r.dones[k].complete == s.dones[k].complete &&
        r.dones[k].order == s.dones[k].order &&
        (k in ks ==> r.dones[k].schedItem.At?) &&
        (k !in ks ==> r.dones[k].schedItem == s.dones[k].schedItem)
    decreases ks
  {
    if ks == {} {
      assert SortedKeys(ks) == [];
    } else {
      LeastExists(ks);
      var k0 :| IsLeast(k0, ks);
      ArmKeysLeast(s, ks, k0, t);
      ArmOneCounts(s, k0, t);
      ArmOneItem(s, k0, t);
      var s1 := ArmOne(s, k0, t);
      ArmSetItems(s1, ks - {k0}, t);
      var r := ArmKeys(s1, SortedKeys(ks - {k0}), t);
      forall k | k in s.dones
        ensures r.dones[k].complete == s.dones[k].complete && r.dones[k].order == s.dones[k].order
        ensures k in ks ==> r.dones[k].schedItem.At?
        ensures k !in ks ==> r.dones[k].schedItem == s.dones[k].schedItem
      {
        if k != k0 {
          assert s1.dones[k] == s.dones[k];
        }
      }
    }
  }

  /** addAllDonesToLoop makes every deadline absolute (now + deadline) and
      queues one guard per item, leaving every item guarded through its
      handle; nothing already queued is removed, and neither the completion
      codes nor the error message change. */
  lemma AddAllDonesToLoopArms(s: LoopState)
    requires Valid(s)
    ensures var r := AddAllDonesToLoop(s);
      r.dones.Keys == s.dones.Keys &&
      r.complete == s.complete && r.errorMsg == s.errorMsg &&
      r.nextId == s.nextId + |s.dones| &&
      |r.queue| == |s.queue| + |s.dones| &&
      (forall e :: e in s.queue ==> e in r.queue) &&
      (forall k :: k in s.dones ==>
         r.dones[k].deadline == s.dones[k].deadline + s.now &&
         r.dones[k].complete == s.dones[k].complete &&
         r.dones[k].order == s.dones[k].order &&
         r.dones[k].schedItem.At? &&
         Entry(r.dones[k].deadline, r.dones[k].schedItem.id, Guard(k)) in r.queue) &&
      Armed(r)
  {
    var keys := SortedKeys(s.dones.Keys);
    ArmKeysFrame(s, keys, s.now);
    ArmSetDeadlines(s, s.dones.Keys, s.now);
    ArmSetItems(s, s.dones.Keys, s.now);
    ArmSetGuards(s, s.dones.Keys, s.now);
    ArmSetQueuesGuards(s, s.dones.Keys, s.now);
  }

  /** The run loop returns normally only once the queue is empty, the loop
      has completed, or an error message has been recorded. */
  lemma {:induction false} RunLoopReturnsWhen(s: LoopState)
    requires Valid(s)
    ensures var r := RunLoop(s);
      r.1 == Ok ==> r.0.queue == [] || r.0.complete != CompleteNot || r.0.errorMsg != ""
    decreases Weight(s.queue)
  {
    if s.queue != [] && s.complete == CompleteNot {
      var r := Invoke(PopHead(s), s.queue[0].action);
      if r.1 == Ok && r.0.errorMsg == "" {
        RunLoopReturnsWhen(r.0);
      }
    }
  }

  /** Every turn of the loop keeps the guard invariant. */
  lemma {:induction false} RunLoopKeepsInv(s: LoopState)
    requires Valid(s) && Inv(s)
    requires RunLoop(s).1 == Ok
    ensures Inv(RunLoop(s).0)
    decreases Weight(s.queue)
  {
    if s.queue != [] && s.complete == CompleteNot {
      var r := Invoke(PopHead(s), s.queue[0].action);
      TurnKeepsInv(s);
      if r.1 == Ok && r.0.errorMsg == "" {
        RunLoopKeepsInv(r.0);
      }
    }
  }

  /** run()'s verdict. Started on a loop that has not completed, has no error
      message and no failed item, a run that returns normally has completed;
      and it ends in SUCCESS only with the queue drained and every done item
      resolved SUCCESS. */
  lemma RunVerdict(s: LoopState)
    requires Valid(s) && s.complete == CompleteNot && s.errorMsg == "" && NoItemFailed(s)
    ensures var r := Run(s);
      (r.1 == Ok ==> r.0.complete != CompleteNot) &&
      (r.1 == Ok && r.0.complete == CompleteSuccess ==>
         r.0.queue == [] &&
         forall k :: k in r.0.dones ==> r.0.dones[k].complete == CompleteSuccess)
  {
    if s.queue != [] {
      var a := AddAllDonesToLoop(s);
      AddAllDonesToLoopArms(s);
      assert Inv(a);
      var l := RunLoop(a);
      if l.1 == Ok {
        RunLoopReturnsWhen(a);
        RunLoopKeepsInv(a);
        if l.0.complete == CompleteNot {
          assert l.0.queue == [];
          forall k | k in l.0.dones
            ensures l.0.dones[k].complete == CompleteSuccess
          {
            assert !GuardedBy(l.0.queue, k, l.0.dones[k].schedItem);
          }
        }
      }
    }
  }

  /** run() on an empty queue throws before arming anything. */
  lemma RunEmptyQueue(s: LoopState)
    requires s.queue == []
    ensures Run(s) == (s, Misuse(NothingToRun))
  {
  }

  /** An aborted loop runs no entry: it is armed and stays ABORTED. */
  lemma RunAfterAbort(s: LoopState)
    requires Valid(s) && s.queue != [] && s.complete == CompleteAborted
    ensures Run(s) == (AddAllDonesToLoop(s), Ok)
    ensures Run(s).0.complete == CompleteAborted
  {
    Engine.RunLoopExit(AddAllDonesToLoop(s));
  }

  /** Taking the head off a sorted queue takes an entry with the earliest
      fire time, and the clock is then at least that time. */
  lemma PopHeadTakesEarliest(s: LoopState)
    requires Valid(s) && s.queue != []
    ensures var p := PopHead(s);
      (forall x :: x in s.queue ==> s.queue[0].ts <= x.ts) &&
      p.queue == s.queue[1..] && p.now >= s.queue[0].ts && p.now >= s.now
  {
    HeadIsEarliest(s.queue);
  }
}
