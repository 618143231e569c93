/** Properties of resolution and of the completion state machine: done(),
    doError(), error(), abort() and the timeout guard. */
module ResolveProps {
  import opened Strings
  import opened SchedQueue
  import opened DoneItems
  import opened Engine

  /** Once the loop is in ERROR, doError changes nothing: the first error wins. */
  lemma DoErrorFirstWins(s: LoopState, m1: string, t1: string, n1: bool, m2: string, t2: string, n2: bool)
    ensures var s1 := DoError(s, m1, t1, n1).0;
      s1.complete == CompleteError && DoError(s1, m2, t2, n2) == (s1, Ok)
  {
  }

  /** An error against a registered tag, while the loop is not yet in ERROR:
      the loop and the item go to ERROR, the tag and a composed message are
      recorded, and the message is thrown unless noThrow. Every other item
      and the queue are left as they were. */
  lemma DoErrorTagged(s: LoopState, msg: string, tag: string, noThrow: bool)
    requires s.complete != CompleteError && tag != "" && tag in s.dones
    ensures var r := DoError(s, msg, tag, noThrow);
      r.0.complete == CompleteError &&
      r.0.errorTag == tag && r.0.errorMsg == TaggedMsg(tag, msg) &&
      r.0.dones == s.dones[tag := s.dones[tag].(complete := CompleteError)] &&
      r.0.queue == s.queue &&
      r.1 == (if noThrow then Ok else Raised(TaggedMsg(tag, msg)))
  {
  }

  /** An error against an unknown tag is a usage error, but the loop has
      already been put in ERROR and no tag is recorded. */
  lemma DoErrorUnknownTag(s: LoopState, msg: string, tag: string, noThrow: bool)
    requires s.complete != CompleteError && tag != "" && tag !in s.dones
    ensures var r := DoError(s, msg, tag, noThrow);
      r.0.complete == CompleteError && r.0.dones == s.dones && r.0.errorTag == s.errorTag &&
      r.1 == Misuse("error() called with unknown tag: " + tag) && r.0.errorMsg == r.1.msg
  {
  }

  /** error(msg) reports against "_default" and always throws. */
  lemma ErrorUsesDefault(s: LoopState, msg: string)
    requires s.complete != CompleteError && DefaultTag in s.dones
    ensures var r := Error(s, msg);
      r.0.errorTag == DefaultTag && r.0.complete == CompleteError &&
      r.0.dones[DefaultTag].complete == CompleteError &&
      r.1 == Raised(TaggedMsg(DefaultTag, msg))
  {
  }

  /** error("", msg) is a usage error that changes nothing but the message. */
  lemma ErrorEmptyTag(s: LoopState, msg: string)
    ensures ErrorTagged(s, "", msg) == (s.(errorMsg := EmptyTagMsg), Misuse(EmptyTagMsg))
  {
  }

  /** abort() moves only a NOT_COMPLETE loop, to ABORTED. */
  lemma AbortOnlyFromNot(s: LoopState)
    ensures Abort(s) == if s.complete == CompleteNot then s.(complete := CompleteAborted) else s
    ensures Abort(Abort(s)) == Abort(s)
  {
  }

  /** An error after abort() still takes the loop to ERROR. */
  lemma ErrorOverridesAbort(s: LoopState, msg: string, tag: string, noThrow: bool)
    requires s.complete == CompleteAborted
    ensures DoError(s, msg, tag, noThrow).0.complete == CompleteError
  {
  }

  /** done() on an unknown tag is a usage error that changes no item. */
  lemma DoneUnknownTag(s: LoopState, tag: string)
    requires tag !in s.dones
    ensures var r := Done(s, tag);
      r.0.dones == s.dones && r.0.queue == s.queue && r.0.complete == s.complete &&
      r.1 == Misuse("Unknown done() tag '" + tag + "'")
  {
  }

  /** Resolving an item twice is a non-throwing error against it. */
  lemma DoneTwice(s: LoopState, tag: string)
    requires tag in s.dones && s.dones[tag].complete != CompleteNot
    ensures var r := Done(s, tag);
      r.1 == Ok && r.0.queue == s.queue &&
      (s.complete == CompleteError ==> r.0 == s) &&
      (s.complete != CompleteError ==> r.0.complete == CompleteError) &&
      (s.complete != CompleteError && tag != "" ==>
         r.0.dones[tag].complete == CompleteError &&
         r.0.errorMsg == TaggedMsg(tag, AlreadyResolvedMsg))
  {
  }

  /** Resolving a pending item removes its guard (and only that entry) from
      the queue; an item without an order rank becomes SUCCESS and leaves
      the order counter alone. */
  lemma DoneUnordered(s: LoopState, tag: string)
    requires tag in s.dones && s.dones[tag].complete == CompleteNot && s.dones[tag].order == 0
    ensures var r := Done(s, tag);
      r.1 == Ok &&
      r.0.queue == Erase(s.queue, s.dones[tag].schedItem) &&
      r.0.lastOrderedDoneNo == s.lastOrderedDoneNo &&
      r.0.dones == s.dones[tag := s.dones[tag].(complete := CompleteSuccess)] &&
      r.0.complete == s.complete
  {
  }

  /** An ordered item advances the counter and, when its rank equals the
      advanced counter, becomes SUCCESS. */
  lemma DoneOrderedInTurn(s: LoopState, tag: string)
    requires tag in s.dones && s.dones[tag].complete == CompleteNot
    requires s.dones[tag].order != 0 && s.dones[tag].order == s.lastOrderedDoneNo + 1
    ensures var r := Done(s, tag);
      r.1 == Ok &&
      r.0.queue == Erase(s.queue, s.dones[tag].schedItem) &&
      r.0.lastOrderedDoneNo == s.lastOrderedDoneNo + 1 &&
      r.0.dones == s.dones[tag := s.dones[tag].(complete := CompleteSuccess)] &&
      r.0.complete == s.complete
  {
  }

  /** An ordered item resolved out of turn still advances the counter, is
      not marked SUCCESS, and an ordering error naming the expected rank and
      the actual count is recorded against it (not thrown). */
  lemma DoneOrderedOutOfTurn(s: LoopState, tag: string)
    requires tag in s.dones && s.dones[tag].complete == CompleteNot
    requires s.dones[tag].order != 0 && s.dones[tag].order != s.lastOrderedDoneNo + 1
    ensures var r := Done(s, tag);
            var n := s.lastOrderedDoneNo + 1;
      r.1 == Ok &&
      r.0.queue == Erase(s.queue, s.dones[tag].schedItem) &&
      r.0.lastOrderedDoneNo == n &&
      r.0.dones[tag].complete != CompleteSuccess &&
      (s.complete != CompleteError ==> r.0.complete == CompleteError) &&
      (s.complete != CompleteError && tag != "" ==>
         r.0.dones[tag].complete == CompleteError &&
         r.0.errorTag == tag && r.0.errorMsg == TaggedMsg(tag, OrderMsg(s.dones[tag].order, n)))
  {
  }

  /** done() applied to each tag in turn, stopping at a thrown exception. */
  function DoneAll(s: LoopState, tags: seq<string>): (r: (LoopState, Outcome))
    decreases tags
  {
    if tags == [] then (s, Ok)
    else
      var r := Done(s, tags[0]);
      if r.1 != Ok then r else DoneAll(r.0, tags[1..])
  }

  /** Pending items whose ranks continue the order counter one by one. */
  predicate RanksFollow(s: LoopState, tags: seq<string>)
  {
    s.lastOrderedDoneNo >= 0 &&
    (forall i :: 0 <= i < |tags| ==> tags[i] in s.dones) &&
    (forall i, j :: 0 <= i < j < |tags| ==> tags[i] != tags[j]) &&
    (forall i :: 0 <= i < |tags| ==>
       s.dones[tags[i]].complete == CompleteNot &&
       s.dones[tags[i]].order == s.lastOrderedDoneNo + i + 1)
  }

  /** Items not named are left as they were. */
  lemma {:induction false} DoneAllOthers(s: LoopState, tags: seq<string>, k: string)
    requires k in s.dones && k !in tags
    ensures k in DoneAll(s, tags).0.dones && DoneAll(s, tags).0.dones[k] == s.dones[k]
    decreases tags
  {
    if tags != [] {
      var s1 := Done(s, tags[0]).0;
      assert k != tags[0] && k !in tags[1..];
      if Done(s, tags[0]).1 == Ok {
        DoneAllOthers(s1, tags[1..], k);
      }
    }
  }

  /** Resolving ordered items in rank order succeeds for every one of them:
      each becomes SUCCESS, the counter advances by their number, and the
      loop's state is untouched. */
  lemma {:induction false} DoneInRankOrder(s: LoopState, tags: seq<string>)
    requires RanksFollow(s, tags)
    ensures var r := DoneAll(s, tags);
      r.1 == Ok &&
      r.0.complete == s.complete &&
      r.0.lastOrderedDoneNo == s.lastOrderedDoneNo + |tags| &&
      r.0.dones.Keys == s.dones.Keys &&
      (forall i :: 0 <= i < |tags| ==> r.0.dones[tags[i]].complete == CompleteSuccess)
    decreases tags
  {
    if tags != [] {
      var t := tags[0];
      var rest := tags[1..];
      DoneOrderedInTurn(s, t);
      var s1 := Done(s, t).0;
      forall i | 0 <= i < |rest|
        ensures rest[i] in s1.dones && s1.dones[rest[i]].complete == CompleteNot &&
                s1.dones[rest[i]].order == s1.lastOrderedDoneNo + i + 1
      {
        assert rest[i] == tags[i + 1] && tags[i + 1] != t;
      }
      assert RanksFollow(s1, rest);
      DoneInRankOrder(s1, rest);
      var r := DoneAll(s, tags);
      assert r == DoneAll(s1, rest);
      assert t !in rest by {
        forall i | 0 <= i < |rest|
          ensures rest[i] != t
        {
          assert rest[i] == tags[i + 1];
        }
      }
      DoneAllOthers(s1, rest, t);
      forall i | 0 <= i < |tags|
        ensures r.0.dones[tags[i]].complete == CompleteSuccess
      {
        if i > 0 {
          assert tags[i] == rest[i - 1];
        }
      }
    }
  }

  /** The timeout guard: nothing happens once its item is complete;
      otherwise a non-throwing "Timeout" error is recorded against the item,
      whose message then stops the run loop. */
  lemma TimeoutGuardFires(s: LoopState, tag: string)
    requires tag in s.dones
    ensures var r := TimeoutGuard(s, tag);
      r.1 == Ok &&
      (s.dones[tag].complete != CompleteNot ==> r.0 == s) &&
      (s.dones[tag].complete == CompleteNot && s.complete != CompleteError ==>
         r.0.complete == CompleteError) &&
      (s.dones[tag].complete == CompleteNot && s.complete != CompleteError && tag != "" ==>
         tag in r.0.dones && r.0.dones[tag].complete == CompleteError &&
         r.0.errorMsg == TaggedMsg(tag, TimeoutMsg) && r.0.errorMsg != "")
  {
    assert |TaggedMsg(tag, TimeoutMsg)| > 0;
  }
}
