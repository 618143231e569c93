/** The invariant behind run()'s verdict: while the loop is not in ERROR,
    every pending done item still has its timeout guard in the queue, no item
    is in ERROR, and a recorded error message means the loop is in ERROR.
    Every step that returns normally keeps it. */
module GuardInvariant {
  import opened Actions
  import opened SchedQueue
  import opened DoneItems
  import opened Engine
  import opened RegistryProps

  /** Handle h names a guard for tag k that is still queued, and every
      queued entry with h's sequence number is that guard. */
  predicate GuardedBy(q: seq<Entry>, k: string, h: Handle)
  {
    h.At? &&
    (exists e :: e in q && e.id == h.id) &&
    (forall e :: e in q && e.id == h.id ==> e.action == Guard(k))
  }

  /** Every pending item is guarded through its own handle. */
  predicate Armed(s: LoopState)
  {
    forall k :: k in s.dones && s.dones[k].complete == CompleteNot ==> GuardedBy(s.queue, k, s.dones[k].schedItem)
  }

  /** Every item is pending or resolved. */
  predicate NoItemFailed(s: LoopState)
  {
    forall k :: k in s.dones ==> s.dones[k].complete == CompleteNot || s.dones[k].complete == CompleteSuccess
  }

  predicate Inv(s: LoopState)
  {
    (s.errorMsg != "" ==> s.complete == CompleteError) &&
    (s.complete != CompleteError ==> Armed(s) && NoItemFailed(s))
  }

  /** Erasing one item's guard leaves every other item's guard queued. */
  lemma EraseKeepsOtherGuard(q: seq<Entry>, k: string, h: Handle, k2: string, h2: Handle)
    requires GuardedBy(q, k, h) && GuardedBy(q, k2, h2) && k != k2
    ensures GuardedBy(Erase(q, h), k2, h2)
  {
    var e2 :| e2 in q && e2.id == h2.id;
    assert e2.action == Guard(k2);
    assert h.id != h2.id;
    assert e2 in Erase(q, h);
  }

  /** Inserting an entry with a sequence number not yet handed out keeps
      every guard queued. */
  lemma InsertKeepsGuard(q: seq<Entry>, e: Entry, k: string, h: Handle)
    requires GuardedBy(q, k, h) && IdsBelow(q, e.id)
    ensures GuardedBy(InsertSorted(q, e), k, h)
  {
    var q2 := InsertSorted(q, e);
    var w :| w in q && w.id == h.id;
    assert w in multiset(q2);
    forall x | x in q2 && x.id == h.id
      ensures x.action == Guard(k)
    {
      assert x in multiset(q) + multiset{e};
    }
  }

  /** Taking off the head keeps every guard that is not the head itself. */
  lemma PopKeepsGuard(q: seq<Entry>, k: string, h: Handle)
    requires q != [] && GuardedBy(q, k, h) && q[0].action != Guard(k)
    ensures GuardedBy(q[1..], k, h)
  {
    var w :| w in q && w.id == h.id;
    var i :| 0 <= i < |q| && q[i] == w;
    assert i != 0;
    assert q[1..][i - 1] == w;
  }

  lemma SchedHandlerKeepsArmed(s: LoopState, a: Action, ts: int)
    requires Valid(s) && Armed(s)
    ensures Armed(SchedHandler(s, a, ts).0)
  {
    var r := SchedHandler(s, a, ts).0;
    forall k | k in r.dones && r.dones[k].complete == CompleteNot
      ensures GuardedBy(r.queue, k, r.dones[k].schedItem)
    {
      InsertKeepsGuard(s.queue, Entry(ts, s.nextId, a), k, s.dones[k].schedItem);
    }
  }

  lemma SchedCallKeepsInv(s: LoopState, body: seq<Step>, after: int, jitterPct: int, rnd: Timing.RandValue)
    requires Valid(s) && Inv(s)
    ensures Inv(SchedCall(s, body, after, jitterPct, rnd).0)
  {
    var p := EffectivePct(s, jitterPct);
    var s1 := if after < 0 then s.(lastOrderTs := OrderAnchor(s)) else s;
    if s.complete != CompleteError && Timing.JitterDefined(Timing.Abs(after), p) {
      var ts := Timing.FireTime(NominalTs(s1, after), Timing.Abs(after), p, rnd);
      var s2 := if after < 0 then s1.(lastOrderTs := ts) else s1;
      SchedHandlerKeepsArmed(s2, Callback(body), ts);
    }
  }

  /** Queuing a guard for one item arms it, and keeps every other item armed. */
  lemma AddDoneToLoopArms(s: LoopState, tag: string)
    requires Valid(s) && tag in s.dones
    requires forall k :: k in s.dones && k != tag && s.dones[k].complete == CompleteNot ==>
               GuardedBy(s.queue, k, s.dones[k].schedItem)
    ensures Armed(AddDoneToLoop(s, tag))
  {
    var r := AddDoneToLoop(s, tag);
    var e := Entry(s.dones[tag].deadline, s.nextId, Guard(tag));
    assert r.queue == InsertSorted(s.queue, e);
    assert e in multiset(r.queue);
    forall k | k in r.dones && r.dones[k].complete == CompleteNot
      ensures GuardedBy(r.queue, k, r.dones[k].schedItem)
    {
      if k == tag {
        forall x | x in r.queue && x.id == s.nextId
          ensures x.action == Guard(tag)
        {
          assert x in multiset(s.queue) + multiset{e};
        }
      } else {
        InsertKeepsGuard(s.queue, e, k, s.dones[k].schedItem);
      }
    }
  }

  /** addDone during the run: the new item is pending and gets a fresh guard. */
  lemma AddDoneKeepsInv(s: LoopState, tag: string, item: DoneItem)
    requires Valid(s) && Inv(s) && item.complete == CompleteNot
    requires AddDone(s, tag, item).1 == Ok
    ensures Inv(AddDone(s, tag, item).0)
  {
    var s1 := AddDoneToMap(s, tag, item).0;
    AddDoneToMapRegisters(s, tag, item);
    if s.complete != CompleteError {
      AddDoneToLoopArms(s1, tag);
    }
  }

  /** done(tag) returning normally keeps the invariant. */
  lemma DoneKeepsInv(s: LoopState, tag: string)
    requires Valid(s) && Inv(s)
    requires Done(s, tag).1 == Ok
    ensures Inv(Done(s, tag).0)
  {
    var r := Done(s, tag).0;
    if r.complete != CompleteError && s.dones[tag].complete == CompleteNot {
      var h := s.dones[tag].schedItem;
      forall k | k in r.dones && r.dones[k].complete == CompleteNot
        ensures GuardedBy(r.queue, k, r.dones[k].schedItem)
      {
        EraseKeepsOtherGuard(s.queue, tag, h, k, s.dones[k].schedItem);
      }
    }
  }

  lemma ExecStepKeepsInv(s: LoopState, step: Step)
    requires Valid(s) && Inv(s)
    requires ExecStep(s, step).1 == Ok
    ensures Inv(ExecStep(s, step).0)
  {
    match step
    case ResolveDone(tag) =>
      DoneKeepsInv(s, tag);
    case RaiseError(msg) =>
    case RaiseTaggedError(tag, msg) =>
    case AbortLoop =>
    case SetJitterPct(pct) =>
    case Schedule(after, pct, rnd, body) =>
      SchedCallKeepsInv(s, body, after, pct, rnd);
    case AddDoneItem(spec) =>
      if MakeItem(spec).Made? {
        ApplyPropsAccepts(spec.tag, FreshItem, spec.props);
        AddDoneKeepsInv(s, spec.tag, MakeItem(spec).value);
      }
  }

  lemma {:induction false} ExecBodyKeepsInv(s: LoopState, body: seq<Step>)
    requires Valid(s) && Inv(s)
    requires ExecBody(s, body).1 == Ok
    ensures Inv(ExecBody(s, body).0)
    decreases body
  {
    if body != [] {
      ExecStepKeepsInv(s, body[0]);
      ExecBodyKeepsInv(ExecStep(s, body[0]).0, body[1..]);
    }
  }

  /** Popping the earliest entry and invoking it keeps the invariant when it
      returns normally: a popped guard either finds its item complete or
      records a Timeout error. */
  lemma TurnKeepsInv(s: LoopState)
    requires Valid(s) && Inv(s) && s.queue != []
    requires Invoke(PopHead(s), s.queue[0].action).1 == Ok
    ensures Inv(Invoke(PopHead(s), s.queue[0].action).0)
  {
    var p := PopHead(s);
    var a := s.queue[0].action;
    match a
    case Callback(body) =>
      if s.complete != CompleteError {
        forall k | k in p.dones && p.dones[k].complete == CompleteNot
          ensures GuardedBy(p.queue, k, p.dones[k].schedItem)
        {
          PopKeepsGuard(s.queue, k, s.dones[k].schedItem);
        }
      }
      ExecBodyKeepsInv(p, body);
    case Guard(k0) =>
      var r := TimeoutGuard(p, k0);
      if r.0.complete != CompleteError {
        assert k0 in p.dones && p.dones[k0].complete != CompleteNot && r.0 == p;
        forall k | k in p.dones && p.dones[k].complete == CompleteNot
          ensures GuardedBy(p.queue, k, p.dones[k].schedItem)
        {
          PopKeepsGuard(s.queue, k, s.dones[k].schedItem);
        }
      }
  }
}
