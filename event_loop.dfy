/** test::EventLoop as a class whose methods update its fields in place, in
    the order the C++ member functions do. Each method is proved to leave the
    object in the state, and to end with the outcome, that the function of
    the same name in module Engine gives. */
module EventLoopClass {
  import opened Strings
  import opened Timing
  import opened Actions
  import opened SchedQueue
  import opened DoneItems
  import opened Engine

  class EventLoop {
    var now: int                         // the clock getTimeMs() reads
    var lastOrderTs: int                 // mLastOrderTs
    var lastOrderedDoneNo: int           // mLastOrderedDoneNo
    var nextEventTs: int                 // mNextEventTs
    var jitterPct: int
    var schedQueue: seq<Entry>           // mSchedQueue
    var nextId: nat                      // sequence number of the next queue entry
    var dones: map<string, DoneItem>     // mDones
    var defaultDoneTimeout: int
    var hasDefaultDone: bool             // mHasDefaultDone
    var complete: int                    // mComplete
    var errorTag: string                 // mErrorTag
    var errorMsg: string

    function State(): LoopState
      reads this
    {
      LoopState(now, lastOrderTs, lastOrderedDoneNo, nextEventTs, jitterPct, schedQueue, nextId,
                dones, defaultDoneTimeout, hasDefaultDone, complete, errorTag, errorMsg)
    }

    predicate Valid()
      reads this
    {
      Engine.Valid(State())
    }

    /** The member initialisers, before a constructor body runs. */
    constructor Blank(timeout: int, clock: int)
      ensures Valid() && State() == Empty(timeout, clock)
    {
      now, lastOrderTs, lastOrderedDoneNo, nextEventTs, jitterPct := clock, 0, 0, NoEventTs, DefaultJitterPct;
      schedQueue, nextId := [], 0;
      dones, defaultDoneTimeout, hasDefaultDone := map[], timeout, false;
      complete, errorTag, errorMsg := CompleteNot, "", "";
    }

    /** EventLoop(timeout): registers the "_default" item only. */
    constructor (timeout: int, clock: int)
      ensures Valid() && State() == InitDefault(timeout, clock)
    {
      now, lastOrderTs, lastOrderedDoneNo, nextEventTs, jitterPct := clock, 0, 0, NoEventTs, DefaultJitterPct;
      schedQueue, nextId := [], 0;
      dones, defaultDoneTimeout, hasDefaultDone := map[], timeout, false;
      complete, errorTag, errorMsg := CompleteNot, "", "";
      new;
      var o := AddDoneToMap(DefaultTag, FreshItem);
    }

    /** EventLoop(doneItems, timeout): registers exactly the given items; a
        duplicate tag throws out of the constructor. */
    static method WithDones(items: seq<Tagged>, timeout: int, clock: int) returns (loop: EventLoop, o: Outcome)
      ensures fresh(loop) && loop.Valid()
      ensures (loop.State(), o) == InitWithDones(items, timeout, clock)
    {
      loop := new EventLoop.Blank(timeout, clock);
      o := Ok;
      var i := 0;
      while i < |items|
        invariant 0 <= i <= |items|
        invariant loop.Valid()
        invariant o == Ok
        invariant AddAllToMap(loop.State(), items[i..]) == InitWithDones(items, timeout, clock)
      {
        assert items[i..][0] == items[i];
        o := loop.AddDoneToMap(items[i].tag, items[i].item);
        if o != Ok {
          return;
        }
        assert items[i..][1..] == items[i + 1..];
        i := i + 1;
      }
    }

    method UsageError(msg: string) returns (o: Outcome)
      requires Valid()
      modifies this
      ensures Valid()
      ensures (State(), o) == Engine.UsageError(old(State()), msg)
    {
      errorMsg := msg;
      o := Misuse(msg);
    }

    method AddDoneToMap(tag: string, item: DoneItem) returns (o: Outcome)
      requires Valid()
      modifies this
      ensures Valid()
      ensures (State(), o) == Engine.AddDoneToMap(old(State()), tag, item)
    {
      if tag == DefaultTag {
        hasDefaultDone := true;
      }
      var it := item;
      if it.deadline < 0 {
        it := it.(deadline := defaultDoneTimeout);
      }
      if tag in dones {
        o := UsageError("addDone: Duplicate done() tag '" + tag + "'");
        return;
      }
      dones := dones[tag := it];
      o := Ok;
    }

    method SetWakeupTs(ts: int)
      modifies this
      ensures State() == old(State()).(nextEventTs := ts)
    {
      nextEventTs := ts;
    }

    method SchedHandler(action: Action, ts: int) returns (h: nat)
      requires Valid()
      modifies this
      ensures Valid()
      ensures (State(), h) == Engine.SchedHandler(old(State()), action, ts)
    {
      schedQueue := InsertSorted(schedQueue, Entry(ts, nextId, action));
      h := nextId;
      nextId := nextId + 1;
      if ts < nextEventTs {
        SetWakeupTs(ts);
      }
      assert State() == Engine.SchedHandler(old(State()), action, ts).0;
    }

    method AddDoneToLoop(tag: string)
      requires Valid() && tag in dones
      modifies this
      ensures Valid()
      ensures State() == Engine.AddDoneToLoop(old(State()), tag)
    {
      var h := SchedHandler(Guard(tag), dones[tag].deadline);
      dones := dones[tag := dones[tag].(schedItem := At(h))];
    }

    method AddDone(tag: string, item: DoneItem) returns (o: Outcome)
      requires Valid()
      modifies this
      ensures Valid()
      ensures (State(), o) == Engine.AddDone(old(State()), tag, item)
    {
      o := AddDoneToMap(tag, item);
      if o == Ok {
        AddDoneToLoop(tag);
      }
    }

    method Abort()
      requires Valid()
      modifies this
      ensures Valid()
      ensures State() == Engine.Abort(old(State()))
    {
      if complete != CompleteNot {
        return;
      }
      complete := CompleteAborted;
    }

    method SchedCall(body: seq<Step>, after: int, aJitterPct: int, rnd: RandValue) returns (o: Outcome)
      requires Valid()
      modifies this
      ensures Valid()
      ensures (State(), o) == Engine.SchedCall(old(State()), body, after, aJitterPct, rnd)
    {
      ghost var s0 := State();
      var pct := aJitterPct;
      if pct < 0 {
        pct := jitterPct;
      }
      var delay := after;
      if after < 0 {
        delay := -after;
        if lastOrderTs == 0 {
          lastOrderTs := now;
        }
      }
      ghost var s1 := State();
      assert s1 == if after < 0 then s0.(lastOrderTs := OrderAnchor(s0)) else s0;
      assert pct == EffectivePct(s0, aJitterPct) && delay == Abs(after);
      if !JitterDefined(delay, pct) {
        o := Undefined("rand() % 0");
        return;
      }
      var ts := FireTime(if after < 0 then lastOrderTs + delay else now + delay, delay, pct, rnd);
      assert ts == FireTime(NominalTs(s1, after), delay, pct, rnd);
      if after < 0 {
        lastOrderTs := ts;
      }
      ghost var s2 := State();
      assert s2 == if after < 0 then s1.(lastOrderTs := ts) else s1;
      var h := SchedHandler(Callback(body), ts);
      o := Ok;
    }

    method DoError(msg: string, tag: string, noThrow: bool) returns (o: Outcome)
      requires Valid()
      modifies this
      ensures Valid()
      ensures (State(), o) == Engine.DoError(old(State()), msg, tag, noThrow)
    {
      if complete == CompleteError {
        return Ok;
      }
      complete := CompleteError;
      if tag != "" {
        if tag !in dones {
          o := UsageError("error() called with unknown tag: " + tag);
          return;
        }
        errorTag := tag;
        errorMsg := "done('" + tag + "'): " + msg;
        dones := dones[tag := dones[tag].(complete := CompleteError)];
        o := if noThrow then Ok else Raised(errorMsg);
      } else {
        errorMsg := msg;
        errorTag := tag;
        o := if noThrow then Ok else Raised(msg);
      }
    }

    method Error(msg: string) returns (o: Outcome)
      requires Valid()
      modifies this
      ensures Valid()
      ensures (State(), o) == Engine.Error(old(State()), msg)
    {
      o := DoError(msg, DefaultTag, false);
    }

    method ErrorTagged(tag: string, msg: string) returns (o: Outcome)
      requires Valid()
      modifies this
      ensures Valid()
      ensures (State(), o) == Engine.ErrorTagged(old(State()), tag, msg)
    {
      if tag == "" {
        o := UsageError(EmptyTagMsg);
        return;
      }
      o := DoError(msg, tag, false);
    }

    method Done(tag: string) returns (o: Outcome)
      requires Valid()
      modifies this
      ensures Valid()
      ensures (State(), o) == Engine.Done(old(State()), tag)
    {
      if tag !in dones {
        o := UsageError("Unknown done() tag '" + tag + "'");
        return;
      }
      if dones[tag].complete != CompleteNot {
        o := DoError(AlreadyResolvedMsg, tag, true);
        return;
      }
      schedQueue := Erase(schedQueue, dones[tag].schedItem);
      var order := dones[tag].order;
      if order != 0 {
        lastOrderedDoneNo := lastOrderedDoneNo + 1;
        if order != lastOrderedDoneNo {
          o := DoError(OrderMsg(order, lastOrderedDoneNo), tag, true);
          return;
        }
      }
      dones := dones[tag := dones[tag].(complete := CompleteSuccess)];
      o := Ok;
    }

    /** done() without a tag. */
    method DoneDefault() returns (o: Outcome)
      requires Valid()
      modifies this
      ensures Valid()
      ensures (State(), o) == Engine.Done(old(State()), DefaultTag)
    {
      o := Done(DefaultTag);
    }

    /** The timeout guard closure of addDoneToLoop. */
    method TimeoutGuard(tag: string) returns (o: Outcome)
      requires Valid()
      modifies this
      ensures Valid()
      ensures (State(), o) == Engine.TimeoutGuard(old(State()), tag)
    {
      if tag !in dones {
        o := DoError("Internal error: done() timeout handler could not find done item" + tag, tag, false);
        return;
      }
      if dones[tag].complete != CompleteNot {
        return Ok;
      }
      o := DoError(TimeoutMsg, tag, true);
    }

    method ExecStep(step: Step) returns (o: Outcome)
      requires Valid()
      modifies this
      ensures Valid()
      ensures (State(), o) == Engine.ExecStep(old(State()), step)
    {
      match step
      case ResolveDone(tag) =>
        o := Done(tag);
      case RaiseError(msg) =>
        o := Error(msg);
      case RaiseTaggedError(tag, msg) =>
        o := ErrorTagged(tag, msg);
      case AbortLoop =>
        Abort();
        o := Ok;
      case SetJitterPct(pct) =>
        jitterPct := pct;
        o := Ok;
      case Schedule(after, pct, rnd, body) =>
        o := SchedCall(body, after, pct, rnd);
      case AddDoneItem(spec) =>
        match MakeItem(spec)
        case Rejected(msg) =>
          o := Misuse(msg);
        case Made(item) =>
          o := AddDone(spec.tag, item);
    }

    method ExecBody(body: seq<Step>) returns (o: Outcome)
      requires Valid()
      modifies this
      ensures Valid()
      ensures (State(), o) == Engine.ExecBody(old(State()), body)
    {
      o := Ok;
      var i := 0;
      while i < |body|
        invariant 0 <= i <= |body|
        invariant Valid()
        invariant o == Ok
        invariant Engine.ExecBody(State(), body[i..]) == Engine.ExecBody(old(State()), body)
      {
        assert body[i..][0] == body[i] && body[i..][1..] == body[i + 1..];
        ghost var before := State();
        o := ExecStep(body[i]);
        if o != Ok {
          assert Engine.ExecBody(before, body[i..]) == (State(), o);
          return;
        }
        i := i + 1;
      }
    }

    method Invoke(a: Action) returns (o: Outcome)
      requires Valid()
      modifies this
      ensures Valid()
      ensures (State(), o) == Engine.Invoke(old(State()), a)
    {
      match a
      case Callback(body) =>
        o := ExecBody(body);
      case Guard(tag) =>
        o := TimeoutGuard(tag);
    }

    /** One iteration of addAllDonesToLoop's loop. */
    method ArmItem(tag: string, t: int)
      requires Valid() && tag in dones
      modifies this
      ensures Valid()
      ensures State() == ArmOne(old(State()), tag, t)
    {
      dones := dones[tag := dones[tag].(deadline := dones[tag].deadline + t)];
      AddDoneToLoop(tag);
    }

    method AddAllDonesToLoop()
      requires Valid()
      modifies this
      ensures Valid()
      ensures State() == Engine.AddAllDonesToLoop(old(State()))
    {
      var t := now;
      var remaining := dones.Keys;
      while remaining != {}
        invariant Valid()
        invariant remaining <= dones.Keys
        invariant now == t
        invariant ArmKeys(State(), SortedKeys(remaining), t) == Engine.AddAllDonesToLoop(old(State()))
        decreases remaining
      {
        LeastExists(remaining);
        var tag :| IsLeast(tag, remaining);
        ArmKeysLeast(State(), remaining, tag, t);
        ArmItem(tag, t);
        remaining := remaining - {tag};
      }
    }

    /** One turn of run()'s loop: sleep until the earliest entry is due,
        take it off the queue, then invoke it. */
    method RunNext() returns (o: Outcome)
      requires Valid() && schedQueue != []
      modifies this
      ensures Valid()
      ensures (State(), o) == Engine.Invoke(PopHead(old(State())), old(schedQueue[0].action))
    {
      var sched := schedQueue[0];
      if sched.ts - now > 0 {
        now := sched.ts;  // sleep until the entry is due
      }
      schedQueue := schedQueue[1..];
      assert State() == PopHead(old(State()));
      o := Invoke(sched.action);
    }

    method Run() returns (o: Outcome)
      requires Valid()
      modifies this
      ensures Valid()
      ensures (State(), o) == Engine.Run(old(State()))
    {
      if schedQueue == [] {
        o := Misuse(NothingToRun);
        return;
      }
      AddAllDonesToLoop();
      ghost var armed := State();
      o := Ok;
      while schedQueue != [] && complete == CompleteNot
        invariant Valid()
        invariant o == Ok
        invariant RunLoop(State()) == RunLoop(armed)
        decreases Weight(schedQueue)
      {
        RunLoopTurn(State());
        o := RunNext();
        if o != Ok {
          return;
        }
        if errorMsg != "" {
          assert RunLoop(armed) == (State(), o);
          break;
        }
      }
      if schedQueue == [] || complete != CompleteNot {
        RunLoopExit(State());
      }
      if complete == CompleteNot {
        complete := CompleteSuccess;
      }
    }
  }
}
