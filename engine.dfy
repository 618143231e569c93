/** The semantics of test::EventLoop as functions on the loop's state: one
    function per member function of the C++ class. An exception thrown by the
    C++ code is the Outcome the function returns; the state it returns is the
    state the object is left in when the exception leaves the call. */
module Engine {
  import opened Strings
  import opened Timing
  import opened Actions
  import opened SchedQueue
  import opened DoneItems

  /** The initial mNextEventTs: later than anything scheduled. */
  const NoEventTs: int := 0xFFF_FFFF_FFFF_FFFF

  /** The loop's default jitterPct. */
  const DefaultJitterPct: int := 50

  const NothingToRun: string := "Nothing to run: not even a single function call has been scheduled"
  const EmptyTagMsg: string := "error() for a tagged done() item called, but the tag is empty"
  const AlreadyResolvedMsg: string := "done() already resloved, can't resolve again"
  const TimeoutMsg: string := "Timeout"

  /** How a call on the loop ended. */
  datatype Outcome =
    | Ok
    | Misuse(msg: string)     // a usage error: std::runtime_error from usageError(), setVal() or run()
    | Raised(msg: string)     // std::runtime_error thrown by doError() to unwind the caller
    | Undefined(msg: string)  // the C++ code divides by zero here; the model stops

  /** The fields of an EventLoop object. The clock reading getTimeMs() would
      return is `now`. */
  datatype LoopState = LoopState(
    now: int,
    lastOrderTs: int,
    lastOrderedDoneNo: int,
    nextEventTs: int,
    jitterPct: int,
    queue: seq<Entry>,
    nextId: nat,
    dones: map<string, DoneItem>,
    defaultDoneTimeout: int,
    hasDefaultDone: bool,
    complete: int,
    errorTag: string,
    errorMsg: string)

  /** The queue is in iteration order and every handle in it was handed out. */
  predicate Valid(s: LoopState)
  {
    Sorted(s.queue) && IdsBelow(s.queue, s.nextId)
  }

  /** A loop with no done items, created at clock reading `clock`. */
  function Empty(timeout: int, clock: int): (s: LoopState)
    ensures Valid(s)
  {
    LoopState(clock, 0, 0, NoEventTs, DefaultJitterPct, [], 0, map[], timeout, false, CompleteNot, "", "")
  }

  /** usageError(msg): record the message, throw. */
  function UsageError(s: LoopState, msg: string): (r: (LoopState, Outcome))
    ensures r.1.Misuse? && r.1.msg == msg && r.0.errorMsg == msg
    ensures r.0.(errorMsg := s.errorMsg) == s
  {
    (s.(errorMsg := msg), Misuse(msg))
  }

  /** addDoneToMap: fill in the default deadline, insert under the tag; a
      duplicate tag is a usage error. */
  function AddDoneToMap(s: LoopState, tag: string, item: DoneItem): (r: (LoopState, Outcome))
    ensures r.0.queue == s.queue && r.0.nextId == s.nextId && r.0.now == s.now
    ensures s.dones.Keys <= r.0.dones.Keys
  {
    var s1 := if tag == DefaultTag then s.(hasDefaultDone := true) else s;
    if tag in s1.dones then UsageError(s1, "addDone: Duplicate done() tag '" + tag + "'")
    else (s1.(dones := s1.dones[tag := Defaulted(item, s1.defaultDoneTimeout)]), Ok)
  }

  /** A negative deadline means "the loop's default timeout". */
  function Defaulted(item: DoneItem, timeout: int): (r: DoneItem)
    ensures r.deadline == if item.deadline < 0 then timeout else item.deadline
    ensures r == item.(deadline := r.deadline)
  {
    if item.deadline < 0 then item.(deadline := timeout) else item
  }

  /** EventLoop(timeout): a loop whose only done item is "_default". */
  function InitDefault(timeout: int, clock: int): (s: LoopState)
    ensures Valid(s)
  {
    AddDoneToMap(Empty(timeout, clock), DefaultTag, FreshItem).0
  }

  datatype Tagged = Tagged(tag: string, item: DoneItem)

  /** The loop of EventLoop(doneItems, timeout): addDoneToMap for each item in turn. */
  function AddAllToMap(s: LoopState, items: seq<Tagged>): (r: (LoopState, Outcome))
    ensures r.0.queue == s.queue && r.0.nextId == s.nextId && r.0.now == s.now
    decreases items
  {
    if items == [] then (s, Ok)
    else
      var r := AddDoneToMap(s, items[0].tag, items[0].item);
      if r.1 != Ok then r else AddAllToMap(r.0, items[1..])
  }

  /** EventLoop(doneItems, timeout); a usage error means no object is built. */
  function InitWithDones(items: seq<Tagged>, timeout: int, clock: int): (r: (LoopState, Outcome))
    ensures Valid(r.0)
  {
    AddAllToMap(Empty(timeout, clock), items)
  }

  /** schedHandler: insert one entry, lower mNextEventTs to its time if
      earlier; the new entry's sequence number is the returned handle. */
  function SchedHandler(s: LoopState, action: Action, ts: int): (r: (LoopState, nat))
    ensures r.1 == s.nextId && r.0.nextId == s.nextId + 1
    ensures Valid(s) ==> Valid(r.0)
    ensures Weight(r.0.queue) == Weight(s.queue) + ActionWeight(action)
    ensures r.0.now == s.now && r.0.dones == s.dones && r.0.complete == s.complete
  {
    var e := Entry(ts, s.nextId, action);
    var q := InsertSorted(s.queue, e);
    assert Valid(s) ==> Sorted(q) && IdsBelow(q, s.nextId + 1) by {
      if Valid(s) {
        InsertSortedKeepsOrder(s.queue, e);
        assert forall x :: x in q ==> x in multiset(q);
      }
    }
    (s.(queue := q, nextId := s.nextId + 1,
        nextEventTs := if ts < s.nextEventTs then ts else s.nextEventTs),
     s.nextId)
  }

  /** addDoneToLoop: queue the item's timeout guard at its deadline and keep
      the guard's handle in the item. */
  function AddDoneToLoop(s: LoopState, tag: string): (r: LoopState)
    requires tag in s.dones
    ensures Valid(s) ==> Valid(r)
    ensures Weight(r.queue) == Weight(s.queue) + 1
    ensures r.now == s.now && r.dones.Keys == s.dones.Keys && r.complete == s.complete
  {
    var (s1, h) := SchedHandler(s, Guard(tag), s.dones[tag].deadline);
    s1.(dones := s1.dones[tag := s1.dones[tag].(schedItem := At(h))])
  }

  /** addDone: register the item, then queue its guard at its deadline as it
      stands, which before run() is still the relative timeout. */
  function AddDone(s: LoopState, tag: string, item: DoneItem): (r: (LoopState, Outcome))
    ensures Valid(s) ==> Valid(r.0)
    ensures Weight(r.0.queue) <= Weight(s.queue) + 1
    ensures r.0.now == s.now && r.0.complete == s.complete
  {
    var r := AddDoneToMap(s, tag, item);
    if r.1 != Ok then r else (AddDoneToLoop(r.0, tag), Ok)
  }

  /** abort: only a loop that has not completed becomes ABORTED. */
  function Abort(s: LoopState): (r: LoopState)
    ensures r.complete != CompleteNot
    ensures s.complete == CompleteNot ==> r.complete == CompleteAborted
    ensures s.complete != CompleteNot ==> r == s
    ensures r.(complete := s.complete) == s
  {
    if s.complete != CompleteNot then s else s.(complete := CompleteAborted)
  }

  /** The jitter percentage schedCall uses: a negative argument means the loop's. */
  function EffectivePct(s: LoopState, jitterPct: int): int
  {
    if jitterPct < 0 then s.jitterPct else jitterPct
  }

  /** The anchor of an ordered call: the previous ordered fire time, or the
      clock when there was none (mLastOrderTs still 0). */
  function OrderAnchor(s: LoopState): int
  {
    if s.lastOrderTs == 0 then s.now else s.lastOrderTs
  }

  /** schedCall: a non-negative delay counts from now; a negative one counts
      -after from the previous ordered call, whose time it then replaces.
      rand() returned rnd. */
  function SchedCall(s: LoopState, body: seq<Step>, after: int, jitterPct: int, rnd: RandValue): (r: (LoopState, Outcome))
    ensures Valid(s) ==> Valid(r.0)
    ensures Weight(r.0.queue) <= Weight(s.queue) + 1 + BodySize(body)
    ensures r.0.now == s.now && r.0.dones == s.dones && r.0.complete == s.complete
  {
    var p := EffectivePct(s, jitterPct);
    var delay := Abs(after);
    var s1 := if after < 0 then s.(lastOrderTs := OrderAnchor(s)) else s;
    if !JitterDefined(delay, p) then (s1, Undefined("rand() % 0"))
    else
      var ts := FireTime(NominalTs(s1, after), delay, p, rnd);
      var s2 := if after < 0 then s1.(lastOrderTs := ts) else s1;
      (SchedHandler(s2, Callback(body), ts).0, Ok)
  }

  /** The un-jittered fire time: the delay counted from the clock, or from
      the anchor (already in lastOrderTs) for an ordered call. */
  function NominalTs(s: LoopState, after: int): int
  {
    if after < 0 then s.lastOrderTs + -after else s.now + after
  }

  /** The message doError records for an error against a tagged item (the
      colour strings around the tag are empty). */
  function TaggedMsg(tag: string, msg: string): string
  {
    "done('" + tag + "'): " + msg
  }

  /** doError: once the loop is in ERROR nothing changes; otherwise the loop
      goes to ERROR, and a tagged error records the tag, a composed message
      and marks the item ERROR; unless noThrow, the message is thrown. */
  function DoError(s: LoopState, msg: string, tag: string, noThrow: bool): (r: (LoopState, Outcome))
    ensures r.0.queue == s.queue && r.0.nextId == s.nextId && r.0.now == s.now
    ensures r.0.dones.Keys == s.dones.Keys
    ensures forall k :: k in s.dones && k != tag ==> r.0.dones[k] == s.dones[k]
    ensures r.0.complete == CompleteError
  {
    if s.complete == CompleteError then (s, Ok)
    else
      var s1 := s.(complete := CompleteError);
      if tag != "" then
        if tag !in s1.dones then UsageError(s1, "error() called with unknown tag: " + tag)
        else
          var m := TaggedMsg(tag, msg);
          var s2 := s1.(errorTag := tag, errorMsg := m,
                        dones := s1.dones[tag := s1.dones[tag].(complete := CompleteError)]);
          (s2, if noThrow then Ok else Raised(m))
      else
        (s1.(errorMsg := msg, errorTag := tag), if noThrow then Ok else Raised(msg))
  }

  /** error(msg): an error against the "_default" item. */
  function Error(s: LoopState, msg: string): (r: (LoopState, Outcome))
    ensures r.0.queue == s.queue && r.0.nextId == s.nextId && r.0.now == s.now
    ensures r.0.complete == CompleteError
  {
    DoError(s, msg, DefaultTag, false)
  }

  /** error(tag, msg): an empty tag is a usage error. */
  function ErrorTagged(s: LoopState, tag: string, msg: string): (r: (LoopState, Outcome))
    ensures r.0.queue == s.queue && r.0.nextId == s.nextId && r.0.now == s.now
    ensures s.complete == CompleteError ==> r.0.complete == CompleteError
    ensures s.complete != CompleteNot ==> r.0.complete != CompleteNot
    ensures s.complete != CompleteSuccess ==> r.0.complete != CompleteSuccess
  {
    if tag == "" then UsageError(s, EmptyTagMsg) else DoError(s, msg, tag, false)
  }

  /** Mark a done item SUCCESS. */
  function Resolve(s: LoopState, tag: string): (r: LoopState)
    requires tag in s.dones
  {
    s.(dones := s.dones[tag := s.dones[tag].(complete := CompleteSuccess)])
  }

  function OrderMsg(expected: int, actual: int): string
  {
    "Did not resolve in expected order. Expected: " + IntToDecimal(expected) + ", actual: " + IntToDecimal(actual)
  }

  /** done(tag): an unknown tag is a usage error; resolving twice is an error
      (not thrown); otherwise the item's guard is erased and, for an ordered
      item, the order counter is advanced and must equal the item's rank. */
  function Done(s: LoopState, tag: string): (r: (LoopState, Outcome))
    ensures Valid(s) ==> Valid(r.0)
    ensures Weight(r.0.queue) <= Weight(s.queue)
    ensures r.0.now == s.now && r.0.dones.Keys == s.dones.Keys
    ensures forall k :: k in s.dones && k != tag ==> r.0.dones[k] == s.dones[k]
    ensures s.complete == CompleteError ==> r.0.complete == CompleteError
    ensures s.complete != CompleteNot ==> r.0.complete != CompleteNot
    ensures s.complete != CompleteSuccess ==> r.0.complete != CompleteSuccess
  {
    if tag !in s.dones then UsageError(s, "Unknown done() tag '" + tag + "'")
    else if s.dones[tag].complete != CompleteNot then DoError(s, AlreadyResolvedMsg, tag, true)
    else
      var s1 := s.(queue := Erase(s.queue, s.dones[tag].schedItem));
      var order := s.dones[tag].order;
      if order != 0 then
        var n := s.lastOrderedDoneNo + 1;
        var s2 := s1.(lastOrderedDoneNo := n);
        if order != n then DoError(s2, OrderMsg(order, n), tag, true)
        else (Resolve(s2, tag), Ok)
      else (Resolve(s1, tag), Ok)
  }

  /** The closure addDoneToLoop queues: nothing if the item is complete,
      otherwise a non-throwing "Timeout" error for it. */
  function TimeoutGuard(s: LoopState, tag: string): (r: (LoopState, Outcome))
    ensures r.0.queue == s.queue && r.0.nextId == s.nextId && r.0.now == s.now
    ensures s.complete == CompleteError ==> r.0.complete == CompleteError
    ensures s.complete != CompleteNot ==> r.0.complete != CompleteNot
    ensures s.complete != CompleteSuccess ==> r.0.complete != CompleteSuccess
  {
    if tag !in s.dones then
      DoError(s, "Internal error: done() timeout handler could not find done item" + tag, tag, false)
    else if s.dones[tag].complete != CompleteNot then (s, Ok)
    else DoError(s, TimeoutMsg, tag, true)
  }

  /** One call a scheduled closure makes on the loop. */
  function ExecStep(s: LoopState, step: Step): (r: (LoopState, Outcome))
    ensures Valid(s) ==> Valid(r.0)
    ensures Weight(r.0.queue) < Weight(s.queue) + StepSize(step)
    ensures r.0.now == s.now
    ensures s.complete == CompleteError ==> r.0.complete == CompleteError
    ensures s.complete != CompleteNot ==> r.0.complete != CompleteNot
    ensures s.complete != CompleteSuccess ==> r.0.complete != CompleteSuccess
  {
    match step
    case ResolveDone(tag) => Done(s, tag)
    case RaiseError(msg) => Error(s, msg)
    case RaiseTaggedError(tag, msg) => ErrorTagged(s, tag, msg)
    case AbortLoop => (Abort(s), Ok)
    case SetJitterPct(pct) => (s.(jitterPct := pct), Ok)
    case Schedule(after, pct, rnd, body) => SchedCall(s, body, after, pct, rnd)
    case AddDoneItem(spec) =>
      match MakeItem(spec)
      case Rejected(msg) => (s, Misuse(msg))
      case Made(item) => AddDone(s, spec.tag, item)
  }

  /** A closure runs its calls in order; a thrown exception skips the rest. */
  function ExecBody(s: LoopState, body: seq<Step>): (r: (LoopState, Outcome))
    ensures Valid(s) ==> Valid(r.0)
    ensures Weight(r.0.queue) <= Weight(s.queue) + BodySize(body)
    ensures r.0.now == s.now
    ensures s.complete == CompleteError ==> r.0.complete == CompleteError
    ensures s.complete != CompleteNot ==> r.0.complete != CompleteNot
    ensures s.complete != CompleteSuccess ==> r.0.complete != CompleteSuccess
    decreases body
  {
    if body == [] then (s, Ok)
    else
      var r := ExecStep(s, body[0]);
      if r.1 != Ok then r else ExecBody(r.0, body[1..])
  }

  /** Invoke a dequeued entry. */
  function Invoke(s: LoopState, a: Action): (r: (LoopState, Outcome))
    ensures Valid(s) ==> Valid(r.0)
    ensures Weight(r.0.queue) < Weight(s.queue) + ActionWeight(a)
    ensures r.0.now == s.now
    ensures s.complete == CompleteError ==> r.0.complete == CompleteError
    ensures s.complete != CompleteNot ==> r.0.complete != CompleteNot
    ensures s.complete != CompleteSuccess ==> r.0.complete != CompleteSuccess
  {
    match a
    case Callback(body) => ExecBody(s, body)
    case Guard(tag) => TimeoutGuard(s, tag)
  }

  /** The head entry is taken off the queue once the clock has reached its
      time (run() sleeps until then). */
  function PopHead(s: LoopState): (r: LoopState)
    requires s.queue != []
    ensures Valid(s) ==> Valid(r)
    ensures Weight(r.queue) + ActionWeight(s.queue[0].action) == Weight(s.queue)
    ensures r.now >= s.now && r.now >= s.queue[0].ts
  {
    var head := s.queue[0];
    assert Valid(s) ==> Sorted(s.queue[1..]);
    s.(now := if head.ts - s.now > 0 then head.ts else s.now, queue := s.queue[1..])
  }

  /** The while loop of run(): stop when the queue is empty or the loop has
      completed; otherwise pop the earliest entry, invoke it, and stop if it
      threw or left an error message. */
  function RunLoop(s: LoopState): (r: (LoopState, Outcome))
    ensures Valid(s) ==> Valid(r.0)
    ensures r.0.now >= s.now
    ensures s.complete == CompleteError ==> r.0.complete == CompleteError
    ensures s.complete != CompleteNot ==> r.0.complete != CompleteNot
    ensures s.complete != CompleteSuccess ==> r.0.complete != CompleteSuccess
    decreases Weight(s.queue)
  {
    if s.queue == [] || s.complete != CompleteNot then (s, Ok)
    else
      var s1 := PopHead(s);
      var r := Invoke(s1, s.queue[0].action);
      if r.1 != Ok then r
      else if r.0.errorMsg != "" then r
      else RunLoop(r.0)
  }

  /** One iteration of addAllDonesToLoop: make the deadline absolute by
      adding t, then queue the guard. */
  function ArmOne(s: LoopState, k: string, t: int): (r: LoopState)
    ensures Valid(s) ==> Valid(r)
    ensures r.now == s.now && r.dones.Keys == s.dones.Keys && r.complete == s.complete
  {
    if k in s.dones then
      AddDoneToLoop(s.(dones := s.dones[k := s.dones[k].(deadline := s.dones[k].deadline + t)]), k)
    else s
  }

  /** Arm the guards of the given items in order. */
  function ArmKeys(s: LoopState, keys: seq<string>, t: int): (r: LoopState)
    ensures Valid(s) ==> Valid(r)
    ensures r.now == s.now && r.dones.Keys == s.dones.Keys && r.complete == s.complete
    decreases keys
  {
    if keys == [] then s else ArmKeys(ArmOne(s, keys[0], t), keys[1..], t)
  }

  /** addAllDonesToLoop: every item's deadline becomes absolute and its guard
      is queued, in the map's key order. */
  ghost function AddAllDonesToLoop(s: LoopState): (r: LoopState)
    ensures Valid(s) ==> Valid(r)
    ensures r.now == s.now && r.dones.Keys == s.dones.Keys && r.complete == s.complete
  {
    ArmKeys(s, SortedKeys(s.dones.Keys), s.now)
  }

  /** Arming in key order starts with the least key. */
  lemma ArmKeysLeast(s: LoopState, ks: set<string>, k: string, t: int)
    requires IsLeast(k, ks)
    ensures ArmKeys(s, SortedKeys(ks), t) == ArmKeys(ArmOne(s, k, t), SortedKeys(ks - {k}), t)
  {
    SortedKeysFirst(k, ks);
    assert ([k] + SortedKeys(ks - {k}))[1..] == SortedKeys(ks - {k});
  }

  /** What run() does once its loop has ended: an exception leaves the
      state as it is; otherwise a loop still NOT_COMPLETE becomes SUCCESS. */
  function Finish(r: (LoopState, Outcome)): (f: (LoopState, Outcome))
    ensures f.1 == r.1
    ensures f.1 != Ok ==> f == r
    ensures f.1 == Ok ==> f.0.complete != CompleteNot && f.0.(complete := r.0.complete) == r.0
    ensures r.0.complete == CompleteNot && f.1 == Ok ==> f.0.complete == CompleteSuccess
    ensures r.0.complete != CompleteNot ==> f == r
  {
    if r.1 != Ok then r
    else (if r.0.complete == CompleteNot then r.0.(complete := CompleteSuccess) else r.0, Ok)
  }

  /** run(): refuse an empty queue, arm the guards, run the loop, finish. */
  ghost function Run(s: LoopState): (r: (LoopState, Outcome))
    ensures Valid(s) ==> Valid(r.0)
  {
    if s.queue == [] then (s, Misuse(NothingToRun))
    else Finish(RunLoop(AddAllDonesToLoop(s)))
  }

  /** One turn of the loop, unfolded. */
  lemma RunLoopTurn(s: LoopState)
    requires s.queue != [] && s.complete == CompleteNot
    ensures var r := Invoke(PopHead(s), s.queue[0].action);
            RunLoop(s) == if r.1 != Ok || r.0.errorMsg != "" then r else RunLoop(r.0)
  {
  }

  /** The loop's exit condition. */
  lemma RunLoopExit(s: LoopState)
    requires s.queue == [] || s.complete != CompleteNot
    ensures RunLoop(s) == (s, Ok)
  {
  }
}
