/** The test of the repository's example program, followed on the model from
    construction to the end of run(): two ordered done items, "event 1"
    (order 1) and "event 2" (timeout 4000, order 2). The unit-test framework
    queues the test body as a closure 100 ms out at the loop's default 50%
    jitter and calls run(); the body sets the jitter to 40% and schedules the
    outer closure, which resolves "event 1" and schedules the inner one, which
    resolves "event 2". The clock reading when the body is queued and the
    three rand() values are left open; constructing the loop reads no clock. */
module Scenarios {
  import opened RunProps
  import opened Strings
  import opened Timing
  import opened Actions
  import opened SchedQueue
  import opened DoneItems
  import opened Engine

  const Event1: string := "event 1"
  const Event2: string := "event 2"

  /** {"event 1", "order", 1} and {"event 2", "timeout", 4000, "order", 2}. */
  const Spec1: DoneSpec := DoneSpec(Event1, [Prop("order", 1)])
  const Spec2: DoneSpec := DoneSpec(Event2, [Prop("timeout", 4000), Prop("order", 2)])

  /** What rand() returns at each of the three schedCall()s, in order: when
      the body is queued, when the body queues the outer closure, and when
      the outer closure queues the inner one. */
  datatype Draws = Draws(r0: RandValue, r1: RandValue, r2: RandValue)

  /** The inner closure: test.done("event 2"). */
  function Inner(): seq<Step>
  {
    [ResolveDone(Event2)]
  }

  /** The outer closure: test.done("event 1"), then schedule the inner one
      with the default delay. */
  function Outer(d: Draws): seq<Step>
  {
    [ResolveDone(Event1), Schedule(100, -1, d.r2, Inner())]
  }

  /** The test body: loop.jitterPct = 40, then schedule the outer closure
      with the default delay. */
  function Body(d: Draws): seq<Step>
  {
    [SetJitterPct(40), Schedule(100, -1, d.r1, Outer(d))]
  }

  /** When the body fires: 100 ms after it is queued, at 50% jitter. */
  function T0(clock: int, d: Draws): int
  {
    FireTime(clock + 100, 100, 50, d.r0)
  }

  /** When the outer closure fires: 100 ms after the body, at 40% jitter. */
  function T1(clock: int, d: Draws): int
  {
    FireTime(T0(clock, d) + 100, 100, 40, d.r1)
  }

  /** When the inner closure fires: 100 ms after the outer one, at 40% jitter. */
  function T2(clock: int, d: Draws): int
  {
    FireTime(T1(clock, d) + 100, 100, 40, d.r2)
  }

  /** The loop the constructor builds: both items registered, the first with
      the default timeout. */
  function Registered(clock: int): LoopState
  {
    LoopState(clock, 0, 0, NoEventTs, DefaultJitterPct, [], 0,
              map[Event1 := DoneItem(CompleteNot, 2000, 1, NoHandle),
                  Event2 := DoneItem(CompleteNot, 4000, 2, NoHandle)],
              DefaultDoneTimeout, false, CompleteNot, "", "")
  }

  function BodyEntry(clock: int, d: Draws): Entry
  {
    Entry(T0(clock, d), 0, Callback(Body(d)))
  }

  function OuterEntry(clock: int, d: Draws): Entry
  {
    Entry(T1(clock, d), 3, Callback(Outer(d)))
  }

  function InnerEntry(clock: int, d: Draws): Entry
  {
    Entry(T2(clock, d), 4, Callback(Inner()))
  }

  /** The guards run() queues for the two items. */
  function Guard1(clock: int): Entry
  {
    Entry(clock + 2000, 1, Guard(Event1))
  }

  function Guard2(clock: int): Entry
  {
    Entry(clock + 4000, 2, Guard(Event2))
  }

  /** The loop when run() is called: the body queued. */
  function Queued(clock: int, d: Draws): LoopState
  {
    Registered(clock).(queue := [BodyEntry(clock, d)], nextId := 1, nextEventTs := T0(clock, d))
  }

  /** The loop once the guard of "event 1" is armed. */
  function HalfArmed(clock: int, d: Draws): LoopState
  {
    Queued(clock, d).(
      queue := [BodyEntry(clock, d), Guard1(clock)],
      nextId := 2,
      dones := map[Event1 := DoneItem(CompleteNot, clock + 2000, 1, At(1)),
                   Event2 := DoneItem(CompleteNot, 4000, 2, NoHandle)])
  }

  /** The loop once run() has armed both guards, in key order. */
  function ArmedState(clock: int, d: Draws): LoopState
  {
    Queued(clock, d).(
      queue := [BodyEntry(clock, d), Guard1(clock), Guard2(clock)],
      nextId := 3,
      dones := map[Event1 := DoneItem(CompleteNot, clock + 2000, 1, At(1)),
                   Event2 := DoneItem(CompleteNot, clock + 4000, 2, At(2))])
  }

  /** The loop when the body starts: the clock at T0, the body popped. */
  function BodyPopped(clock: int, d: Draws): LoopState
  {
    ArmedState(clock, d).(now := T0(clock, d), queue := [Guard1(clock), Guard2(clock)])
  }

  /** The loop after the body: jitter at 40%, the outer closure queued ahead
      of both guards. */
  function AfterBody(clock: int, d: Draws): LoopState
  {
    BodyPopped(clock, d).(
      jitterPct := 40,
      queue := [OuterEntry(clock, d), Guard1(clock), Guard2(clock)],
      nextId := 4)
  }

  /** The loop when the outer closure starts: the clock at T1, the closure
      popped. */
  function OuterPopped(clock: int, d: Draws): LoopState
  {
    AfterBody(clock, d).(now := T1(clock, d), queue := [Guard1(clock), Guard2(clock)])
  }

  /** The loop after the outer closure: "event 1" resolved, its guard gone,
      the inner closure queued. */
  function AfterOuter(clock: int, d: Draws): LoopState
  {
    AfterBody(clock, d).(
      now := T1(clock, d),
      queue := [InnerEntry(clock, d), Guard2(clock)],
      nextId := 5,
      lastOrderedDoneNo := 1,
      dones := map[Event1 := DoneItem(CompleteSuccess, clock + 2000, 1, At(1)),
                   Event2 := DoneItem(CompleteNot, clock + 4000, 2, At(2))])
  }

  /** The loop between the outer closure's two calls: "event 1" resolved
      and its guard erased, the inner closure not yet queued. */
  function MidOuter(clock: int, d: Draws): LoopState
  {
    AfterOuter(clock, d).(queue := [Guard2(clock)], nextId := 4)
  }

  /** The loop after the inner closure: both items resolved, nothing queued. */
  function AfterInner(clock: int, d: Draws): LoopState
  {
    AfterOuter(clock, d).(
      now := T2(clock, d),
      queue := [],
      lastOrderedDoneNo := 2,
      dones := map[Event1 := DoneItem(CompleteSuccess, clock + 2000, 1, At(1)),
                   Event2 := DoneItem(CompleteSuccess, clock + 4000, 2, At(2))])
  }

  /** A clock reading well below mNextEventTs's initial value, as every
      millisecond timestamp of the platform is. */
  predicate ClockInRange(clock: int)
  {
    0 <= clock < NoEventTs - 10000
  }

  /** The jitter window of a 100 ms delay at 50% is 50 ms. */
  lemma Window100At50()
    ensures JitterWindow(100, 50) == 50 && JitterDefined(100, 50)
  {
  }

  /** A 100 ms delay at 50% lands within 50 ms of its nominal time. */
  lemma FireTime100At50(base: int, rnd: RandValue)
    ensures base - 50 <= FireTime(base, 100, 50, rnd) < base + 50
  {
    Window100At50();
  }

  /** The jitter window of a 100 ms delay at 40% is 40 ms. */
  lemma Window100At40()
    ensures JitterWindow(100, 40) == 40 && JitterDefined(100, 40)
  {
  }

  /** A 100 ms delay at 40% lands within 40 ms of its nominal time. */
  lemma FireTime100At40(base: int, rnd: RandValue)
    ensures base - 40 <= FireTime(base, 100, 40, rnd) < base + 40
  {
    Window100At40();
  }

  /** The three closures fire in order, all well before the first guard. */
  lemma ExampleTimeline(clock: int, d: Draws)
    ensures clock + 50 <= T0(clock, d) < clock + 150
    ensures T0(clock, d) + 60 <= T1(clock, d) < T0(clock, d) + 140
    ensures T1(clock, d) + 60 <= T2(clock, d) < T1(clock, d) + 140
  {
    FireTime100At50(clock + 100, d.r0);
    FireTime100At40(T0(clock, d) + 100, d.r1);
    FireTime100At40(T1(clock, d) + 100, d.r2);
  }

  /** The DoneItem constructors build the two items. */
  lemma ExampleItems()
    ensures MakeItem(Spec1) == Made(DoneItem(CompleteNot, -1, 1, NoHandle))
    ensures MakeItem(Spec2) == Made(DoneItem(CompleteNot, 4000, 2, NoHandle))
  {
    assert ApplyProps(Event1, FreshItem, Spec1.props) ==
           ApplyProps(Event1, FreshItem.(order := 1), []);
    assert ApplyProps(Event2, FreshItem, Spec2.props) ==
           ApplyProps(Event2, FreshItem.(deadline := 4000, order := 2), []);
  }

  /** EventLoop(doneItems) with the default timeout registers both items. */
  lemma ExampleConstructed(clock: int)
    ensures InitWithDones([Tagged(Event1, DoneItem(CompleteNot, -1, 1, NoHandle)),
                           Tagged(Event2, DoneItem(CompleteNot, 4000, 2, NoHandle))],
                          DefaultDoneTimeout, clock) == (Registered(clock), Ok)
  {
    var items := [Tagged(Event1, DoneItem(CompleteNot, -1, 1, NoHandle)),
                  Tagged(Event2, DoneItem(CompleteNot, 4000, 2, NoHandle))];
    var e := Empty(DefaultDoneTimeout, clock);
    var a := AddDoneToMap(e, Event1, items[0].item);
    assert a == (e.(dones := map[Event1 := DoneItem(CompleteNot, 2000, 1, NoHandle)]), Ok);
    var b := AddDoneToMap(a.0, Event2, items[1].item);
    assert Event2 !in a.0.dones;
    assert b == (Registered(clock), Ok);
    assert AddAllToMap(e, items) == AddAllToMap(a.0, items[1..]);
    assert AddAllToMap(a.0, items[1..]) == AddAllToMap(b.0, []);
  }

  /** The framework's schedCall(body) with the default delay and the loop's
      50% jitter queues the body. */
  lemma ExampleScheduled(clock: int, d: Draws)
    requires ClockInRange(clock)
    ensures SchedCall(Registered(clock), Body(d), 100, -1, d.r0) == (Queued(clock, d), Ok)
  {
    Window100At50();
    ExampleTimeline(clock, d);
    var s := Registered(clock);
    assert EffectivePct(s, -1) == 50 && Abs(100) == 100 && NominalTs(s, 100) == clock + 100;
    assert InsertSorted([], BodyEntry(clock, d)) == [BodyEntry(clock, d)];
    assert SchedHandler(s, Callback(Body(d)), T0(clock, d)).0 == Queued(clock, d);
  }

  /** "event 1" comes before "event 2" in the map's iteration order. */
  lemma ExampleKeyOrder()
    ensures SortedKeys({Event1, Event2}) == [Event1, Event2]
  {
    assert Event1 == "event " + "1" && Event2 == "event " + "2";
    LexLeSharedPrefix("event ", "1", "2");
    SortedKeysPair(Event1, Event2);
  }

  /** The loop with item k's guard appended at deadline + t. */
  function GuardAtBack(s: LoopState, k: string, t: int): LoopState
    requires k in s.dones
  {
    var item := s.dones[k].(deadline := s.dones[k].deadline + t, schedItem := At(s.nextId));
    s.(queue := s.queue + [Entry(item.deadline, s.nextId, Guard(k))],
       nextId := s.nextId + 1,
       dones := s.dones[k := item])
  }

  /** Two loop states with the same fields are the same state. */
  lemma SameFields(a: LoopState, b: LoopState)
    requires a.now == b.now && a.lastOrderTs == b.lastOrderTs
    requires a.lastOrderedDoneNo == b.lastOrderedDoneNo && a.nextEventTs == b.nextEventTs
    requires a.jitterPct == b.jitterPct && a.queue == b.queue && a.nextId == b.nextId
    requires a.dones == b.dones && a.defaultDoneTimeout == b.defaultDoneTimeout
    requires a.hasDefaultDone == b.hasDefaultDone && a.complete == b.complete
    requires a.errorTag == b.errorTag && a.errorMsg == b.errorMsg
    ensures a == b
  {
  }

  /** Two maps with the same keys and the same value at each key are equal. */
  lemma SameMap(a: map<string, DoneItem>, b: map<string, DoneItem>)
    requires a.Keys == b.Keys
    requires forall j :: j in a ==> a[j] == b[j]
    ensures a == b
  {
  }

  /** The guard's item and every other field but the queue and the wakeup
      time, as arming leaves them. */
  lemma ArmOneFields(s: LoopState, k: string, t: int)
    requires Valid(s) && k in s.dones
    ensures ArmOne(s, k, t).dones == GuardAtBack(s, k, t).dones
    ensures var r := ArmOne(s, k, t);
      r.nextId == s.nextId + 1 &&
      r.lastOrderTs == s.lastOrderTs && r.lastOrderedDoneNo == s.lastOrderedDoneNo &&
      r.jitterPct == s.jitterPct && r.defaultDoneTimeout == s.defaultDoneTimeout &&
      r.hasDefaultDone == s.hasDefaultDone && r.errorTag == s.errorTag && r.errorMsg == s.errorMsg
  {
    ArmOneItem(s, k, t);
    SameMap(ArmOne(s, k, t).dones, GuardAtBack(s, k, t).dones);
  }

  /** With no later entry queued, the guard lands at the back and the wakeup
      time stays. */
  lemma ArmOneQueue(s: LoopState, k: string, t: int)
    requires Valid(s) && k in s.dones
    requires forall x :: x in s.queue ==> x.ts <= s.dones[k].deadline + t
    requires s.nextEventTs <= s.dones[k].deadline + t
    ensures ArmOne(s, k, t).queue == s.queue + [Entry(s.dones[k].deadline + t, s.nextId, Guard(k))]
    ensures ArmOne(s, k, t).nextEventTs == s.nextEventTs
  {
    ArmOneInserts(s, k, t);
    InsertAtBack(s.queue, Entry(s.dones[k].deadline + t, s.nextId, Guard(k)));
  }

  /** Arming an item whose deadline is no earlier than anything queued puts
      its guard at the back. */
  lemma ArmOneAtBack(s: LoopState, k: string, t: int)
    requires Valid(s) && k in s.dones
    requires forall x :: x in s.queue ==> x.ts <= s.dones[k].deadline + t
    requires s.nextEventTs <= s.dones[k].deadline + t
    ensures ArmOne(s, k, t) == GuardAtBack(s, k, t)
  {
    ArmOneFields(s, k, t);
    ArmOneQueue(s, k, t);
    SameFields(ArmOne(s, k, t), GuardAtBack(s, k, t));
  }

  /** Arming "event 1" puts its guard behind the queued body. */
  lemma ExampleArmFirst(clock: int, d: Draws)
    requires ClockInRange(clock)
    ensures ArmOne(Queued(clock, d), Event1, clock) == HalfArmed(clock, d)
  {
    ExampleTimeline(clock, d);
    var s := Queued(clock, d);
    assert Valid(s);
    ArmOneAtBack(s, Event1, clock);
    assert s.dones[Event1 := DoneItem(CompleteNot, clock + 2000, 1, At(1))] == HalfArmed(clock, d).dones;
  }

  /** Arming "event 2" puts its guard at the back. */
  lemma ExampleArmSecond(clock: int, d: Draws)
    requires ClockInRange(clock)
    ensures ArmOne(HalfArmed(clock, d), Event2, clock) == ArmedState(clock, d)
  {
    ExampleTimeline(clock, d);
    var s := HalfArmed(clock, d);
    assert Before(s.queue[0], s.queue[1]);
    assert Valid(s);
    ArmOneAtBack(s, Event2, clock);
    assert s.dones[Event2 := DoneItem(CompleteNot, clock + 4000, 2, At(2))] == ArmedState(clock, d).dones;
  }

  /** addAllDonesToLoop arms "event 1" at clock + 2000, then "event 2" at
      clock + 4000, both behind the body. */
  lemma ExampleArmed(clock: int, d: Draws)
    requires ClockInRange(clock)
    ensures AddAllDonesToLoop(Queued(clock, d)) == ArmedState(clock, d)
  {
    var s := Queued(clock, d);
    assert s.dones.Keys == {Event1, Event2};
    ExampleKeyOrder();
    ExampleArmFirst(clock, d);
    ExampleArmSecond(clock, d);
    assert ArmKeys(s, [Event1, Event2], clock) == ArmKeys(HalfArmed(clock, d), [Event2], clock);
    assert ArmKeys(HalfArmed(clock, d), [Event2], clock) == ArmKeys(ArmedState(clock, d), [], clock);
  }

  /** The body is the head of the armed queue; popping it moves the clock
      to its fire time. */
  lemma ExamplePopBody(clock: int, d: Draws)
    requires ClockInRange(clock)
    ensures PopHead(ArmedState(clock, d)) == BodyPopped(clock, d)
  {
    ExampleTimeline(clock, d);
    var s := ArmedState(clock, d);
    assert s.queue[1..] == [Guard1(clock), Guard2(clock)];
  }

  /** schedCall(outer) from the body: 100 ms from the body's fire time at
      the new 40%, ahead of both guards; the wakeup time stays at T0. */
  lemma ExampleSchedOuter(clock: int, d: Draws)
    requires ClockInRange(clock)
    ensures SchedCall(BodyPopped(clock, d).(jitterPct := 40), Outer(d), 100, -1, d.r1) == (AfterBody(clock, d), Ok)
  {
    Window100At40();
    ExampleTimeline(clock, d);
    var s := BodyPopped(clock, d).(jitterPct := 40);
    assert EffectivePct(s, -1) == 40 && Abs(100) == 100 && NominalTs(s, 100) == T0(clock, d) + 100;
    var e := OuterEntry(clock, d);
    assert InsertSorted([Guard1(clock), Guard2(clock)], e) == [e, Guard1(clock), Guard2(clock)];
    assert SchedCall(s, Outer(d), 100, -1, d.r1).0 == SchedHandler(s, Callback(Outer(d)), T1(clock, d)).0;
  }

  /** A closure of one call that returns normally ends where that call does. */
  lemma ExecBodyOne(s: LoopState, a: Step, f: LoopState)
    requires ExecStep(s, a) == (f, Ok)
    ensures ExecBody(s, [a]) == (f, Ok)
  {
    assert [a][1..] == [];
  }

  /** A closure of two calls that both return normally ends where the second
      one does. */
  lemma ExecBodyTwo(s: LoopState, a: Step, b: Step, m: LoopState, f: LoopState)
    requires ExecStep(s, a) == (m, Ok) && ExecStep(m, b) == (f, Ok)
    ensures ExecBody(s, [a, b]) == (f, Ok)
  {
    assert [a, b][1..] == [b];
    ExecBodyOne(m, b, f);
  }

  /** The first turn of run(): the body fires at T0, sets the jitter to
      40% and queues the outer closure. */
  lemma ExampleBodyTurn(clock: int, d: Draws)
    requires ClockInRange(clock)
    ensures Invoke(PopHead(ArmedState(clock, d)), Callback(Body(d))) == (AfterBody(clock, d), Ok)
  {
    ExamplePopBody(clock, d);
    ExampleSchedOuter(clock, d);
    var p := BodyPopped(clock, d);
    assert ExecStep(p, SetJitterPct(40)) == (p.(jitterPct := 40), Ok);
    ExecBodyTwo(p, SetJitterPct(40), Schedule(100, -1, d.r1, Outer(d)),
                p.(jitterPct := 40), AfterBody(clock, d));
  }

  /** The outer closure is now the head; popping it moves the clock to T1. */
  lemma ExamplePopOuter(clock: int, d: Draws)
    requires ClockInRange(clock)
    ensures PopHead(AfterBody(clock, d)) == OuterPopped(clock, d)
  {
    ExampleTimeline(clock, d);
    var s := AfterBody(clock, d);
    assert s.queue[1..] == [Guard1(clock), Guard2(clock)];
  }

  /** done("event 1"): its guard is erased, the order counter reaches 1,
      which is its rank, and it is resolved. */
  lemma ExampleDoneFirst(clock: int, d: Draws)
    requires ClockInRange(clock)
    ensures Done(OuterPopped(clock, d), Event1) == (MidOuter(clock, d), Ok)
  {
    var s := OuterPopped(clock, d);
    assert Erase([Guard1(clock), Guard2(clock)], At(1)) == [Guard2(clock)] by {
      assert [Guard1(clock), Guard2(clock)][1..] == [Guard2(clock)];
    }
    var s2 := s.(queue := [Guard2(clock)], lastOrderedDoneNo := 1);
    assert Done(s, Event1) == (Resolve(s2, Event1), Ok);
    assert s2.dones[Event1 := s2.dones[Event1].(complete := CompleteSuccess)] == MidOuter(clock, d).dones;
  }

  /** schedCall(inner) from the outer closure: 100 ms from T1 at 40%, ahead
      of the remaining guard; the wakeup time stays at T0. */
  lemma ExampleSchedInner(clock: int, d: Draws)
    requires ClockInRange(clock)
    ensures SchedCall(MidOuter(clock, d), Inner(), 100, -1, d.r2) == (AfterOuter(clock, d), Ok)
  {
    Window100At40();
    ExampleTimeline(clock, d);
    var s := MidOuter(clock, d);
    assert EffectivePct(s, -1) == 40 && Abs(100) == 100 && NominalTs(s, 100) == T1(clock, d) + 100;
    var e := InnerEntry(clock, d);
    assert InsertSorted([Guard2(clock)], e) == [e, Guard2(clock)];
    assert SchedCall(s, Inner(), 100, -1, d.r2).0 == SchedHandler(s, Callback(Inner()), T2(clock, d)).0;
  }

  /** The second turn of run(): the outer closure fires at T1, resolves
      "event 1" in order and queues the inner closure. */
  lemma ExampleOuterTurn(clock: int, d: Draws)
    requires ClockInRange(clock)
    ensures Invoke(PopHead(AfterBody(clock, d)), Callback(Outer(d))) == (AfterOuter(clock, d), Ok)
  {
    ExamplePopOuter(clock, d);
    ExampleDoneFirst(clock, d);
    ExampleSchedInner(clock, d);
    ExecBodyTwo(OuterPopped(clock, d), ResolveDone(Event1), Schedule(100, -1, d.r2, Inner()),
                MidOuter(clock, d), AfterOuter(clock, d));
  }

  /** done("event 2"): its guard is erased, the order counter reaches 2,
      which is its rank, and it is resolved. */
  lemma ExampleDoneSecond(clock: int, d: Draws)
    requires ClockInRange(clock)
    ensures Done(AfterOuter(clock, d).(now := T2(clock, d), queue := [Guard2(clock)]), Event2) ==
            (AfterInner(clock, d), Ok)
  {
    var s := AfterOuter(clock, d).(now := T2(clock, d), queue := [Guard2(clock)]);
    assert Erase([Guard2(clock)], At(2)) == [];
    var s2 := s.(queue := [], lastOrderedDoneNo := 2);
    assert Done(s, Event2) == (Resolve(s2, Event2), Ok);
    assert s2.dones[Event2 := s2.dones[Event2].(complete := CompleteSuccess)] == AfterInner(clock, d).dones;
  }

  /** The third turn of run(): the inner closure fires at T2 and resolves
      "event 2" in order, which empties the queue. */
  lemma ExampleInnerTurn(clock: int, d: Draws)
    requires ClockInRange(clock)
    ensures Invoke(PopHead(AfterOuter(clock, d)), Callback(Inner())) == (AfterInner(clock, d), Ok)
  {
    ExampleTimeline(clock, d);
    var s := AfterOuter(clock, d);
    assert s.queue[1..] == [Guard2(clock)];
    assert PopHead(s) == s.(now := T2(clock, d), queue := [Guard2(clock)]);
    ExampleDoneSecond(clock, d);
    ExecBodyOne(PopHead(s), ResolveDone(Event2), AfterInner(clock, d));
  }

  /** run() on the example: the body, the outer closure, the inner closure,
      then the empty queue ends the loop, which finishes as SUCCESS. */
  lemma ExampleRun(clock: int, d: Draws)
    requires ClockInRange(clock)
    ensures Run(Queued(clock, d)) == (AfterInner(clock, d).(complete := CompleteSuccess), Ok)
  {
    ExampleArmed(clock, d);
    RunLoopTurn(ArmedState(clock, d));
    ExampleBodyTurn(clock, d);
    RunLoopTurn(AfterBody(clock, d));
    ExampleOuterTurn(clock, d);
    RunLoopTurn(AfterOuter(clock, d));
    ExampleInnerTurn(clock, d);
    Engine.RunLoopExit(AfterInner(clock, d));
  }

  /** The whole test: the items are built from their constructor arguments,
      the loop is constructed with them, the framework queues the body with
      schedCall()'s defaults and calls run(). The loop ends in SUCCESS with
      both items resolved in rank order, the queue drained and no error
      message, at the inner closure's fire time. */
  lemma ExampleTestPasses(clock: int, d: Draws)
    requires ClockInRange(clock)
    ensures MakeItem(Spec1).Made? && MakeItem(Spec2).Made?
    ensures var c := InitWithDones([Tagged(Event1, MakeItem(Spec1).value), Tagged(Event2, MakeItem(Spec2).value)],
                                   DefaultDoneTimeout, clock);
      c.1 == Ok &&
      var sc := SchedCall(c.0, Body(d), 100, -1, d.r0);
      sc.1 == Ok &&
      var r := Run(sc.0);
      r.1 == Ok && r.0.complete == CompleteSuccess && r.0.errorMsg == "" &&
      r.0.queue == [] && r.0.lastOrderedDoneNo == 2 && r.0.now == T2(clock, d) &&
      r.0.dones.Keys == {Event1, Event2} &&
      r.0.dones[Event1].complete == CompleteSuccess && r.0.dones[Event2].complete == CompleteSuccess
  {
    ExampleItems();
    var items := [Tagged(Event1, MakeItem(Spec1).value), Tagged(Event2, MakeItem(Spec2).value)];
    assert items == [Tagged(Event1, DoneItem(CompleteNot, -1, 1, NoHandle)),
                     Tagged(Event2, DoneItem(CompleteNot, 4000, 2, NoHandle))];
    ExampleConstructed(clock);
    ExampleScheduled(clock, d);
    ExampleRun(clock, d);
    ExampleFinal(clock, d);
  }

  /** The fields of the loop run() leaves behind. */
  lemma ExampleFinal(clock: int, d: Draws)
    ensures var f := AfterInner(clock, d).(complete := CompleteSuccess);
      f.complete == CompleteSuccess && f.errorMsg == "" &&
      f.queue == [] && f.lastOrderedDoneNo == 2 && f.now == T2(clock, d) &&
      f.dones.Keys == {Event1, Event2} &&
      f.dones[Event1].complete == CompleteSuccess && f.dones[Event2].complete == CompleteSuccess
  {
  }
}
