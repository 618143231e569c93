# async-test event loop, modelled in Dafny

This project models `test::EventLoop` from `asyncTest-private.hpp`. It is the
single-threaded scheduler behind the library's asynchronous unit tests. A
test registers named *done items*, each with a timeout and an optional order
rank, and then schedules closures on the loop. `run()` then does four things:
- it arms one timeout guard per done item;
- it pops the queued calls in fire-time order;
- it stops at the first error;
- it ends in SUCCESS, ERROR or ABORTED.

Structure of the model:

- `Timing`: the fire-time arithmetic of `schedCall`, with C's truncating `/`
  and `%`. `rand()` is a parameter of type `RandValue`, in `[0, RAND_MAX]`.
- `SchedQueue`: the `std::multimap<Ts, …>` queue. It is a sequence of
  entries ordered by fire time, with ties in insertion order. Each entry
  carries the sequence number it was inserted with, and that number is the
  handle `DoneItem::schedItem` keeps. Erasing through a handle whose entry
  is gone therefore removes nothing.
- `DoneItems`: `DoneItem`, `setVal` and the item constructors.
- `Actions`: a closure given to `schedCall` is modelled as a script of the
  calls it makes on the loop (`Step`). The guard `addDoneToLoop` queues is a
  separate action, `Guard(tag)`.
- `Engine`: one function per member function, over a value `LoopState` that
  holds the object's fields. A thrown exception is an `Outcome`: `Misuse` for
  `usageError`, `setVal` and `run`, and `Raised` for `doError`. The clock
  `getTimeMs()` is the field `now`. Sleeping until the head entry is due sets
  `now` to that entry's time.
- `EventLoopClass.EventLoop`: a class with the C++ fields, whose methods
  update them in place, statement by statement as the C++ code does. Each
  method is proved to end in the state and outcome the `Engine` function of
  the same name gives. `Run` holds the `while` loop of `run()`, and
  `AddAllDonesToLoop` holds the loop over `mDones`.
- `SchedProps`, `RegistryProps`, `ResolveProps`, `GuardInvariant`,
  `RunProps` and `StaleGuard`: the properties proved of the engine.
- `CompleteCode`: `completeCodeToString`, as written and corrected (see
  Findings).
- `Scenarios`: the example test of `example.cpp`, computed end to end for
  every clock reading and every three `rand()` values. As `Test::run` in
  `include/asyncTest.hpp` does, the test body is itself a closure, queued
  100 ms out at the default 50% jitter before `run()` is called.

The iteration order of `std::map<std::string, DoneItem>` is modelled as
lexicographic order on the characters (`Strings.LexLe`). `addAllDonesToLoop`
arms items in that order (`Strings.SortedKeys`).

Two behaviours are modelled as the code has them, not as a reader might
expect:
- `doError` overwrites ABORTED with ERROR (`ResolveProps.ErrorOverridesAbort`);
  only ERROR is final.
- `addDone` before `run()` queues a guard at the still relative timeout, and
  `run()` arms the item a second time without erasing that guard
  (`StaleGuard.AddDoneBeforeRunTimesOut`).

## Model

| member | source | states |
|---|---|---|
| Timing.CRem | asyncTest-private.hpp:271 | C's `%` on a non-negative dividend lies in `[0, |b|)` and is the dividend itself when that is smaller than `|b|` |
| Timing.CDiv | asyncTest-private.hpp:270 | C's `/` truncates toward zero: quotient times divisor plus C's remainder gives back the dividend, and on non-negative operands it is ordinary division |
| Timing.TruncatedDivision | asyncTest-private.hpp:270-271 | the truncated quotient and the remainder that keeps the dividend's sign recombine into the dividend for every sign of dividend and divisor |
| Timing.FireTime | asyncTest-private.hpp:268-272 | with percentage 0 the fire time is exactly the nominal time; otherwise its offset from `base - j` lies in `[0, 2|j|)` for the window `j = after*pct/100` (C division), that is `[base - j, base + j)` when `j` is positive |
| Timing.FireTimeJittered | asyncTest-private.hpp:277-282 | every fire time schedCall computes is within its jitter window, and for a non-negative delay and a percentage in `[0, 100]` never earlier than `base - after` |
| Timing.JitterWindowWithinDelay | asyncTest-private.hpp:280 | for a percentage in `(0, 100]` the window `j` lies between 0 and the delay |
| Timing.FireTimeCovers | asyncTest-private.hpp:281 | every time in `[base - j, base + j)` is the fire time for some value rand() can return |
| Strings.LexLeTotal | asyncTest-private.hpp:151-152 | any two keys are ordered one way or the other in the map's order |
| Strings.LexLeAntisymmetric | asyncTest-private.hpp:151-152 | two keys ordered both ways are the same key |
| Strings.LexLeTransitive | asyncTest-private.hpp:151-152 | the map's key order is transitive |
| Strings.LeastExists | asyncTest-private.hpp:303 | every non-empty key set has a first key in iteration order |
| Strings.SortedKeys | asyncTest-private.hpp:303-307 | the iteration order lists each key exactly once and starts with the least key |
| Strings.IntToDecimal | asyncTest-private.hpp:364-366 | std::to_string: a non-empty string that starts with '-' exactly for negative numbers |
| Strings.NatToDecimalValue | asyncTest-private.hpp:364-366 | the digits std::to_string writes for a non-negative number read back as that number, with no leading zero |
| Strings.IntToDecimalValue | asyncTest-private.hpp:364-366 | reading back the decimal text of any integer, sign included, gives that integer |
| Strings.IntToDecimalInjective | asyncTest-private.hpp:364-366 | two different order ranks never print as the same text in the out-of-order message |
| SchedQueue.InsertSorted | asyncTest-private.hpp:289-290 | emplace adds exactly the new entry: one more entry, the old multiset plus the new one |
| SchedQueue.InsertSortedPosition | asyncTest-private.hpp:100 | the new entry goes right after every entry whose time is not later than its own, and before the rest |
| SchedQueue.UpperBoundSplits | asyncTest-private.hpp:100 | in a sorted queue every entry after that position fires strictly later |
| SchedQueue.InsertSortedKeepsOrder | asyncTest-private.hpp:100 | inserting keeps the queue ordered by time, with equal times in insertion order |
| SchedQueue.InsertSortedThenErase | asyncTest-private.hpp:289-290 | every other entry stays, in order: erasing the new entry's handle gives back the old queue |
| SchedQueue.InsertAtBack | asyncTest-private.hpp:100 | an entry no earlier than everything queued goes to the back |
| SchedQueue.Erase | asyncTest-private.hpp:360 | erase through a handle removes exactly the entries with that sequence number and keeps the order; a stale or empty handle removes nothing |
| SchedQueue.HeadIsEarliest | asyncTest-private.hpp:321 | the head of the queue is an entry with the earliest fire time |
| DoneItems.SetVal | asyncTest-private.hpp:125-133 | "timeout" and "tmo" set the deadline and "order" sets the rank; any other name is rejected with the message naming it and the tag |
| DoneItems.ApplyPropsAccepts | asyncTest-private.hpp:112-120 | an item is built exactly when every property name is recognised, and building it never touches its completion code or guard |
| DoneItems.ApplyPropsValues | asyncTest-private.hpp:113-120 | the last timeout and the last order given win; with none the defaults stay |
| DoneItems.MakeItem | asyncTest-private.hpp:112-120 | a DoneItem constructor succeeds exactly when every property name is recognised, and then builds a NOT_COMPLETE item with no guard, the last timeout given (or -1) and the last order given (or 0) |
| Engine.Defaulted | asyncTest-private.hpp:196-197 | a negative deadline becomes the loop's default timeout, and nothing else changes |
| Engine.DoError | asyncTest-private.hpp:379-407 | doError always leaves the loop in ERROR and changes neither the queue, the clock, the key set nor any item other than the tagged one |
| Engine.UsageError | asyncTest-private.hpp:250-255 | usageError stores its message in errorMsg, changes nothing else and throws with that message |
| Engine.Abort | asyncTest-private.hpp:244-249 | abort() makes a running loop ABORTED, leaves a finished one as it was and changes no other field |
| Engine.Finish | asyncTest-private.hpp:344-345 | after the loop, a run that ended normally with nothing resolved yet becomes SUCCESS; any other completion code and any thrown outcome pass through unchanged |
| Engine.Error | asyncTest-private.hpp:408-411 | error(msg) leaves the loop in ERROR without touching the queue |
| Engine.ErrorTagged | asyncTest-private.hpp:412-417 | error(tag, msg) never undoes ERROR, never returns a completed loop to NOT_COMPLETE, and never makes SUCCESS |
| Engine.Done | asyncTest-private.hpp:347-373 | done(tag) keeps the queue ordered, never grows it, keeps the clock and the tags, changes no other item, never leaves ERROR, never returns to NOT_COMPLETE and never makes the loop SUCCESS |
| Engine.TimeoutGuard | asyncTest-private.hpp:209-232 | the guard never touches the queue or the clock and never makes SUCCESS |
| Engine.ExecStep | asyncTest-private.hpp:338-340 | one call made by a closure keeps the queue ordered, keeps the clock, and never makes SUCCESS or undoes ERROR |
| Engine.ExecBody | asyncTest-private.hpp:338-340 | the same holds for a whole closure, with the queue growing by at most the closure's size |
| Engine.Invoke | asyncTest-private.hpp:338-340 | invoking a dequeued entry keeps the queue ordered and grows it by less than the entry's weight, so the loop terminates |
| Engine.PopHead | asyncTest-private.hpp:321-339 | the clock never goes back and reaches the head's time; the queue loses exactly the head's weight and stays ordered |
| Engine.RunLoop | asyncTest-private.hpp:318-343 | the while loop terminates, keeps the queue ordered, never turns the clock back, and never undoes ERROR |
| Engine.ArmKeysLeast | asyncTest-private.hpp:303-307 | arming in key order starts with the least key |
| Engine.Empty | asyncTest-private.hpp:136-154 | the member initialisers give a well-formed loop: its (empty) queue is ordered and every sequence number is below the next one |
| Engine.InitDefault | asyncTest-private.hpp:177-182 | EventLoop(timeout) yields a well-formed loop |
| Engine.AddDoneToMap | asyncTest-private.hpp:192-205 | registering touches neither the queue, the sequence numbers nor the clock, and never drops a tag |
| Engine.AddAllToMap | asyncTest-private.hpp:187-190 | registering a list touches neither the queue, the sequence numbers nor the clock |
| Engine.InitWithDones | asyncTest-private.hpp:183-191 | EventLoop(doneItems) yields a well-formed loop whatever the outcome |
| Engine.SchedHandler | asyncTest-private.hpp:286-294 | returns the next sequence number as handle, keeps the queue well-formed, adds exactly the action's weight and leaves clock, items and completion alone |
| Engine.AddDoneToLoop | asyncTest-private.hpp:206-233 | queues one guard (weight 1), keeps the loop well-formed and leaves the clock, the tags and the completion state alone |
| Engine.AddDone | asyncTest-private.hpp:238-241 | queues at most one guard and keeps the loop well-formed, the clock and the completion state |
| Engine.SchedCall | asyncTest-private.hpp:256-285 | queues at most one entry carrying the closure, keeps the loop well-formed and leaves clock, items and completion alone |
| Engine.ArmOne | asyncTest-private.hpp:305-306 | arming one item keeps the loop well-formed, the clock, the tags and the completion state |
| Engine.ArmKeys | asyncTest-private.hpp:303-307 | arming a list of keys keeps the loop well-formed, the clock, the tags and the completion state |
| Engine.AddAllDonesToLoop | asyncTest-private.hpp:300-308 | arming every item keeps the loop well-formed, the clock, the tags and the completion state |
| Engine.Run | asyncTest-private.hpp:310-346 | run() always leaves a well-formed loop |
| Engine.RunLoopTurn | asyncTest-private.hpp:318-343 | while the queue is non-empty and the loop not complete, the loop pops the head, invokes it, and stops on a throw or a recorded message |
| Engine.RunLoopExit | asyncTest-private.hpp:318 | with the queue empty or the loop complete, the loop returns at once and changes nothing |
| SchedProps.SchedHandlerAddsOne | asyncTest-private.hpp:286-299 | schedHandler inserts exactly one entry with the next sequence number and keeps the queue sorted; erasing it gives back the old queue; mNextEventTs becomes the minimum; nothing else changes |
| SchedProps.SchedCallFromNow | asyncTest-private.hpp:257-261 | a non-negative delay is counted from now, with the loop's jitterPct when the argument is negative; the call is queued at a jittered time exactly when `rand() % (2*j)` is defined |
| SchedProps.SchedCallOrdered | asyncTest-private.hpp:262-274 | a negative delay is counted from the previous ordered fire time, or from now when there was none; mLastOrderTs becomes the new fire time |
| SchedProps.OrderedAnchorAdvances | asyncTest-private.hpp:262-274 | with a percentage in `[0, 100]` an ordered call never moves mLastOrderTs back |
| SchedProps.OrderedWithoutJitter | asyncTest-private.hpp:262-274 | without jitter an ordered call fires exactly `-after` after its anchor |
| SchedProps.OrderedCallsChain | asyncTest-private.hpp:262-274 | two ordered calls fire at `anchor + d1` and `anchor + d1 + d2`: each is anchored on the previous one |
| RegistryProps.AddDoneToMapRegisters | asyncTest-private.hpp:192-205 | a new tag is inserted with its deadline defaulted; a duplicate is a usage error that leaves the registry as it was; "_default" sets mHasDefaultDone |
| RegistryProps.InitDefaultRegistersDefault | asyncTest-private.hpp:177-182 | EventLoop(timeout) registers "_default" alone, with the loop's timeout, and queues nothing |
| RegistryProps.TagSet | asyncTest-private.hpp:187-190 | the tags of a list of items are exactly the tags the list holds |
| RegistryProps.AddAllToMapAccepts | asyncTest-private.hpp:183-191 | registering a list succeeds exactly when every tag is new and differs from the ones before it |
| RegistryProps.AddAllToMapContents | asyncTest-private.hpp:183-191 | a successful registration adds exactly the listed tags and keeps the existing items |
| RegistryProps.AddAllToMapValues | asyncTest-private.hpp:183-191 | every listed item is registered with its deadline defaulted |
| RegistryProps.InitWithDonesRegisters | asyncTest-private.hpp:183-191 | EventLoop(doneItems) succeeds exactly for distinct tags and then registers exactly those items, with "_default" only if it was listed |
| RegistryProps.AddDoneToLoopQueuesGuard | asyncTest-private.hpp:206-233 | addDoneToLoop queues one guard at the item's deadline as it stands and removes nothing; erasing it gives back the old queue |
| RegistryProps.AddDoneToLoopKeepsHandle | asyncTest-private.hpp:208-209 | the item keeps the handle of its new guard; no other item, the completion state or the message changes |
| RegistryProps.AddDoneQueuesGuard | asyncTest-private.hpp:238-241 | addDone registers the item and at once queues its guard at the defaulted relative deadline; a duplicate tag queues nothing |
| ResolveProps.DoErrorFirstWins | asyncTest-private.hpp:381-382 | once in ERROR, any later doError changes nothing and throws nothing |
| ResolveProps.DoErrorTagged | asyncTest-private.hpp:384-398 | a tagged error records the tag and `done('tag'): msg`, marks that item ERROR, and throws unless noThrow |
| ResolveProps.DoErrorUnknownTag | asyncTest-private.hpp:387-389 | an unknown tag is a usage error after the loop has entered ERROR; no item changes |
| ResolveProps.ErrorUsesDefault | asyncTest-private.hpp:408-411 | outside ERROR, error(msg) is an error against "_default" and throws |
| ResolveProps.ErrorEmptyTag | asyncTest-private.hpp:412-417 | error("", msg) is a usage error that changes only the message |
| ResolveProps.AbortOnlyFromNot | asyncTest-private.hpp:244-249 | abort changes only NOT_COMPLETE, to ABORTED, and is idempotent |
| ResolveProps.ErrorOverridesAbort | asyncTest-private.hpp:381-384 | an error after abort still moves the loop to ERROR |
| ResolveProps.DoneUnknownTag | asyncTest-private.hpp:349-354 | done() with an unknown tag is a usage error that changes no item, the queue or the completion state |
| ResolveProps.DoneTwice | asyncTest-private.hpp:355-359 | resolving twice is a non-throwing error that marks the item ERROR with the "already resolved" message |
| ResolveProps.DoneUnordered | asyncTest-private.hpp:360-370 | an item without rank has its guard erased and becomes SUCCESS; the order counter stays |
| ResolveProps.DoneOrderedInTurn | asyncTest-private.hpp:360-370 | a ranked item whose rank is the next counter value has its guard erased, advances the counter and becomes SUCCESS |
| ResolveProps.DoneOrderedOutOfTurn | asyncTest-private.hpp:360-368 | a ranked item out of turn still advances the counter, is not SUCCESS, and records the message naming the expected and actual rank |
| ResolveProps.DoneAllOthers | asyncTest-private.hpp:347-373 | resolving a list of items leaves every other item as it was |
| ResolveProps.DoneInRankOrder | asyncTest-private.hpp:361-370 | resolving items in rank order makes each of them SUCCESS and advances the counter by their number |
| ResolveProps.TimeoutGuardFires | asyncTest-private.hpp:226-231 | a guard does nothing once its item is complete; otherwise it records a non-throwing "Timeout" error for the item, which stops the loop |
| GuardInvariant.EraseKeepsOtherGuard | asyncTest-private.hpp:360 | erasing one item's guard leaves every other item's guard queued |
| GuardInvariant.InsertKeepsGuard | asyncTest-private.hpp:289-290 | inserting an entry with a fresh sequence number keeps every guard |
| GuardInvariant.PopKeepsGuard | asyncTest-private.hpp:338-339 | popping an entry that is not an item's guard keeps that guard |
| GuardInvariant.SchedHandlerKeepsArmed | asyncTest-private.hpp:286-294 | scheduling keeps every pending item guarded |
| GuardInvariant.SchedCallKeepsInv | asyncTest-private.hpp:256-285 | schedCall keeps the invariant: a message implies ERROR, and outside ERROR every pending item is guarded and none has failed |
| GuardInvariant.AddDoneToLoopArms | asyncTest-private.hpp:206-233 | when every other pending item is guarded, addDoneToLoop leaves every pending item guarded, this one through its new handle |
| GuardInvariant.AddDoneKeepsInv | asyncTest-private.hpp:238-241 | addDone of a fresh item keeps the invariant |
| GuardInvariant.DoneKeepsInv | asyncTest-private.hpp:347-373 | done() keeps the invariant |
| GuardInvariant.ExecStepKeepsInv | asyncTest-private.hpp:338-340 | every call a closure makes keeps the invariant |
| GuardInvariant.ExecBodyKeepsInv | asyncTest-private.hpp:338-340 | a whole closure keeps the invariant |
| GuardInvariant.TurnKeepsInv | asyncTest-private.hpp:321-340 | one turn of run()'s loop keeps the invariant |
| RunProps.ArmOneCounts | asyncTest-private.hpp:305-306 | arming one item adds one queue entry and takes one sequence number; the completion state and message stay |
| RunProps.ArmOneItem | asyncTest-private.hpp:305-306 | arming shifts the item's deadline by now and stores the new guard's handle; other items stay |
| RunProps.ArmOneQueuesGuard | asyncTest-private.hpp:305-306 | arming queues the guard at the absolute deadline and removes nothing |
| RunProps.ArmOneInserts | asyncTest-private.hpp:305-306 | the guard is inserted at the absolute deadline, and mNextEventTs is lowered to it if it is earlier |
| RunProps.ArmKeysFrame | asyncTest-private.hpp:303-307 | arming a list of items removes nothing, leaves other items alone and takes one sequence number per item |
| RunProps.ArmOneGuards | asyncTest-private.hpp:305-306 | the armed item becomes guarded and every guarded item stays guarded |
| RunProps.ArmSetGuards | asyncTest-private.hpp:303-307 | after arming every pending item is guarded |
| RunProps.ArmSetDeadlines | asyncTest-private.hpp:305 | arming shifts each armed item's deadline by now exactly once |
| RunProps.ArmSetItems | asyncTest-private.hpp:303-307 | arming gives each item a handle and leaves completion codes and ranks alone |
| RunProps.AddAllDonesToLoopArms | asyncTest-private.hpp:300-308 | addAllDonesToLoop makes every deadline `now + deadline`, queues one guard per item, removes nothing and leaves every item guarded, its guard queued at its new deadline under the handle the item keeps |
| RunProps.ArmOneGuardAt | asyncTest-private.hpp:305-306 | arming one item queues its guard at the item's new deadline, under the handle the item keeps |
| RunProps.ArmKeysKeepsGuard | asyncTest-private.hpp:303-307 | arming other items leaves an armed item and its queued guard in place |
| RunProps.ArmSetQueuesGuards | asyncTest-private.hpp:303-307 | arming a set of keys in iteration order leaves each of them with its guard queued at its deadline |
| RunProps.RunLoopReturnsWhen | asyncTest-private.hpp:318-343 | the loop returns normally only with the queue empty, the loop completed or a message recorded |
| RunProps.RunLoopKeepsInv | asyncTest-private.hpp:318-343 | the whole loop keeps the invariant |
| RunProps.RunVerdict | asyncTest-private.hpp:310-346 | a run that returns normally has completed, and it is SUCCESS only with the queue drained and every item resolved SUCCESS |
| RunProps.RunEmptyQueue | asyncTest-private.hpp:315-316 | run() on an empty queue throws before arming anything |
| RunProps.RunAfterAbort | asyncTest-private.hpp:317-318 | an aborted loop is armed but runs no entry and stays ABORTED |
| RunProps.PopHeadTakesEarliest | asyncTest-private.hpp:321-339 | the entry taken is one with the earliest time, and the clock is then at least that time |
| StaleGuard.InsertKeepsHead | asyncTest-private.hpp:100 | inserting at or after the head's time keeps the head |
| StaleGuard.ArmOneKeepsHead | asyncTest-private.hpp:305-306 | arming an item whose absolute deadline is not before the head keeps the head |
| StaleGuard.ArmSetKeepsHead | asyncTest-private.hpp:303-307 | arming keeps the head when no absolute deadline is earlier than it |
| StaleGuard.AddDoneToLoopInserts | asyncTest-private.hpp:209-232 | addDoneToLoop inserts the guard at the deadline as it stands |
| StaleGuard.AddDoneGuardAtHead | asyncTest-private.hpp:238-241 | addDone before run() puts the guard at the relative timeout, at the head when that is earlier than everything queued |
| StaleGuard.RunFiresHeadGuard | asyncTest-private.hpp:317-342 | when arming leaves a pending item's guard at the head, run() fires it first and ends in ERROR with the item's "Timeout" |
| StaleGuard.AddDoneBeforeRunTimesOut | asyncTest-private.hpp:232 | an item added before run() times out as soon as the loop starts, at the relative timeout read as a time, although its re-armed guard is at now + timeout |
| CompleteCode.CompleteCodeToStringAsWritten | asyncTest-private.hpp:419-430 | as written, a lookup that passes the bound check but is not a name reads at or past the end of the table |
| CompleteCode.AbortedReadsPastEnd | asyncTest-private.hpp:427-429 | ASYNC_COMPLETE_ABORTED (3) passes the check and is looked up past the 3-entry table |
| CompleteCode.CompleteCodeToString | asyncTest-private.hpp:419-430 | corrected: a name exactly for the codes 0 to 2; every other code is rejected with "Invalid code value N" |
| CompleteCode.CodeOf | asyncTest-private.hpp:421-426 | the inverse lookup returns -1 or a code the table has |
| CompleteCode.NameRoundTrip | asyncTest-private.hpp:421-426 | a code's name gives back the code, and each name in the table is the name of its own code |
| CompleteCode.LoopCodesNamed | asyncTest-private.hpp:421-429 | NOT, SUCCESS and ERROR have their names; ABORTED is rejected with "Invalid code value 3" |
| CompleteCode.CorrectedAgreesElsewhere | asyncTest-private.hpp:427-429 | the as-written lookup reads past the table only for code 3, and agrees with the corrected one everywhere else |
| Scenarios.ExampleItems | example.cpp:13 | the constructor arguments of the example build "event 1" (order 1) and "event 2" (timeout 4000, order 2) |
| Scenarios.ExampleConstructed | example.cpp:12-13 | the loop registers both items, "event 1" with the default 2000 ms timeout |
| Scenarios.Window100At50 | include/asyncTest.hpp:330-333 | the jitter window of the framework's 100 ms delay at the default 50% is 50 ms and the random draw is defined |
| Scenarios.FireTime100At50 | include/asyncTest.hpp:330-333 | a 100 ms delay at 50% fires within 50 ms of its nominal time |
| Scenarios.Window100At40 | example.cpp:15-16 | the jitter window of a 100 ms delay at 40% is 40 ms and the random draw is defined |
| Scenarios.FireTime100At40 | example.cpp:15-16 | a 100 ms delay at 40% fires within 40 ms of its nominal time |
| Scenarios.ExampleTimeline | example.cpp:15-22 | the body fires 50 to 150 ms after it is queued, each closure 60 to 140 ms after the one that queued it |
| Scenarios.ExampleScheduled | include/asyncTest.hpp:330-333 | Test::run queues the test body as a closure, 100 ms out at the default 50% jitter |
| Scenarios.ExampleKeyOrder | example.cpp:13 | "event 1" is armed before "event 2" |
| Scenarios.ExampleArmFirst | example.cpp:13 | arming "event 1" queues its guard behind the queued body |
| Scenarios.ExampleArmSecond | example.cpp:13 | arming "event 2" queues its guard at the back |
| Scenarios.ExampleArmed | include/asyncTest.hpp:330-334 | run() arms "event 1" at now + 2000 and then "event 2" at now + 4000, both behind the body |
| Scenarios.ExamplePopBody | include/asyncTest.hpp:330-333 | the body is popped first and the clock moves to its fire time |
| Scenarios.ExampleSchedOuter | example.cpp:15-16 | after jitterPct = 40 the body queues the outer closure 100 ms later, within 40 ms, ahead of both guards |
| Scenarios.ExampleBodyTurn | example.cpp:14-24 | the body sets the jitter to 40% and queues the outer closure |
| Scenarios.ExamplePopOuter | example.cpp:16 | the outer closure is popped next and the clock moves to its fire time |
| Scenarios.ExampleDoneFirst | example.cpp:18 | done("event 1") erases its guard, advances the counter to 1 and resolves it |
| Scenarios.ExampleSchedInner | example.cpp:19 | the inner closure is queued 100 ms later, within 40 ms, ahead of the remaining guard |
| Scenarios.ExampleOuterTurn | example.cpp:16-23 | the outer closure resolves "event 1" in order and queues the inner closure ahead of the remaining guard |
| Scenarios.ExampleDoneSecond | example.cpp:21 | done("event 2") erases its guard, advances the counter to 2 and resolves it |
| Scenarios.ExampleInnerTurn | example.cpp:19-22 | the inner closure resolves "event 2" in order and empties the queue |
| Scenarios.ExampleRun | include/asyncTest.hpp:334 | run() takes the three turns (body, outer, inner) and then finishes in SUCCESS |
| Scenarios.ExampleFinal | example.cpp:12-24 | the final loop is SUCCESS, with no message, an empty queue, counter 2 and both items SUCCESS |
| Scenarios.ExampleTestPasses | example.cpp:12-24 | for every clock reading and every three rand() values the test ends in SUCCESS at the inner closure's fire time: both items resolved, the counter at 2, the queue empty and no error message |
| EventLoopClass.EventLoop.Blank | asyncTest-private.hpp:136-154 | the member initialisers give the empty loop |
| EventLoopClass.EventLoop.constructor | asyncTest-private.hpp:177-182 | EventLoop(timeout) is in the state Engine.InitDefault gives |
| EventLoopClass.EventLoop.WithDones | asyncTest-private.hpp:183-191 | the loop over the items ends in the state and outcome Engine.InitWithDones gives |
| EventLoopClass.EventLoop.UsageError | asyncTest-private.hpp:250-254 | records the message and throws |
| EventLoopClass.EventLoop.AddDoneToMap | asyncTest-private.hpp:192-205 | the in-place update ends as Engine.AddDoneToMap says |
| EventLoopClass.EventLoop.SetWakeupTs | asyncTest-private.hpp:295-299 | sets mNextEventTs and nothing else |
| EventLoopClass.EventLoop.SchedHandler | asyncTest-private.hpp:286-294 | the in-place insert ends as Engine.SchedHandler says and returns the new handle |
| EventLoopClass.EventLoop.AddDoneToLoop | asyncTest-private.hpp:206-233 | ends as Engine.AddDoneToLoop says |
| EventLoopClass.EventLoop.AddDone | asyncTest-private.hpp:238-241 | ends as Engine.AddDone says |
| EventLoopClass.EventLoop.Abort | asyncTest-private.hpp:244-249 | ends as Engine.Abort says |
| EventLoopClass.EventLoop.SchedCall | asyncTest-private.hpp:256-285 | the statement-by-statement update ends as Engine.SchedCall says |
| EventLoopClass.EventLoop.DoError | asyncTest-private.hpp:379-407 | ends as Engine.DoError says, with its outcome |
| EventLoopClass.EventLoop.Error | asyncTest-private.hpp:408-411 | ends as Engine.Error says |
| EventLoopClass.EventLoop.ErrorTagged | asyncTest-private.hpp:412-417 | ends as Engine.ErrorTagged says |
| EventLoopClass.EventLoop.Done | asyncTest-private.hpp:347-373 | the pre-increment of the counter and the erase happen in place and end as Engine.Done says |
| EventLoopClass.EventLoop.DoneDefault | asyncTest-private.hpp:375-378 | done() is done("_default") |
| EventLoopClass.EventLoop.TimeoutGuard | asyncTest-private.hpp:209-232 | the guard closure ends as Engine.TimeoutGuard says |
| EventLoopClass.EventLoop.ExecStep | asyncTest-private.hpp:340 | one call a closure makes ends as Engine.ExecStep says |
| EventLoopClass.EventLoop.Invoke | asyncTest-private.hpp:340 | invoking a dequeued entry ends as Engine.Invoke says |
| EventLoopClass.EventLoop.ExecBody | asyncTest-private.hpp:340 | running a closure's calls one by one ends as Engine.ExecBody says |
| EventLoopClass.EventLoop.ArmItem | asyncTest-private.hpp:305-306 | one iteration of the arming loop ends as Engine.ArmOne says |
| EventLoopClass.EventLoop.AddAllDonesToLoop | asyncTest-private.hpp:300-308 | the loop over the map in key order ends as Engine.AddAllDonesToLoop says |
| EventLoopClass.EventLoop.RunNext | asyncTest-private.hpp:321-340 | sleeping to the head's time, erasing it and invoking it ends as Engine.PopHead then Engine.Invoke say |
| EventLoopClass.EventLoop.Run | asyncTest-private.hpp:310-346 | the while loop of run() ends in the state and outcome Engine.Run gives |

## Left out

- The mutex and `MutexUnlocker` (asyncTest-private.hpp:159, 186, 325) are not modelled: the loop is single-threaded.
- Real time is the field `now`. Sleeping moves it exactly to the head entry's time, so the early-wakeup retry (asyncTest-private.hpp:333-337) never happens.
- Logging and the debugger-offset warning inside the guard change no state and are left out.
- Engine.DoError: `errorMsg` is modelled with empty `kColorTag`/`kColorNormal` strings. On a terminal, `run()` first calls `initColors()` (asyncTest-private.hpp:313) and `doError` then puts those colour codes around the tag in the message (asyncTest-private.hpp:391-393); `isatty` is not modelled.
- `rand()` is a parameter. Each `Schedule` step carries the value its call returns.
- C++ closures are replaced by scripts of loop calls (`Step`), so a closure that does anything else is not modelled.
- Engine.SchedCall: `after*pct` and the fire times are unbounded integers; 32-bit `int` overflow of the product is not modelled.
- When `rand() % (2*j)` divides by zero, the model returns `Undefined` and stops. The C++ behaviour there is undefined.
- Engine.AddDoneToMap: the duplicate-tag message is built from the tag as given. In the C++ code it is built after the item was moved from, so the tag may print empty.
- Erasing through a handle that names no queued entry is a no-op in the model; in C++ it is undefined. A guard that fires marks its item ERROR, so a later done() takes the already-resolved branch and erases nothing (asyncTest-private.hpp:355-358). The erase reaches a missing entry in two cases. First, done() before run() erases a default-constructed iterator: the item's handle is still `NoHandle`. Second, an item tagged "" stays NOT_COMPLETE when its guard fires, because the guard's error takes the untagged branch. A later done("") then erases its popped guard.
- The unit-test framework in include/asyncTest.hpp (exception classification, reporting, counters, macros) is not part of this model.
- `done()` with tag "" reaches `doError` with an empty tag, which takes the untagged branch. It is modelled as written and not singled out.
- Scenarios.ExampleTestPasses: the scenario assumes a clock reading below the initial mNextEventTs less 10 s, as any real millisecond clock is; the other Example lemmas assume the same.
- Engine.Run and Engine.AddAllDonesToLoop are ghost functions, because the key order is chosen with `:|`. The class methods run the same loops with compiled code.

## Findings

| source | as written | input that shows it | evidently intended | confidence | as-written member | corrected member |
|---|---|---|---|---|---|---|
| asyncTest-private.hpp:427-429 | `code>(int)(sizeof(strings)/sizeof(strings[0]))` lets `code == 3` through to `strings[3]` of a 3-entry table | `completeCodeToString(ASYNC_COMPLETE_ABORTED)` (code 3) | reject every code outside `[0, 3)` with "Invalid code value N" (`>=`) | high; not executed | CompleteCode.AbortedReadsPastEnd | CompleteCode.CompleteCodeToString |
