/** EventLoop::DoneItem: a named expectation with a completion code, a
    deadline (relative until the loop runs, absolute after), an order rank
    and the handle of its timeout guard in the scheduled-call queue. */
module DoneItems {
  import opened Actions
  import opened SchedQueue

  /** The completion codes of the loop and of each item (ASYNC_COMPLETE_*). */
  const CompleteNot: int := 0
  const CompleteSuccess: int := 1
  const CompleteError: int := 2
  const CompleteAborted: int := 3

  /** TESTLOOP_DEFAULT_DONE_TIMEOUT, in milliseconds. */
  const DefaultDoneTimeout: int := 2000

  /** The tag done() and error(msg) use when none is given. */
  const DefaultTag: string := "_default"

  /** The fields of a DoneItem; its tag is the key it is stored under. */
  datatype DoneItem = DoneItem(complete: int, deadline: int, order: int, schedItem: Handle)

  /** A freshly constructed item: not complete, deadline -1 ("use the loop's
      default"), no order constraint, no guard. */
  const FreshItem: DoneItem := DoneItem(CompleteNot, -1, 0, NoHandle)

  datatype Result<T> = Made(value: T) | Rejected(msg: string)

  predicate IsTimeoutName(name: string)
  {
    name == "timeout" || name == "tmo"
  }

  /** DoneItem::setVal: "timeout"/"tmo" set the deadline, "order" the rank,
      any other name is rejected with a message naming it and the tag. */
  function SetVal(tag: string, item: DoneItem, name: string, val: int): (r: Result<DoneItem>)
    ensures r.Made? <==> IsTimeoutName(name) || name == "order"
    ensures IsTimeoutName(name) ==> r.value == item.(deadline := val)
    ensures name == "order" ==> r.value == item.(order := val)
    ensures r.Rejected? ==> r.msg == "Unknown property '" + name + "'' of done() with tag '" + tag + "'"
  {
    if IsTimeoutName(name) then Made(item.(deadline := val))
    else if name == "order" then Made(item.(order := val))
    else Rejected("Unknown property '" + name + "'' of done() with tag '" + tag + "'")
  }

  /** Apply the properties in order, as the DoneItem constructors call setVal. */
  function ApplyProps(tag: string, item: DoneItem, props: seq<Prop>): Result<DoneItem>
    decreases props
  {
    if props == [] then Made(item)
    else
      match SetVal(tag, item, props[0].name, props[0].val)
      case Rejected(msg) => Rejected(msg)
      case Made(next) => ApplyProps(tag, next, props[1..])
  }

  /** The DoneItem constructors: a fresh item with the given properties set. */
  function MakeItem(spec: DoneSpec): (r: Result<DoneItem>)
    ensures r.Made? <==> forall i :: 0 <= i < |spec.props| ==> Recognized(spec.props[i])
    ensures r.Made? ==>
      r.value == DoneItem(CompleteNot, LastTimeout(spec.props, -1), LastOrder(spec.props, 0), NoHandle)
  {
    ApplyPropsAccepts(spec.tag, FreshItem, spec.props);
    if ApplyProps(spec.tag, FreshItem, spec.props).Made? then
      ApplyPropsValues(spec.tag, FreshItem, spec.props);
      ApplyProps(spec.tag, FreshItem, spec.props)
    else
      ApplyProps(spec.tag, FreshItem, spec.props)
  }

  predicate Recognized(p: Prop)
  {
    IsTimeoutName(p.name) || p.name == "order"
  }

  /** Construction succeeds exactly when every property name is recognised,
      and it never touches the completion code or the guard handle. */
  lemma {:induction false} ApplyPropsAccepts(tag: string, item: DoneItem, props: seq<Prop>)
    ensures ApplyProps(tag, item, props).Made? <==> forall i :: 0 <= i < |props| ==> Recognized(props[i])
    ensures ApplyProps(tag, item, props).Made? ==>
      ApplyProps(tag, item, props).value.complete == item.complete &&
      ApplyProps(tag, item, props).value.schedItem == item.schedItem
    decreases props
  {
    if props != [] {
      var r := SetVal(tag, item, props[0].name, props[0].val);
      if r.Made? {
        ApplyPropsAccepts(tag, r.value, props[1..]);
        assert forall i :: 1 <= i < |props| ==> props[i] == props[1..][i - 1];
      }
    }
  }

  /** The last "timeout"/"tmo" wins; with none the deadline stays as it was. */
  function LastTimeout(props: seq<Prop>, dflt: int): int
    decreases props
  {
    if props == [] then dflt
    else LastTimeout(props[1..], if IsTimeoutName(props[0].name) then props[0].val else dflt)
  }

  /** The last "order" wins; with none the rank stays as it was. */
  function LastOrder(props: seq<Prop>, dflt: int): int
    decreases props
  {
    if props == [] then dflt
    else LastOrder(props[1..], if props[0].name == "order" then props[0].val else dflt)
  }

  lemma {:induction false} ApplyPropsValues(tag: string, item: DoneItem, props: seq<Prop>)
    requires ApplyProps(tag, item, props).Made?
    ensures ApplyProps(tag, item, props).value.deadline == LastTimeout(props, item.deadline)
    ensures ApplyProps(tag, item, props).value.order == LastOrder(props, item.order)
    decreases props
  {
    if props != [] {
      var r := SetVal(tag, item, props[0].name, props[0].val);
      ApplyPropsValues(tag, r.value, props[1..]);
    }
  }
}
