/** What a scheduled call does. The C++ loop stores arbitrary closures; the
    model stores the engine-visible effects of a closure as a script of steps,
    and the loop's own timeout guard as a separate action. */
module Actions {
  import opened Timing

  /** A `name, value` pair given to a DoneItem constructor ("timeout", "tmo", "order"). */
  datatype Prop = Prop(name: string, val: int)

  /** The arguments of a DoneItem constructor: a tag and up to two properties. */
  datatype DoneSpec = DoneSpec(tag: string, props: seq<Prop>)

  /** One call a scheduled closure makes on the loop. */
  datatype Step =
    | ResolveDone(tag: string)                          // loop.done(tag); done() is ResolveDone("_default")
    | RaiseError(msg: string)                           // loop.error(msg)
    | RaiseTaggedError(tag: string, msg: string)        // loop.error(tag, msg)
    | AbortLoop                                         // loop.abort()
    | SetJitterPct(pct: int)                            // loop.jitterPct = pct
    | Schedule(after: int, jitterPct: int, rnd: RandValue, body: seq<Step>)
                                                        // loop.schedCall(body, after, jitterPct), rand() == rnd
    | AddDoneItem(spec: DoneSpec)                       // loop.addDone(DoneItem(spec...))

  /** The payload of a scheduled-call queue entry. */
  datatype Action =
    | Callback(body: seq<Step>)   // a closure given to schedCall
    | Guard(tag: string)          // the timeout guard addDoneToLoop installs for a done item

  /** Size of a step: bounds how many queue entries executing it can add. */
  function StepSize(s: Step): (n: nat)
    ensures n >= 1
    decreases s
  {
    match s
    case Schedule(_, _, _, body) => 2 + BodySize(body)
    case AddDoneItem(_) => 2
    case _ => 1
  }

  function BodySize(body: seq<Step>): nat
    decreases body
  {
    if body == [] then 0 else StepSize(body[0]) + BodySize(body[1..])
  }

  /** The termination measure one queue entry contributes. */
  function ActionWeight(a: Action): (n: nat)
    ensures n >= 1
  {
    match a
    case Callback(body) => 1 + BodySize(body)
    case Guard(_) => 1
  }
}
