/** `asyncWrapper`: runs a request handler and forwards its failure to `next`. */
module Async {
  import opened Js
  import opened ErrorClasses
  import opened Express

  /** How a promise settled: with a value, or with the error thrown or rejected. */
  datatype Settled = Fulfilled(value: Value) | Rejected(reason: ErrorObject)

  /** The wrapped handler, given how the awaited inner handler settled. The
      wrapper's own promise always fulfils with `undefined`. */
  method AsyncWrapper(handled: Settled, next: NextFunction) returns (result: Settled)
    modifies next
    ensures result == Fulfilled(Undefined)
    ensures next.calls == old(next.calls) + if handled.Rejected? then [handled.reason] else []
  {
    match handled {
      case Rejected(error) =>
        next.Call(error);
      case Fulfilled(_) =>
    }
    result := Fulfilled(Undefined);
  }
}
