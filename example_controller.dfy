/** The example controller: `GET /` answers with the example service's result
    or raises `ExampleCustomError`, registered through `asyncWrapper`. */
module ExampleController {
  import opened Js
  import opened ErrorClasses
  import opened Express
  import opened ResponseFormatter
  import opened Async

  const FailureMessage := "Failed to get example"
  const SuccessMessage := "Example fetched successfully"

  /** `getExample(_req, res)`, given how `example()` settled; `trace` is the
      stack the runtime records for an error the handler creates or throws. */
  method GetExample(service: Settled, res: Response, trace: string) returns (outcome: Settled)
    requires !res.headersSent
    modifies res
    ensures service.Rejected? ==> outcome == service && unchanged(res)
    ensures service.Fulfilled? && !Truthy(service.value) ==>
              outcome.Rejected? && fresh(outcome.reason)
              && outcome.reason.value == NewExampleCustomError(FailureMessage, "getExample")
              && outcome.reason.stack == Some(trace)
              && unchanged(res)
    ensures service.Fulfilled? && Truthy(service.value) && Serializable(service.value) ==>
              outcome == Fulfilled(Undefined)
              && Answered(res, 200, service.value, SuccessMessage)
              && res.headers == old(res.headers)["Content-Type" := "application/json"]
    ensures service.Fulfilled? && Truthy(service.value) && !Serializable(service.value) ==>
              outcome.Rejected? && fresh(outcome.reason)
              && outcome.reason.value == BigIntTypeError && outcome.reason.stack == Some(trace)
              && !res.headersSent && res.statusCode == 200 && res.body == old(res.body)
              && res.headers == old(res.headers)["Content-Type" := "application/json"]
  {
    match service
    case Rejected(error) =>
      outcome := Rejected(error);
    case Fulfilled(result) =>
      if !Truthy(result) {
        var error := new ErrorObject(NewExampleCustomError(FailureMessage, "getExample"), Some(trace));
        outcome := Rejected(error);
      } else {
        var thrown := FormatResponse(res, OK, result, SuccessMessage, trace);
        if thrown.Some? {
          outcome := Rejected(thrown.value);
        } else {
          outcome := Fulfilled(Undefined);
        }
      }
  }

  /** The registered route `asyncWrapper(getExample)`: the handler runs once on
      the same response, and its failure reaches `next` exactly once. */
  method ExampleRoute(service: Settled, res: Response, next: NextFunction, trace: string)
    returns (result: Settled)
    requires !res.headersSent
    modifies res, next
    ensures result == Fulfilled(Undefined)
    ensures service.Rejected? ==> next.calls == old(next.calls) + [service.reason] && unchanged(res)
    ensures service.Fulfilled? && !Truthy(service.value) ==>
              |next.calls| == |old(next.calls)| + 1 && next.calls[..|old(next.calls)|] == old(next.calls)
              && var forwarded := next.calls[|old(next.calls)|];
                 fresh(forwarded)
                 && forwarded.value == NewExampleCustomError(FailureMessage, "getExample")
                 && forwarded.value.statusCode == 400
                 && unchanged(res)
    ensures service.Fulfilled? && Truthy(service.value) && Serializable(service.value) ==>
              next.calls == old(next.calls)
              && Answered(res, 200, service.value, SuccessMessage)
              && res.headers == old(res.headers)["Content-Type" := "application/json"]
    ensures service.Fulfilled? && Truthy(service.value) && !Serializable(service.value) ==>
              |next.calls| == |old(next.calls)| + 1 && next.calls[..|old(next.calls)|] == old(next.calls)
              && var forwarded := next.calls[|old(next.calls)|];
                 fresh(forwarded) && forwarded.value == BigIntTypeError
                 && !res.headersSent && res.statusCode == 200 && res.body == old(res.body)
                 && res.headers == old(res.headers)["Content-Type" := "application/json"]
  {
    var handled := GetExample(service, res, trace);
    result := AsyncWrapper(handled, next);
  }
}
