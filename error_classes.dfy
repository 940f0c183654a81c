/** The error taxonomy: `AppError` carries an HTTP status code, a message and
    the name of the failing operation; `ExampleCustomError` is the `AppError`
    whose code is fixed at 400. Anything else that reaches the error pipeline
    (a generic `Error`, the plain object of the not-found guard) is `Other`. */
module ErrorClasses {
  import opened Js

  const OK := 200
  const BAD_REQUEST := 400
  const INTERNAL_SERVER_ERROR := 500

  /** The fields an error value fixes when it is constructed. `name` is the
      name of the concrete class (`this.constructor.name`). `Other.status` is
      a `status` property such an object may happen to carry. */
  datatype Failure =
    | AppError(statusCode: int, message: string, functionName: string, name: string)
    | Other(message: string, status: Option<int>)

  /** The shared body of the `AppError` constructor, run on behalf of the
      concrete class `className`. */
  function Construct(className: string, statusCode: int, message: string, functionName: string): Failure
  {
    AppError(statusCode, message, functionName, className)
  }

  /** `new AppError(statusCode, message, functionName)`. */
  function NewAppError(statusCode: int, message: string, functionName: string): (e: Failure)
    ensures e.AppError?
    ensures e.statusCode == statusCode && e.message == message && e.functionName == functionName
    ensures e.name == "AppError"
  {
    Construct("AppError", statusCode, message, functionName)
  }

  /** `new ExampleCustomError(message, functionName)`: `super(BAD_REQUEST, ...)`. */
  function NewExampleCustomError(message: string, functionName: string): (e: Failure)
    ensures e.AppError?
    ensures e.statusCode == 400 && e.message == message && e.functionName == functionName
    ensures e.name == "ExampleCustomError"
  {
    Construct("ExampleCustomError", BAD_REQUEST, message, functionName)
  }

  /** The subclass is exactly an `AppError` of code 400 under its own class name. */
  lemma CustomErrorIsBadRequestAppError(message: string, functionName: string)
    ensures var base := NewAppError(400, message, functionName);
            NewExampleCustomError(message, functionName)
            == AppError(base.statusCode, base.message, base.functionName, "ExampleCustomError")
  {
  }

  /** The value the not-found guard route passes to `next`: a plain object
      `{status: 404, message: "Route not found"}`, not an `AppError`. */
  function GuardRouteError(): (e: Failure)
    ensures !e.AppError? && e.message == "Route not found" && e.status == Some(404)
  {
    Other("Route not found", Some(404))
  }

  /** An error object as the JavaScript heap holds it. Its fields are fixed
      when it is created, except `stack`, which code holding a reference to it
      can delete (`None` once deleted, or for a plain object that never had one). */
  class ErrorObject {
    const value: Failure
    var stack: Option<string>

    constructor (value: Failure, stack: Option<string>)
      ensures this.value == value && this.stack == stack
    {
      this.value := value;
      this.stack := stack;
    }
  }
}
