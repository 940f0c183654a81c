/** `errorMiddleware`: logs the error, then either hands it on (the response
    has already started) or answers it with one error envelope. */
module ErrorMiddleware {
  import opened Js
  import opened ErrorClasses
  import opened Express
  import opened Logging
  import opened ResponseFormatter

  /** The status code an error is answered with: its own for an `AppError`,
      500 for anything else, whatever properties it carries. */
  function ResponseStatus(e: Failure): (code: int)
    ensures e.AppError? ==> code == e.statusCode
    ensures !e.AppError? ==> code == 500
  {
    if e.AppError? then e.statusCode else INTERNAL_SERVER_ERROR
  }

  /** The metadata object of the log call. */
  function LogContext(err: ErrorObject, req: Request): (ctx: map<string, MetaValue>)
    reads err
    ensures ctx.Keys == {"error", "stack", "url", "method"}
    ensures ctx["error"] == Ref(err) && ctx["url"] == Text(req.url) && ctx["method"] == Text(req.httpMethod)
    ensures err.stack == None <==> ctx["stack"] == Missing
    ensures err.stack.Some? ==> ctx["stack"] == Text(err.stack.value)
  {
    map["error" := Ref(err),
        "stack" := if err.stack.Some? then Text(err.stack.value) else Missing,
        "url" := Text(req.url),
        "method" := Text(req.httpMethod)]
  }

  /** What `JSON.stringify` receives for that context: no top-level `stack`
      and an error whose own `stack` is gone. */
  function SerializedContext(e: Failure, req: Request): map<string, Json>
  {
    map["error" := JError(e, None), "url" := JText(req.url), "method" := JText(req.httpMethod)]
  }

  /** The context has metadata, its nested error is `err`, and what the
      logger serializes of it is `SerializedContext`, whatever `err.stack` was. */
  lemma ContextAfterLogging(err: ErrorObject, req: Request)
    ensures var ctx := LogContext(err, req);
            "error" in Metadata(ctx) && Metadata(ctx) != map[] && NestedError(ctx) == {err}
    ensures var ctx := LogContext(err, req);
            SnapshotWithout(StripStack(Metadata(ctx)), NestedError(ctx)) == SerializedContext(err.value, req)
  {
    var ctx := LogContext(err, req);
    assert Metadata(ctx) == ctx;
    assert StripStack(ctx).Keys == {"error", "url", "method"};
  }

  /** `errorMiddleware(err, req, res, next)`, logging at `timestamp`. */
  method HandleError(err: ErrorObject, req: Request, res: Response, next: NextFunction,
                     logger: Logger, timestamp: string)
    modifies logger, err, res, next
    ensures logger.calls == old(logger.calls)
                            + [LogCall("error", "Error: " + err.value.message, old(LogContext(err, req)))]
    ensures logger.written == old(logger.written)
              + [Entry(timestamp, logger.colorize("error", "error"),
                       logger.colorize("error", "Error: " + err.value.message),
                       true, logger.stringify(SerializedContext(err.value, req)))]
    ensures err.stack == None
    ensures old(res.headersSent) ==> next.calls == old(next.calls) + [err] && unchanged(res)
    ensures !old(res.headersSent) ==>
              next.calls == old(next.calls)
              && Answered(res, ResponseStatus(err.value), Null, err.value.message)
              && res.headers == old(res.headers)["Content-Type" := "application/json"]
  {
    var context := LogContext(err, req);
    ContextAfterLogging(err, req);
    logger.Error("Error: " + err.value.message, context, timestamp);

    if res.headersSent {
      next.Call(err);
      return;
    }

    // The data is `null`, which always serializes, so no stack is recorded.
    if err.value.AppError? {
      var _ := FormatResponse(res, err.value.statusCode, Null, err.value.message, "");
      return;
    }

    var _ := FormatResponse(res, INTERNAL_SERVER_ERROR, Null, err.value.message, "");
  }

  /** The envelope of an answered error says "error" exactly when the code
      used is at least 400; for anything but an `AppError` it always does. */
  lemma ErrorEnvelopeStatus(e: Failure)
    ensures EnvelopeStatus(ResponseStatus(e)) == "error" <==> (e.AppError? ==> e.statusCode >= 400)
    ensures !e.AppError? ==> EnvelopeStatus(ResponseStatus(e)) == "error"
  {
  }

  /** An `AppError` constructed with a code below 400 is answered with a
      "success" envelope. */
  lemma LowAppErrorReportsSuccess(statusCode: int, message: string, functionName: string)
    requires statusCode < 400
    ensures var e := NewAppError(statusCode, message, functionName);
            Envelope(ResponseStatus(e), Null, e.message).properties["status"] == Str("success")
  {
  }

  /** The guard route's `{status: 404, message: "Route not found"}` is not an
      `AppError`: it is answered with 500, its message and an "error" envelope. */
  lemma GuardRouteAnsweredWith500()
    ensures ResponseStatus(GuardRouteError()) == 500
    ensures Envelope(ResponseStatus(GuardRouteError()), Null, GuardRouteError().message)
            == Object(map["status" := Str("error"), "message" := Str("Route not found"), "data" := Null])
  {
  }

  /** The example controller's error is answered with 400 and an "error" envelope. */
  lemma CustomErrorAnsweredWith400(message: string, functionName: string)
    ensures ResponseStatus(NewExampleCustomError(message, functionName)) == 400
    ensures EnvelopeStatus(ResponseStatus(NewExampleCustomError(message, functionName))) == "error"
  {
  }
}
