/** The parts of Express's request, response and `next` that the pipeline
    touches. */
module Express {
  import opened Js
  import opened ErrorClasses

  datatype Request = Request(url: string, httpMethod: string)

  /** The `TypeError` that `JSON.stringify` throws on a BigInt (V8's message). */
  const BigIntTypeError := Other("Do not know how to serialize a BigInt", None)

  /** The response being built for one request. `body` is the value handed to
      `res.json`, `None` while no JSON body has been sent. */
  class Response {
    var headers: map<string, string>
    var statusCode: int
    var body: Option<Value>
    var headersSent: bool

    /** A response no handler has written to yet (Node's default status is 200). */
    constructor ()
      ensures headers == map[] && statusCode == 200 && body == None && !headersSent
    {
      headers := map[];
      statusCode := 200;
      body := None;
      headersSent := false;
    }

    /** `res.setHeader(name, value)`. */
    method SetHeader(name: string, value: string)
      requires !headersSent
      modifies this
      ensures headers == old(headers)[name := value]
      ensures statusCode == old(statusCode) && body == old(body) && headersSent == old(headersSent)
    {
      headers := headers[name := value];
    }

    /** `res.status(code)`. */
    method Status(code: int)
      modifies this
      ensures statusCode == code
      ensures headers == old(headers) && body == old(body) && headersSent == old(headersSent)
    {
      statusCode := code;
    }

    /** `res.json(value)`: serializes `value` and sends it as the body, which
        also sends the headers. Serializing throws a `TypeError` for a BigInt
        before anything is sent; `trace` is the stack the runtime records for it. */
    method Json(value: Value, trace: string) returns (thrown: Option<ErrorObject>)
      requires !headersSent
      modifies this
      ensures Serializable(value) ==> thrown == None && body == Some(value) && headersSent
      ensures !Serializable(value) ==>
                thrown.Some? && fresh(thrown.value)
                && thrown.value.value == BigIntTypeError && thrown.value.stack == Some(trace)
                && body == old(body) && !headersSent
      ensures headers == old(headers) && statusCode == old(statusCode)
    {
      if Serializable(value) {
        body := Some(value);
        headersSent := true;
        thrown := None;
      } else {
        var error := new ErrorObject(BigIntTypeError, Some(trace));
        thrown := Some(error);
      }
    }
  }

  /** The `next` callback of one request: each call forwards an error to the
      next error handler. */
  class NextFunction {
    var calls: seq<ErrorObject>

    constructor ()
      ensures calls == []
    {
      calls := [];
    }

    /** `next(err)`. */
    method Call(err: ErrorObject)
      modifies this
      ensures calls == old(calls) + [err]
    {
      calls := calls + [err];
    }
  }
}
