/** `responseFormatter`: the single place that writes a JSON response, always
    in the envelope `{status, message, data}`. */
module ResponseFormatter {
  import opened Js
  import opened ErrorClasses
  import opened Express

  /** The envelope's `status`, a function of the HTTP status code alone. */
  function EnvelopeStatus(statusCode: int): (s: string)
    ensures s == "success" <==> statusCode < 400
    ensures s == "error" <==> statusCode >= 400
  {
    if statusCode < BAD_REQUEST then "success" else "error"
  }

  /** The response body `{status, message, data}`. */
  function Envelope(statusCode: int, data: Value, message: string): (v: Value)
    ensures v.Object? && v.properties.Keys == {"status", "message", "data"}
    ensures v.properties["status"] == Str(EnvelopeStatus(statusCode))
    ensures v.properties["message"] == Str(message)
    ensures v.properties["data"] == data
  {
    Object(map["status" := Str(EnvelopeStatus(statusCode)), "message" := Str(message), "data" := data])
  }

  /** `res` has been answered with the envelope for `(statusCode, data, message)`. */
  predicate Answered(res: Response, statusCode: int, data: Value, message: string)
    reads res
  {
    res.headersSent
    && res.statusCode == statusCode
    && res.body == Some(Envelope(statusCode, data, message))
    && "Content-Type" in res.headers && res.headers["Content-Type"] == "application/json"
  }

  /** `responseFormatter(res, statusCode, data, message)`. The new state depends
      on the arguments and the old headers only, so equal arguments give equal
      responses. When `data` holds a BigInt, `res.json` throws after the header
      and the status are set, nothing is sent, and the error is returned. */
  method FormatResponse(res: Response, statusCode: int, data: Value, message: string, trace: string)
    returns (thrown: Option<ErrorObject>)
    requires !res.headersSent
    modifies res
    ensures res.headers == old(res.headers)["Content-Type" := "application/json"]
    ensures res.statusCode == statusCode
    ensures Serializable(data) ==> thrown == None && Answered(res, statusCode, data, message)
    ensures !Serializable(data) ==>
              thrown.Some? && fresh(thrown.value)
              && thrown.value.value == BigIntTypeError && thrown.value.stack == Some(trace)
              && res.body == old(res.body) && !res.headersSent
  {
    res.SetHeader("Content-Type", "application/json");
    var responseBody := Envelope(statusCode, data, message);
    EnvelopeSerializable(statusCode, data, message);
    res.Status(statusCode);
    thrown := res.Json(responseBody, trace);
  }

  /** The envelope serializes exactly when its data does. */
  lemma EnvelopeSerializable(statusCode: int, data: Value, message: string)
    ensures Serializable(Envelope(statusCode, data, message)) <==> Serializable(data)
  {
    var props := Envelope(statusCode, data, message).properties;
    assert Serializable(props["status"]) && Serializable(props["message"]);
    assert props["data"] == data;
  }

  /** The envelope reports success exactly for codes below 400, whatever the
      message and data. */
  lemma EnvelopeSuccessIff(statusCode: int, data: Value, message: string)
    ensures Envelope(statusCode, data, message).properties["status"] == Str("success")
            <==> statusCode < 400
  {
  }
}
