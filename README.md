# Express TypeScript template: request pipeline and logger

This project models the request-handling core of a TypeScript Express
starter template. It covers five pieces:

- the error taxonomy: `AppError` and `ExampleCustomError`;
- the JSON response envelope `{status, message, data}` written by
  `responseFormatter`;
- the error middleware, which logs every error and then either forwards it to
  `next` or answers it with an envelope;
- `asyncWrapper`, which forwards a handler's failure to `next`;
- the example controller, and the winston `printf` format that lays out every
  log entry, together with `logMessageFormatter`.

Modules follow the source files:

| module | file | models |
|---|---|---|
| `Js` | `js.dfy` | JavaScript values and truthiness |
| `Strings` | `strings.dfy` | `repeat`, `split`, `map` and `join`, with the laws that connect them |
| `ErrorClasses` | `error_classes.dfy` | `src/utils/errorClasses.ts`, and error objects on the heap |
| `Express` | `express.dfy` | the parts of `Request`, `Response` and `next` the code touches |
| `ResponseFormatter` | `response_formatter.dfy` | `src/utils/responseFormatter.ts` |
| `Logging` | `logger.dfy` | the format in `src/utils/logger.ts` and `logMessageFormatter` |
| `ErrorMiddleware` | `error_middleware.dfy` | `src/middleware/errorMiddleware.ts` |
| `Async` | `async_wrapper.dfy` | `src/utils/asyncWrapper.ts` |
| `ExampleController` | `example_controller.dfy` | `src/controllers/exampleController.ts` |

Error objects are a class (`ErrorClasses.ErrorObject`). Their payload is fixed
at construction, and their `stack` can be deleted. The logger copies its
metadata shallowly and deletes `error.stack` on the copy, so the caller's
error object loses its stack too. The model shows this on the shared object:
after `HandleError`, the error it was given has no stack.

`Response`, `NextFunction` and `Logger` are classes whose methods update their
fields. The middleware, the formatter, the wrapper and the controller are
methods whose `ensures` give the whole new state.

The pipeline's inputs are parameters:

- the logger's `JSON.stringify(filteredMetadata, replacer, 2)` and winston's
  `colorize` are opaque functions, stored in the `Logger`. In production the
  replacer returns every value unchanged, so it is left out of the call;
- the timestamp string is a parameter;
- the example service's outcome is a `Settled` value;
- the stack the runtime records for a new error is a `trace` parameter.

The guard route in `src/server.ts` passes a plain object
`{status: 404, message: "Route not found"}` to `next`. The server shown does
not register `errorMiddleware` and does not mount the api router. So in that
server, the object reaches Express's built-in final error handler, which
answers with its numeric `status` 404 and its own page, not an envelope. In an
application that does register the middleware, the object would be answered
with 500, because it is not an `AppError` (src/middleware/errorMiddleware.ts:28-33).
That classification is what the model proves
(`ErrorMiddleware.GuardRouteAnsweredWith500`). The model does not cover the
built-in final handler.

`res.json` serializes the body with `JSON.stringify`, which throws a `TypeError`
for a BigInt anywhere in the value (`Js.Serializable`). The model carries that
error path: the formatter then returns the error, with the Content-Type header
and the status already set and nothing sent. The example controller rejects
with it, and `asyncWrapper` forwards it to `next`.

## Model

| member | source | states |
|---|---|---|
| Js.Truthy | src/controllers/exampleController.ts:13 | every object is truthy and a string is truthy exactly when non-empty; `FalsyValues` lists the falsy values |
| Js.Serializable | src/utils/responseFormatter.ts:18 | a BigInt never serializes and every other primitive does; `UnserializableProperty` and `EnvelopeSerializable` cover objects |
| Js.UnserializableProperty | src/utils/responseFormatter.ts:18 | an object with any property that does not serialize is truthy and does not serialize itself |
| Js.TruthyButNotSerializable | src/utils/responseFormatter.ts:18 | a witness that the case can happen: a non-zero BigInt, alone or as a property of an object, is truthy and yet does not serialize |
| Js.FalsyValues | src/controllers/exampleController.ts:13 | `!result` holds exactly for the seven falsy values: undefined, null, false, 0, NaN, 0n and "" |
| Strings.Repeat | src/utils/logger.ts:31 | `c.repeat(n)` has length `n` and every character is `c` |
| Strings.Split | src/utils/logger.ts:66-67 | `split` yields at least one piece, and no piece contains the separator |
| Strings.PrefixEach | src/utils/logger.ts:68 | the mapped lines keep their count and each is the prefix followed by the original line |
| Strings.Join | src/utils/logger.ts:69 | `join` of no pieces is "", of one piece is that piece, and otherwise starts with the first piece |
| Strings.JoinSplit | src/utils/logger.ts:66-69 | joining the pieces of a split on the same separator gives back the text |
| Strings.SplitAround | src/utils/logger.ts:66-67 | a separator splits a text into the pieces of the part before it followed by the pieces of the part after it |
| Strings.SplitNoSeparator | src/utils/logger.ts:66-67 | a text without the separator is a single piece |
| Strings.SplitJoin | src/utils/logger.ts:66-69 | splitting the join of separator-free pieces recovers exactly those pieces |
| Strings.PrefixLines | src/utils/logger.ts:66-69 | the prefixed text starts with the prefix; `PrefixLinesAfterNewlines` gives all of it |
| Strings.PrefixLinesAfterNewlines | src/utils/logger.ts:64-69 | the split/map/join pipeline equals an independent definition: the prefix in front of the text and after every newline, the rest unchanged |
| ErrorClasses.NewAppError | src/utils/errorClasses.ts:3-13 | an `AppError` keeps the given status code, message and function name, and its name is "AppError" |
| ErrorClasses.NewExampleCustomError | src/utils/errorClasses.ts:16-19 | an `ExampleCustomError` is an `AppError` with code 400 whatever its arguments, the given message and function name, and the name "ExampleCustomError" |
| ErrorClasses.CustomErrorIsBadRequestAppError | src/utils/errorClasses.ts:16-19 | the subclass equals `new AppError(400, message, functionName)` except for its class name |
| ErrorClasses.GuardRouteError | src/server.ts:79-86 | the guard route's error is not an `AppError`, carries "Route not found" and has a `status` property of 404 |
| ErrorClasses.ErrorObject.constructor | src/utils/errorClasses.ts:3-13 | a new error object holds the given payload and stack |
| Express.Response.constructor | src/utils/responseFormatter.ts:5 | a response no handler has written to has no headers, status 200, no body, and its headers are not sent |
| Express.Response.SetHeader | src/utils/responseFormatter.ts:10 | sets one header and changes nothing else |
| Express.Response.Status | src/utils/responseFormatter.ts:18 | sets the status code and changes nothing else |
| Express.Response.Json | src/utils/responseFormatter.ts:18 | a serializable value is sent as the body and the headers are marked sent; a value holding a BigInt throws a fresh `TypeError` and nothing is sent; headers and status are kept either way |
| Express.NextFunction.constructor | src/middleware/errorMiddleware.ts:11 | the `next` of a request has forwarded nothing yet |
| Express.NextFunction.Call | src/middleware/errorMiddleware.ts:21 | `next(err)` forwards exactly that error object, once |
| ResponseFormatter.EnvelopeStatus | src/utils/responseFormatter.ts:13 | "success" if and only if the code is below 400, "error" if and only if it is 400 or more |
| ResponseFormatter.Envelope | src/utils/responseFormatter.ts:12-16 | the body has exactly the keys status, message and data; message and data are the arguments unchanged, including null data |
| ResponseFormatter.EnvelopeSuccessIff | src/utils/responseFormatter.ts:13 | the envelope reports success exactly for codes below 400, whatever the message and data |
| ResponseFormatter.EnvelopeSerializable | src/utils/responseFormatter.ts:12-18 | the envelope serializes exactly when its data does |
| ResponseFormatter.FormatResponse | src/utils/responseFormatter.ts:4-19 | Content-Type becomes application/json with the other headers kept, and the status is exactly the given code; serializable data: the envelope is sent as body and nothing is thrown; data holding a BigInt: a fresh `TypeError` is returned and the body and sent flag stay as they were; so equal arguments give equal responses |
| Logging.Metadata | src/utils/logger.ts:30 | the rest object has every key of `info` except timestamp, level and message, each with its value unchanged |
| Logging.StripStack | src/utils/logger.ts:35-37 | the filtered copy has every key but `stack`, each with its value unchanged |
| Logging.HeaderLine | src/utils/logger.ts:32 | the header line is the timestamp, a space, the level, `: ` and the message, at those positions |
| Logging.Header | src/utils/logger.ts:31-32 | the header is the separator, a newline and the header line, at those positions |
| Logging.Entry | src/utils/logger.ts:32-72 | an entry starts with the header; without metadata it is nothing more; with metadata the rest is a newline and the timestamp-prefixed serialized lines |
| Logging.Separator | src/utils/logger.ts:31 | the separator is 60 `*` |
| Logging.SerializedKeys | src/utils/logger.ts:30-37 | the keys handed to the serializer are all keys of `info` except timestamp, level, message and the top-level stack |
| Logging.EntryStart | src/utils/logger.ts:31-32 | every entry starts with 60 `*`, a newline, then `timestamp + " " + level + ": " + message` |
| Logging.EntryWithoutMetadata | src/utils/logger.ts:32-34 | with no metadata key the entry is exactly the header |
| Logging.EntryLines | src/utils/logger.ts:64-69 | read line by line, an entry with metadata is the separator, the header line, then each serialized line preceded by the timestamp and a space, when timestamp, level and message have no newline |
| Logging.EntryLinesWithoutMetadata | src/utils/logger.ts:31-34 | read line by line, an entry without metadata is the separator and the header line, when timestamp, level and message have no newline |
| Logging.DeleteNestedStack | src/utils/logger.ts:38-44 | if `error` refers to an object, that object's stack is deleted, and what the serializer then reads equals the metadata with that stack removed |
| Logging.FilterAndSerialize | src/utils/logger.ts:35-63 | the serializer receives the metadata without its top-level stack and with the nested error's stack gone; the shared error object itself loses its stack |
| Logging.FormatEntry | src/utils/logger.ts:29-73 | the output is the header, followed (only when the metadata has a key) by a newline and the serialized filtered metadata with every line prefixed by the timestamp; the nested error object loses its stack |
| Logging.LogMessageFormatter | src/utils/logger.ts:92-97 | the tagged message is `[`, the function name, `] `, then the message, at those positions |
| Logging.TaggedRoundTrip | src/utils/logger.ts:92-97 | `"[" + f + "] " + m` parses back into `f` and `m` whenever `f` has no `]` |
| Logging.ParsedIsFormatted | src/utils/logger.ts:92-97 | every text that parses as a tagged message is `logMessageFormatter` of the parsed parts, and the parsed name has no `]` |
| Logging.Info | src/utils/logger.ts:26-30 | the call's `info` object has the same metadata and the same nested error as the call's metadata |
| Logging.ApplyFormat | src/utils/logger.ts:26-30 | the logged line is the entry for the colourised level and message, read from the heap as it stood before the call, and the nested error loses its stack |
| Logging.Logger.constructor | src/utils/logger.ts:85-90 | a new logger has its serializer and colouriser and has logged nothing |
| Logging.Logger.Error | src/utils/logger.ts:26-73 | `logger.error` records exactly one call and appends exactly one formatted entry; the nested error loses its stack |
| ErrorMiddleware.ResponseStatus | src/middleware/errorMiddleware.ts:24-33 | an `AppError` is answered with its own code, anything else with 500, whatever other properties it carries |
| ErrorMiddleware.LogContext | src/middleware/errorMiddleware.ts:13-18 | the log context has exactly the keys error, stack, url and method; `error` is a reference to `err` itself, `stack` is its stack or undefined when it has none |
| ErrorMiddleware.ContextAfterLogging | src/middleware/errorMiddleware.ts:13-18 | the log context always has metadata, its nested error is `err`, and the serializer receives the error without stack, the url and the method and nothing else |
| ErrorMiddleware.HandleError | src/middleware/errorMiddleware.ts:7-34 | exactly one log call with "Error: " + message and the context; the entry logged; `err` loses its stack; headers already sent: `next(err)` once and the response untouched; otherwise `next` untouched and the response answered with `ResponseStatus`, null data and the error's raw message |
| ErrorMiddleware.ErrorEnvelopeStatus | src/middleware/errorMiddleware.ts:24-33 | an answered error's envelope says "error" exactly when the code used is at least 400; for a non-`AppError` it always does |
| ErrorMiddleware.LowAppErrorReportsSuccess | src/middleware/errorMiddleware.ts:25 | an `AppError` built with a code below 400 is answered with a "success" envelope |
| ErrorMiddleware.GuardRouteAnsweredWith500 | src/middleware/errorMiddleware.ts:28-33 | the guard route's 404 object is answered with 500, "Route not found" and an "error" envelope |
| ErrorMiddleware.CustomErrorAnsweredWith400 | src/middleware/errorMiddleware.ts:24-26 | the example controller's error is answered with 400 and an "error" envelope |
| Async.AsyncWrapper | src/utils/asyncWrapper.ts:9-17 | the wrapper always fulfils with undefined; `next` receives the handler's error exactly once if it failed, and is not called otherwise |
| ExampleController.GetExample | src/controllers/exampleController.ts:10-23 | a service rejection passes through with no response written; a falsy result throws a new `ExampleCustomError("Failed to get example", "getExample")` with no response written; a truthy serializable one is answered with 200, the result and "Example fetched successfully"; a truthy one holding a BigInt rejects with a fresh `TypeError`, leaving the header and status 200 set and nothing sent |
| ExampleController.ExampleRoute | src/controllers/exampleController.ts:24 | through `asyncWrapper`: a rejection reaches `next` unchanged; a falsy result sends one new 400 `ExampleCustomError` to `next`; a truthy serializable one answers and leaves `next` alone; a truthy one holding a BigInt sends one new `TypeError` to `next` and nothing is sent; the route always fulfils with undefined |

## Left out

- The winston level and colour tables, `addColors`, the transports (console and log files) and `createLogger` (src/utils/logger.ts:6-22, 76-90). This is library configuration and output I/O; `Logger.written` stands for what reaches the transports.
- Logging.Logger.Error: only the `error` level is modelled, the one the core uses. Level filtering (`level: "debug"`) and the other levels are not.
- winston's `timestamp` and `colorize` formats are library behaviour. The timestamp is a parameter, and colouring is an opaque function of level and text.
- The logger's `JSON.stringify` call, with its replacer and two-space indentation, is an opaque function of the filtered metadata as it stands when it runs. In production the replacer (src/utils/logger.ts:49-61) returns every value unchanged, so the model passes the metadata alone. The output format is not modelled.
- The replacer's non-production branch (src/utils/logger.ts:50-58) is dead code, because `isProduction` is the constant true. Only the production filtering is modelled.
- Metadata values are text, undefined, null or references to error objects. Values the core never logs (numbers, nested plain objects, arrays) are not modelled.
- winston's splat and format-token handling of `message`, and its internal copying of `info`, are not modelled. The model assumes the metadata is merged into `info` as given.
- Logging.Info: when the metadata carries a truthy `message`, winston appends it to the logged message (`message + " " + meta.message`), whereas `Info` overwrites `message` with the call's own message. The core's only call, `ErrorMiddleware.LogContext`, has no `message` key, so no core contract depends on this.
- ErrorMiddleware.HandleError: for a message that contains a printf token (`%s`, `%d`, `%o`, `%j`, `%%`, …), winston does not merge the metadata into `info`. `printf` then sees no metadata, the entry is the header alone, and `err` keeps its stack. The contract's logged entry with metadata and its `err.stack == None` hold only for messages without such tokens. The contract also holds only for errors whose enumerable properties serialize: when a property of `err` is cyclic or holds a BigInt, the logger's `JSON.stringify` (src/utils/logger.ts:47-63) throws inside `logger.error` at src/middleware/errorMiddleware.ts:13, before the `headersSent` check, and the middleware then neither calls `next(err)` nor sends a response.
- In the error middleware, errors are error objects or plain objects with a message. Thrown non-object values (strings, numbers) are not modelled.
- Express's response internals are not modelled: charset, ETag and Content-Length headers, status-code range validation, and the JSON text `res.json` writes.
- ResponseFormatter.Envelope: `Js.Value.Object` is an unordered map, so the key order status, message, data (src/utils/responseFormatter.ts:12-16), which reaches the JSON text, is not captured.
- Express.Response.Json: of the ways `JSON.stringify` can throw, only the BigInt one is modelled, because values here are trees with no `toJSON` methods or cycles. Its message is V8's text.
- ResponseFormatter.FormatResponse: requires that the headers have not yet been sent. On a sent response, Node throws `ERR_HTTP_HEADERS_SENT`, and that error path is not modelled.
- ExampleController.GetExample: requires that the headers have not yet been sent, because it calls the formatter. The same throwing path is not modelled.
- ExampleController.ExampleRoute: requires that the headers have not yet been sent, because the handler it wraps calls the formatter. The same throwing path is not modelled.
- Promises and the event loop are not modelled. How the awaited handler settled is an input (`Async.Settled`), and the model does not capture the asynchronous catching of the awaited handler's rejection.
- The example service is not part of this model. Its outcome is an input.
- Server bootstrap is not modelled: environment variables, helmet, nocache, cors, morgan and `app.listen` in src/server.ts. The server shown registers neither the error middleware nor the api router (src/routes/api.ts), so neither is part of the model. Express routing and dispatch, and its built-in final error handler, which answers the guard route's object in that server, are outside the core.
- src/controllers/helloWorldController.ts and src/controllers/example.ts are earlier drafts with no decision logic.
- Error objects carry only the properties the pipeline reads. `Error`'s other own properties and JavaScript prototype-based `instanceof` are represented by the `Failure` variant.
