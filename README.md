# Generic repository, logger setup and response envelope — a Dafny model

This project models three pieces of decision logic from a Go web starter:

- **Repository** (`repository.dfy`): the generic GORM repository. A store handle keeps an
  ordered list of builder clauses: `Preload`, `Opt`, `Where`, `Offset`, `Limit` and `Model`.
  Each repository call yields the statement it hands to the store: the handle, the clauses and
  the terminal action (`First`, `Find`, `Count`, `Create`, `Save`, `Delete`, `Transaction`).
  The call also yields the value it returns. What the store answers is an input: rows, GORM's
  not-found sentinel, or some other failure. Proved: the fixed order in which options are
  composed, the three-way dispatch of `Get`, the not-found classification, the paging clauses
  of `List`, and the fact that `WithTx` rebinds calls while keeping the error code.
- **Logger** (`logger.dfy`): level and format parsing. Also how `Setup` picks the sink
  (standard output, a rotating file, or both) and its options. Also the ordered key/value
  field list that `LogError` emits.
- **Response** (`response.dfy`): the success and error envelopes and `NewPageResult`. Also the
  precedence chains for the request id and the trace id. The gin context is a class: its
  headers, its key store and the request-context values. `GetRequestID` writes a generated id
  into the key store, so the next call returns the same id.

`errors.dfy` models an error value as a record of the capabilities Go probes for by type
assertion: `Error()`, application-error methods, `Unwrap()`, `fmt.Formatter`, `Code()` and
`HttpStatus()`. `wrappers.dfy` holds `Option`, which stands for Go's nil.

Where the code and the intent of its comments differ, the model follows the code:

- `Get` with an id still adds the option condition as a `Where`, because the options are
  applied first (internal/model/repository.go:112). The interface comment
  (internal/model/repository.go:36) only says the condition is used when the id is nil.
  `GetByIdKeepsCondition` states what the code does.
- `ErrorCode` is stored, but `Get` never reads it. The not-found error is always the errspec
  "record does not exist" entry (internal/model/repository.go:130). `GetIgnoresErrorCode`
  states this.
- `Count` applies preloads as well as the other options (internal/model/repository.go:180).

## Model

| member | source | states |
|---|---|---|
| Errors.Rendered | internal/pkg/logger/logger.go:153 | `%+v` of an error is the formatter's rendering when the error has one, otherwise its `Error()` text |
| Repository.ErrorCode | internal/model/repository.go:124-130 | the two domain errors of `Get` carry an errspec code; a passed-through store error carries none |
| Repository.Unwrap | internal/model/repository.go:130 | only the not-found domain error has a wrapped cause |
| Repository.ApplyQueryOptions | internal/model/repository.go:82-105 | nil options leave the query unchanged; otherwise the query is extended by exactly the option clauses: preloads in list order, then modifiers, then one `Where` when the condition is non-empty |
| Repository.OptionClausesLayout | internal/model/repository.go:87-104 | the exact position of every appended clause, and their number |
| Repository.OptionClausesOrdered | internal/model/repository.go:87-104 | no clause of a later stage precedes an earlier stage; at most one `Where`, and there is one iff options are given with a non-empty condition |
| Repository.GetAction | internal/model/repository.go:116-125 | no statement iff there is no id and (no options or an empty condition); otherwise `First` with the id, which may be nil |
| Repository.Classify | internal/model/repository.go:127-133 | the not-found sentinel becomes "record does not exist" wrapping that sentinel; every other error is returned unchanged |
| Repository.GenericRepo.WithTx | internal/model/repository.go:196-201 | the new repository is bound to `tx` and keeps the receiver's error code |
| Repository.GenericRepo.Create | internal/model/repository.go:77-79 | forwards `Create(entity)` on the repository's own handle and returns the store's error |
| Repository.GenericRepo.Update | internal/model/repository.go:139-141 | forwards `Save(entity)` on the repository's own handle and returns the store's error |
| Repository.GenericRepo.Delete | internal/model/repository.go:144-147 | forwards `Delete(id)` on the repository's own handle and returns the store's error |
| Repository.GenericRepo.Transaction | internal/model/repository.go:191-193 | runs `fn` on the transaction handle opened on this repository's handle and returns `fn`'s result |
| Repository.GenericRepo.Get | internal/model/repository.go:108-136 | the store is untouched and "query parameter empty" is returned exactly when there is no id and no usable condition; otherwise `First` runs on a query carrying all option clauses; success gives the entity and no error, failure gives no entity and the classified error |
| Repository.GenericRepo.List | internal/model/repository.go:150-169 | issues `Offset((page-1)*pageSize)`, `Limit(pageSize)` before the option clauses, then `Find`; on error a nil slice and that error |
| Repository.GenericRepo.Count | internal/model/repository.go:172-188 | issues `Model`, then the option clauses, then `Count`; returns `(0, err)` on error and `(count, nil)` otherwise |
| Repository.NewGenericRepo | internal/model/repository.go:69-74 | binds the handle and the errspec not-found code |
| Repository.PageWindowsDisjoint | internal/model/repository.go:157-158 | for 1-based pages the offset is non-negative, page 1 starts at 0, and the windows of two different pages do not overlap |
| Repository.GetByIdKeepsCondition | internal/model/repository.go:112-118 | `Get` by id with a non-empty condition issues a statement that contains that condition's `Where` |
| Repository.GetIgnoresErrorCode | internal/model/repository.go:127-131 | two repositories on one handle give the same `Get` result whatever their error codes are |
| Repository.RebindAllKeepsCode | internal/model/repository.go:196-201 | any chain of `WithTx` keeps the original error code and ends on the last handle |
| Repository.WithTxRedirects | internal/model/repository.go:196-201 | calls through `WithTx(tx)` target `tx`, and the receiver's calls still target its own handle |
| Logger.ParseLogLevel | internal/pkg/logger/logger.go:102-115 | "debug", "warn" and "error" each map to their level, each iff; every other string maps to Info |
| Logger.ParseLevelName | internal/pkg/logger/logger.go:102-115 | parsing the word of a level gives that level back |
| Logger.ParseLogFormat | internal/pkg/logger/logger.go:118-128 | the JSON formatter is chosen iff the format is JSON; Text and any other value give the text formatter |
| Logger.Setup | internal/pkg/logger/logger.go:29-94 | the parsed level; ReportCaller iff the level is Debug; the formatter agrees with `parseLogFormat`; the fixed prefix, time layout and timestamps; the writer follows the four cases for console (empty list or "console" in it) and "file" in the list |
| Logger.LogError | internal/pkg/logger/logger.go:135-188 | one Error-level record with the message, whose fields are the error-derived fields followed by the caller's key/value pairs in order |
| Logger.ErrorFieldsShape | internal/pkg/logger/logger.go:137-184 | the fields are whole pairs and start with "err"; "original_err" is a key iff the error unwraps to a cause; "stack_trace" is a key iff the error is not an application error, stacks are on and it is a formatter; the caller's pairs come last and stay aligned |
| Response.NewPageResult | internal/api/response/response.go:34-41 | total, page, page size and list are copied unchanged |
| Response.Context.ExistingRequestID | internal/api/response/response.go:131-149 | the first non-empty of the `X-Request-ID` header, the key-store "request_id" string and the request-context "request_id" string |
| Response.Context.GetRequestID | internal/api/response/response.go:131-156 | returns the existing id and leaves the key store alone; with no existing id it returns the fresh id and stores it under "request_id"; afterwards the existing id is the one returned |
| Response.Context.TraceID | internal/api/response/response.go:159-180 | the first non-empty of the key-store "trace_id" string, the request-context "trace_id" string and the `X-Trace-ID` header, else "" |
| Response.TraceIDFromSources | internal/api/response/response.go:159-180 | the trace id is never invented: it is "" or one of its three sources, and "" iff all three are empty |
| Response.RequestIDIsStable | internal/api/response/response.go:139-155 | two calls of `getRequestID` in a row return the same id; after a generation that is the generated id |
| Response.SuccessMessage | internal/api/response/response.go:45-48 | the first supplied message, else "success" |
| Response.SuccessReply | internal/api/response/response.go:53-59 | status 200, code 0, the message, the data, the request id and no trace id |
| Response.ErrorCodeOf | internal/api/response/response.go:84-95 | the error's `Code()` when it has one, else the unknown-error code |
| Response.HttpStatusOf | internal/api/response/response.go:84-99 | the error's `HttpStatus()` when it has one, else 500 |
| Response.ErrorReply | internal/api/response/response.go:120-127 | the resolved status and code, the error's text, empty data, the request id and the trace id |
| Response.CodeAndStatusIndependent | internal/api/response/response.go:93-99 | the code does not depend on the status capability, and the status does not depend on the code capability |
| Response.Success | internal/api/response/response.go:44-60 | the success reply with the resolved request id; the key store changes only when a new id was generated |
| Response.SuccessNoData | internal/api/response/response.go:63-79 | the success reply with empty data and the resolved request id |
| Response.Error | internal/api/response/response.go:82-128 | the error reply with the resolved request id and the trace id read before the reply; the key store changes only when a new id was generated |

## Left out

- SQL execution and GORM internals. The store's answer is a parameter of each call, not a
  function of the statement. So the round trip of `Create` then `Get`, and the link between a
  `Count` and a `List` of the same options, are not modelled.
- `options.Option`: its source is not part of this model. `options.Apply` is modelled as
  recording one `Opt` clause per modifier, in order.
- Transaction commit and rollback belong to the store. `Transaction` forwards `fn`'s result and
  does not model a commit error.
- `Create`: the store's writing of generated identifiers back into the entity is not modelled.
- `context.Context` cancellation and propagation (`WithContext(ctx)`). A handle's clause list
  starts empty instead.
- Repository.GenericRepo.List: Go `int` overflow in `(page-1)*pageSize` is not modelled. The
  arithmetic is on mathematical integers, and `page <= 0` is taken as written (a negative
  offset).
- Repository.GenericRepo.Count: the count is a mathematical integer, not an `int64`.
- The errspec table is not part of this model. `Errors.Code` uses distinct stand-in numbers.
- `configs.LogFormat` values are not part of this model. The format is the JSON constant, the
  Text constant, or any other value.
- Logger.Setup: `UpdateStackTraceConfig`, `errorx.SetMaxStackFrames`, lumberjack rotation,
  `os.Stdout`, `io.MultiWriter` and `log.SetDefault` are not modelled. The setup returns the
  chosen writer and options and installs nothing.
- Logger.LogError: `ShouldShowStackTrace` is the `showStackTrace` input. The `%+v` rendering
  is an input field of the error. The record is returned, not written.
- Response.Error: the `logger.ErrorContext` record, the request path, method and client IP, and
  `errorx.FormatErrorChain` are not modelled.
- The envelope's `time.Now().Unix()` timestamp and gin's JSON serialisation are not modelled.
- Response.Context.GetRequestID: `uuid.New()` is the `newID` parameter. It is required to be
  non-empty, as a UUID string always is.
- Response.Context.GetHeader: gin matches header names case-insensitively. Here headers are
  looked up by their exact canonical name.
