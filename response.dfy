/**
 * The API response envelope and the request-id / trace-id lookups.
 *
 * The gin context is an object: its request headers, its key store (`c.Set` /
 * `c.Get`) and the values of the request's `context.Context`. Only the key
 * store is ever written, by `GetRequestID` when it has to generate an id.
 * A generated UUID is supplied by the caller; timestamps and JSON
 * serialisation are not modelled.
 */
module Response {
  import opened Wrappers
  import opened Errors

  /** `http.StatusOK` and `http.StatusInternalServerError`. */
  const StatusOK: int := 200
  const StatusInternalServerError: int := 500

  /** The header and context keys the lookups read. */
  const RequestIDHeader: string := "X-Request-ID"
  const TraceIDHeader: string := "X-Trace-ID"
  const RequestIDKey: string := "request_id"
  const TraceIDKey: string := "trace_id"

  /** A value found under a context key: a string, or a value of another type. */
  datatype Any = Str(s: string) | NonString(repr: string)

  /** `Result[T]`, the envelope, without its timestamp. */
  datatype Result<T> = Result(code: int, message: string, data: T, requestID: string, traceID: string)

  /** The `struct{}{}` of the no-data envelopes. */
  datatype Empty = Empty

  /** A `c.JSON(status, body)` reply. */
  datatype Reply<T> = Reply(status: int, body: Result<T>)

  /** `PageResult[T]`. */
  datatype PageResult<T> = PageResult(total: int, page: int, pageSize: int, list: T)

  /** `NewPageResult`: the four arguments, unchanged, in their fields. */
  function NewPageResult<T>(list: T, total: int, page: int, pageSize: int): (p: PageResult<T>)
    ensures p.total == total && p.page == page && p.pageSize == pageSize && p.list == list
  {
    PageResult(total, page, pageSize, list)
  }

  /** The non-empty string stored under `key`, or "" when absent, empty or not a string. */
  function StringAt(m: map<string, Any>, key: string): (s: string)
    ensures s != "" <==> key in m && m[key].Str? && m[key].s != ""
    ensures s != "" ==> m[key] == Str(s)
  {
    if key in m && m[key].Str? then m[key].s else ""
  }

  /** The first non-empty candidate, or "" when all are empty: an independent reading of an if-chain. */
  function FirstNonEmpty(candidates: seq<string>): (s: string)
    ensures s == "" <==> forall i :: 0 <= i < |candidates| ==> candidates[i] == ""
    ensures s != "" ==> exists i :: 0 <= i < |candidates| && candidates[i] == s && forall j :: 0 <= j < i ==> candidates[j] == ""
    decreases |candidates|
  {
    if |candidates| == 0 then ""
    else if candidates[0] != "" then candidates[0]
    else
      var rest := FirstNonEmpty(candidates[1..]);
      assert forall i :: 1 <= i < |candidates| ==> candidates[i] == candidates[1..][i - 1];
      rest
  }

  /** For three candidates the first non-empty one is what the nested if-chain picks. */
  lemma FirstOfThree(a: string, b: string, c: string)
    ensures FirstNonEmpty([a, b, c]) == if a != "" then a else if b != "" then b else c
  {
    assert [c][1..] == [];
    assert FirstNonEmpty([c]) == c;
    assert [b, c][1..] == [c];
    assert FirstNonEmpty([b, c]) == if b != "" then b else c;
    assert [a, b, c][1..] == [b, c];
  }

  /** A gin context: request headers, the key store, and the request context's values. */
  class Context {
    var header: map<string, string>
    var keys: map<string, Any>
    var requestValues: map<string, Any>

    constructor (header: map<string, string>, keys: map<string, Any>, requestValues: map<string, Any>)
      ensures this.header == header && this.keys == keys && this.requestValues == requestValues
    {
      this.header := header;
      this.keys := keys;
      this.requestValues := requestValues;
    }

    /** `c.GetHeader`: the header's value, or "" when it is absent. */
    function GetHeader(name: string): (v: string)
      reads this
      ensures name !in header ==> v == ""
      ensures name in header ==> v == header[name]
    {
      if name in header then header[name] else ""
    }

    /** The id `GetRequestID` returns without generating: "" when it must generate one. */
    function ExistingRequestID(): (id: string)
      reads this
      ensures id == FirstNonEmpty([GetHeader(RequestIDHeader), StringAt(keys, RequestIDKey), StringAt(requestValues, RequestIDKey)])
    {
      FirstOfThree(GetHeader(RequestIDHeader), StringAt(keys, RequestIDKey), StringAt(requestValues, RequestIDKey));
      var fromHeader := GetHeader(RequestIDHeader);
      if fromHeader != "" then fromHeader
      else
        var fromKeys := StringAt(keys, RequestIDKey);
        if fromKeys != "" then fromKeys
        else StringAt(requestValues, RequestIDKey)
    }

    /**
     * `getRequestID`: the `X-Request-ID` header, else the non-empty string
     * under "request_id" in the key store, else the one in the request
     * context; otherwise the fresh `newID`, which is stored under
     * "request_id" in the key store. A UUID string is never empty.
     */
    method GetRequestID(newID: string) returns (id: string)
      requires newID != ""
      modifies this`keys
      ensures old(ExistingRequestID()) != "" ==> id == old(ExistingRequestID()) && keys == old(keys)
      ensures old(ExistingRequestID()) == "" ==> id == newID && keys == old(keys)[RequestIDKey := Str(newID)]
      ensures id != "" && ExistingRequestID() == id
    {
      var reqID := GetHeader(RequestIDHeader);
      if reqID != "" {
        return reqID;
      }
      if RequestIDKey in keys {
        var v := keys[RequestIDKey];
        if v.Str? && v.s != "" {
          return v.s;
        }
      }
      if RequestIDKey in requestValues {
        var v := requestValues[RequestIDKey];
        if v.Str? && v.s != "" {
          return v.s;
        }
      }
      keys := keys[RequestIDKey := Str(newID)];
      id := newID;
    }

    /**
     * `getTraceIDFromContext`: the non-empty string under "trace_id" in the
     * key store, else in the request context, else the `X-Trace-ID` header,
     * else "". It only reads.
     */
    function TraceID(): (t: string)
      reads this
      ensures t == FirstNonEmpty([StringAt(keys, TraceIDKey), StringAt(requestValues, TraceIDKey), GetHeader(TraceIDHeader)])
    {
      FirstOfThree(StringAt(keys, TraceIDKey), StringAt(requestValues, TraceIDKey), GetHeader(TraceIDHeader));
      var fromKeys := StringAt(keys, TraceIDKey);
      if fromKeys != "" then fromKeys
      else
        var fromRequest := StringAt(requestValues, TraceIDKey);
        if fromRequest != "" then fromRequest
        else GetHeader(TraceIDHeader)
    }
  }

  /** The trace id is never invented: it is "" or one of the three sources. */
  lemma TraceIDFromSources(c: Context)
    ensures var t := c.TraceID();
      t == "" || t == StringAt(c.keys, TraceIDKey) || t == StringAt(c.requestValues, TraceIDKey) || t == c.GetHeader(TraceIDHeader)
    ensures c.TraceID() == "" <==>
      StringAt(c.keys, TraceIDKey) == "" && StringAt(c.requestValues, TraceIDKey) == "" && c.GetHeader(TraceIDHeader) == ""
  {
  }

  /** Two calls in a row return the same id, and the second changes nothing. */
  method RequestIDIsStable(c: Context, firstUUID: string, secondUUID: string) returns (first: string, second: string)
    requires firstUUID != "" && secondUUID != ""
    modifies c`keys
    ensures first == second
    ensures old(c.ExistingRequestID()) == "" ==> first == firstUUID
  {
    first := c.GetRequestID(firstUUID);
    ghost var between := c.keys;
    second := c.GetRequestID(secondUUID);
    assert c.keys == between;
  }

  /** The message of a success reply: the first supplied message, else "success". */
  function SuccessMessage(msg: seq<string>): (m: string)
    ensures |msg| > 0 ==> m == msg[0]
    ensures |msg| == 0 ==> m == "success"
  {
    if |msg| > 0 then msg[0] else "success"
  }

  /** The success reply: status 200, code 0, the data, and no trace id. */
  function SuccessReply<T>(data: T, msg: seq<string>, requestID: string): (r: Reply<T>)
    ensures r.status == StatusOK && r.body.code == 0
    ensures r.body.message == SuccessMessage(msg) && r.body.data == data
    ensures r.body.requestID == requestID && r.body.traceID == ""
  {
    Reply(StatusOK, Result(0, SuccessMessage(msg), data, requestID, ""))
  }

  /** The error code of an error reply: its `Code()` when it has one, else the unknown-error code. */
  function ErrorCodeOf(err: Error): (code: int)
    ensures err.code.Some? ==> code == err.code.value
    ensures err.code.None? ==> code == Code(ErrUnknown)
  {
    if err.code.Some? then err.code.value else Code(ErrUnknown)
  }

  /** The status of an error reply: its `HttpStatus()` when it has one, else 500. */
  function HttpStatusOf(err: Error): (status: int)
    ensures err.httpStatus.Some? ==> status == err.httpStatus.value
    ensures err.httpStatus.None? ==> status == StatusInternalServerError
  {
    if err.httpStatus.Some? then err.httpStatus.value else StatusInternalServerError
  }

  /** The error reply: resolved code and status, the error's text, no data, both ids. */
  function ErrorReply(err: Error, requestID: string, traceID: string): (r: Reply<Empty>)
    ensures r.status == HttpStatusOf(err) && r.body.code == ErrorCodeOf(err)
    ensures r.body.message == err.message && r.body.data == Empty
    ensures r.body.requestID == requestID && r.body.traceID == traceID
  {
    Reply(HttpStatusOf(err), Result(ErrorCodeOf(err), err.message, Empty, requestID, traceID))
  }

  /** The code and the status are decided independently of each other. */
  lemma CodeAndStatusIndependent(e: Error, status: Option<int>, code: Option<int>)
    ensures ErrorCodeOf(e.(httpStatus := status)) == ErrorCodeOf(e)
    ensures HttpStatusOf(e.(code := code)) == HttpStatusOf(e)
  {
  }

  /** `Success`: resolves the request id and replies with the success envelope. */
  method Success<T>(c: Context, data: T, msg: seq<string>, newID: string) returns (reply: Reply<T>)
    requires newID != ""
    modifies c`keys
    ensures reply == SuccessReply(data, msg, if old(c.ExistingRequestID()) != "" then old(c.ExistingRequestID()) else newID)
    ensures old(c.ExistingRequestID()) != "" ==> c.keys == old(c.keys)
    ensures old(c.ExistingRequestID()) == "" ==> c.keys == old(c.keys)[RequestIDKey := Str(newID)]
  {
    var message := "success";
    if |msg| > 0 {
      message := msg[0];
    }
    var requestID := c.GetRequestID(newID);
    reply := Reply(StatusOK, Result(0, message, data, requestID, ""));
  }

  /** `SuccessNoData`: the success envelope with empty data. */
  method SuccessNoData(c: Context, msg: seq<string>, newID: string) returns (reply: Reply<Empty>)
    requires newID != ""
    modifies c`keys
    ensures reply == SuccessReply(Empty, msg, if old(c.ExistingRequestID()) != "" then old(c.ExistingRequestID()) else newID)
    ensures old(c.ExistingRequestID()) != "" ==> c.keys == old(c.keys)
    ensures old(c.ExistingRequestID()) == "" ==> c.keys == old(c.keys)[RequestIDKey := Str(newID)]
  {
    reply := Success(c, Empty, msg, newID);
  }

  /**
   * `Error`: starts from the unknown-error code and status 500, overrides
   * each from the error's own capability, resolves both ids, and replies with
   * the error envelope.
   */
  method Error(c: Context, err: Errors.Error, newID: string) returns (reply: Reply<Empty>)
    requires newID != ""
    modifies c`keys
    ensures reply == ErrorReply(err, if old(c.ExistingRequestID()) != "" then old(c.ExistingRequestID()) else newID, old(c.TraceID()))
    ensures old(c.ExistingRequestID()) != "" ==> c.keys == old(c.keys)
    ensures old(c.ExistingRequestID()) == "" ==> c.keys == old(c.keys)[RequestIDKey := Str(newID)]
  {
    var errorCode := Code(ErrUnknown);
    var httpStatus := StatusInternalServerError;
    var message := err.message;
    if err.code.Some? {
      errorCode := err.code.value;
    }
    if err.httpStatus.Some? {
      httpStatus := err.httpStatus.value;
    }
    var requestID := c.GetRequestID(newID);
    var traceID := c.TraceID();
    reply := Reply(httpStatus, Result(errorCode, message, Empty, requestID, traceID));
  }
}
