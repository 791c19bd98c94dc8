/**
 * An endpoint request: what to send, its lifecycle state and cancellation
 * flag, and the per-kind result processing that turns a transport outcome into
 * the arguments of the caller's completion callback.
 *
 * Foundation calls the source makes while processing results (UTF-8 decoding,
 * integer parsing, JSON deserialisation, writing a file) are passed in as the
 * function values of a `Foundation` record.
 */
module EndpointRequest {
  import opened Wrappers
  import opened HTTPEndpoint
  import opened LockingPrimitives

  newtype byte = b: int | 0 <= b < 256

  /** Response body bytes. */
  type Data = seq<byte>

  /** Lifecycle of a request: created queued, made active on admission, finished on transport completion. */
  datatype State = Queued | Active | Finished

  /** `unableToProcessResponseData`, or an error raised by the transport or by Foundation. */
  datatype Error = UnableToProcessResponseData | Foreign(description: string)

  /** The HTTP response metadata handed to callbacks, passed through unexamined. */
  datatype Response = Response(statusCode: int, headerFields: map<string, string>)

  /** A query component: one value, or an array of values. */
  datatype QueryValue = Single(value: string) | Multiple(values: seq<string>)

  datatype QueryParameter = QueryParameter(key: string, value: QueryValue)

  /** The subclass a request is created as; a file request carries its destination. */
  datatype Kind =
    | DataKind
    | FileKind(destinationURL: string)
    | HeadKind
    | IntegerKind
    | JSONKind
    | StringKind
    | SuccessKind

  /** A deserialised JSON document (numbers are modelled as integers). */
  datatype JSONValue =
    | JSONNull
    | JSONBool(b: bool)
    | JSONNumber(n: int)
    | JSONString(s: string)
    | JSONArray(elements: seq<JSONValue>)
    | JSONObject(members: map<string, JSONValue>)

  /** Outcome of `JSONSerialization.jsonObject(with:)` followed by the cast `as? T`. */
  datatype JSONParse = Threw(error: Error) | NotExpectedType | Parsed(info: JSONValue)

  /** The Foundation calls made while processing results. */
  datatype Foundation = Foundation(
    utf8String: Data -> Option<string>,        // String(data:encoding: .utf8)
    integer: string -> Option<int>,            // Int(String)
    write: (Data, string) -> Option<Error>,    // Data.write(to:), None when it succeeds
    jsonObject: Data -> JSONParse)

  /** The arguments of one completion-callback invocation, tagged by callback. */
  datatype Callback =
    | DataCompletion(response: Option<Response>, data: Option<Data>, error: Option<Error>)
    | FileCompletion(response: Option<Response>, error: Option<Error>)
    | HeadCompletion(response: Option<Response>, error: Option<Error>)
    | IntegerCompletion(response: Option<Response>, value: Option<int>, error: Option<Error>)
    | StringCompletion(response: Option<Response>, text: Option<string>, error: Option<Error>)
    | SuccessCompletion(response: Option<Response>, error: Option<Error>)
    | JSONCompletion(response: Option<Response>, info: Option<JSONValue>, error: Option<Error>)
    | JSONPartialResults(response: Option<Response>, info: Option<JSONValue>, error: Option<Error>)
    | JSONMultiCompletion(errors: seq<Error>)

  const ContentType := "Content-Type"

  /**
   * The headers the body-kind initialisers store: the caller's headers (or none)
   * with Content-Type forced to `contentType`.
   */
  function WithContentType(headers: Option<map<string, string>>, contentType: string): (r: map<string, string>)
    ensures ContentType in r && r[ContentType] == contentType
    ensures forall k :: k != ContentType ==>
              (k in r <==> headers.Some? && k in headers.value)
    ensures forall k :: k != ContentType && k in r ==> r[k] == headers.value[k]
  {
    headers.GetOr(map[])[ContentType := contentType]
  }

  class Request {
    const httpMethod: Method
    const path: string
    const queryComponents: Option<seq<QueryParameter>>
    const multiValueQueryComponent: Option<(string, seq<string>)>
    const headers: Option<map<string, string>>
    const timeoutInterval: real
    const bodyData: Option<Data>
    const kind: Kind

    var state: State
    var isCancelled: bool

    // Which completion procs are set. Every kind but JSON has a do-nothing
    // default proc; a JSON request starts with none set.
    var hasCompletionProc: bool
    var hasMultiResponsePartialResultsProc: bool
    var hasMultiResponseCompletionProc: bool

    // JSON multi-response aggregation.
    var errors: seq<Error>
    const completedRequestsCount: LockingNumeric

    /** Initial lifecycle and aggregation state shared by every initialiser. */
    ghost predicate Initial()
      reads this, completedRequestsCount
    {
      state == Queued && !isCancelled && errors == [] && completedRequestsCount.Value() == 0
      && hasCompletionProc == !kind.JSONKind?
      && !hasMultiResponsePartialResultsProc && !hasMultiResponseCompletionProc
    }

    /** The initialiser without a body. */
    constructor (kind: Kind, httpMethod: Method, path: string,
                 queryComponents: Option<seq<QueryParameter>> := None,
                 multiValueQueryComponent: Option<(string, seq<string>)> := None,
                 headers: Option<map<string, string>> := None, timeoutInterval: real := 60.0)
      ensures Initial() && fresh(completedRequestsCount)
      ensures this.kind == kind && this.httpMethod == httpMethod && this.path == path
      ensures this.queryComponents == queryComponents && this.multiValueQueryComponent == multiValueQueryComponent
      ensures this.headers == headers && this.timeoutInterval == timeoutInterval && bodyData == None
    {
      this.kind, this.httpMethod, this.path := kind, httpMethod, path;
      this.queryComponents, this.multiValueQueryComponent := queryComponents, multiValueQueryComponent;
      this.headers, this.timeoutInterval, this.bodyData := headers, timeoutInterval, None;
      completedRequestsCount := new LockingNumeric();
      state, isCancelled, errors := Queued, false, [];
      hasCompletionProc := !kind.JSONKind?;
      hasMultiResponsePartialResultsProc, hasMultiResponseCompletionProc := false, false;
    }

    /** The initialiser with raw body bytes; the caller's headers are kept as given. */
    constructor WithBodyData(kind: Kind, httpMethod: Method, path: string,
                             queryComponents: Option<seq<QueryParameter>>,
                             multiValueQueryComponent: Option<(string, seq<string>)>,
                             headers: Option<map<string, string>>, timeoutInterval: real, bodyData: Data)
      ensures Initial() && fresh(completedRequestsCount)
      ensures this.kind == kind && this.httpMethod == httpMethod && this.path == path
      ensures this.queryComponents == queryComponents && this.multiValueQueryComponent == multiValueQueryComponent
      ensures this.headers == headers && this.timeoutInterval == timeoutInterval && this.bodyData == Some(bodyData)
    {
      this.kind, this.httpMethod, this.path := kind, httpMethod, path;
      this.queryComponents, this.multiValueQueryComponent := queryComponents, multiValueQueryComponent;
      this.headers, this.timeoutInterval, this.bodyData := headers, timeoutInterval, Some(bodyData);
      completedRequestsCount := new LockingNumeric();
      state, isCancelled, errors := Queued, false, [];
      hasCompletionProc := !kind.JSONKind?;
      hasMultiResponsePartialResultsProc, hasMultiResponseCompletionProc := false, false;
    }

    /**
     * The `jsonBody` initialiser: Content-Type becomes "application/json" whatever
     * the caller gave, the caller's other headers are kept, and the body is the
     * serialised document (`serialisedBody`, produced by JSONSerialization).
     */
    constructor WithJSONBody(kind: Kind, httpMethod: Method, path: string,
                             queryComponents: Option<seq<QueryParameter>>,
                             multiValueQueryComponent: Option<(string, seq<string>)>,
                             headers: Option<map<string, string>>, timeoutInterval: real, serialisedBody: Data)
      ensures Initial() && fresh(completedRequestsCount)
      ensures this.kind == kind && this.httpMethod == httpMethod && this.path == path
      ensures this.queryComponents == queryComponents && this.multiValueQueryComponent == multiValueQueryComponent
      ensures this.headers == Some(WithContentType(headers, "application/json"))
      ensures this.timeoutInterval == timeoutInterval && this.bodyData == Some(serialisedBody)
    {
      this.kind, this.httpMethod, this.path := kind, httpMethod, path;
      this.queryComponents, this.multiValueQueryComponent := queryComponents, multiValueQueryComponent;
      this.headers := Some(WithContentType(headers, "application/json"));
      this.timeoutInterval, this.bodyData := timeoutInterval, Some(serialisedBody);
      completedRequestsCount := new LockingNumeric();
      state, isCancelled, errors := Queued, false, [];
      hasCompletionProc := !kind.JSONKind?;
      hasMultiResponsePartialResultsProc, hasMultiResponseCompletionProc := false, false;
    }

    /** The `xmlBody` initialiser: Content-Type becomes "application/xml"; the body is used as given. */
    constructor WithXMLBody(kind: Kind, httpMethod: Method, path: string,
                            queryComponents: Option<seq<QueryParameter>>,
                            multiValueQueryComponent: Option<(string, seq<string>)>,
                            headers: Option<map<string, string>>, timeoutInterval: real, xmlBody: Data)
      ensures Initial() && fresh(completedRequestsCount)
      ensures this.kind == kind && this.httpMethod == httpMethod && this.path == path
      ensures this.queryComponents == queryComponents && this.multiValueQueryComponent == multiValueQueryComponent
      ensures this.headers == Some(WithContentType(headers, "application/xml"))
      ensures this.timeoutInterval == timeoutInterval && this.bodyData == Some(xmlBody)
    {
      this.kind, this.httpMethod, this.path := kind, httpMethod, path;
      this.queryComponents, this.multiValueQueryComponent := queryComponents, multiValueQueryComponent;
      this.headers := Some(WithContentType(headers, "application/xml"));
      this.timeoutInterval, this.bodyData := timeoutInterval, Some(xmlBody);
      completedRequestsCount := new LockingNumeric();
      state, isCancelled, errors := Queued, false, [];
      hasCompletionProc := !kind.JSONKind?;
      hasMultiResponsePartialResultsProc, hasMultiResponseCompletionProc := false, false;
    }

    /**
     * The `urlEncodedBody` initialiser: Content-Type becomes
     * "application/x-www-form-urlencoded"; the body is the encoded form
     * (`encodedBody`, whose pair order the source leaves to dictionary iteration).
     */
    constructor WithURLEncodedBody(kind: Kind, httpMethod: Method, path: string,
                                   queryComponents: Option<seq<QueryParameter>>,
                                   multiValueQueryComponent: Option<(string, seq<string>)>,
                                   headers: Option<map<string, string>>, timeoutInterval: real,
                                   encodedBody: Option<Data>)
      ensures Initial() && fresh(completedRequestsCount)
      ensures this.kind == kind && this.httpMethod == httpMethod && this.path == path
      ensures this.queryComponents == queryComponents && this.multiValueQueryComponent == multiValueQueryComponent
      ensures this.headers == Some(WithContentType(headers, "application/x-www-form-urlencoded"))
      ensures this.timeoutInterval == timeoutInterval && this.bodyData == encodedBody
    {
      this.kind, this.httpMethod, this.path := kind, httpMethod, path;
      this.queryComponents, this.multiValueQueryComponent := queryComponents, multiValueQueryComponent;
      this.headers := Some(WithContentType(headers, "application/x-www-form-urlencoded"));
      this.timeoutInterval, this.bodyData := timeoutInterval, encodedBody;
      completedRequestsCount := new LockingNumeric();
      state, isCancelled, errors := Queued, false, [];
      hasCompletionProc := !kind.JSONKind?;
      hasMultiResponsePartialResultsProc, hasMultiResponseCompletionProc := false, false;
    }

    /** The initialiser from a full URL: the path is the URL's absolute string and there are no query components. */
    constructor WithURL(kind: Kind, httpMethod: Method, absoluteURL: string, headers: Option<map<string, string>>,
                        timeoutInterval: real, bodyData: Option<Data>)
      ensures Initial() && fresh(completedRequestsCount)
      ensures this.kind == kind && this.httpMethod == httpMethod && this.path == absoluteURL
      ensures this.queryComponents == None && this.multiValueQueryComponent == None
      ensures this.headers == headers && this.timeoutInterval == timeoutInterval && this.bodyData == bodyData
    {
      this.kind, this.httpMethod, this.path := kind, httpMethod, absoluteURL;
      this.queryComponents, this.multiValueQueryComponent := None, None;
      this.headers, this.timeoutInterval, this.bodyData := headers, timeoutInterval, bodyData;
      completedRequestsCount := new LockingNumeric();
      state, isCancelled, errors := Queued, false, [];
      hasCompletionProc := !kind.JSONKind?;
      hasMultiResponsePartialResultsProc, hasMultiResponseCompletionProc := false, false;
    }

    /** `cancel()`: sets the flag and nothing else; calling it again changes nothing. */
    method Cancel()
      modifies this`isCancelled
      ensures isCancelled
    {
      isCancelled := true;
    }

    /** `transition(to:)`: sets the state, with no check of the state it leaves. */
    method Transition(to: State)
      modifies this`state
      ensures state == to
    {
      state := to;
    }

    /** What the client's typed `queue` overloads do before queueing: install the completion proc. */
    method SetCompletionProc()
      modifies this`hasCompletionProc
      ensures hasCompletionProc
    {
      hasCompletionProc := true;
    }

    /** A JSON caller installing the partial-results and final procs of multi-response mode. */
    method SetMultiResponseProcs()
      modifies this`hasMultiResponsePartialResultsProc, this`hasMultiResponseCompletionProc
      ensures hasMultiResponsePartialResultsProc && hasMultiResponseCompletionProc
    {
      hasMultiResponsePartialResultsProc, hasMultiResponseCompletionProc := true, true;
    }

    function Procs(): JSONProcs
      reads this
    {
      JSONProcs(hasCompletionProc, hasMultiResponsePartialResultsProc, hasMultiResponseCompletionProc)
    }

    function Aggregate(): Aggregation
      reads this, completedRequestsCount
    {
      Aggregation(errors, completedRequestsCount.Value())
    }

    /**
     * The JSON request's `processResults(response:data:error:totalRequests:)`:
     * one step of the multi-response aggregation. The callbacks invoked and the
     * new error list and counter are those of `JSONStep`.
     */
    method ProcessMultiResults(response: Option<Response>, data: Option<Data>, error: Option<Error>,
                               totalRequests: int, jsonObject: Data -> JSONParse)
      returns (calls: seq<Callback>)
      requires JSONProcsSuffice(Procs(), isCancelled, Aggregate().completed, totalRequests)
      modifies this`errors, completedRequestsCount
      ensures (Aggregate(), calls)
           == JSONStep(old(Aggregate()), Procs(), isCancelled, response, JSONResult(data, error, jsonObject), totalRequests)
    {
      ghost var agg := Aggregate();
      var result := JSONResult(data, error, jsonObject);
      var info, responseError := result.0, result.1;
      if responseError.Some? {
        errors := errors + [responseError.value];
      }
      calls := [];
      if !isCancelled {
        if totalRequests == 1 {
          if hasCompletionProc {
            calls := [JSONCompletion(response, info, responseError)];
          } else {
            calls := [JSONPartialResults(response, info, responseError), JSONMultiCompletion(errors)];
          }
        } else {
          calls := [JSONPartialResults(response, info, responseError)];
          var completed := completedRequestsCount.Add(1);
          if completed == totalRequests {
            calls := calls + [JSONMultiCompletion(errors)];
          }
        }
      }
      assert errors == agg.errors + (if result.1.Some? then [result.1.value] else []);
    }

    /**
     * `processResults(response:data:error:)` as the client reaches it: the
     * kind's result processing, a JSON request taken as a single transport call
     * (total 1). Returns the callbacks invoked and the bytes handed to
     * `Data.write(to:)`, if any.
     */
    method ProcessResults(response: Option<Response>, data: Option<Data>, error: Option<Error>, foundation: Foundation)
      returns (calls: seq<Callback>, written: Option<Data>)
      requires kind.JSONKind? ==> JSONProcsSuffice(Procs(), isCancelled, Aggregate().completed, 1)
      modifies this`errors, completedRequestsCount
      ensures (Aggregate(), calls, written)
           == Processed(kind, old(Aggregate()), Procs(), isCancelled, response, data, error, foundation)
    {
      if kind.JSONKind? {
        calls := ProcessMultiResults(response, data, error, 1, foundation.jsonObject);
        written := None;
      } else {
        calls := AsCalls(Decode(kind, isCancelled, response, data, error, foundation));
        written := if kind.FileKind? then FileWriteAttempt(isCancelled, data) else None;
      }
    }
  }

  /**
   * What `processResults` produces for a request of the given kind: the new
   * aggregation, the callbacks invoked and the bytes handed to `Data.write`.
   * A JSON request takes one aggregation step as a single response (total 1);
   * the other kinds decode once and leave the aggregation alone.
   */
  function Processed(kind: Kind, agg: Aggregation, procs: JSONProcs, isCancelled: bool, response: Option<Response>,
                     data: Option<Data>, error: Option<Error>, foundation: Foundation)
    : (Aggregation, seq<Callback>, Option<Data>)
  {
    if kind.JSONKind? then
      var step := JSONStep(agg, procs, isCancelled, response, JSONResult(data, error, foundation.jsonObject), 1);
      (step.0, step.1, None)
    else
      (agg, AsCalls(Decode(kind, isCancelled, response, data, error, foundation)),
       if kind.FileKind? then FileWriteAttempt(isCancelled, data) else None)
  }

  function AsCalls(call: Option<Callback>): (calls: seq<Callback>)
    ensures |calls| <= 1 && (calls == [] <==> call.None?)
  {
    match call
    case None => []
    case Some(c) => [c]
  }

  // ---------------------------------------------------------------------------
  // Per-kind result processing for the kinds other than JSON.

  /** Data: response, data and error passed through, unless cancelled. */
  function ProcessDataResults(isCancelled: bool, response: Option<Response>, data: Option<Data>,
                              error: Option<Error>): (call: Option<Callback>)
    ensures call.None? <==> isCancelled
    ensures call.Some? ==> call.value.DataCompletion? && call.value.response == response
                           && call.value.data == data && call.value.error == error
  {
    if isCancelled then None else Some(DataCompletion(response, data, error))
  }

  /** Head: response and error passed through, unless cancelled. */
  function ProcessHeadResults(isCancelled: bool, response: Option<Response>, error: Option<Error>): (call: Option<Callback>)
    ensures call.None? <==> isCancelled
    ensures call.Some? ==> call.value.HeadCompletion? && call.value.response == response && call.value.error == error
  {
    if isCancelled then None else Some(HeadCompletion(response, error))
  }

  /** Success: response and error passed through, unless cancelled. */
  function ProcessSuccessResults(isCancelled: bool, response: Option<Response>, error: Option<Error>): (call: Option<Callback>)
    ensures call.None? <==> isCancelled
    ensures call.Some? ==> call.value.SuccessCompletion? && call.value.response == response && call.value.error == error
  {
    if isCancelled then None else Some(SuccessCompletion(response, error))
  }

  /**
   * The integer decoding: with no data, no value and the transport error; with
   * data, the parsed integer of its UTF-8 text (and the transport error), or no
   * value and `unableToProcessResponseData` when the data is not UTF-8 or not an
   * integer.
   */
  function IntegerResult(data: Option<Data>, error: Option<Error>, foundation: Foundation)
    : (r: (Option<int>, Option<Error>))
    ensures data.None? ==> r == (None, error)
    ensures data.Some? && foundation.utf8String(data.value).None? ==> r == (None, Some(UnableToProcessResponseData))
    ensures data.Some? && foundation.utf8String(data.value).Some? ==>
              var parsed := foundation.integer(foundation.utf8String(data.value).value);
              r.0 == parsed && r.1 == (if parsed.None? then Some(UnableToProcessResponseData) else error)
  {
    var value :=
      if data.Some? && foundation.utf8String(data.value).Some?
      then foundation.integer(foundation.utf8String(data.value).value)
      else None;
    var returnError := if data.Some? && value.None? then Some(UnableToProcessResponseData) else error;
    (value, returnError)
  }

  function ProcessIntegerResults(isCancelled: bool, response: Option<Response>, data: Option<Data>,
                                 error: Option<Error>, foundation: Foundation): (call: Option<Callback>)
    ensures call.None? <==> isCancelled
    ensures call.Some? ==> call.value.IntegerCompletion? && call.value.response == response
                           && (call.value.value, call.value.error) == IntegerResult(data, error, foundation)
  {
    if isCancelled then None
    else
      var r := IntegerResult(data, error, foundation);
      Some(IntegerCompletion(response, r.0, r.1))
  }

  /**
   * The string decoding: with data, its UTF-8 text and the transport error, or
   * no string and `unableToProcessResponseData` when it is not UTF-8; with no
   * data, no string and the transport error.
   */
  function StringResult(data: Option<Data>, error: Option<Error>, foundation: Foundation)
    : (r: (Option<string>, Option<Error>))
    ensures data.None? ==> r == (None, error)
    ensures data.Some? ==> r.0 == foundation.utf8String(data.value)
    ensures data.Some? ==> r.1 == (if r.0.None? then Some(UnableToProcessResponseData) else error)
  {
    var text := if data.Some? then foundation.utf8String(data.value) else None;
    var returnError := if data.Some? && text.None? then Some(UnableToProcessResponseData) else error;
    (text, returnError)
  }

  function ProcessStringResults(isCancelled: bool, response: Option<Response>, data: Option<Data>,
                                error: Option<Error>, foundation: Foundation): (call: Option<Callback>)
    ensures call.None? <==> isCancelled
    ensures call.Some? ==> call.value.StringCompletion? && call.value.response == response
                           && (call.value.text, call.value.error) == StringResult(data, error, foundation)
  {
    if isCancelled then None
    else
      var r := StringResult(data, error, foundation);
      Some(StringCompletion(response, r.0, r.1))
  }

  /**
   * The file error: with data, the outcome of writing it to the destination
   * (no error on success even when the transport reported one); with no data,
   * the transport error.
   */
  function FileResult(data: Option<Data>, error: Option<Error>, destinationURL: string, foundation: Foundation)
    : (r: Option<Error>)
    ensures data.Some? ==> r == foundation.write(data.value, destinationURL)
    ensures data.None? ==> r == error
  {
    if data.Some? then foundation.write(data.value, destinationURL) else error
  }

  /** The bytes written to the destination: the data, only when not cancelled and present. */
  function FileWriteAttempt(isCancelled: bool, data: Option<Data>): (written: Option<Data>)
    ensures written.Some? <==> !isCancelled && data.Some?
    ensures written.Some? ==> written == data
  {
    if isCancelled then None else data
  }

  function ProcessFileResults(isCancelled: bool, response: Option<Response>, data: Option<Data>,
                              error: Option<Error>, destinationURL: string, foundation: Foundation)
    : (call: Option<Callback>)
    ensures call.None? <==> isCancelled
    ensures call.Some? ==> call.value.FileCompletion? && call.value.response == response
                           && call.value.error == FileResult(data, error, destinationURL, foundation)
  {
    if isCancelled then None
    else Some(FileCompletion(response, FileResult(data, error, destinationURL, foundation)))
  }

  /** Result processing for every kind but JSON, dispatched on the kind. */
  function Decode(kind: Kind, isCancelled: bool, response: Option<Response>, data: Option<Data>,
                  error: Option<Error>, foundation: Foundation): Option<Callback>
  {
    match kind
    case DataKind => ProcessDataResults(isCancelled, response, data, error)
    case FileKind(destinationURL) => ProcessFileResults(isCancelled, response, data, error, destinationURL, foundation)
    case HeadKind => ProcessHeadResults(isCancelled, response, error)
    case IntegerKind => ProcessIntegerResults(isCancelled, response, data, error, foundation)
    case StringKind => ProcessStringResults(isCancelled, response, data, error, foundation)
    case SuccessKind => ProcessSuccessResults(isCancelled, response, error)
    case JSONKind => None
  }

  /** Every kind but JSON invokes its callback exactly once when not cancelled, and never when cancelled. */
  lemma DecodeCallsOnceUnlessCancelled(kind: Kind, isCancelled: bool, response: Option<Response>,
                                       data: Option<Data>, error: Option<Error>, foundation: Foundation)
    requires !kind.JSONKind?
    ensures Decode(kind, isCancelled, response, data, error, foundation).Some? <==> !isCancelled
  {
  }

  /**
   * A transport error is reported as is by the decoding kinds whenever the body
   * decodes: the decode error `unableToProcessResponseData` replaces it only when
   * data is present and does not decode, and then there is no value.
   */
  lemma {:induction false} DecodeErrorIsExclusive(data: Option<Data>, error: Option<Error>, foundation: Foundation)
    requires error != Some(UnableToProcessResponseData)
    ensures var r := IntegerResult(data, error, foundation);
            (r.1 == Some(UnableToProcessResponseData) <==> data.Some? && r.0.None?)
            && (r.1 != Some(UnableToProcessResponseData) ==> r.1 == error)
    ensures var r := StringResult(data, error, foundation);
            (r.1 == Some(UnableToProcessResponseData) <==> data.Some? && r.0.None?)
            && (r.1 != Some(UnableToProcessResponseData) ==> r.1 == error)
  {
    var ri := IntegerResult(data, error, foundation);
    var rs := StringResult(data, error, foundation);
    if data.Some? {
      if foundation.utf8String(data.value).Some? {
        assert ri.1 == (if ri.0.None? then Some(UnableToProcessResponseData) else error);
      }
    }
  }

  // ---------------------------------------------------------------------------
  // JSON result processing and multi-response aggregation.

  /**
   * The JSON decoding: the value and no error when the data deserialises to the
   * expected type; the thrown error, or `unableToProcessResponseData` when the
   * document is not of the expected type; the transport error when there is no data.
   */
  function JSONResult(data: Option<Data>, error: Option<Error>, jsonObject: Data -> JSONParse)
    : (r: (Option<JSONValue>, Option<Error>))
    ensures data.None? ==> r == (None, error)
    ensures data.Some? ==> (r.0.Some? <==> r.1.None?)
    ensures data.Some? && jsonObject(data.value).Parsed? ==> r.0 == Some(jsonObject(data.value).info)
    ensures data.Some? && jsonObject(data.value).Threw? ==> r.1 == Some(jsonObject(data.value).error)
    ensures data.Some? && jsonObject(data.value).NotExpectedType? ==> r.1 == Some(UnableToProcessResponseData)
  {
    if data.None? then (None, error)
    else
      match jsonObject(data.value)
      case Threw(e) => (None, Some(e))
      case NotExpectedType => (None, Some(UnableToProcessResponseData))
      case Parsed(info) => (Some(info), None)
  }

  /** Which of the JSON request's three procs are set. */
  datatype JSONProcs = JSONProcs(completion: bool, partialResults: bool, multiCompletion: bool)

  /** The accumulated error list and the completed-requests counter. */
  datatype Aggregation = Aggregation(errors: seq<Error>, completed: int)

  /** The procs the source force-unwraps on the path a call takes are set (Swift traps otherwise). */
  predicate JSONProcsSuffice(procs: JSONProcs, isCancelled: bool, completed: int, totalRequests: int) {
    !isCancelled ==>
      if totalRequests == 1 then procs.completion || (procs.partialResults && procs.multiCompletion)
      else procs.partialResults && (completed + 1 == totalRequests ==> procs.multiCompletion)
  }

  /**
   * One JSON completion: a non-nil error is appended to the list before the
   * cancellation check; a cancelled request calls nothing and leaves the counter.
   * With one expected response the single-response proc is called if set, else
   * the partial proc and then the final proc with the errors. With several, the
   * partial proc is called, the counter goes up by one, and the final proc is
   * called exactly when the counter reaches the total.
   */
  function JSONStep(agg: Aggregation, procs: JSONProcs, isCancelled: bool, response: Option<Response>,
                    result: (Option<JSONValue>, Option<Error>), totalRequests: int)
    : (r: (Aggregation, seq<Callback>))
    ensures r.0.errors == agg.errors + (if result.1.Some? then [result.1.value] else [])
    ensures isCancelled ==> r == (Aggregation(r.0.errors, agg.completed), [])
    ensures !isCancelled && totalRequests == 1 ==>
              r.0.completed == agg.completed
              && r.1 == (if procs.completion then [JSONCompletion(response, result.0, result.1)]
                         else [JSONPartialResults(response, result.0, result.1), JSONMultiCompletion(r.0.errors)])
    ensures !isCancelled && totalRequests != 1 ==>
              r.0.completed == agg.completed + 1
              && |r.1| > 0 && r.1[0] == JSONPartialResults(response, result.0, result.1)
              && (r.1 == [r.1[0]] || r.1 == [r.1[0], JSONMultiCompletion(r.0.errors)])
              && (|r.1| == 2 <==> r.0.completed == totalRequests)
  {
    var errors := agg.errors + (if result.1.Some? then [result.1.value] else []);
    if isCancelled then (Aggregation(errors, agg.completed), [])
    else if totalRequests == 1 then
      if procs.completion then (Aggregation(errors, agg.completed), [JSONCompletion(response, result.0, result.1)])
      else (Aggregation(errors, agg.completed),
            [JSONPartialResults(response, result.0, result.1), JSONMultiCompletion(errors)])
    else
      var completed := agg.completed + 1;
      var partial := [JSONPartialResults(response, result.0, result.1)];
      (Aggregation(errors, completed),
       if completed == totalRequests then partial + [JSONMultiCompletion(errors)] else partial)
  }

  /** The decoded outcome of one transport call of a multi-response submission. */
  datatype JSONCall = JSONCall(response: Option<Response>, result: (Option<JSONValue>, Option<Error>))

  /** Successive JSON completions of one request, folded from the first to the last. */
  function JSONRun(agg: Aggregation, procs: JSONProcs, isCancelled: bool, calls: seq<JSONCall>, totalRequests: int)
    : (Aggregation, seq<Callback>)
  {
    if |calls| == 0 then (agg, [])
    else
      var before := JSONRun(agg, procs, isCancelled, calls[..|calls| - 1], totalRequests);
      var last := calls[|calls| - 1];
      var step := JSONStep(before.0, procs, isCancelled, last.response, last.result, totalRequests);
      (step.0, before.1 + step.1)
  }

  /** The non-nil errors of the calls, in order. */
  function ErrorsOf(calls: seq<JSONCall>): seq<Error>
  {
    if |calls| == 0 then []
    else
      var last := calls[|calls| - 1];
      ErrorsOf(calls[..|calls| - 1]) + (if last.result.1.Some? then [last.result.1.value] else [])
  }

  /** The partial-results invocations of the calls, in order. */
  function PartialsOf(calls: seq<JSONCall>): (r: seq<Callback>)
    ensures |r| == |calls|
  {
    if |calls| == 0 then []
    else
      var last := calls[|calls| - 1];
      PartialsOf(calls[..|calls| - 1]) + [JSONPartialResults(last.response, last.result.0, last.result.1)]
  }

  /**
   * Aggregation over N > 1 expected responses, from a fresh request: after the
   * first k <= N completions, each has invoked the partial proc once, in order;
   * the final proc has been invoked only if k == N, then exactly once, last,
   * with every error reported so far.
   */
  lemma {:induction false} JSONAggregationCompletes(procs: JSONProcs, calls: seq<JSONCall>, totalRequests: int)
    requires totalRequests > 1 && |calls| <= totalRequests
    ensures JSONRun(Aggregation([], 0), procs, false, calls, totalRequests)
         == (Aggregation(ErrorsOf(calls), |calls|),
             PartialsOf(calls) + (if |calls| == totalRequests then [JSONMultiCompletion(ErrorsOf(calls))] else []))
    decreases |calls|
  {
    if |calls| > 0 {
      var init, last := calls[..|calls| - 1], calls[|calls| - 1];
      JSONAggregationCompletes(procs, init, totalRequests);
      var before := JSONRun(Aggregation([], 0), procs, false, init, totalRequests);
      var step := JSONStep(before.0, procs, false, last.response, last.result, totalRequests);
      assert before.0 == Aggregation(ErrorsOf(init), |init|);
      assert step.0 == Aggregation(ErrorsOf(calls), |calls|);
      assert PartialsOf(calls) == PartialsOf(init) + [JSONPartialResults(last.response, last.result.0, last.result.1)];
      assert JSONRun(Aggregation([], 0), procs, false, calls, totalRequests) == (step.0, before.1 + step.1);
      assert before.1 == PartialsOf(init);
      if |calls| == totalRequests {
        assert step.1 == [JSONPartialResults(last.response, last.result.0, last.result.1), JSONMultiCompletion(ErrorsOf(calls))];
        assert PartialsOf(calls) + [JSONMultiCompletion(ErrorsOf(calls))] == before.1 + step.1;
      } else {
        assert step.1 == [JSONPartialResults(last.response, last.result.0, last.result.1)];
        assert PartialsOf(calls) + [] == before.1 + step.1;
      }
    } else {
      assert PartialsOf(calls) + [] == [];
    }
  }

  /** A cancelled request invokes no proc, however many completions arrive, though it still collects errors. */
  lemma {:induction false} JSONCancelledCallsNothing(agg: Aggregation, procs: JSONProcs, calls: seq<JSONCall>,
                                                     totalRequests: int)
    ensures JSONRun(agg, procs, true, calls, totalRequests)
         == (Aggregation(agg.errors + ErrorsOf(calls), agg.completed), [])
    decreases |calls|
  {
    if |calls| > 0 {
      var init, last := calls[..|calls| - 1], calls[|calls| - 1];
      JSONCancelledCallsNothing(agg, procs, init, totalRequests);
      var before := JSONRun(agg, procs, true, init, totalRequests);
      var step := JSONStep(before.0, procs, true, last.response, last.result, totalRequests);
      assert step.0.errors == agg.errors + ErrorsOf(init) + (if last.result.1.Some? then [last.result.1.value] else []);
      assert agg.errors + ErrorsOf(calls) == agg.errors + ErrorsOf(init) + (if last.result.1.Some? then [last.result.1.value] else []);
      assert JSONRun(agg, procs, true, calls, totalRequests) == (step.0, before.1 + step.1);
      assert before.1 + step.1 == [];
      assert step.0 == Aggregation(agg.errors + ErrorsOf(calls), agg.completed);
    } else {
      assert agg.errors + ErrorsOf(calls) == agg.errors;
    }
  }
}
