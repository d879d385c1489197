/**
 * The measurement-ingest Lambda handler: CORS preflight, payload-size
 * admission, optional base64 decoding, construction of the fixed
 * 20-field measurement record, and its write to object storage under a
 * key derived from the processing time.
 *
 * The base64 decoder, the form parser, the clock and the storage service
 * are not modelled themselves: the decoder and parser are function
 * parameters, the clock readings are a `Clock` value and the store is an
 * `ObjectStore` object whose writes either succeed or raise an injected fault.
 */
module RouteData {
  import opened Wrappers

  /** Largest admitted body: 10 * 2^20 characters. */
  const MAX_PAYLOAD_SIZE: nat := 10 * 0x10_0000

  /** A value in a response body (the dict that `json.dumps` serialises). */
  datatype Value = Str(s: string) | Int(i: int)

  /** A JSON object before serialisation. */
  type Dict = map<string, Value>

  /** What `urllib.parse.parse_qs` returns: every key present has at least one value. */
  type Form = m: map<string, seq<string>> | forall k :: k in m ==> |m[k]| > 0 witness map[]

  /** `requestContext.http`; a missing block reads as all fields absent. */
  datatype HttpContext = HttpContext(
    httpMethod: Option<string>,
    sourceIp: Option<string>,
    userAgent: Option<string>)

  /** `requestContext`; a missing block reads as all fields absent. */
  datatype RequestContext = RequestContext(
    http: HttpContext,
    time: Option<string>,
    timeEpoch: Option<int>)

  /**
   * The Lambda event. A missing `headers` object reads as the empty map and
   * a missing `isBase64Encoded` as false; `body` is None when the key is absent.
   */
  datatype Event = Event(
    headers: map<string, string>,
    requestContext: RequestContext,
    body: Option<string>,
    isBase64Encoded: bool)

  /** The two readings of the wall clock: `now().isoformat()` and `now().strftime("%Y%m%d-%H%M%S")`. */
  datatype Clock = Clock(isoNow: string, stamp: string)

  /** A handler response; `headers` is None when the dict has no `headers` entry, `body` likewise. */
  datatype Response = Response(statusCode: int, headers: Option<map<string, string>>, body: Option<Dict>)

  const ALLOW_HEADERS := "Access-Control-Allow-Headers"
  const ALLOW_METHODS := "Access-Control-Allow-Methods"
  const ALLOW_ORIGIN := "Access-Control-Allow-Origin"

  const PREFLIGHT_BODY: Dict := map["message" := Str("CORS preflight request successful")]

  function TooLargeBody(receivedSize: nat): Dict
  {
    map["message" := Str("Payload too large"),
        "max_size" := Int(MAX_PAYLOAD_SIZE),
        "received_size" := Int(receivedSize)]
  }

  function ErrorBody(error: string): Dict
  {
    map["message" := Str("Error processing data"), "error" := Str(error)]
  }

  /** `str(e)` of the KeyError raised by `event["body"]` and by `os.environ["OUTPUT_BUCKET"]`. */
  const MISSING_BODY_ERROR := "'body'"
  const MISSING_BUCKET_ERROR := "'OUTPUT_BUCKET'"

  // ---------------------------------------------------------------------
  // Response builder
  // ---------------------------------------------------------------------

  /** The origin the caller declared: lower-case `origin` first, then `Origin`, else "". */
  function RequestOrigin(headers: map<string, string>): (origin: string)
    ensures "origin" in headers ==> origin == headers["origin"]
    ensures "origin" !in headers && "Origin" in headers ==> origin == headers["Origin"]
    ensures "origin" !in headers && "Origin" !in headers ==> origin == ""
  {
    if "origin" in headers then headers["origin"]
    else if "Origin" in headers then headers["Origin"]
    else ""
  }

  /**
   * The CORS header set: the fixed allow-headers/allow-methods pair, and
   * allow-origin exactly when the origin is a member of the allow-list,
   * then equal to that origin.
   */
  predicate IsCorsHeaders(h: map<string, string>, origin: string, allowedOrigins: seq<string>)
  {
    && ALLOW_HEADERS in h && h[ALLOW_HEADERS] == "Content-Type"
    && ALLOW_METHODS in h && h[ALLOW_METHODS] == "OPTIONS,POST"
    && (ALLOW_ORIGIN in h <==> origin in allowedOrigins)
    && (ALLOW_ORIGIN in h ==> h[ALLOW_ORIGIN] == origin)
    && h.Keys <= {ALLOW_HEADERS, ALLOW_METHODS, ALLOW_ORIGIN}
  }

  /** The response carries the CORS headers for this event's origin. */
  predicate HasCors(r: Response, event: Event, allowedOrigins: seq<string>)
  {
    r.headers.Some? && IsCorsHeaders(r.headers.value, RequestOrigin(event.headers), allowedOrigins)
  }

  /**
   * `create_response`: CORS headers for the event's origin; a body only when
   * the supplied dict is non-empty (a missing dict is passed as the empty map).
   */
  method CreateResponse(event: Event, allowedOrigins: seq<string>, statusCode: int, body: Dict)
    returns (r: Response)
    ensures r.statusCode == statusCode
    ensures HasCors(r, event, allowedOrigins)
    ensures r.body.Some? <==> |body| > 0
    ensures r.body.Some? ==> r.body.value == body
  {
    var origin := RequestOrigin(event.headers);
    var corsHeaders := map[ALLOW_HEADERS := "Content-Type", ALLOW_METHODS := "OPTIONS,POST"];
    if origin in allowedOrigins {
      corsHeaders := corsHeaders[ALLOW_ORIGIN := origin];
    }
    r := Response(statusCode, Some(corsHeaders), None);
    if |body| > 0 {
      r := r.(body := Some(body));
    }
  }

  // ---------------------------------------------------------------------
  // Stages of the non-preflight path
  // ---------------------------------------------------------------------

  /** The preflight test: `requestContext.http.method` is exactly "OPTIONS". */
  predicate IsPreflight(event: Event)
  {
    event.requestContext.http.httpMethod == Some("OPTIONS")
  }

  /** The admission guard: strictly more than MAX_PAYLOAD_SIZE characters is too large. */
  predicate TooLarge(body: string)
  {
    |body| > MAX_PAYLOAD_SIZE
  }

  /** The body decoder: base64 and UTF-8 decoding only when the event says the body is encoded. */
  function DecodeBody(body: string, isBase64Encoded: bool, b64decode: string -> Result<string, string>)
    : (r: Result<string, string>)
    ensures !isBase64Encoded ==> r == Success(body)
    ensures isBase64Encoded ==> r == b64decode(body)
  {
    if isBase64Encoded then b64decode(body) else Success(body)
  }

  /** `parsed_body.get(key, [""])[0]`: the first value of `key`, or "" when it is absent. */
  function FirstOr(form: Form, key: string): (v: string)
    ensures key !in form ==> v == ""
    ensures key in form ==> v == form[key][0]
  {
    if key in form then form[key][0] else ""
  }

  /** `headers.get(name)`: the header's value, or None when it is absent. */
  function Lookup(headers: map<string, string>, name: string): (v: Option<string>)
    ensures v.Some? <==> name in headers
    ensures v.Some? ==> v.value == headers[name]
  {
    if name in headers then Some(headers[name]) else None
  }

  /** `d.get(key, "")`. */
  function OrEmpty(v: Option<string>): string
  {
    match v
    case Some(s) => s
    case None => ""
  }

  /**
   * The measurement record. Each field is one key of the JSON object that
   * is written (`download_size` is `downloadSize`, and so on); None is null.
   */
  datatype MeasurementRecord = MeasurementRecord(
    download: string, upload: string, ping: string, jitter: string,
    userAgent: string, downloadSize: string, uploadSize: string,
    contentLength: Option<string>, origin: string, headerUserAgent: string,
    xForwardedFor: string, xForwardedPort: string,
    sourceIp: string, sourceUserAgent: string,
    timeOfTest: Option<string>, epochOfTest: Option<int>, timeProcessed: string,
    origBody: string, decodedBody: string, isBase64Encoded: bool)

  /** The form keys read, in the order of the fields they fill. */
  const FORM_KEYS: seq<string> := ["d", "u", "p", "jit", "ua", "dd", "ud"]

  /** download, upload, ping, jitter, user_agent, download_size, upload_size. */
  function FormFields(r: MeasurementRecord): seq<string>
  {
    [r.download, r.upload, r.ping, r.jitter, r.userAgent, r.downloadSize, r.uploadSize]
  }

  /** The first value (or "") of each of FORM_KEYS, in order. */
  function FirstValues(form: Form): (vs: seq<string>)
    ensures |vs| == |FORM_KEYS|
    ensures forall i :: 0 <= i < |FORM_KEYS| ==>
      vs[i] == (if FORM_KEYS[i] in form then form[FORM_KEYS[i]][0] else "")
  {
    [FirstOr(form, "d"), FirstOr(form, "u"), FirstOr(form, "p"), FirstOr(form, "jit"),
     FirstOr(form, "ua"), FirstOr(form, "dd"), FirstOr(form, "ud")]
  }

  /**
   * The record builder. Each form field is the first value of its key, or
   * "" when the key is absent; a missing header or request-context entry is
   * "" except for `content_length`, `time_of_test` and `epoch_of_test`,
   * which are null.
   */
  function BuildRecord(
    form: Form, headers: map<string, string>, context: RequestContext, timeProcessed: string,
    body: string, decodedBody: string, isBase64Encoded: bool): (r: MeasurementRecord)
    ensures FormFields(r) == FirstValues(form)
    ensures r.contentLength == (if "content-length" in headers then Some(headers["content-length"]) else None)
    ensures r.origin == (if "origin" in headers then headers["origin"] else "")
    ensures r.headerUserAgent == (if "user-agent" in headers then headers["user-agent"] else "")
    ensures r.xForwardedFor == (if "x-forwarded-for" in headers then headers["x-forwarded-for"] else "")
    ensures r.xForwardedPort == (if "x-forwarded-port" in headers then headers["x-forwarded-port"] else "")
    ensures r.sourceIp == (if context.http.sourceIp.Some? then context.http.sourceIp.value else "")
    ensures r.sourceUserAgent == (if context.http.userAgent.Some? then context.http.userAgent.value else "")
    ensures r.timeOfTest == context.time && r.epochOfTest == context.timeEpoch
    ensures r.timeProcessed == timeProcessed
    ensures r.origBody == body && r.decodedBody == decodedBody && r.isBase64Encoded == isBase64Encoded
  {
    MeasurementRecord(
      download := FirstOr(form, "d"),
      upload := FirstOr(form, "u"),
      ping := FirstOr(form, "p"),
      jitter := FirstOr(form, "jit"),
      userAgent := FirstOr(form, "ua"),
      downloadSize := FirstOr(form, "dd"),
      uploadSize := FirstOr(form, "ud"),
      contentLength := Lookup(headers, "content-length"),
      origin := OrEmpty(Lookup(headers, "origin")),
      headerUserAgent := OrEmpty(Lookup(headers, "user-agent")),
      xForwardedFor := OrEmpty(Lookup(headers, "x-forwarded-for")),
      xForwardedPort := OrEmpty(Lookup(headers, "x-forwarded-port")),
      sourceIp := OrEmpty(context.http.sourceIp),
      sourceUserAgent := OrEmpty(context.http.userAgent),
      timeOfTest := context.time,
      epochOfTest := context.timeEpoch,
      timeProcessed := timeProcessed,
      origBody := body,
      decodedBody := decodedBody,
      isBase64Encoded := isBase64Encoded)
  }

  // ---------------------------------------------------------------------
  // Storage key
  // ---------------------------------------------------------------------

  const KEY_INFIX := "/processed_data_"
  const KEY_SUFFIX := ".json"

  /** `f"{timestamp[0:8]}/processed_data_{timestamp}.json"` (a Python slice never fails). */
  function StorageKey(stamp: string): (key: string)
    ensures var p := if |stamp| < 8 then |stamp| else 8;
      && |key| == p + |KEY_INFIX| + |stamp| + |KEY_SUFFIX|
      && key[..p] == stamp[..p]
      && key[p..p + |KEY_INFIX|] == KEY_INFIX
      && key[p + |KEY_INFIX|..|key| - |KEY_SUFFIX|] == stamp
      && key[|key| - |KEY_SUFFIX|..] == KEY_SUFFIX
  {
    stamp[..if |stamp| < 8 then |stamp| else 8] + KEY_INFIX + stamp + KEY_SUFFIX
  }

  /** Recovers the timestamp from a key made from a timestamp of at least 8 characters. */
  function StampOfKey(key: string): string
  {
    if |key| < 8 + |KEY_INFIX| + |KEY_SUFFIX| then ""
    else key[8 + |KEY_INFIX|..|key| - |KEY_SUFFIX|]
  }

  /**
   * For a `YYYYMMDD-HHMMSS` (or any 8-or-more character) timestamp the key
   * is the date folder, `/processed_data_`, the timestamp and `.json`, and
   * the timestamp can be read back from the key.
   */
  lemma StorageKeyShape(stamp: string)
    requires |stamp| >= 8
    ensures var key := StorageKey(stamp);
      && key == stamp[0..8] + "/processed_data_" + stamp + ".json"
      && |key| == |stamp| + 29
      && key[..8] == stamp[..8] && key[8] == '/'
      && StampOfKey(key) == stamp
  {
  }

  /**
   * Two requests write to the same object exactly when they were processed
   * at the same timestamp: the known same-second collision, and no other.
   */
  lemma StorageKeyCollision(a: string, b: string)
    requires |a| >= 8 && |b| >= 8
    ensures StorageKey(a) == StorageKey(b) <==> a == b
  {
    if StorageKey(a) == StorageKey(b) {
      StorageKeyShape(a);
      StorageKeyShape(b);
    }
  }

  // ---------------------------------------------------------------------
  // The handler as a state machine
  // ---------------------------------------------------------------------

  /** Where a request ends before the storage write (or the write it asks for). */
  datatype Step =
    | Preflight
    | Rejected(receivedSize: nat)
    | Failed(error: string)
    | Write(bucket: string, key: string, record: MeasurementRecord)

  /**
   * The path `main` takes: preflight before anything else; then the body
   * (its absence raises), the size guard, the decoder, the record, the
   * storage client (`clientError` is what creating it raises, if anything)
   * and the bucket name, each failure ending the path with its error text.
   */
  function Plan(
    event: Event, clientError: Option<string>, bucket: Option<string>, clock: Clock,
    b64decode: string -> Result<string, string>, parseQs: string -> Form): (s: Step)
    ensures IsPreflight(event) ==> s == Preflight
    ensures !IsPreflight(event) && event.body.None? ==> s == Failed(MISSING_BODY_ERROR)
    ensures s.Rejected? <==> !IsPreflight(event) && event.body.Some? && TooLarge(event.body.value)
    ensures s.Rejected? ==> s.receivedSize == |event.body.value| > MAX_PAYLOAD_SIZE
    ensures !IsPreflight(event) && event.body.Some? && !TooLarge(event.body.value) ==>
      var body := event.body.value;
      var decoded := DecodeBody(body, event.isBase64Encoded, b64decode);
      s == (if decoded.Failure? then Failed(decoded.error)
            else if clientError.Some? then Failed(clientError.value)
            else if bucket.None? then Failed(MISSING_BUCKET_ERROR)
            else Write(bucket.value, StorageKey(clock.stamp), BuildRecord(
              parseQs(decoded.value), event.headers, event.requestContext, clock.isoNow,
              body, decoded.value, event.isBase64Encoded)))
    ensures s.Write? ==>
      && !IsPreflight(event) && event.body.Some? && |event.body.value| <= MAX_PAYLOAD_SIZE
      && clientError.None? && Some(s.bucket) == bucket
      && s.key == StorageKey(clock.stamp)
      && FormFields(s.record) == FirstValues(parseQs(s.record.decodedBody))
      && s.record.timeProcessed == clock.isoNow
      && s.record.origBody == event.body.value
      && s.record.isBase64Encoded == event.isBase64Encoded
      && (!event.isBase64Encoded ==> s.record.decodedBody == event.body.value)
  {
    if IsPreflight(event) then Preflight
    else match event.body
      case None => Failed(MISSING_BODY_ERROR)
      case Some(body) =>
        if TooLarge(body) then Rejected(|body|)
        else match DecodeBody(body, event.isBase64Encoded, b64decode)
          case Failure(e) => Failed(e)
          case Success(decoded) =>
            var data := BuildRecord(
              parseQs(decoded), event.headers, event.requestContext, clock.isoNow,
              body, decoded, event.isBase64Encoded);
            match clientError
            case Some(e) => Failed(e)
            case None =>
              match bucket
              case None => Failed(MISSING_BUCKET_ERROR)
              case Some(b) => Write(b, StorageKey(clock.stamp), data)
  }

  /** A preflight never reads the body, the decoder, the parser, the clock, the client or the bucket. */
  lemma PreflightDependsOnNothingElse(
    event: Event, body: Option<string>,
    clientError: Option<string>, clientError': Option<string>,
    bucket: Option<string>, bucket': Option<string>,
    clock: Clock, clock': Clock,
    b64decode: string -> Result<string, string>, b64decode': string -> Result<string, string>,
    parseQs: string -> Form, parseQs': string -> Form)
    requires IsPreflight(event)
    ensures Plan(event, clientError, bucket, clock, b64decode, parseQs)
         == Plan(event.(body := body), clientError', bucket', clock', b64decode', parseQs')
  {
  }

  /** A rejected body is never decoded or parsed, and no client, bucket or clock is consulted. */
  lemma RejectionDependsOnlyOnSize(
    event: Event, clientError: Option<string>, clientError': Option<string>,
    bucket: Option<string>, bucket': Option<string>,
    clock: Clock, clock': Clock,
    b64decode: string -> Result<string, string>, b64decode': string -> Result<string, string>,
    parseQs: string -> Form, parseQs': string -> Form)
    requires Plan(event, clientError, bucket, clock, b64decode, parseQs).Rejected?
    ensures Plan(event, clientError', bucket', clock', b64decode', parseQs')
         == Plan(event, clientError, bucket, clock, b64decode, parseQs)
  {
  }

  /** An un-encoded body is never passed to the decoder. */
  lemma PlainBodyIsNotDecoded(
    event: Event, clientError: Option<string>, bucket: Option<string>, clock: Clock,
    b64decode: string -> Result<string, string>, b64decode': string -> Result<string, string>,
    parseQs: string -> Form)
    requires !event.isBase64Encoded
    ensures Plan(event, clientError, bucket, clock, b64decode, parseQs)
         == Plan(event, clientError, bucket, clock, b64decode', parseQs)
  {
  }

  /**
   * Only the first value of the seven form keys reaches the record: later
   * values of those keys, and every other key, are ignored.
   */
  lemma RecordReadsOnlyFirstValues(
    form: Form, form': Form, headers: map<string, string>, context: RequestContext,
    timeProcessed: string, body: string, decodedBody: string, isBase64Encoded: bool)
    requires FirstValues(form) == FirstValues(form')
    ensures BuildRecord(form, headers, context, timeProcessed, body, decodedBody, isBase64Encoded)
         == BuildRecord(form', headers, context, timeProcessed, body, decodedBody, isBase64Encoded)
  {
  }

  // ---------------------------------------------------------------------
  // Storage sink and the handler itself
  // ---------------------------------------------------------------------

  /** An object as written by `put_object`: the record (before `json.dumps`) and its content type. */
  datatype StoredObject = StoredObject(body: MeasurementRecord, contentType: string)

  /**
   * The object store. `fault` is the error a write raises (None: writes
   * succeed), standing in for an unreachable service or a refused write.
   */
  class ObjectStore {
    var objects: map<(string, string), StoredObject>
    var fault: Option<string>

    constructor (fault: Option<string>)
      ensures objects == map[] && this.fault == fault
    {
      objects := map[];
      this.fault := fault;
    }

    /** `put_object`: raise the fault, or store the object under (bucket, key), replacing any there. */
    method PutObject(bucket: string, key: string, body: MeasurementRecord, contentType: string) returns (err: Option<string>)
      modifies this
      ensures err == old(fault) && fault == old(fault)
      ensures objects == if err.None? then old(objects)[(bucket, key) := StoredObject(body, contentType)] else old(objects)
    {
      err := fault;
      if err.None? {
        objects := objects[(bucket, key) := StoredObject(body, contentType)];
      }
    }
  }

  /**
   * The response to a request on the path `s`, and the objects stored
   * afterwards (`before`: the objects the store held, `fault`: what a write
   * to it raises).
   */
  ghost predicate Answers(
    s: Step, event: Event, allowedOrigins: seq<string>, fault: Option<string>,
    before: map<(string, string), StoredObject>, r: Response, after: map<(string, string), StoredObject>)
  {
    match s
    case Preflight =>
      && r.statusCode == 200 && r.body == Some(PREFLIGHT_BODY) && HasCors(r, event, allowedOrigins)
      && after == before
    case Rejected(n) =>
      && r == Response(413, None, Some(TooLargeBody(n)))
      && after == before
    case Failed(e) =>
      && r.statusCode == 500 && r.body == Some(ErrorBody(e)) && HasCors(r, event, allowedOrigins)
      && after == before
    case Write(bucket, key, record) =>
      match fault
      case None =>
        && r.statusCode == 204 && r.body == None && HasCors(r, event, allowedOrigins)
        && after == before[(bucket, key) := StoredObject(record, "application/json")]
      case Some(e) =>
        && r.statusCode == 500 && r.body == Some(ErrorBody(e)) && HasCors(r, event, allowedOrigins)
        && after == before
  }

  /**
   * `main`: answers a preflight with 200; rejects an oversized body with a
   * 413 that carries no headers; otherwise writes the record and answers
   * 204 with no body, or answers 500 with the error text when anything on
   * the way raises. Only a write that succeeds changes the store. The pure
   * stages are computed by Plan; this method performs the write and builds
   * the response for the step Plan reaches. `clientError` is what creating
   * the storage client raises, if anything.
   */
  method Handle(
    event: Event, allowedOrigins: seq<string>, clientError: Option<string>, bucket: Option<string>,
    clock: Clock, b64decode: string -> Result<string, string>, parseQs: string -> Form,
    store: ObjectStore)
    returns (r: Response)
    modifies store
    ensures store.fault == old(store.fault)
    ensures Answers(Plan(event, clientError, bucket, clock, b64decode, parseQs), event, allowedOrigins,
                    old(store.fault), old(store.objects), r, store.objects)
  {
    var step := Plan(event, clientError, bucket, clock, b64decode, parseQs);
    match step
    case Preflight =>
      r := CreateResponse(event, allowedOrigins, 200, PREFLIGHT_BODY);
    case Rejected(payloadSize) =>
      r := Response(413, None, Some(TooLargeBody(payloadSize)));
    case Failed(e) =>
      r := CreateResponse(event, allowedOrigins, 500, ErrorBody(e));
    case Write(bucketName, key, data) =>
      var err := store.PutObject(bucketName, key, data, "application/json");
      if err.Some? {
        r := CreateResponse(event, allowedOrigins, 500, ErrorBody(err.value));
      } else {
        r := CreateResponse(event, allowedOrigins, 204, map[]);
      }
  }
}
