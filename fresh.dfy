/**
 * The transport core shared by the Freshdesk and Freshservice clients
 * (fresh/fresh.go): endpoint URLs, authentication of an outgoing request,
 * the decision one HTTP attempt makes about its response, list calls and
 * their "more pages" signal, request bodies (JSON, multipart, custom) and
 * downloads.
 *
 * The HTTP round trip itself is an input (`Exchange`): either the transport
 * failed, or a `Response` came back. What the JSON decoder would make of a
 * response body is part of that input too, and so are the retry predicate
 * the package uses by default and the integer parser applied to the
 * Retry-After header.
 */
module Fresh {
  import opened Wrappers
  import opened Text
  import FreshTime

  const ContentTypeJSON := "application/json; charset=\"utf-8\""

  /** One second, in the nanoseconds of a time.Duration. */
  const Second := 1_000_000_000

  type Int64 = x: int | -0x8000_0000_0000_0000 <= x < 0x8000_0000_0000_0000

  const MaxInt64: Int64 := 0x7FFF_FFFF_FFFF_FFFF

  /** A time.Duration: a signed 64-bit count of nanoseconds. */
  type Duration = Int64

  /** Two's-complement wrap-around of a 64-bit signed product. */
  function Wrap64(x: int): (r: Int64)
    ensures (x - r) % 0x1_0000_0000_0000_0000 == 0
    ensures -0x8000_0000_0000_0000 <= x < 0x8000_0000_0000_0000 ==> r == x
  {
    (x + 0x8000_0000_0000_0000) % 0x1_0000_0000_0000_0000 - 0x8000_0000_0000_0000
  }

  // ---------------------------------------------------------------------
  // Errors and query values

  datatype FieldError = FieldError(field: string, message: string, code: string)

  /** The fields of a ResultError that the JSON error body can fill in. */
  datatype ErrorDetail = ErrorDetail(description: string, errors: seq<FieldError>)

  const NoDetail := ErrorDetail("", [])

  datatype Error =
    | ResultError(statusCode: int, detail: ErrorDetail, retryAfter: Duration)
    | RetryError(cause: Error, after: Duration)
    | TransportError(reason: string)
    | DecodeError(reason: string)
    | EncodeError(reason: string)
    | FileError(path: string)
    | CallbackError(reason: string)
    | UrlError(reason: string)

  /** The error a retry wrapper carries, or the error itself. */
  function Unwrap(e: Error): Error {
    if e.RetryError? then e.cause else e
  }

  /** A value given to one of the Values setters (SetString, SetInt, SetInt64, SetTime). */
  datatype QueryValue = Str(s: string) | Int(i: int) | Moment(t: FreshTime.Time)

  /** The query parameters of a list call, by key. */
  type Values = map<string, QueryValue>

  /** The text set under a key, as a server reading the query would find it. */
  function StrAt(vs: Values, key: string): Option<string> {
    if key in vs && vs[key].Str? then Some(vs[key].s) else None
  }

  /** The integer set under a key. */
  function IntAt(vs: Values, key: string): Option<int> {
    if key in vs && vs[key].Int? then Some(vs[key].i) else None
  }

  /** The 64-bit integer set under a key (SetInt64). */
  function Int64At(vs: Values, key: string): Option<Int64> {
    if key in vs && vs[key].Int? && -0x8000_0000_0000_0000 <= vs[key].i < 0x8000_0000_0000_0000 then Some(vs[key].i) else None
  }

  // ---------------------------------------------------------------------
  // Client and endpoints

  datatype Client = Client(
    domain: string,
    apikey: string,
    username: string,
    password: string,
    maxRetries: int,
    retryAfter: Duration,
    shouldRetry: Option<Error -> bool>)

  function Base(c: Client): string {
    "https://" + c.domain + "/api/v2"
  }

  /** Client.Endpoint, for a path already formatted. */
  function Endpoint(c: Client, path: string): (url: string)
    ensures |url| == 15 + |c.domain| + |path|
    ensures url[..8] == "https://" && url[8..8 + |c.domain|] == c.domain
    ensures url[8 + |c.domain|..15 + |c.domain|] == "/api/v2" && url[15 + |c.domain|..] == path
  {
    Base(c) + path
  }

  /** Different paths on the same client give different URLs. */
  lemma EndpointInjective(c: Client, p: string, q: string)
    requires Endpoint(c, p) == Endpoint(c, q)
    ensures p == q
  {
    assert p == Endpoint(c, p)[15 + |c.domain|..];
  }

  /** Client.shouldRetry: the client's own predicate when it has one, otherwise the package default. */
  function ShouldRetry(c: Client, fallback: Error -> bool, e: Error): (r: bool)
    ensures c.shouldRetry.Some? ==> r == c.shouldRetry.value(e)
    ensures c.shouldRetry.None? ==> r == fallback(e)
  {
    match c.shouldRetry
    case Some(f) => f(e)
    case None => fallback(e)
  }

  /** Client.call on a transport failure: wrapped for retry with the client's delay, or returned as it is. */
  function CallError(c: Client, fallback: Error -> bool, reason: string): (r: Error)
    ensures Unwrap(r) == TransportError(reason)
    ensures r.RetryError? <==> ShouldRetry(c, fallback, TransportError(reason))
    ensures r.RetryError? ==> r.after == c.retryAfter
  {
    var e := TransportError(reason);
    if ShouldRetry(c, fallback, e) then RetryError(e, c.retryAfter) else e
  }

  // ---------------------------------------------------------------------
  // Requests and authentication

  type Header = map<string, string>

  /** http.Header.Get for a canonical key: the value, or "" when absent. */
  function HeaderGet(h: Header, key: string): string {
    if key in h then h[key] else ""
  }

  /** The header after authenticate's Content-Type rule: JSON unless one is already set. */
  function WithDefaultContentType(h: Header): (r: Header)
    ensures HeaderGet(r, "Content-Type") != ""
    ensures HeaderGet(h, "Content-Type") != "" ==> r == h
    ensures HeaderGet(h, "Content-Type") == "" ==> HeaderGet(r, "Content-Type") == ContentTypeJSON
    ensures forall k :: k != "Content-Type" ==> HeaderGet(r, k) == HeaderGet(h, k)
  {
    if HeaderGet(h, "Content-Type") == "" then h["Content-Type" := ContentTypeJSON] else h
  }

  datatype Credentials = BasicAuth(user: string, password: string)

  datatype Part =
    | FieldsPart(values: Values)
    | FilePart(field: string, file: string, data: seq<byte>)

  datatype Body =
    | JsonBody(json: seq<byte>)
    | MultipartBody(boundary: string, parts: seq<Part>)
    | CustomBody(content: seq<byte>)

  /** An outgoing http.Request: the parts the client reads or changes. */
  class Request {
    const verb: string
    const url: string
    const body: Option<Body>
    var query: Option<Values>
    var header: Header
    var auth: Option<Credentials>

    constructor (verb: string, url: string, body: Option<Body>)
      ensures this.verb == verb && this.url == url && this.body == body
      ensures query.None? && header == map[] && auth.None?
    {
      this.verb := verb;
      this.url := url;
      this.body := body;
      query := None;
      header := map[];
      auth := None;
    }
  }

  /** The credentials authenticate sets: the API key with "X", or the user name and password without a key. */
  function Credential(c: Client): Credentials {
    if c.apikey != "" then BasicAuth(c.apikey, "X") else BasicAuth(c.username, c.password)
  }

  /**
   * Client.authenticate: sets the JSON Content-Type when none is present,
   * then basic auth with the API key and "X", or with the user name and
   * password when there is no API key.
   */
  method Authenticate(c: Client, req: Request)
    modifies req
    ensures req.header == WithDefaultContentType(old(req.header))
    ensures c.apikey != "" ==> req.auth == Some(BasicAuth(c.apikey, "X"))
    ensures c.apikey == "" ==> req.auth == Some(BasicAuth(c.username, c.password))
    ensures req.query == old(req.query)
  {
    if HeaderGet(req.header, "Content-Type") == "" {
      req.header := req.header["Content-Type" := ContentTypeJSON];
    }
    if c.apikey != "" {
      req.auth := Some(BasicAuth(c.apikey, "X"));
    } else {
      req.auth := Some(BasicAuth(c.username, c.password));
    }
  }

  // ---------------------------------------------------------------------
  // One attempt: Client.doCall

  /**
   * A response as the client sees it. The last three fields are what the
   * JSON decoder and the body reader would report for this body.
   */
  datatype Response = Response(
    statusCode: int,
    header: Header,
    content: seq<byte>,                // the body bytes read before the end, or before readError
    resultDecode: Option<string>,      // the error decoding into the caller's result, if any
    errorDetail: Option<ErrorDetail>,  // the fields decoding into a ResultError gives, None if it fails
    readError: Option<string>)         // the error reading the body to its end, if any

  datatype Exchange = Failed(reason: string) | Received(response: Response)

  /** The statuses doCall treats as success. */
  predicate IsSuccess(status: int) {
    status == 200 || status == 201 || status == 204
  }

  /** The delay for a Retry-After of n seconds, as written: the product wraps at 64 bits. */
  function RetryDelayAsWritten(n: Int64): (d: Duration)
    ensures (Second * n - d) % 0x1_0000_0000_0000_0000 == 0
    ensures -0x8000_0000_0000_0000 <= Second * n <= MaxInt64 ==> d == Second * n
  {
    Wrap64(Second * n)
  }

  /** The delay for a Retry-After of n seconds, saturating at the largest Duration. */
  function RetryDelay(n: Int64): (d: Duration)
    ensures n > 0 ==> d > 0
    ensures n * Second <= MaxInt64 ==> d == Wrap64(n * Second)
  {
    if n * Second > MaxInt64 then MaxInt64 else Wrap64(n * Second)
  }

  /** A Retry-After above 9223372036 seconds overflows to a negative delay as written. */
  lemma RetryDelayOverflow()
    ensures RetryDelayAsWritten(9223372037) < 0
    ensures RetryDelay(9223372037) == MaxInt64
  {
  }

  /** Below the overflow bound the corrected delay is the written one. */
  lemma RetryDelayAgrees(n: Int64)
    requires 0 < n <= 9223372036
    ensures RetryDelay(n) == RetryDelayAsWritten(n) == n * Second
  {
  }

  /** The error doCall builds for a status it does not accept. */
  function StatusError(c: Client, fallback: Error -> bool, atoi: string -> Int64, res: Response): (e: Error)
    requires !IsSuccess(res.statusCode)
    ensures e.ResultError? && e.statusCode == res.statusCode
    ensures res.statusCode == 404 || res.errorDetail.None? ==> e.detail == NoDetail
    ensures res.statusCode != 404 && res.errorDetail.Some? ==> e.detail == res.errorDetail.value
    ensures !ShouldRetry(c, fallback, e.(retryAfter := 0)) ==> e.retryAfter == 0
  {
    var detail := if res.statusCode != 404 && res.errorDetail.Some? then res.errorDetail.value else NoDetail;
    var re := ResultError(res.statusCode, detail, 0);
    if !ShouldRetry(c, fallback, re) then re
    else
      var n := atoi(HeaderGet(res.header, "Retry-After"));
      re.(retryAfter := if n > 0 then RetryDelay(n) else c.retryAfter)
  }

  /** What one doCall attempt returns: the response, the error, and whether the result was decoded. */
  datatype Outcome = Outcome(response: Option<Response>, err: Option<Error>, decoded: bool)

  /** The specification of doCall, given the HTTP exchange. */
  function Attempt(c: Client, fallback: Error -> bool, atoi: string -> Int64, ex: Exchange, wantResult: bool): (o: Outcome)
    ensures ex.Failed? <==> o.response.None?
    ensures ex.Received? ==> o.response == Some(ex.response)
    ensures o.err.None? ==> ex.Received? && IsSuccess(ex.response.statusCode)
    ensures o.decoded <==> wantResult && ex.Received? && IsSuccess(ex.response.statusCode)
  {
    match ex
    case Failed(reason) => Outcome(None, Some(CallError(c, fallback, reason)), false)
    case Received(res) =>
      if IsSuccess(res.statusCode) then
        if wantResult then Outcome(Some(res), if res.resultDecode.Some? then Some(DecodeError(res.resultDecode.value)) else None, true)
        else Outcome(Some(res), None, false)
      else Outcome(Some(res), Some(StatusError(c, fallback, atoi, res)), false)
  }

  /** A response yields a ResultError exactly when its status is not 200, 201 or 204. */
  lemma StatusClassification(c: Client, fallback: Error -> bool, atoi: string -> Int64, res: Response, wantResult: bool)
    ensures var o := Attempt(c, fallback, atoi, Received(res), wantResult);
      (o.err.Some? && o.err.value.ResultError?) <==> !IsSuccess(res.statusCode)
    ensures var o := Attempt(c, fallback, atoi, Received(res), wantResult);
      o.err.Some? && o.err.value.ResultError? ==> o.err.value.statusCode == res.statusCode
  {
  }

  /** On success the body is decoded exactly when a result is wanted, and only a decode failure is reported. */
  lemma SuccessDecoding(c: Client, fallback: Error -> bool, atoi: string -> Int64, res: Response, wantResult: bool)
    requires IsSuccess(res.statusCode)
    ensures var o := Attempt(c, fallback, atoi, Received(res), wantResult);
      o.decoded == wantResult && (o.err.Some? <==> wantResult && res.resultDecode.Some?)
  {
  }

  /** A 404 body is never read into the error; other failure bodies fill it when they decode, and the error is returned either way. */
  lemma ErrorBody(c: Client, fallback: Error -> bool, atoi: string -> Int64, res: Response, wantResult: bool)
    requires !IsSuccess(res.statusCode)
    ensures var o := Attempt(c, fallback, atoi, Received(res), wantResult);
      o.err.Some? && !o.decoded
    ensures var e := Attempt(c, fallback, atoi, Received(res), wantResult).err.value;
      res.statusCode == 404 ==> e.detail == NoDetail
    ensures var e := Attempt(c, fallback, atoi, Received(res), wantResult).err.value;
      res.statusCode != 404 && res.errorDetail.Some? ==> e.detail == res.errorDetail.value
  {
  }

  /**
   * RetryAfter is set only when the predicate accepts the ResultError:
   * n seconds for a Retry-After of n > 0, the client's delay otherwise.
   * With a positive client delay, an error marked for retry always waits.
   */
  lemma RetryAfterRule(c: Client, fallback: Error -> bool, atoi: string -> Int64, res: Response)
    requires !IsSuccess(res.statusCode)
    ensures var e := StatusError(c, fallback, atoi, res);
      var n := atoi(HeaderGet(res.header, "Retry-After"));
      && (!ShouldRetry(c, fallback, e.(retryAfter := 0)) ==> e.retryAfter == 0)
      && (ShouldRetry(c, fallback, e.(retryAfter := 0)) && n > 0 ==> e.retryAfter == RetryDelay(n) > 0)
      && (ShouldRetry(c, fallback, e.(retryAfter := 0)) && n <= 0 ==> e.retryAfter == c.retryAfter)
  {
  }

  /** A transport failure never carries a response, and is the transport error, wrapped or not. */
  lemma TransportFailure(c: Client, fallback: Error -> bool, atoi: string -> Int64, reason: string, wantResult: bool)
    ensures var o := Attempt(c, fallback, atoi, Failed(reason), wantResult);
      o.response.None? && !o.decoded && o.err.Some? && Unwrap(o.err.value) == TransportError(reason)
  {
  }

  /** Client.doCall: authenticate, send, and classify the response. */
  method DoCall(c: Client, fallback: Error -> bool, atoi: string -> Int64, req: Request, ex: Exchange, wantResult: bool)
    returns (o: Outcome)
    modifies req
    ensures req.header == WithDefaultContentType(old(req.header))
    ensures c.apikey != "" ==> req.auth == Some(BasicAuth(c.apikey, "X"))
    ensures c.apikey == "" ==> req.auth == Some(BasicAuth(c.username, c.password))
    ensures req.query == old(req.query)
    ensures o == Attempt(c, fallback, atoi, ex, wantResult)
  {
    Authenticate(c, req);
    if ex.Failed? {
      var e := TransportError(ex.reason);
      if ShouldRetry(c, fallback, e) {
        e := RetryError(e, c.retryAfter);
      }
      return Outcome(None, Some(e), false);
    }
    var res := ex.response;
    if IsSuccess(res.statusCode) {
      if wantResult {
        var err := if res.resultDecode.Some? then Some(DecodeError(res.resultDecode.value)) else None;
        return Outcome(Some(res), err, true);
      }
      return Outcome(Some(res), None, false);
    }
    var re := ResultError(res.statusCode, NoDetail, 0);
    if res.statusCode != 404 && res.errorDetail.Some? {
      re := re.(detail := res.errorDetail.value);
    }
    if ShouldRetry(c, fallback, re) {
      var n := atoi(HeaderGet(res.header, "Retry-After"));
      if n > 0 {
        re := re.(retryAfter := RetryDelay(n));
      } else {
        re := re.(retryAfter := c.retryAfter);
      }
    }
    return Outcome(Some(res), Some(re), false);
  }

  // ---------------------------------------------------------------------
  // List calls: Client.doList

  /** The ListOption argument: a nil interface, a typed nil pointer (IsNil), or an option with its Values. */
  datatype ListArg = NilInterface | NilPointer | Given(values: Values)

  /**
   * Client.doList: a GET whose query is the option's Values when the option
   * is present; "more pages" is the presence of a Link header, and is false
   * whenever an error is returned.
   *
   * `urlParse` is what http.NewRequestWithContext reports for the URL: the
   * url.Parse error, or None when the URL parses. On an error nothing is
   * built or sent.
   */
  method DoList(c: Client, fallback: Error -> bool, atoi: string -> Int64, url: string, urlParse: Option<string>,
                lo: ListArg, ex: Exchange)
    returns (next: bool, err: Option<Error>, sent: Option<Request>)
    ensures urlParse.Some? ==> !next && err == Some(UrlError(urlParse.value)) && sent.None?
    ensures urlParse.None? ==> && sent.Some? && fresh(sent.value)
                               && sent.value.verb == "GET" && sent.value.url == url && sent.value.body.None?
                               && sent.value.query == (if lo.Given? then Some(lo.values) else None)
                               && sent.value.header == WithDefaultContentType(map[])
                               && sent.value.auth == Some(Credential(c))
                               && err == Attempt(c, fallback, atoi, ex, true).err
    ensures next <==> urlParse.None? && err.None? && HeaderGet(ex.response.header, "Link") != ""
  {
    if urlParse.Some? {
      return false, Some(UrlError(urlParse.value)), None;
    }
    var req := new Request("GET", url, None);
    sent := Some(req);
    if lo.Given? {
      req.query := Some(lo.values);
    }
    var o := DoCall(c, fallback, atoi, req, ex, true);
    err := o.err;
    if err.Some? {
      return false, err, sent;
    }
    next := HeaderGet(o.response.value.header, "Link") != "";
  }

  // ---------------------------------------------------------------------
  // Request bodies: buildRequest, BuildMultipartRequest, BuildJSONRequest

  /** A file to upload: read from its path when it has no data of its own. */
  datatype File = File(field: string, file: string, data: Option<seq<byte>>)

  datatype Form = Form(values: Values, files: seq<File>)

  /** What buildRequest returns: a body, its content type, and an error. */
  datatype Built = Built(body: Option<Body>, contentType: string, err: Option<Error>)

  /**
   * The source of a POST or PUT: nil, or a value with what it implements.
   * `custom` is what its RequestBody method returns when it is a
   * CustomRequest, `form` its values and files when it is a WithFiles, and
   * `json` the outcome of json.Marshal on it.
   */
  datatype Payload =
    | NilPayload
    | Payload(custom: Option<Built>, form: Option<Form>, json: Result<seq<byte>, string>)

  function FormDataContentType(boundary: string): string {
    "multipart/form-data; boundary=" + boundary
  }

  /** The multipart writer, over an in-memory buffer; `disk` holds the files WriteFile can read. */
  class MultipartWriter {
    const boundary: string
    const disk: map<string, seq<byte>>
    var parts: seq<Part>
    var closed: bool

    constructor (boundary: string, disk: map<string, seq<byte>>)
      ensures this.boundary == boundary && this.disk == disk
      ensures parts == [] && !closed
    {
      this.boundary := boundary;
      this.disk := disk;
      parts := [];
      closed := false;
    }

    method WriteFields(vs: Values)
      modifies this
      ensures parts == old(parts) + [FieldsPart(vs)] && closed == old(closed)
    {
      parts := parts + [FieldsPart(vs)];
    }

    method WriteFile(field: string, path: string) returns (err: Option<Error>)
      modifies this
      ensures path in disk ==> err.None? && parts == old(parts) + [FilePart(field, path, disk[path])]
      ensures path !in disk ==> err == Some(FileError(path)) && parts == old(parts)
      ensures closed == old(closed)
    {
      if path in disk {
        parts := parts + [FilePart(field, path, disk[path])];
        err := None;
      } else {
        err := Some(FileError(path));
      }
    }

    method WriteFileData(field: string, file: string, data: seq<byte>)
      modifies this
      ensures parts == old(parts) + [FilePart(field, file, data)] && closed == old(closed)
    {
      parts := parts + [FilePart(field, file, data)];
    }

    method Close()
      modifies this
      ensures closed && parts == old(parts)
    {
      closed := true;
    }
  }

  /** The part one file becomes, or the error reading it. */
  function FilePartOf(disk: map<string, seq<byte>>, f: File): Result<Part, Error> {
    if f.data.Some? then Ok(FilePart(f.field, f.file, f.data.value))
    else if f.file in disk then Ok(FilePart(f.field, f.file, disk[f.file]))
    else Err(FileError(f.file))
  }

  datatype Written = Written(parts: seq<Part>, err: Option<Error>)

  /** The specification of addMultipartFiles: the parts written in order up to the first failure. */
  function FileParts(disk: map<string, seq<byte>>, fs: seq<File>): (w: Written)
    ensures w.err.None? ==> |w.parts| == |fs|
    ensures w.err.Some? ==> |w.parts| < |fs|
  {
    if fs == [] then Written([], None)
    else match FilePartOf(disk, fs[0])
      case Err(e) => Written([], Some(e))
      case Ok(p) =>
        var rest := FileParts(disk, fs[1..]);
        Written([p] + rest.parts, rest.err)
  }

  /** When every file can be written, each becomes its part, in order, and there is no error. */
  lemma {:induction false} FilePartsAllWritten(disk: map<string, seq<byte>>, fs: seq<File>)
    requires forall i :: 0 <= i < |fs| ==> FilePartOf(disk, fs[i]).Ok?
    ensures FileParts(disk, fs).err.None?
    ensures forall i :: 0 <= i < |fs| ==> FileParts(disk, fs).parts[i] == FilePartOf(disk, fs[i]).value
  {
    if fs != [] {
      FilePartsAllWritten(disk, fs[1..]);
    }
  }

  /** Writing stops at the first file that fails: its error is returned and only the files before it are written. */
  lemma {:induction false} FilePartsFirstFailure(disk: map<string, seq<byte>>, fs: seq<File>, k: nat)
    requires k < |fs| && FilePartOf(disk, fs[k]).Err?
    requires forall i :: 0 <= i < k ==> FilePartOf(disk, fs[i]).Ok?
    ensures FileParts(disk, fs).err == Some(FilePartOf(disk, fs[k]).error)
    ensures |FileParts(disk, fs).parts| == k
    ensures forall i :: 0 <= i < k ==> FileParts(disk, fs).parts[i] == FilePartOf(disk, fs[i]).value
  {
    if k > 0 {
      FilePartsFirstFailure(disk, fs[1..], k - 1);
    }
  }

  /** One step of FileParts from position i: the i-th file's part, then the rest, or its error. */
  lemma FilePartsFrom(disk: map<string, seq<byte>>, fs: seq<File>, i: nat)
    requires i < |fs|
    ensures var w, rest := FileParts(disk, fs[i..]), FileParts(disk, fs[i + 1..]);
      match FilePartOf(disk, fs[i])
      case Err(e) => w == Written([], Some(e))
      case Ok(p) => w == Written([p] + rest.parts, rest.err)
  {
    assert fs[i..][0] == fs[i] && fs[i..][1..] == fs[i + 1..];
  }

  /** addMultipartFiles: each file by path or by data, stopping at the first error. */
  method AddMultipartFiles(mw: MultipartWriter, fs: seq<File>) returns (err: Option<Error>)
    modifies mw
    ensures mw.parts == old(mw.parts) + FileParts(mw.disk, fs).parts
    ensures err == FileParts(mw.disk, fs).err
    ensures mw.closed == old(mw.closed)
  {
    var i := 0;
    while i < |fs|
      invariant 0 <= i <= |fs|
      invariant mw.closed == old(mw.closed)
      invariant old(mw.parts) + FileParts(mw.disk, fs).parts == mw.parts + FileParts(mw.disk, fs[i..]).parts
      invariant FileParts(mw.disk, fs).err == FileParts(mw.disk, fs[i..]).err
    {
      var f := fs[i];
      FilePartsFrom(mw.disk, fs, i);
      if f.data.None? {
        err := mw.WriteFile(f.field, f.file);
      } else {
        mw.WriteFileData(f.field, f.file, f.data.value);
        err := None;
      }
      if err.Some? {
        return;
      }
      i := i + 1;
    }
    err := None;
  }

  /** The specification of BuildMultipartRequest: the values, then the files; nothing at all on an error. */
  function MultipartBuilt(vs: Values, fs: seq<File>, boundary: string, disk: map<string, seq<byte>>): (b: Built)
    ensures b.err == FileParts(disk, fs).err
    ensures b.err.Some? ==> b.body.None? && b.contentType == ""
    ensures b.err.None? ==> && b.contentType == FormDataContentType(boundary)
                            && b.body == Some(MultipartBody(boundary, [FieldsPart(vs)] + FileParts(disk, fs).parts))
  {
    var w := FileParts(disk, fs);
    if w.err.Some? then Built(None, "", w.err)
    else Built(Some(MultipartBody(boundary, [FieldsPart(vs)] + w.parts)), FormDataContentType(boundary), None)
  }

  /** BuildMultipartRequest: fill a multipart buffer step by step. */
  method BuildMultipartRequest(vs: Values, fs: seq<File>, boundary: string, disk: map<string, seq<byte>>)
    returns (b: Built)
    ensures b == MultipartBuilt(vs, fs, boundary, disk)
  {
    var mw := new MultipartWriter(boundary, disk);
    var contentType := FormDataContentType(boundary);
    mw.WriteFields(vs);
    assert mw.parts == [FieldsPart(vs)];
    var err := AddMultipartFiles(mw, fs);
    if err.Some? {
      return Built(None, "", err);
    }
    mw.Close();
    b := Built(Some(MultipartBody(boundary, mw.parts)), contentType, None);
  }

  /** A multipart body holds the values part first, then one part per file in order. */
  lemma MultipartLayout(vs: Values, fs: seq<File>, boundary: string, disk: map<string, seq<byte>>)
    requires forall i :: 0 <= i < |fs| ==> FilePartOf(disk, fs[i]).Ok?
    ensures var b := MultipartBuilt(vs, fs, boundary, disk);
      && b.err.None? && b.body.Some? && b.body.value.MultipartBody?
      && b.contentType == FormDataContentType(boundary)
      && |b.body.value.parts| == 1 + |fs| && b.body.value.parts[0] == FieldsPart(vs)
      && forall i :: 0 <= i < |fs| ==> b.body.value.parts[i + 1] == FilePartOf(disk, fs[i]).value
  {
    FilePartsAllWritten(disk, fs);
  }

  /** BuildJSONRequest: the marshalled bytes with the JSON content type, or the marshal error. */
  function BuildJSON(json: Result<seq<byte>, string>): (b: Built)
    ensures b.err.None? <==> json.Ok?
    ensures json.Ok? ==> b == Built(Some(JsonBody(json.value)), ContentTypeJSON, None)
    ensures json.Err? ==> b == Built(None, "", Some(EncodeError(json.error)))
  {
    match json
    case Ok(bs) => Built(Some(JsonBody(bs)), ContentTypeJSON, None)
    case Err(m) => Built(None, "", Some(EncodeError(m)))
  }

  /** The specification of buildRequest's dispatch. */
  function RequestBody(p: Payload, boundary: string, disk: map<string, seq<byte>>): (b: Built)
    ensures p.NilPayload? ==> b.body.None? && b.err.None?
    ensures p.Payload? && p.custom.None? ==> b.contentType in {"", ContentTypeJSON, FormDataContentType(boundary)}
  {
    if p.NilPayload? then Built(None, "", None)
    else if p.custom.Some? then p.custom.value
    else if p.form.Some? && |p.form.value.files| > 0 then MultipartBuilt(p.form.value.values, p.form.value.files, boundary, disk)
    else BuildJSON(p.json)
  }

  /** buildRequest. */
  method BuildRequest(p: Payload, boundary: string, disk: map<string, seq<byte>>) returns (b: Built)
    ensures b == RequestBody(p, boundary, disk)
  {
    if p.NilPayload? {
      return Built(None, "", None);
    }
    if p.custom.Some? {
      return p.custom.value;
    }
    if p.form.Some? {
      var fs := p.form.value.files;
      if |fs| > 0 {
        b := BuildMultipartRequest(p.form.value.values, fs, boundary, disk);
        return;
      }
    }
    b := BuildJSON(p.json);
  }

  /**
   * The dispatch order: nil gives nothing; a custom body wins over
   * everything; files make a multipart body; anything else, including a
   * WithFiles value without files, is JSON.
   */
  lemma BuildDispatch(p: Payload, boundary: string, disk: map<string, seq<byte>>)
    ensures p.NilPayload? ==> RequestBody(p, boundary, disk) == Built(None, "", None)
    ensures p.Payload? && p.custom.Some? ==> RequestBody(p, boundary, disk) == p.custom.value
    ensures p.Payload? && p.custom.None? && p.form.Some? && p.form.value.files == [] ==>
      RequestBody(p, boundary, disk) == BuildJSON(p.json)
    ensures p.Payload? && p.custom.None? && p.form.Some? && p.form.value.files != [] ==>
      RequestBody(p, boundary, disk) == MultipartBuilt(p.form.value.values, p.form.value.files, boundary, disk)
  {
  }

  /** Unless the source builds its own body, an error leaves no body and no content type, and success always has both. */
  lemma BuiltShape(p: Payload, boundary: string, disk: map<string, seq<byte>>)
    requires p.Payload? && p.custom.None?
    ensures var b := RequestBody(p, boundary, disk);
      (b.err.Some? ==> b.body.None? && b.contentType == "")
      && (b.err.None? ==> b.body.Some? && b.contentType != "")
  {
  }

  /**
   * Client.doPost and Client.doPut: build the body; on error nothing is
   * sent; otherwise the body's content type, when there is one, is set
   * before doCall (which adds the JSON type only when none is set). A URL
   * that does not parse (`urlParse`, as in DoList) is reported after a
   * successful build, and nothing is sent.
   */
  method DoSend(c: Client, fallback: Error -> bool, atoi: string -> Int64, verb: string, url: string, urlParse: Option<string>,
                p: Payload, boundary: string, disk: map<string, seq<byte>>, ex: Exchange, wantResult: bool)
    returns (o: Outcome, sent: Option<Request>)
    ensures var b := RequestBody(p, boundary, disk);
      b.err.Some? ==> o == Outcome(None, b.err, false) && sent.None?
    ensures var b := RequestBody(p, boundary, disk);
      b.err.None? && urlParse.Some? ==> o == Outcome(None, Some(UrlError(urlParse.value)), false) && sent.None?
    ensures var b := RequestBody(p, boundary, disk);
      b.err.None? && urlParse.None? ==>
                      && sent.Some? && fresh(sent.value)
                      && sent.value.verb == verb && sent.value.url == url && sent.value.body == b.body
                      && HeaderGet(sent.value.header, "Content-Type") == (if b.contentType != "" then b.contentType else ContentTypeJSON)
                      && sent.value.auth == Some(Credential(c))
                      && o == Attempt(c, fallback, atoi, ex, wantResult)
  {
    var b := BuildRequest(p, boundary, disk);
    if b.err.Some? {
      return Outcome(None, b.err, false), None;
    }
    if urlParse.Some? {
      return Outcome(None, Some(UrlError(urlParse.value)), false), None;
    }
    var req := new Request(verb, url, b.body);
    if b.contentType != "" {
      req.header := req.header["Content-Type" := b.contentType];
    }
    o := DoCall(c, fallback, atoi, req, ex, wantResult);
    sent := Some(req);
  }

  // ---------------------------------------------------------------------
  // Downloads: copyResponse and saveResponse

  datatype Download = Download(content: seq<byte>, err: Option<Error>)

  /** copyResponse: only a 200 is read; any other status is a ResultError with no body. */
  function CopyResponse(res: Response): (d: Download)
    ensures res.statusCode != 200 ==> d == Download([], Some(ResultError(res.statusCode, NoDetail, 0)))
    ensures res.statusCode == 200 ==> d.content == res.content && (d.err.Some? <==> res.readError.Some?)
  {
    if res.statusCode != 200 then Download([], Some(ResultError(res.statusCode, NoDetail, 0)))
    else Download(res.content, if res.readError.Some? then Some(TransportError(res.readError.value)) else None)
  }

  /** What saveResponse does: refuse the response, or write its body to the path. */
  /**
   * What saveResponse does: refuse the response, or copy its body into the
   * file at the path; `readErr` is the error reading the body, after which the
   * file holds only the bytes read before it.
   */
  datatype Saved = SaveRefused(err: Error) | SaveTo(path: string, content: seq<byte>, readErr: Option<Error>)

  function SaveResponse(res: Response, path: string): (s: Saved)
    ensures s.SaveTo? <==> res.statusCode == 200
    ensures s.SaveRefused? ==> s.err == ResultError(res.statusCode, NoDetail, 0)
    ensures s.SaveTo? ==> s.path == path && s.content == res.content
    ensures s.SaveTo? ==> (s.readErr.Some? <==> res.readError.Some?)
  {
    if res.statusCode != 200 then SaveRefused(ResultError(res.statusCode, NoDetail, 0))
    else SaveTo(path, res.content, if res.readError.Some? then Some(TransportError(res.readError.value)) else None)
  }

  /**
   * Client.doDownload and doDownloadNoAuth: a GET, authenticated or not,
   * then copyResponse on the reply. A URL that does not parse (`urlParse`,
   * as in DoList) is returned before anything is sent.
   */
  method DoDownload(c: Client, fallback: Error -> bool, url: string, urlParse: Option<string>, ex: Exchange, withAuth: bool)
    returns (d: Download, sent: Option<Request>)
    ensures urlParse.Some? ==> d == Download([], Some(UrlError(urlParse.value))) && sent.None?
    ensures urlParse.None? ==> && sent.Some? && fresh(sent.value)
                               && sent.value.verb == "GET" && sent.value.url == url && sent.value.body.None?
                               && sent.value.query.None?
    ensures urlParse.None? && withAuth ==>
      sent.value.header == WithDefaultContentType(map[]) && sent.value.auth == Some(Credential(c))
    ensures urlParse.None? && !withAuth ==> sent.value.header == map[] && sent.value.auth.None?
    ensures urlParse.None? && ex.Failed? ==> d == Download([], Some(CallError(c, fallback, ex.reason)))
    ensures urlParse.None? && ex.Received? ==> d == CopyResponse(ex.response)
  {
    if urlParse.Some? {
      return Download([], Some(UrlError(urlParse.value))), None;
    }
    var req := new Request("GET", url, None);
    sent := Some(req);
    if withAuth {
      Authenticate(c, req);
    }
    if ex.Failed? {
      return Download([], Some(CallError(c, fallback, ex.reason))), sent;
    }
    d := CopyResponse(ex.response);
  }

  /** A download returns content without error only for a 200 whose body reads completely. */
  lemma DownloadOnlyOK(c: Client, fallback: Error -> bool, ex: Exchange)
    ensures var d := if ex.Failed? then Download([], Some(CallError(c, fallback, ex.reason))) else CopyResponse(ex.response);
      d.err.None? <==> ex.Received? && ex.response.statusCode == 200 && ex.response.readError.None?
  {
  }

  // ---------------------------------------------------------------------
  // What the typed calls of the Freshdesk and Freshservice clients build

  /** A resource path as a `%d` pattern formats it: a fixed prefix, the id, a fixed suffix. */
  function IdPath(prefix: string, id: int, suffix: string): string {
    prefix + (FormatInt(id) + suffix)
  }

  /** The prefix and the suffix stay in place, and the id reads back from between them. */
  lemma IdPathReadBack(prefix: string, id: int, suffix: string)
    ensures var p := IdPath(prefix, id, suffix);
      && |prefix| + |suffix| < |p| && p[..|prefix|] == prefix && p[|p| - |suffix|..] == suffix
      && ParseInt(p[|prefix|..|p| - |suffix|]) == Some(id)
      && (suffix == "" ==> ParseInt(p[|prefix|..]) == Some(id))
  {
    var p := IdPath(prefix, id, suffix);
    assert p[|prefix|..|p| - |suffix|] == FormatInt(id);
    assert suffix == "" ==> p[|prefix|..] == FormatInt(id);
    assert p[..|prefix|] == prefix && p[|p| - |suffix|..] == suffix;
  }

  /** A path holds no character that its prefix, its suffix and the id's digits and sign do not bring. */
  lemma IdPathChars(prefix: string, id: int, suffix: string, ch: char)
    requires ch !in prefix && ch !in suffix && !IsDigit(ch) && ch != '-'
    ensures ch !in IdPath(prefix, id, suffix)
  {
    assert IdPath(prefix, id, suffix) == prefix + (FormatInt(id) + suffix);
  }

  /** A translated resource: the language after the resource's own endpoint URL. */
  lemma TranslatedPath(c: Client, prefix: string, id: int, suffix: string, lang: string)
    ensures Endpoint(c, IdPath(prefix, id, suffix + "/" + lang)) == Endpoint(c, IdPath(prefix, id, suffix)) + "/" + lang
  {
    var base, f := Base(c), FormatInt(id);
    assert f + (suffix + "/" + lang) == (f + suffix) + "/" + lang;
    assert prefix + (f + (suffix + "/" + lang)) == prefix + (f + suffix) + "/" + lang;
    assert base + (prefix + (f + suffix) + "/" + lang) == base + (prefix + (f + suffix)) + "/" + lang;
  }

  /** Paths with the same prefix and suffixes that start with '/' are equal only for the same id and suffix. */
  lemma IdPathInjective(prefix: string, a: int, b: int, x: string, y: string)
    requires 0 < |x| && x[0] == '/' && 0 < |y| && y[0] == '/'
    requires IdPath(prefix, a, x) == IdPath(prefix, b, y)
    ensures a == b && x == y
  {
    var p, q := IdPath(prefix, a, x), IdPath(prefix, b, y);
    assert p[|prefix|..] == FormatInt(a) + x && q[|prefix|..] == FormatInt(b) + y;
    LeadingIdInjective(a, b, x, y);
  }

  /** An endpoint has no query unless its domain or its path brings a '?'. */
  lemma NoQueryMark(c: Client, path: string)
    requires '?' !in c.domain && '?' !in path
    ensures '?' !in Endpoint(c, path)
  {
    assert Endpoint(c, path) == "https://" + c.domain + "/api/v2" + path;
  }

  /**
   * A URL whose last query parameter is an escaped text: after the fixed
   * part comes text that reads back as the UTF-8 bytes of the original and
   * holds no '&', '#' or space that could end the parameter early.
   */
  predicate CarriesParam(url: string, fixed: string, text: string) {
    && |fixed| <= |url| && url[..|fixed|] == fixed
    && QueryUnescape(url[|fixed|..]) == Some(Utf8String(text))
    && '&' !in url[|fixed|..] && '#' !in url[|fixed|..] && ' ' !in url[|fixed|..]
  }

  /** A search URL built as Endpoint(path + url.QueryEscape(text)) carries the text. */
  lemma EscapedParam(c: Client, path: string, text: string)
    ensures CarriesParam(Endpoint(c, path + QueryEscape(text)), Endpoint(c, path), text)
  {
    var fixed, e := Endpoint(c, path), QueryEscape(text);
    var url := Endpoint(c, path + e);
    assert url == fixed + e;
    assert url[..|fixed|] == fixed && url[|fixed|..] == e;
    QueryEscapeRoundTrip(text);
  }

  /** What a typed call hands to doGet, doPost, doPut or doDelete: the verb, the URL, the body's source, and whether a result is decoded. */
  datatype Submission = Submission(verb: string, url: string, payload: Payload, wantResult: bool)

  /** A call sent without a body: nil builds no body, no content type and no error. */
  ghost predicate Bodiless(s: Submission) {
    forall boundary, disk :: RequestBody(s.payload, boundary, disk) == Built(None, "", None)
  }
}
