/** The fetch-based client (api/client.ts): builds each request from the base URL, the endpoint,
    the caller's options and the token, and turns whatever `fetch` yields into one
    `{success, data?, error?}` record. `fetch` itself is the `FetchOutcome` parameter. */
module ApiClient {
  import opened Js

  /** `ApiResponse`: an absent `data` or `error` is `Undefined`. */
  datatype ApiResponse = ApiResponse(success: bool, data: Value, error: Value)

  datatype File = File(name: string)
  datatype FormPart = FilePart(file: File) | TextPart(text: string)
  /** `FormData`: its entries in the order they were appended. */
  type FormData = seq<(string, FormPart)>

  datatype Body = NoBody | JsonText(text: string) | Multipart(form: FormData)

  /** What the client hands to `fetch`. */
  datatype FetchRequest = FetchRequest(url: string, verb: string, headers: map<string, string>, body: Body)

  /** The caller's `RequestInit`: method, body and headers (no headers is the empty map). */
  datatype RequestOptions = RequestOptions(verb: string, body: Body, headers: map<string, string>)

  /** What `fetch` yields: a rejection with the error's message, or a response whose body text
      is `None` when reading the body fails. */
  datatype FetchOutcome =
    | Rejected(message: string)
    | Response(status: int, statusText: string, contentType: Option<string>, text: Option<string>)

  /** One call: the request sent and the record the caller receives. */
  datatype Exchange = Exchange(sent: FetchRequest, response: ApiResponse)

  const AUTHORIZATION := "Authorization"
  const CONTENT_TYPE := "Content-Type"
  const JSON_MEDIA_TYPE := "application/json"
  const NETWORK_ERROR := "Network error"
  const UPLOAD_FAILED := "Upload failed"
  const REQUEST_ERROR_FIELDS := ["detail", "message", "error"]
  const UPLOAD_ERROR_FIELDS := ["detail", "message"]

  /** `response.ok`: a status in the range 200 to 299. */
  predicate IsOk(status: int) {
    200 <= status <= 299
  }

  /** `if (token)` on the result of `getToken()`. */
  predicate HasToken(token: Option<string>) {
    token.Some? && token.value != ""
  }

  /** `${baseUrl}${endpoint}`: the endpoint follows the base URL with nothing in between. */
  function RequestUrl(baseUrl: string, endpoint: string): (url: string)
    ensures |url| == |baseUrl| + |endpoint|
    ensures url[..|baseUrl|] == baseUrl && url[|baseUrl|..] == endpoint
  {
    baseUrl + endpoint
  }

  function WithAuthorization(headers: map<string, string>, token: Option<string>): map<string, string> {
    if HasToken(token) then headers[AUTHORIZATION := "Token " + token.value] else headers
  }

  /** The headers of a JSON request: Content-Type defaults to application/json, the caller's
      headers override it, and a token adds (or replaces) Authorization. */
  function JsonHeaders(token: Option<string>, callerHeaders: map<string, string>): (h: map<string, string>)
    ensures h.Keys == callerHeaders.Keys + {CONTENT_TYPE} + (if HasToken(token) then {AUTHORIZATION} else {})
    ensures h[CONTENT_TYPE] == if CONTENT_TYPE in callerHeaders then callerHeaders[CONTENT_TYPE] else JSON_MEDIA_TYPE
    ensures HasToken(token) ==> h[AUTHORIZATION] == "Token " + token.value
    ensures forall k :: k in callerHeaders && (k != AUTHORIZATION || !HasToken(token)) ==> h[k] == callerHeaders[k]
  {
    WithAuthorization(map[CONTENT_TYPE := JSON_MEDIA_TYPE] + callerHeaders, token)
  }

  /** The headers of an upload: Authorization only, and only with a token; the platform sets
      the multipart Content-Type. */
  function UploadHeaders(token: Option<string>): (h: map<string, string>)
    ensures CONTENT_TYPE !in h
    ensures AUTHORIZATION in h <==> HasToken(token)
    ensures h.Keys <= {AUTHORIZATION}
    ensures HasToken(token) ==> h[AUTHORIZATION] == "Token " + token.value
  {
    WithAuthorization(map[], token)
  }

  /** `contentType && contentType.includes('application/json')`. */
  predicate IsJsonContentType(contentType: Option<string>) {
    contentType.Some? && contentType.value != "" && Includes(contentType.value, JSON_MEDIA_TYPE)
  }

  /** `await response.json()` with its catch: null when the body cannot be read or parsed. */
  function ParseJsonBody(text: Option<string>, json: Json): Value {
    match text
    case None => Null
    case Some(t) =>
      match json.parse(t)
      case None => Null
      case Some(v) => v
  }

  /** The body a JSON request reports: parsed JSON by content type, else null on 204,
      else the text (null when reading it fails). */
  function ResponseData(status: int, contentType: Option<string>, text: Option<string>, json: Json): (data: Value)
    ensures IsJsonContentType(contentType) ==> data == ParseJsonBody(text, json)
    ensures !IsJsonContentType(contentType) && status == 204 ==> data == Null
    ensures !IsJsonContentType(contentType) && status != 204 ==> (data.Str? <==> text.Some?)
    ensures !IsJsonContentType(contentType) ==> (data.Str? ==> text == Some(data.s)) && (!data.Str? ==> data == Null)
  {
    if IsJsonContentType(contentType) then ParseJsonBody(text, json)
    else if status == 204 then Null
    else match text
      case None => Null
      case Some(t) => Str(t)
  }

  /** `new Error(response.error || fallback)`: how callers turn a failed response into an exception. */
  function FailureError(response: ApiResponse, fallback: string): (e: Exception)
    ensures e.Error?
    ensures !Truthy(response.error) ==> e.message == fallback
    ensures response.error.Str? && response.error.s != "" ==> e.message == response.error.s
  {
    Error(ToJsString(Or(response.error, Str(fallback))))
  }

  /** `${prefix}: ${status} ${statusText}`. */
  function StatusMessage(prefix: string, status: int, statusText: string): string {
    prefix + ": " + IntToString(status) + " " + statusText
  }

  /** How `request` turns the outcome of `fetch` into a response record. */
  function Normalize(outcome: FetchOutcome, json: Json): (r: ApiResponse)
    ensures r.success <==> outcome.Response? && IsOk(outcome.status)
    ensures r.success ==> r.error == Undefined
    ensures !r.success ==> Truthy(r.error)
    ensures outcome.Rejected? ==>
      r.data == Undefined && r.error == Str(if outcome.message != "" then outcome.message else NETWORK_ERROR)
    ensures outcome.Response? ==>
      r.data == ResponseData(outcome.status, outcome.contentType, outcome.text, json)
  {
    match outcome
    case Rejected(message) =>
      ApiResponse(false, Undefined, Str(if message != "" then message else NETWORK_ERROR))
    case Response(status, statusText, contentType, text) =>
      var data := ResponseData(status, contentType, text, json);
      if !IsOk(status) then
        ApiResponse(false, data, FirstTruthy(data, REQUEST_ERROR_FIELDS, Str(StatusMessage("Request failed", status, statusText))))
      else
        ApiResponse(true, data, Undefined)
  }

  /** How `upload` turns the outcome of `fetch` into a response record: it always tries JSON,
      reads only `detail` and `message`, and has its own fallbacks. */
  function NormalizeUpload(outcome: FetchOutcome, json: Json): (r: ApiResponse)
    ensures r.success <==> outcome.Response? && IsOk(outcome.status)
    ensures r.success ==> r.error == Undefined
    ensures !r.success ==> Truthy(r.error)
    ensures outcome.Rejected? ==>
      r.data == Undefined && r.error == Str(if outcome.message != "" then outcome.message else UPLOAD_FAILED)
    ensures outcome.Response? ==> r.data == ParseJsonBody(outcome.text, json)
  {
    match outcome
    case Rejected(message) =>
      ApiResponse(false, Undefined, Str(if message != "" then message else UPLOAD_FAILED))
    case Response(status, statusText, _, text) =>
      var data := ParseJsonBody(text, json);
      if !IsOk(status) then
        ApiResponse(false, data, FirstTruthy(data, UPLOAD_ERROR_FIELDS, Str(StatusMessage("Upload failed", status, statusText))))
      else
        ApiResponse(true, data, Undefined)
  }

  /** `request(endpoint, options)`: `token` is what `getToken()` returned for this call. */
  function Request(baseUrl: string, token: Option<string>, endpoint: string, options: RequestOptions,
                   outcome: FetchOutcome, json: Json): (ex: Exchange)
    ensures |ex.sent.url| == |baseUrl| + |endpoint|
    ensures ex.sent.url[..|baseUrl|] == baseUrl && ex.sent.url[|baseUrl|..] == endpoint
    ensures ex.sent.verb == options.verb && ex.sent.body == options.body
    ensures ex.sent.headers == JsonHeaders(token, options.headers)
    ensures ex.response == Normalize(outcome, json)
  {
    Exchange(FetchRequest(RequestUrl(baseUrl, endpoint), options.verb, JsonHeaders(token, options.headers), options.body),
             Normalize(outcome, json))
  }

  /** The parameters `get` keeps, as `URLSearchParams.append` receives them: null and
      undefined values are dropped, the rest become `String(value)`, in the given order
      (the order of `Object.entries`). */
  function QueryPairs(params: seq<(string, Value)>): (pairs: seq<(string, string)>)
    ensures |pairs| <= |params|
  {
    if params == [] then []
    else
      (if IsNullish(params[0].1) then [] else [(params[0].0, ToJsString(params[0].1))])
      + QueryPairs(params[1..])
  }

  /** A pair is kept exactly when some parameter with a non-nullish value yields it. */
  lemma {:induction false} QueryPairsMembers(params: seq<(string, Value)>, p: (string, string))
    ensures p in QueryPairs(params) <==>
      exists i :: 0 <= i < |params| && !IsNullish(params[i].1) && p == (params[i].0, ToJsString(params[i].1))
  {
    if params != [] {
      var rest := params[1..];
      QueryPairsMembers(rest, p);
      if p in QueryPairs(rest) {
        var i :| 0 <= i < |rest| && !IsNullish(rest[i].1) && p == (rest[i].0, ToJsString(rest[i].1));
        assert params[i + 1] == rest[i];
      }
      if exists i :: 0 <= i < |params| && !IsNullish(params[i].1) && p == (params[i].0, ToJsString(params[i].1)) {
        var i :| 0 <= i < |params| && !IsNullish(params[i].1) && p == (params[i].0, ToJsString(params[i].1));
        if i > 0 {
          assert rest[i - 1] == params[i];
        }
      }
    }
  }

  lemma {:induction false} QueryPairsAppend(a: seq<(string, Value)>, b: seq<(string, Value)>)
    ensures QueryPairs(a + b) == QueryPairs(a) + QueryPairs(b)
  {
    if a == [] {
      assert a + b == b;
    } else {
      assert (a + b)[0] == a[0];
      assert (a + b)[1..] == a[1..] + b;
      QueryPairsAppend(a[1..], b);
    }
  }

  /** No parameter survives exactly when every value is null or undefined. */
  lemma {:induction false} QueryPairsEmptyIff(params: seq<(string, Value)>)
    ensures QueryPairs(params) == [] <==> forall i :: 0 <= i < |params| ==> IsNullish(params[i].1)
  {
    if params != [] {
      QueryPairsEmptyIff(params[1..]);
      assert forall i :: 1 <= i < |params| ==> params[i] == params[1..][i - 1];
    }
  }

  /** The application/x-www-form-urlencoded serializer of the WHATWG URL Standard, with the
      per-string percent-encoding (`encode`) taken as given: `name=value` pairs joined by `&`. */
  function FormUrlEncode(pairs: seq<(string, string)>, encode: string -> string): (s: string)
    ensures s == "" <==> pairs == []
  {
    if pairs == [] then ""
    else
      var first := encode(pairs[0].0) + "=" + encode(pairs[0].1);
      assert first[|encode(pairs[0].0)|] == '=';
      if |pairs| == 1 then first else first + "&" + FormUrlEncode(pairs[1..], encode)
  }

  /** The path `get` requests: the endpoint, followed by `?` and the serialized parameters only
      when at least one parameter survives. */
  function WithQuery(endpoint: string, params: Option<seq<(string, Value)>>, encode: string -> string): string {
    if params.None? || QueryPairs(params.value) == [] then endpoint
    else endpoint + "?" + FormUrlEncode(QueryPairs(params.value), encode)
  }

  function GetOptions(): RequestOptions {
    RequestOptions("GET", NoBody, map[])
  }

  /** `get(endpoint, params)`: appends the kept parameters one by one, then sends a GET. */
  method Get(baseUrl: string, token: Option<string>, endpoint: string, params: Option<seq<(string, Value)>>,
             encode: string -> string, outcome: FetchOutcome, json: Json) returns (ex: Exchange)
    ensures ex == Request(baseUrl, token, WithQuery(endpoint, params, encode), GetOptions(), outcome, json)
  {
    var url := endpoint;
    if params.Some? {
      var entries := params.value;
      var searchParams: seq<(string, string)> := [];
      var i := 0;
      while i < |entries|
        invariant 0 <= i <= |entries|
        invariant searchParams == QueryPairs(entries[..i])
      {
        var (key, value) := entries[i];
        if !IsNullish(value) {
          searchParams := searchParams + [(key, ToJsString(value))];
        }
        QueryPairsAppend(entries[..i], [entries[i]]);
        assert entries[..i + 1] == entries[..i] + [entries[i]];
        i := i + 1;
      }
      assert entries[..i] == entries;
      var serialized := FormUrlEncode(searchParams, encode);
      if serialized != "" {
        url := url + "?" + serialized;
      }
    }
    ex := Request(baseUrl, token, url, GetOptions(), outcome, json);
  }

  datatype WriteVerb = Post | Put | Patch

  function VerbName(verb: WriteVerb): string {
    match verb
    case Post => "POST"
    case Put => "PUT"
    case Patch => "PATCH"
  }

  /** `post`, `put` and `patch`: the data is sent as JSON text when it is truthy, else no body. */
  function Send(baseUrl: string, token: Option<string>, verb: WriteVerb, endpoint: string, data: Value,
                outcome: FetchOutcome, json: Json): (ex: Exchange)
    ensures ex.sent.url == RequestUrl(baseUrl, endpoint) && ex.sent.verb == VerbName(verb)
    ensures ex.sent.headers == JsonHeaders(token, map[])
    ensures ex.sent.body == if Truthy(data) then JsonText(json.stringify(data)) else NoBody
    ensures CONTENT_TYPE in ex.sent.headers && ex.sent.headers[CONTENT_TYPE] == JSON_MEDIA_TYPE
    ensures ex.response == Normalize(outcome, json)
  {
    Request(baseUrl, token, endpoint,
            RequestOptions(VerbName(verb), if Truthy(data) then JsonText(json.stringify(data)) else NoBody, map[]),
            outcome, json)
  }

  /** `delete(endpoint)`: a DELETE without a body. */
  function Delete(baseUrl: string, token: Option<string>, endpoint: string, outcome: FetchOutcome, json: Json): (ex: Exchange)
    ensures ex.sent.url == RequestUrl(baseUrl, endpoint) && ex.sent.verb == "DELETE" && ex.sent.body == NoBody
    ensures ex.sent.headers == JsonHeaders(token, map[])
    ensures ex.response == Normalize(outcome, json)
  {
    Request(baseUrl, token, endpoint, RequestOptions("DELETE", NoBody, map[]), outcome, json)
  }

  /** `upload(endpoint, formData)`: a multipart POST with Authorization as its only header. */
  function Upload(baseUrl: string, token: Option<string>, endpoint: string, form: FormData,
                  outcome: FetchOutcome, json: Json): (ex: Exchange)
    ensures |ex.sent.url| == |baseUrl| + |endpoint|
    ensures ex.sent.url[..|baseUrl|] == baseUrl && ex.sent.url[|baseUrl|..] == endpoint
    ensures ex.sent.verb == "POST" && ex.sent.body == Multipart(form)
    ensures ex.sent.headers == UploadHeaders(token)
    ensures ex.response == NormalizeUpload(outcome, json)
  {
    Exchange(FetchRequest(RequestUrl(baseUrl, endpoint), "POST", UploadHeaders(token), Multipart(form)),
             NormalizeUpload(outcome, json))
  }

  // Properties of the whole request path

  /** A 204 without a JSON content type succeeds with null data and no error. */
  lemma NoContentSucceedsWithNull(statusText: string, contentType: Option<string>, text: Option<string>, json: Json)
    requires !IsJsonContentType(contentType)
    ensures Normalize(Response(204, statusText, contentType, text), json) == ApiResponse(true, Null, Undefined)
  {
  }

  /** The JSON content-type test comes before the 204 test: a JSON-typed body is parsed
      whatever the status. */
  lemma JsonContentTypeWinsOverNoContent(status: int, contentType: Option<string>, text: Option<string>, json: Json)
    requires IsJsonContentType(contentType)
    ensures ResponseData(status, contentType, text, json) == ParseJsonBody(text, json)
  {
  }

  /** A failed request keeps its parsed body and reports the first truthy of `detail`,
      `message`, `error`, else the status line. */
  lemma {:induction false} RequestErrorPriority(status: int, statusText: string, contentType: Option<string>,
                                               text: Option<string>, json: Json)
    requires !IsOk(status)
    ensures var data := ResponseData(status, contentType, text, json);
      var r := Normalize(Response(status, statusText, contentType, text), json);
      && !r.success && r.data == data
      && r.error == (if Truthy(OptionalProp(data, "detail")) then OptionalProp(data, "detail")
                     else if Truthy(OptionalProp(data, "message")) then OptionalProp(data, "message")
                     else if Truthy(OptionalProp(data, "error")) then OptionalProp(data, "error")
                     else Str(StatusMessage("Request failed", status, statusText)))
  {
    var data := ResponseData(status, contentType, text, json);
    var fallback := Str(StatusMessage("Request failed", status, statusText));
    var fields := REQUEST_ERROR_FIELDS;
    if Truthy(OptionalProp(data, "detail")) {
      FirstTruthyPicksFirst(data, fields, fallback, 0);
    } else if Truthy(OptionalProp(data, "message")) {
      FirstTruthyPicksFirst(data, fields, fallback, 1);
    } else if Truthy(OptionalProp(data, "error")) {
      FirstTruthyPicksFirst(data, fields, fallback, 2);
    } else {
      FirstTruthyFallsBack(data, fields, fallback);
    }
  }

  /** A failed upload reports the first truthy of `detail`, `message`, else its status line;
      an `error` field is never consulted. */
  lemma {:induction false} UploadErrorPriority(status: int, statusText: string, contentType: Option<string>,
                                              text: Option<string>, json: Json)
    requires !IsOk(status)
    ensures var data := ParseJsonBody(text, json);
      var r := NormalizeUpload(Response(status, statusText, contentType, text), json);
      && !r.success && r.data == data
      && r.error == (if Truthy(OptionalProp(data, "detail")) then OptionalProp(data, "detail")
                     else if Truthy(OptionalProp(data, "message")) then OptionalProp(data, "message")
                     else Str(StatusMessage("Upload failed", status, statusText)))
  {
    var data := ParseJsonBody(text, json);
    var fallback := Str(StatusMessage("Upload failed", status, statusText));
    var fields := UPLOAD_ERROR_FIELDS;
    if Truthy(OptionalProp(data, "detail")) {
      FirstTruthyPicksFirst(data, fields, fallback, 0);
    } else if Truthy(OptionalProp(data, "message")) {
      FirstTruthyPicksFirst(data, fields, fallback, 1);
    } else {
      FirstTruthyFallsBack(data, fields, fallback);
    }
  }

  /** A non-2xx JSON body carrying a non-empty string `detail` reports that string verbatim. */
  lemma DetailReportedVerbatim(status: int, statusText: string, contentType: Option<string>, text: string,
                               json: Json, props: map<string, Value>, detail: string)
    requires !IsOk(status) && IsJsonContentType(contentType)
    requires json.parse(text) == Some(Obj(props))
    requires "detail" in props && props["detail"] == Str(detail) && detail != ""
    ensures Normalize(Response(status, statusText, contentType, Some(text)), json).error == Str(detail)
  {
    RequestErrorPriority(status, statusText, contentType, Some(text), json);
  }

  /** `get` appends `?` exactly when some parameter has a value other than null or undefined,
      and the endpoint is always kept as the prefix of the path. */
  lemma {:induction false} QueryMarkIffKeptParam(endpoint: string, params: seq<(string, Value)>, encode: string -> string)
    ensures var path := WithQuery(endpoint, Some(params), encode);
      && path[..|endpoint|] == endpoint
      && (|path| > |endpoint| <==> exists i :: 0 <= i < |params| && !IsNullish(params[i].1))
      && (|path| > |endpoint| ==> path[|endpoint|] == '?')
  {
    QueryPairsEmptyIff(params);
  }
}
