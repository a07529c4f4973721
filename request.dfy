/**
 * The pure parts of `RequestClient` (`packages/core/src/client/request.ts`):
 * query and URL assembly, request headers, and the classification of what
 * `fetch` produced into data or an `ApiError`. `fetch` itself, the URL and
 * form encoders, and a runtime's `TypeError` text are parameters.
 */
module Requests {
  import opened Wrappers
  import opened Text
  import opened Js
  import opened CoreConfig
  import opened ApiErrors
  import opened Auth

  const DefaultBaseUrl := "http://localhost:9080"
  const DefaultApiProxy := "/api/proxy"

  // ---------------------------------------------------------------------------
  // Query parameters

  /** The `appId` that goes on the query: the request's own, else the configured one, else none. */
  function AppIdEntry(explicit: Option<string>, configured: Option<string>): (r: Option<string>)
    ensures Present(explicit) ==> r == explicit
    ensures !Present(explicit) && Present(configured) ==> r == configured
    ensures !Present(explicit) && !Present(configured) ==> r == None
  {
    if Present(explicit) then explicit else if Present(configured) then configured else None
  }

  function AppIdPairs(appId: Option<string>): seq<(string, string)> {
    if appId.Some? then [("appId", appId.value)] else []
  }

  /** The entries of `params` that are appended: those not `undefined` or `null`, as `String(value)`. */
  function Kept(params: seq<(string, JsValue)>): (r: seq<(string, string)>)
    ensures |r| <= |params|
  {
    if params == [] then []
    else
      var rest := Kept(params[1..]);
      if Nullish(params[0].1) then rest else [(params[0].0, ToString(params[0].1))] + rest
  }

  lemma {:induction false} KeptAppend(a: seq<(string, JsValue)>, b: seq<(string, JsValue)>)
    ensures Kept(a + b) == Kept(a) + Kept(b)
    decreases |a|
  {
    if a != [] {
      assert (a + b)[1..] == a[1..] + b;
      KeptAppend(a[1..], b);
    } else {
      assert a + b == b;
    }
  }

  /** Every appended pair comes from an entry with the same name and a present value, in entry order. */
  lemma {:induction false} KeptFromPresent(params: seq<(string, JsValue)>, i: nat)
    requires i < |Kept(params)|
    ensures exists j | 0 <= j < |params| ::
      !Nullish(params[j].1) && Kept(params)[i] == (params[j].0, ToString(params[j].1))
    decreases |params|
  {
    var rest := Kept(params[1..]);
    if Nullish(params[0].1) {
      KeptFromPresent(params[1..], i);
      var j :| 0 <= j < |params[1..]| && !Nullish(params[1..][j].1) && rest[i] == (params[1..][j].0, ToString(params[1..][j].1));
      assert params[j + 1] == params[1..][j];
    } else if i > 0 {
      KeptFromPresent(params[1..], i - 1);
      var j :| 0 <= j < |params[1..]| && !Nullish(params[1..][j].1) && rest[i - 1] == (params[1..][j].0, ToString(params[1..][j].1));
      assert params[j + 1] == params[1..][j];
    } else {
      assert !Nullish(params[0].1);
    }
  }

  /** When no value is `undefined` or `null`, every entry is appended, in order. */
  lemma {:induction false} KeptAllPresent(params: seq<(string, JsValue)>)
    requires forall j | 0 <= j < |params| :: !Nullish(params[j].1)
    ensures |Kept(params)| == |params|
    ensures forall j | 0 <= j < |params| :: Kept(params)[j] == (params[j].0, ToString(params[j].1))
    decreases |params|
  {
    if params != [] {
      KeptAllPresent(params[1..]);
      assert forall j | 1 <= j < |params| :: params[j] == params[1..][j - 1];
    }
  }

  /** `appId` first, then the kept `params`, as `request` appends them to its `URLSearchParams`. */
  method BuildSearchParams(appId: Option<string>, params: Option<seq<(string, JsValue)>>)
    returns (pairs: seq<(string, string)>)
    ensures pairs == AppIdPairs(appId) + Kept(if params.Some? then params.value else [])
  {
    pairs := [];
    if appId.Some? {
      pairs := pairs + [("appId", appId.value)];
    }
    if params.None? {
      return;
    }
    var entries := params.value;
    var i := 0;
    while i < |entries|
      invariant 0 <= i <= |entries|
      invariant pairs == AppIdPairs(appId) + Kept(entries[..i])
    {
      var (key, value) := entries[i];
      KeptAppend(entries[..i], [entries[i]]);
      assert entries[..i + 1] == entries[..i] + [entries[i]];
      if !Nullish(value) {
        pairs := pairs + [(key, ToString(value))];
      }
      i := i + 1;
    }
    assert entries[..i] == entries;
  }

  /** `searchParams.toString()`: `name=value` pairs joined by `&`, each side form-encoded. */
  function Serialize(pairs: seq<(string, string)>, formEncode: string -> string): (r: string)
    ensures r == "" <==> pairs == []
  {
    if pairs == [] then ""
    else
      var first := formEncode(pairs[0].0) + "=" + formEncode(pairs[0].1);
      if |pairs| == 1 then first else first + "&" + Serialize(pairs[1..], formEncode)
  }

  /** `url`, with `?query` only when the query is not empty. */
  function ApiPath(url: string, query: string): (p: string)
    ensures query == "" ==> p == url
    ensures query != "" ==> p == url + "?" + query && |p| == |url| + 1 + |query|
  {
    if query == "" then url else url + "?" + query
  }

  /** `config.useProxy || false`. */
  predicate UseProxy(config: SdkConfig) {
    config.useProxy == Some(true)
  }

  function ProxyPrefix(config: SdkConfig): string {
    OrElse(config.apiProxy, DefaultApiProxy) + "?path="
  }

  /** The `fetch` target: through the proxy with the path as its encoded `path` parameter, or straight to `baseURL`. */
  function TargetUrl(config: SdkConfig, path: string, encodeURIComponent: string -> string): (t: string)
    ensures UseProxy(config) ==> t == ProxyPrefix(config) + encodeURIComponent(path)
    ensures !UseProxy(config) ==> t == OrElse(config.baseURL, DefaultBaseUrl) + path
  {
    if UseProxy(config) then ProxyPrefix(config) + encodeURIComponent(path)
    else OrElse(config.baseURL, DefaultBaseUrl) + path
  }

  /** Through the proxy, decoding what follows the prefix gives the path back. */
  lemma ProxyPathRecoverable(config: SdkConfig, path: string, encode: string -> string, decode: string -> string)
    requires UseProxy(config) && decode(encode(path)) == path
    ensures var t := TargetUrl(config, path, encode);
      && |ProxyPrefix(config)| <= |t| && t[..|ProxyPrefix(config)|] == ProxyPrefix(config)
      && decode(t[|ProxyPrefix(config)|..]) == path
  {
    var t := TargetUrl(config, path, encode);
    assert t[|ProxyPrefix(config)|..] == encode(path);
  }

  /** With nothing configured the target is `http://localhost:9080` followed by the path. */
  lemma DefaultTarget(config: SdkConfig, path: string, encode: string -> string)
    requires !Present(config.baseURL) && config.useProxy != Some(true)
    ensures TargetUrl(config, path, encode) == "http://localhost:9080" + path
  {
  }

  // ---------------------------------------------------------------------------
  // Headers

  /**
   * `{ 'Content-Type': ..., ...(token && Authorization), ...(apiKey && X-API-Key), ...headers }`;
   * `uploadFile` leaves out the content type.
   */
  function RequestHeaders(token: Option<string>, apiKey: Option<string>, caller: map<string, string>, json: bool)
    : (h: map<string, string>)
    ensures forall k | k in caller :: k in h && h[k] == caller[k]
    ensures "Authorization" in h <==> Present(token) || "Authorization" in caller
    ensures "Authorization" !in caller && Present(token) ==> h["Authorization"] == "Bearer " + token.value
    ensures "X-API-Key" in h <==> Present(apiKey) || "X-API-Key" in caller
    ensures "X-API-Key" !in caller && Present(apiKey) ==> h["X-API-Key"] == apiKey.value
    ensures "Content-Type" in h <==> json || "Content-Type" in caller
    ensures "Content-Type" !in caller && json ==> h["Content-Type"] == "application/json"
    ensures forall k | k in h :: k in caller || k == "Content-Type" || k == "Authorization" || k == "X-API-Key"
  {
    var base := if json then map["Content-Type" := "application/json"] else map[];
    var withToken := if Present(token) then base["Authorization" := "Bearer " + token.value] else base;
    var withKey := if Present(apiKey) then withToken["X-API-Key" := apiKey.value] else withToken;
    withKey + caller
  }

  // ---------------------------------------------------------------------------
  // Responses

  /** What a `catch` received: an `Error` with its message, or some other thrown value. */
  datatype Thrown = ErrorThrown(message: string) | ValueThrown

  /** The result of `response.json()`. */
  datatype Body = Parsed(value: JsValue) | ParseFailed(error: Thrown)

  /** How `fetch` ended. */
  datatype FetchOutcome = FetchRejected(error: Thrown) | Responded(ok: bool, status: int, body: Body)

  /** `ApiResponse<T>`: `{ data }` or `{ error }`. */
  datatype ApiResponse = Success(data: JsValue) | Failure(error: ApiError)

  function ThrownMessage(e: Thrown, default: string): string {
    if e.ErrorThrown? then e.message else default
  }

  predicate IsCorsMessage(m: string) {
    Includes(m, "CORS") || Includes(m, "cors") || Includes(m, "Failed to fetch") || Includes(m, "NetworkError")
  }

  function CorsMessage(url: string): string {
    "CORS 错误: 无法访问 " + url + "。请检查 CORS 配置。"
  }

  function UrlStatus(url: string, status: int): JsValue {
    Obj(map["url" := Str(url), "status" := Num(status)])
  }

  /** The error test of `request`: `success` is `false` or `'false'`, or a non-zero `errorCode`. */
  predicate RequestFlagsError(data: JsValue)
    requires !Nullish(data)
  {
    var success := Field(data, "success");
    var ec := Field(data, "errorCode");
    var hasErrorCode := Truthy(ec) && ec != Str("") && ec != Str("0");
    success == Bool(false) || success == Str("false")
    || (hasErrorCode && ParseInt(ToString(ec), Unspecified) != Some(0))
  }

  /** `data.data !== undefined ? data.data : data`. */
  function RequestPayload(data: JsValue): JsValue
    requires !Nullish(data)
  {
    if Field(data, "data") != Undefined then Field(data, "data") else data
  }

  /**
   * The value `request` resolves to once `fetch` ended as `outcome`. A body of
   * `null` makes `data.success` throw, and the outer `catch` answers with the
   * `TypeError`'s message, `typeErrorMessage`.
   */
  function RequestResult(targetUrl: string, outcome: FetchOutcome, typeErrorMessage: string): (r: ApiResponse)
    ensures r.Success? <==>
      && outcome.Responded? && !(!outcome.ok && outcome.status == 0)
      && outcome.body.Parsed? && !Nullish(outcome.body.value)
      && !RequestFlagsError(outcome.body.value)
      && !(!outcome.ok && outcome.status >= 400)
    ensures r.Success? ==> r.data == RequestPayload(outcome.body.value)
    ensures outcome.FetchRejected? ==>
      r.Failure? && r.error.code == Num(if IsCorsMessage(ThrownMessage(outcome.error, "网络请求失败")) then -1 else 0)
    ensures outcome.Responded? && !outcome.ok && outcome.status == 0 ==> r.Failure? && r.error.code == Num(-1)
    ensures (r.Failure? && outcome.Responded? && outcome.body.Parsed? && !Nullish(outcome.body.value)
             && outcome.status != 0) ==> r.error == ParseError(outcome.body.value, outcome.status)
    ensures outcome.Responded? && !(!outcome.ok && outcome.status == 0) && outcome.body.ParseFailed? ==>
      && r.Failure? && r.error.code == Num(outcome.status)
      && r.error.message == Str(ThrownMessage(outcome.body.error, "响应格式错误"))
    ensures outcome.Responded? && !(!outcome.ok && outcome.status == 0)
            && outcome.body.Parsed? && Nullish(outcome.body.value) ==>
      r == Failure(ApiError(Num(0), Str(typeErrorMessage), None))
  {
    match outcome
    case FetchRejected(e) =>
      var m := ThrownMessage(e, "网络请求失败");
      var cors := IsCorsMessage(m);
      Failure(ApiError(Num(if cors then -1 else 0),
                       Str(if cors then CorsMessage(targetUrl) else "网络错误: " + m),
                       Some(Obj(map["url" := Str(targetUrl), "originalError" := Str(m)]))))
    case Responded(ok, status, body) =>
      if !ok && status == 0 then
        Failure(ApiError(Num(-1), Str(CorsMessage(targetUrl)), Some(UrlStatus(targetUrl, status))))
      else
        match body
        case ParseFailed(e) =>
          Failure(ApiError(Num(status), Str(ThrownMessage(e, "响应格式错误")), Some(UrlStatus(targetUrl, status))))
        case Parsed(data) =>
          if Nullish(data) then Failure(ApiError(Num(0), Str(typeErrorMessage), None))
          else if RequestFlagsError(data) then Failure(ParseError(data, status))
          else if !ok && status >= 400 then Failure(ParseError(data, status))
          else Success(RequestPayload(data))
  }

  // ---------------------------------------------------------------------------
  // uploadFile

  /** The upload URL: the appId query joined with `&` when the target already has a query, else with `?`. */
  function UploadUrl(targetUrl: string, query: string): (u: string)
    ensures query == "" ==> u == targetUrl
    ensures query != "" && Includes(targetUrl, "?") ==> u == targetUrl + "&" + query
    ensures query != "" && !Includes(targetUrl, "?") ==> u == targetUrl + "?" + query
  {
    if query == "" then targetUrl
    else targetUrl + (if Includes(targetUrl, "?") then "&" else "?") + query
  }

  /** Through the proxy the target always holds `?path=`, so the appId is joined with `&`. */
  lemma ProxyUploadJoinsWithAmpersand(config: SdkConfig, url: string, encode: string -> string, query: string)
    requires UseProxy(config) && query != ""
    ensures UploadUrl(TargetUrl(config, url, encode), query) == TargetUrl(config, url, encode) + "&" + query
  {
    var t := TargetUrl(config, url, encode);
    var prefix := OrElse(config.apiProxy, DefaultApiProxy);
    IncludesAt(t, "?", |prefix|);
  }

  /** A string holds every part of it. */
  lemma {:induction false} IncludesAt(s: string, sub: string, i: nat)
    requires i + |sub| <= |s| && s[i..i + |sub|] == sub
    ensures Includes(s, sub)
    decreases i
  {
    if i > 0 {
      assert s[1..][i - 1..i - 1 + |sub|] == s[i..i + |sub|];
      IncludesAt(s[1..], sub, i - 1);
    }
  }

  /** `data.data !== undefined && data.data !== null ? data.data : data`. */
  function UploadPayload(data: JsValue): JsValue
    requires !Nullish(data)
  {
    if !Nullish(Field(data, "data")) then Field(data, "data") else data
  }

  /** The value `uploadFile` resolves to once `fetch` ended as `outcome`. */
  function UploadResult(finalUrl: string, outcome: FetchOutcome, typeErrorMessage: string): (r: ApiResponse)
    ensures r.Success? <==>
      && outcome.Responded? && !(!outcome.ok && outcome.status == 0)
      && outcome.body.Parsed? && !Nullish(outcome.body.value)
      && !FlagsFailure(outcome.body.value) && !HasNonZeroCode(outcome.body.value)
      && !(!outcome.ok && outcome.status >= 400)
    ensures r.Success? ==> r.data == UploadPayload(outcome.body.value)
    ensures outcome.FetchRejected? ==> r.Failure? && r.error.code == Num(-1)
    ensures (r.Failure? && outcome.Responded? && outcome.body.Parsed? && !Nullish(outcome.body.value)
             && outcome.status != 0) ==> r.error == ParseError(outcome.body.value, outcome.status)
    ensures outcome.Responded? && !(!outcome.ok && outcome.status == 0) && outcome.body.ParseFailed? ==>
      && r.Failure? && r.error.code == Num(outcome.status)
      && r.error.message == Str(ThrownMessage(outcome.body.error, "响应格式错误"))
    ensures outcome.Responded? && !(!outcome.ok && outcome.status == 0)
            && outcome.body.Parsed? && Nullish(outcome.body.value) ==>
      r == Failure(ApiError(Num(0), Str(typeErrorMessage), None))
  {
    match outcome
    case FetchRejected(e) =>
      var m := ThrownMessage(e, "网络请求失败");
      Failure(ApiError(Num(-1), Str("网络错误: " + m),
                       Some(Obj(map["url" := Str(finalUrl), "originalError" := Str(m)]))))
    case Responded(ok, status, body) =>
      if !ok && status == 0 then
        Failure(ApiError(Num(-1), Str("CORS 错误: 无法访问 " + finalUrl), Some(UrlStatus(finalUrl, status))))
      else
        match body
        case ParseFailed(e) =>
          Failure(ApiError(Num(status), Str(ThrownMessage(e, "响应格式错误")), Some(UrlStatus(finalUrl, status))))
        case Parsed(data) =>
          if Nullish(data) then Failure(ApiError(Num(0), Str(typeErrorMessage), None))
          else if FlagsFailure(data) then Failure(ParseError(data, status))
          else if HasNonZeroCode(data) then Failure(ParseError(data, status))
          else if !ok && status >= 400 then Failure(ParseError(data, status))
          else Success(UploadPayload(data))
  }

  // ---------------------------------------------------------------------------
  // How the two classifications differ

  /** `success: 'false'` at HTTP 200 is an error whose code is 200: `parseError` reaches its HTTP branch. */
  lemma StringFalseAtOkStatus(url: string, message: string, t: string)
    requires message != ""
    ensures RequestResult(url, Responded(true, 200, Parsed(Obj(map["success" := Str("false"), "message" := Str(message)]))), t)
         == Failure(ApiError(Num(200), Str(message),
                             Some(Obj(map["success" := Str("false"), "message" := Str(message)]))))
  {
    var data := Obj(map["success" := Str("false"), "message" := Str(message)]);
    assert RequestFlagsError(data);
    assert !FlagsFailure(data) && !HasNonZeroCode(data);
    var vs := [Field(data, "errorMessage"), Field(data, "message"), ErrorText(data), BodyText(data)];
    assert !Truthy(vs[0]) && Truthy(vs[1]);
    assert forall j | 0 <= j < 1 :: !Truthy(vs[j]);
  }

  /** `{ data: null }`: `request` gives `null`, `uploadFile` the whole body. */
  lemma NullDataPayloads(url: string, t: string)
    ensures RequestResult(url, Responded(true, 200, Parsed(Obj(map["data" := Null]))), t) == Success(Null)
    ensures UploadResult(url, Responded(true, 200, Parsed(Obj(map["data" := Null]))), t)
         == Success(Obj(map["data" := Null]))
  {
    var data := Obj(map["data" := Null]);
    assert !RequestFlagsError(data) && !FlagsFailure(data) && !HasNonZeroCode(data);
  }

  /** `{ code: 5 }` at HTTP 200: `request` returns it as data, `uploadFile` as an error with code 5. */
  lemma NonZeroCodeOnlyFailsUploads(url: string, t: string)
    ensures RequestResult(url, Responded(true, 200, Parsed(Obj(map["code" := Num(5)]))), t)
         == Success(Obj(map["code" := Num(5)]))
    ensures UploadResult(url, Responded(true, 200, Parsed(Obj(map["code" := Num(5)]))), t).Failure?
    ensures UploadResult(url, Responded(true, 200, Parsed(Obj(map["code" := Num(5)]))), t).error.code == Num(5)
  {
    var data := Obj(map["code" := Num(5)]);
    assert !RequestFlagsError(data) && !FlagsFailure(data) && HasNonZeroCode(data);
  }

  /** `{ errorCode: '0' }` at HTTP 200 is a success for `request`, which only looks at `success === false`. */
  lemma ZeroErrorCodeRequestSucceeds(url: string, t: string)
    ensures RequestResult(url, Responded(true, 200, Parsed(Obj(map["errorCode" := Str("0")]))), t)
         == Success(Obj(map["errorCode" := Str("0")]))
  {
    var data := Obj(map["errorCode" := Str("0")]);
    assert Field(data, "success") == Undefined && Field(data, "data") == Undefined;
    assert !RequestFlagsError(data);
  }

  /** The same body is an error with code 0 for `uploadFile`, for which the non-empty string `'0'` is a truthy `errorCode`. */
  lemma ZeroErrorCodeUploadFails(url: string, t: string)
    ensures UploadResult(url, Responded(true, 200, Parsed(Obj(map["errorCode" := Str("0")]))), t).Failure?
    ensures UploadResult(url, Responded(true, 200, Parsed(Obj(map["errorCode" := Str("0")]))), t).error.code == Num(0)
  {
    var data := Obj(map["errorCode" := Str("0")]);
    assert Field(data, "errorCode") == Str("0");
    assert FlagsFailure(data);
    NumericErrorCode(data, 200, 0);
    var r := UploadResult(url, Responded(true, 200, Parsed(data)), t);
    assert r == Failure(ParseError(data, 200));
  }

  /** A rejected `fetch` whose message mentions `Failed to fetch` is reported as a CORS error (-1). */
  lemma FailedToFetchIsCors(url: string, t: string)
    ensures RequestResult(url, FetchRejected(ErrorThrown("TypeError: Failed to fetch")), t).error.code == Num(-1)
  {
    var m := "TypeError: Failed to fetch";
    assert m[11..11 + |"Failed to fetch"|] == "Failed to fetch";
    IncludesAt(m, "Failed to fetch", 11);
  }

  // ---------------------------------------------------------------------------
  // The client

  /** `fetch(url, { headers })`, as the environment answers it. */
  type Fetch = (string, map<string, string>) -> FetchOutcome

  class RequestClient {
    const config: SdkConfig
    const authManager: AuthManager

    constructor (config: SdkConfig, authManager: AuthManager)
      requires authManager.config == config
      ensures this.config == config && this.authManager == authManager
    {
      this.config := config;
      this.authManager := authManager;
    }

    /** The query, path and target URL of `request(url, { params, appId })`. */
    function RequestTarget(url: string, params: Option<seq<(string, JsValue)>>, appId: Option<string>,
                           formEncode: string -> string, encodeURIComponent: string -> string): string
    {
      var pairs := AppIdPairs(AppIdEntry(appId, config.appId)) + Kept(if params.Some? then params.value else []);
      TargetUrl(config, ApiPath(url, Serialize(pairs, formEncode)), encodeURIComponent)
    }

    /**
     * `request(url, { params, appId, headers })`: one `fetch` to the assembled
     * target with the assembled headers, and its classification.
     */
    method Request(url: string, params: Option<seq<(string, JsValue)>>, appId: Option<string>,
                   headers: map<string, string>, fetch: Fetch,
                   formEncode: string -> string, encodeURIComponent: string -> string, typeErrorMessage: string)
      returns (target: string, sent: map<string, string>, result: ApiResponse)
      ensures target == RequestTarget(url, params, appId, formEncode, encodeURIComponent)
      ensures sent == RequestHeaders(authManager.GetToken(), config.apiKey, headers, true)
      ensures result == RequestResult(target, fetch(target, sent), typeErrorMessage)
    {
      var pairs := BuildSearchParams(AppIdEntry(appId, config.appId), params);
      var query := Serialize(pairs, formEncode);
      var apiPath := ApiPath(url, query);
      target := TargetUrl(config, apiPath, encodeURIComponent);
      var token := authManager.GetToken();
      sent := RequestHeaders(token, config.apiKey, headers, true);
      result := RequestResult(target, fetch(target, sent), typeErrorMessage);
    }

    /** `uploadFile(url, file, metadata, { appId, headers })`, apart from the form body. */
    method UploadFile(url: string, appId: Option<string>, headers: map<string, string>, fetch: Fetch,
                      formEncode: string -> string, encodeURIComponent: string -> string, typeErrorMessage: string)
      returns (finalUrl: string, sent: map<string, string>, result: ApiResponse)
      ensures finalUrl == UploadUrl(TargetUrl(config, url, encodeURIComponent),
                                    Serialize(AppIdPairs(AppIdEntry(appId, config.appId)), formEncode))
      ensures sent == RequestHeaders(authManager.GetToken(), config.apiKey, headers, false)
      ensures "Content-Type" !in headers ==> "Content-Type" !in sent
      ensures result == UploadResult(finalUrl, fetch(finalUrl, sent), typeErrorMessage)
    {
      var targetUrl := TargetUrl(config, url, encodeURIComponent);
      var token := authManager.GetToken();
      sent := RequestHeaders(token, config.apiKey, headers, false);
      var pairs := BuildSearchParams(AppIdEntry(appId, config.appId), None);
      finalUrl := UploadUrl(targetUrl, Serialize(pairs, formEncode));
      result := UploadResult(finalUrl, fetch(finalUrl, sent), typeErrorMessage);
    }
  }
}
