/*
 * The request/response layer every page goes through: how `apiRequest`
 * builds a request from the method, the data and the stored token, how
 * `throwIfResNotOk` classifies a response (success, the 401 path that clears
 * the session, or an error "<status>: <detail>"), and how the auth token is
 * picked out of a login or register response.
 */
module QueryClient {
  import opened Js
  import opened Browser

  const DefaultBaseUrl := "http://localhost:8000"
  const LoginPath := "/login"
  const TokenKey := "token"
  const UserKey := "user"
  const UnauthorizedMessage := "401: Unauthorized"
  /** The SyntaxError `res.json()` throws on text that is not JSON (the exact words are the engine's). */
  const JsonSyntaxMessage := "Unexpected token in JSON"
  /** The TypeError a second read of a consumed body rejects with (the exact words are the engine's). */
  const BodyUsedMessage := "body stream already read"

  /** `API_BASE_URL`: `VITE_API_URL` when set and non-empty, else the local default. */
  function BaseUrl(env: map<string, string>): (r: string)
    ensures r != ""
    ensures "VITE_API_URL" in env && env["VITE_API_URL"] != "" ==> r == env["VITE_API_URL"]
    ensures ("VITE_API_URL" !in env || env["VITE_API_URL"] == "") ==> r == DefaultBaseUrl
  {
    if "VITE_API_URL" in env && env["VITE_API_URL"] != "" then env["VITE_API_URL"] else DefaultBaseUrl
  }

  // ---------------------------------------------------------------------------
  // Building the request

  /** `token` is what `localStorage.getItem("token")` gave; `if (token)` rejects null and "". */
  predicate HasToken(token: Option<string>) {
    token.Some? && token.value != ""
  }

  /** A body (and its Content-Type) is sent exactly when there is data and the method is not GET. */
  predicate SendsBody(verb: string, data: Option<Json>) {
    data.Some? && verb != "GET"
  }

  /** The request `apiRequest(verb, path, data)` hands to `fetch` when the stored token is `token`. */
  ghost predicate IsApiRequest(req: Request, verb: string, path: string, data: Option<Json>, token: Option<string>, base: string) {
    && req.verb == verb
    && req.url == base + path
    && req.headers.Keys <= {"Authorization", "Content-Type"}
    && ("Authorization" in req.headers <==> HasToken(token))
    && ("Authorization" in req.headers ==> req.headers["Authorization"] == "Bearer " + token.value)
    && ("Content-Type" in req.headers <==> SendsBody(verb, data))
    && ("Content-Type" in req.headers ==> req.headers["Content-Type"] == "application/json")
    && (req.body.Some? <==> SendsBody(verb, data))
    && (req.body.Some? ==> req.body == data)
  }

  /** The method, data, stored token and base URL fix the request completely. */
  lemma ApiRequestDetermined(r1: Request, r2: Request, verb: string, path: string, data: Option<Json>, token: Option<string>, base: string)
    requires IsApiRequest(r1, verb, path, data, token, base)
    requires IsApiRequest(r2, verb, path, data, token, base)
    ensures r1 == r2
  {
    assert r1.headers.Keys == r2.headers.Keys;
    assert r1.headers == r2.headers;
  }

  /** The header dictionary is filled in by conditional assignments, as `apiRequest` does. */
  method BuildRequest(verb: string, path: string, data: Option<Json>, token: Option<string>, base: string) returns (req: Request)
    ensures IsApiRequest(req, verb, path, data, token, base)
  {
    var headers: map<string, string> := map[];
    if HasToken(token) {
      headers := headers["Authorization" := "Bearer " + token.value];
    }
    if SendsBody(verb, data) {
      headers := headers["Content-Type" := "application/json"];
    }
    var body := if SendsBody(verb, data) then data else None;
    req := Request(verb, base + path, headers, body);
  }

  /** The part of `apiRequest` before the `await`: read the token, build the request, call `fetch`. */
  method ApiSend(w: Window, verb: string, path: string, data: Option<Json>) returns (req: Request)
    modifies w`fetches
    ensures IsApiRequest(req, verb, path, data, w.GetItem(TokenKey), BaseUrl(w.env))
    ensures w.fetches == old(w.fetches) + [req]
  {
    var token := w.GetItem(TokenKey);
    req := BuildRequest(verb, path, data, token, BaseUrl(w.env));
    w.Fetch(req);
  }

  // ---------------------------------------------------------------------------
  // Classifying the response

  /** `res.ok` */
  predicate IsOk(status: nat) {
    200 <= status <= 299
  }

  /** The error body `throwIfResNotOk` looks at: the parsed JSON, or the raw text. */
  datatype ErrorBody = JsonBody(value: Json) | TextBody(text: string)

  /** The body's `error` when the body is an object with a truthy `error`, else the status text. */
  function ErrorDetail(body: ErrorBody, statusText: string): string {
    if body.JsonBody? && IsObjectType(body.value) && TruthyOpt(Prop(body.value, "error"))
    then ToJsString(Prop(body.value, "error").value)
    else statusText
  }

  /** `${res.status}: ${detail}` */
  function StatusError(status: nat, detail: string): string {
    NatToString(status) + ": " + detail
  }

  /** The digits an error message starts with. */
  function LeadingDigits(s: string): (r: string)
    ensures |r| <= |s| && r == s[..|r|] && AllDigits(r)
    ensures |r| < |s| ==> !IsDigit(s[|r|])
  {
    if s != [] && IsDigit(s[0]) then [s[0]] + LeadingDigits(s[1..]) else []
  }

  /** The status an error message reports: its leading digits, when a ':' follows them. */
  function StatusOfMessage(msg: string): Option<nat> {
    var d := LeadingDigits(msg);
    if d != [] && |d| < |msg| && msg[|d|] == ':' then Some(DecimalValue(d)) else None
  }

  lemma {:induction false} LeadingDigitsOfDigitsThen(a: string, b: string)
    requires AllDigits(a)
    requires b != [] && !IsDigit(b[0])
    ensures LeadingDigits(a + b) == a
    decreases |a|
  {
    if a != [] {
      assert (a + b)[1..] == a[1..] + b;
      LeadingDigitsOfDigitsThen(a[1..], b);
    } else {
      assert a + b == b;
    }
  }

  /** Every "<status>: <detail>" message gives its status back. */
  lemma StatusErrorReadsBack(status: nat, detail: string)
    ensures StatusOfMessage(StatusError(status, detail)) == Some(status)
  {
    var n := NatToString(status);
    assert StatusError(status, detail) == n + (": " + detail);
    LeadingDigitsOfDigitsThen(n, ": " + detail);
    DecimalRoundTrip(status);
  }

  /**
   * `throwIfResNotOk` as intended: 401 first, with its fixed message; any
   * other failure "<status>: <detail>", a body that is not JSON counting as text.
   */
  function Classify(res: Response, parse: string -> Option<Json>): (r: Outcome<Response>)
    ensures r.Returns? <==> IsOk(res.status)
    ensures r.Returns? ==> r.value == res
    ensures res.status == 401 ==> r == Throws(UnauthorizedMessage)
  {
    if res.status == 401 then Throws(UnauthorizedMessage)
    else if !IsOk(res.status) then
      var body := match parse(res.body) case Some(j) => JsonBody(j) case None => TextBody(res.body);
      Throws(StatusError(res.status, ErrorDetail(body, res.statusText)))
    else Returns(res)
  }

  /** The message of every failure names the response's status, 401 included. */
  lemma ClassifyReportsStatus(res: Response, parse: string -> Option<Json>)
    requires !IsOk(res.status)
    ensures Classify(res, parse).Throws?
    ensures StatusOfMessage(Classify(res, parse).message) == Some(res.status)
  {
    if res.status == 401 {
      assert UnauthorizedMessage == StatusError(401, "Unauthorized");
      StatusErrorReadsBack(401, "Unauthorized");
    } else {
      var body := match parse(res.body) case Some(j) => JsonBody(j) case None => TextBody(res.body);
      StatusErrorReadsBack(res.status, ErrorDetail(body, res.statusText));
    }
  }

  /** A JSON object body with a truthy `error` gives "<status>: String(error)". */
  lemma ClassifyReportsError(res: Response, parse: string -> Option<Json>, e: Json)
    requires !IsOk(res.status) && res.status != 401
    requires parse(res.body).Some? && Prop(parse(res.body).value, "error") == Some(e) && Truthy(e)
    ensures Classify(res, parse) == Throws(StatusError(res.status, ToJsString(e)))
  {
  }

  /** Without an `error` field, and for a body that is not JSON, the detail is the status text. */
  lemma ClassifyFallsBackToStatusText(res: Response, parse: string -> Option<Json>)
    requires !IsOk(res.status) && res.status != 401
    requires parse(res.body).None? || !TruthyOpt(Prop(parse(res.body).value, "error"))
    ensures Classify(res, parse) == Throws(StatusError(res.status, res.statusText))
  {
  }

  /**
   * `throwIfResNotOk` as written: once `res.json()` has failed, the body is
   * consumed, so the `res.text()` in the catch rejects with a TypeError.
   */
  function ClassifyAsWritten(res: Response, parse: string -> Option<Json>): Outcome<Response> {
    if res.status == 401 then Throws(UnauthorizedMessage)
    else if !IsOk(res.status) then
      match parse(res.body)
      case Some(j) => Throws(StatusError(res.status, ErrorDetail(JsonBody(j), res.statusText)))
      case None => Throws(BodyUsedMessage)
    else Returns(res)
  }

  /**
   * For a failing response whose body is not JSON (an HTML error page, say)
   * the code as written throws an error that no longer names the status,
   * where "<status>: <statusText>" was intended.
   */
  lemma NonJsonErrorBodyLosesStatus(res: Response, parse: string -> Option<Json>)
    requires !IsOk(res.status) && res.status != 401
    requires parse(res.body).None?
    ensures ClassifyAsWritten(res, parse) == Throws(BodyUsedMessage)
    ensures StatusOfMessage(BodyUsedMessage) == None
    ensures Classify(res, parse) == Throws(StatusError(res.status, res.statusText))
  {
    assert LeadingDigits(BodyUsedMessage) == [];
  }

  /** As written, too, a JSON object body with a truthy `error` gives "<status>: String(error)". */
  lemma ClassifyAsWrittenReportsError(res: Response, parse: string -> Option<Json>, e: Json)
    requires !IsOk(res.status) && res.status != 401
    requires parse(res.body).Some? && Prop(parse(res.body).value, "error") == Some(e) && Truthy(e)
    ensures ClassifyAsWritten(res, parse) == Throws(StatusError(res.status, ToJsString(e)))
  {
  }

  /** The two agree on every response that is ok, a 401, or carries a JSON body. */
  lemma AsWrittenAgreesOnJsonBodies(res: Response, parse: string -> Option<Json>)
    requires IsOk(res.status) || res.status == 401 || parse(res.body).Some?
    ensures ClassifyAsWritten(res, parse) == Classify(res, parse)
  {
  }

  // ---------------------------------------------------------------------------
  // The effects of a response on the session

  /** Storage once `res` has been classified: a 401 removes the token and the stored user. */
  function StorageAfter(res: Response, storage: map<string, string>): map<string, string> {
    if res.status == 401 then storage - {TokenKey, UserKey} else storage
  }

  /** The navigations once `res` has been classified: a 401 goes to the login page unless already there. */
  function NavigationsAfter(res: Response, path: string, navs: seq<string>): seq<string> {
    if res.status == 401 && path != LoginPath then navs + [LoginPath] else navs
  }

  function PathAfter(res: Response, path: string): string {
    if res.status == 401 then LoginPath else path
  }

  /** `handleUnauthorized` */
  method HandleUnauthorized(w: Window)
    modifies w`localStorage, w`pathname, w`navigations
    ensures w.localStorage == old(w.localStorage) - {TokenKey, UserKey}
    ensures w.pathname == LoginPath
    ensures w.navigations == if old(w.pathname) != LoginPath then old(w.navigations) + [LoginPath] else old(w.navigations)
  {
    w.RemoveItem(TokenKey);
    w.RemoveItem(UserKey);
    if w.pathname != LoginPath {
      w.Navigate(LoginPath);
    }
  }

  /**
   * `throwIfResNotOk`, the part of `apiRequest` after `fetch` resolved to
   * `res`, with the intended classification: the pages are modelled on it,
   * and `JsonResultDiffersOnlyOnNonJsonErrors` bounds where the code as
   * written differs.
   */
  method ThrowIfResNotOk(w: Window, res: Response) returns (r: Outcome<Response>)
    modifies w`localStorage, w`pathname, w`navigations
    ensures r == Classify(res, w.json.parse)
    ensures w.localStorage == StorageAfter(res, old(w.localStorage))
    ensures w.pathname == PathAfter(res, old(w.pathname))
    ensures w.navigations == NavigationsAfter(res, old(w.pathname), old(w.navigations))
  {
    if res.status == 401 {
      HandleUnauthorized(w);
      return Throws(UnauthorizedMessage);
    }
    r := Classify(res, w.json.parse);
  }

  /** `await res.json()` after the classification `checked` of `res`. */
  function JsonAfter(checked: Outcome<Response>, res: Response, parse: string -> Option<Json>): Outcome<Json> {
    match checked
    case Throws(m) => Throws(m)
    case Returns(_) =>
      match parse(res.body)
      case Some(j) => Returns(j)
      case None => Throws(JsonSyntaxMessage)
  }

  /** What `await res.json()` gives for a response classified as intended. */
  function JsonResult(res: Response, parse: string -> Option<Json>): (r: Outcome<Json>)
    ensures r.Returns? ==> IsOk(res.status) && parse(res.body) == Some(r.value)
    ensures IsOk(res.status) && parse(res.body).Some? ==> r.Returns?
  {
    JsonAfter(Classify(res, parse), res, parse)
  }

  /** What `await res.json()` gives for a response classified as written. */
  function JsonResultAsWritten(res: Response, parse: string -> Option<Json>): Outcome<Json> {
    JsonAfter(ClassifyAsWritten(res, parse), res, parse)
  }

  /**
   * The pages see the same outcome under both classifications except for a
   * failing, non-401 reply whose body is not JSON: there the code as written
   * gives "body stream already read" and the intended one "<status>: <statusText>".
   */
  lemma JsonResultDiffersOnlyOnNonJsonErrors(res: Response, parse: string -> Option<Json>)
    ensures JsonResultAsWritten(res, parse) != JsonResult(res, parse)
            <==> !IsOk(res.status) && res.status != 401 && parse(res.body).None?
    ensures !IsOk(res.status) && res.status != 401 && parse(res.body).None? ==>
            JsonResultAsWritten(res, parse) == Throws(BodyUsedMessage)
            && JsonResult(res, parse) == Throws(StatusError(res.status, res.statusText))
  {
    if !IsOk(res.status) && res.status != 401 && parse(res.body).None? {
      NonJsonErrorBodyLosesStatus(res, parse);
      StatusErrorReadsBack(res.status, res.statusText);
    } else {
      AsWrittenAgreesOnJsonBodies(res, parse);
    }
  }

  /** `apiRequest` after `fetch`, then `res.json()`: the step every page takes with a response. */
  method ReceiveJson(w: Window, res: Response) returns (r: Outcome<Json>)
    modifies w`localStorage, w`pathname, w`navigations
    ensures r == JsonResult(res, w.json.parse)
    ensures w.localStorage == StorageAfter(res, old(w.localStorage))
    ensures w.pathname == PathAfter(res, old(w.pathname))
    ensures w.navigations == NavigationsAfter(res, old(w.pathname), old(w.navigations))
  {
    var checked := ThrowIfResNotOk(w, res);
    if checked.Throws? {
      return Throws(checked.message);
    }
    var parsed := w.json.parse(res.body);
    if parsed.None? {
      return Throws(JsonSyntaxMessage);
    }
    r := Returns(parsed.value);
  }

  // ---------------------------------------------------------------------------
  // The token in an auth response

  /** `data.access_token ?? data.token ?? null`; reading a field of a null body throws. */
  function GetTokenFromAuthResponse(data: Json): (r: Outcome<Option<Json>>)
    ensures r.Throws? <==> data.JNull?
    ensures r.Returns? && r.value.Some? ==> !r.value.value.JNull?
  {
    match Member(data, "access_token")
    case Throws(m) => Throws(m)
    case Returns(access) =>
      Returns(if Present(access) then access
              else if Present(Prop(data, "token")) then Prop(data, "token")
              else None)
  }

  /** A non-null `access_token` is the token, whatever `token` holds. */
  lemma AccessTokenTakesPrecedence(data: Json, token: Json)
    requires Present(Prop(data, "access_token"))
    ensures GetTokenFromAuthResponse(data) == Returns(Prop(data, "access_token"))
    ensures data.JObj? ==>
      GetTokenFromAuthResponse(JObj(data.fields["token" := token])) == GetTokenFromAuthResponse(data)
  {
  }

  /** A token is found exactly when one of the two fields holds a non-null value, and it is that value. */
  lemma TokenFoundIffPresent(data: Json)
    requires !data.JNull?
    ensures GetTokenFromAuthResponse(data).value.Some? <==> Present(Prop(data, "access_token")) || Present(Prop(data, "token"))
    ensures GetTokenFromAuthResponse(data).value.Some? ==>
      GetTokenFromAuthResponse(data).value == Prop(data, "access_token") || GetTokenFromAuthResponse(data).value == Prop(data, "token")
  {
  }

  /** `await res.json()` and then `getTokenFromAuthResponse(data)`: what a login or registration reply yields. */
  function TokenOutcome(res: Response, parse: string -> Option<Json>): (r: Outcome<Option<Json>>)
    ensures r.Returns? ==> IsOk(res.status) && parse(res.body).Some? && !parse(res.body).value.JNull?
    ensures r.Returns? ==> r.value == GetTokenFromAuthResponse(parse(res.body).value).value
  {
    match JsonResult(res, parse)
    case Throws(m) => Throws(m)
    case Returns(data) => GetTokenFromAuthResponse(data)
  }
}
