/**
 * The Express error middleware (middleware/error-handler.js): every caught
 * fault is normalised into an `AppError` by a first-match decision list, and
 * answered with its status and an `{error: {message, code}}` body.
 */
module ErrorMiddleware {
  import opened Results
  import opened JsValues
  import opened Errors
  import Text

  const UPSTREAM_FAILED := "外部服务调用失败"
  const NETWORK_FAILED := "网络连接失败，请检查网络设置"
  const TIMED_OUT := "请求超时，请稍后重试"
  const INTERNAL_FAILED := "服务器内部错误"

  /** `error.code === 'ECONNABORTED' || error.message.includes('timeout')` */
  predicate IsTimeout(code: Option<string>, message: string) {
    code == Some("ECONNABORTED") || Text.Contains(message, "timeout")
  }

  /** `error.response.status || 500` */
  function UpstreamStatus(u: Upstream): int {
    if u.status.Some? && u.status.value != 0 then u.status.value else 500
  }

  /** `error.response.data?.error?.message || '外部服务调用失败'` */
  function UpstreamMessage(u: Upstream): string {
    if u.errorMessage.Some? && u.errorMessage.value != "" then u.errorMessage.value else UPSTREAM_FAILED
  }

  /**
   * `normalizeError`.  The branches are tried in the order: already an
   * application error, upstream response, request without response,
   * validation error, timeout, anything else.
   */
  function NormalizeError(f: Fault, production: bool, now: string): (e: AppError)
    ensures f.App? ==> e == f.app
    ensures f.Other? && f.response.Some? ==>
      e.code == AI_API_ERROR && e.statusCode == UpstreamStatus(f.response.value)
      && e.message == UpstreamMessage(f.response.value)
    ensures f.Other? && f.response.None? && f.request ==>
      e.code == NETWORK_ERROR && e.statusCode == 503 && e.message == NETWORK_FAILED
    ensures f.Other? && f.response.None? && !f.request && f.name == "ValidationError" ==>
      e.code == VALIDATION_ERROR && e.statusCode == 400 && e.message == f.message
    ensures f.Other? && f.response.None? && !f.request && f.name != "ValidationError"
            && IsTimeout(f.code, f.message) ==>
      e.code == TIMEOUT_ERROR && e.statusCode == 504 && e.message == TIMED_OUT
    ensures f.Other? && f.response.None? && !f.request && f.name != "ValidationError"
            && !IsTimeout(f.code, f.message) ==>
      e.code == INTERNAL_ERROR && e.statusCode == 500
      && e.message == (if production then INTERNAL_FAILED else f.message)
    ensures f.Other? ==> e.kind == Plain && e.timestamp == now
  {
    match f
    case App(app, _) => app
    case Other(name, message, code, response, request, _) =>
      if response.Some? then
        NewAppError(UpstreamMessage(response.value), Some(AI_API_ERROR), Some(UpstreamStatus(response.value)), now)
      else if request then
        NewAppError(NETWORK_FAILED, Some(NETWORK_ERROR), Some(503), now)
      else if name == "ValidationError" then
        NewAppError(message, Some(VALIDATION_ERROR), Some(400), now)
      else if IsTimeout(code, message) then
        NewAppError(TIMED_OUT, Some(TIMEOUT_ERROR), Some(504), now)
      else
        NewAppError(if production then INTERNAL_FAILED else message, Some(INTERNAL_ERROR), Some(500), now)
  }

  /** Normalising twice is normalising once. */
  lemma NormalizeIdempotent(f: Fault, production: bool, now: string, stack: string)
    ensures NormalizeError(App(NormalizeError(f, production, now), stack), production, now)
         == NormalizeError(f, production, now)
  {
  }

  /**
   * Unless the upstream service supplied them, only four status codes come
   * out of normalising a fault that is not already an application error.
   */
  lemma NormalizedStatusCodes(f: Fault, production: bool, now: string)
    requires f.Other? && f.response.None?
    ensures NormalizeError(f, production, now).statusCode in {400, 500, 503, 504}
  {
  }

  /**
   * In production the client never sees the message of a fault that is
   * neither an application error, an upstream error nor a validation error.
   */
  lemma ProductionHidesInternalMessages(f: Fault, g: Fault, now: string)
    requires f.Other? && g.Other? && f.response.None? && g.response.None?
    requires f.name != "ValidationError" && g.name != "ValidationError"
    requires f.request == g.request && IsTimeout(f.code, f.message) == IsTimeout(g.code, g.message)
    ensures NormalizeError(f, true, now) == NormalizeError(g, true, now)
  {
  }

  /** An HTTP answer: status and JSON body. */
  datatype HttpResponse = HttpResponse(status: int, body: Value)

  /**
   * `errorHandler`: the normalised status, and a body `{error: {message,
   * code}}` that carries `stack` and `original` only outside production.
   */
  function ErrorResponse(err: Fault, production: bool, now: string): (r: HttpResponse)
    ensures r.status == NormalizeError(err, production, now).statusCode
    ensures Keys(r.body) == ["error"]
    ensures production ==> Keys(Get(r.body, "error")) == ["message", "code"]
    ensures !production ==> Keys(Get(r.body, "error")) == ["message", "code", "stack", "original"]
    ensures Get(Get(r.body, "error"), "message") == Str(NormalizeError(err, production, now).message)
    ensures Get(Get(r.body, "error"), "code") == Str(NormalizeError(err, production, now).code)
    ensures !production ==> Get(Get(r.body, "error"), "original") == Str(err.Message())
  {
    var e := NormalizeError(err, production, now);
    var basic := [("message", Str(e.message)), ("code", Str(e.code))];
    var fields := if production then basic else basic + [("stack", Str(err.stack)), ("original", Str(err.Message()))];
    assert Lookup(fields, "code") == Lookup(fields[1..], "code");
    assert !production ==>
      Lookup(fields, "original") == Lookup(fields[1..], "original") == Lookup(fields[2..], "original")
      == Lookup(fields[3..], "original");
    HttpResponse(e.statusCode, Obj([("error", Obj(fields))]))
  }

  /** `notFoundHandler`: always 404, code NOT_FOUND, and the request path. */
  function NotFoundResponse(path: string): (r: HttpResponse)
    ensures r.status == 404
    ensures Keys(Get(r.body, "error")) == ["message", "code", "path"]
    ensures Get(Get(r.body, "error"), "code") == Str("NOT_FOUND")
    ensures Get(Get(r.body, "error"), "path") == Str(path)
  {
    var fields := [("message", Str("接口不存在")), ("code", Str("NOT_FOUND")), ("path", Str(path))];
    assert Lookup(fields, "code") == Lookup(fields[1..], "code");
    assert Lookup(fields, "path") == Lookup(fields[1..], "path") == Lookup(fields[2..], "path");
    HttpResponse(404, Obj([("error", Obj(fields))]))
  }
}
