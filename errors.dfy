/**
 * The application's error records (tools/utils/error-handler.js): `AppError`
 * with its code and HTTP status, the two tool errors, the text shown to the
 * model for an error, and the tolerant JSON parse.
 */
module Errors {
  import opened Results
  import opened JsValues
  import Text

  // Error codes (the `ErrorCodes` table)
  const TOOL_NOT_FOUND := "TOOL_NOT_FOUND"
  const TOOL_EXECUTION_FAILED := "TOOL_EXECUTION_FAILED"
  const INVALID_TOOL_PARAMS := "INVALID_TOOL_PARAMS"
  const AI_API_ERROR := "AI_API_ERROR"
  const AI_RESPONSE_ERROR := "AI_RESPONSE_ERROR"
  const NO_TOOL_CALL_DETECTED := "NO_TOOL_CALL_DETECTED"
  const INVALID_REQUEST := "INVALID_REQUEST"
  const MISSING_REQUIRED_PARAM := "MISSING_REQUIRED_PARAM"
  const VALIDATION_ERROR := "VALIDATION_ERROR"
  const NETWORK_ERROR := "NETWORK_ERROR"
  const TIMEOUT_ERROR := "TIMEOUT_ERROR"
  const UNKNOWN_ERROR := "UNKNOWN_ERROR"
  const INTERNAL_ERROR := "INTERNAL_ERROR"

  /** The text every non-application error is shown to the model as. */
  const GENERIC_AI_ERROR := "[错误] 操作失败，请稍后重试"

  /** Which subclass of `AppError` a record was built by, with its extra fields. */
  datatype ErrorKind =
    | Plain
    | ToolExecution(toolName: string, cause: string)
    | ToolNotFound(toolName: string)

  /** An `AppError`; `timestamp` is the construction time, given by the caller. */
  datatype AppError = AppError(message: string, code: string, statusCode: int, timestamp: string, kind: ErrorKind)

  /** What an HTTP client reported for a failed upstream call (`error.response`). */
  datatype Upstream = Upstream(status: Option<int>, errorMessage: Option<string>)

  /**
   * Anything the server can catch: an `AppError`, or another `Error` with
   * the properties the handlers look at.
   */
  datatype Fault =
    | App(app: AppError, stack: string)
    | Other(name: string, message: string, code: Option<string>,
            response: Option<Upstream>, request: bool, stack: string)
  {
    /** `err.message` */
    function Message(): string {
      if App? then app.message else message
    }
  }

  /** `new AppError(message, code, statusCode)`; an omitted argument takes its default. */
  function NewAppError(message: string, code: Option<string>, statusCode: Option<int>, now: string): (e: AppError)
    ensures e.message == message && e.timestamp == now && e.kind == Plain
    ensures code.None? ==> e.code == UNKNOWN_ERROR
    ensures code.Some? ==> e.code == code.value
    ensures statusCode.None? ==> e.statusCode == 500
    ensures statusCode.Some? ==> e.statusCode == statusCode.value
  {
    AppError(message, if code.Some? then code.value else UNKNOWN_ERROR,
             if statusCode.Some? then statusCode.value else 500, now, Plain)
  }

  /** The member names of an object value, in order. */
  function Keys(v: Value): seq<string> {
    if v.Obj? then seq(|v.fields|, i requires 0 <= i < |v.fields| => v.fields[i].0) else []
  }

  /** `AppError.prototype.toJSON`: the body sent to a client. */
  function ToJson(e: AppError): (r: Value)
    ensures Keys(r) == ["error"]
    ensures Keys(Get(r, "error")) == ["message", "code", "timestamp"]
    ensures Get(Get(r, "error"), "message") == Str(e.message)
    ensures Get(Get(r, "error"), "code") == Str(e.code)
    ensures Get(Get(r, "error"), "timestamp") == Str(e.timestamp)
  {
    var inner := [("message", Str(e.message)), ("code", Str(e.code)), ("timestamp", Str(e.timestamp))];
    assert Lookup(inner, "code") == Lookup(inner[1..], "code");
    assert Lookup(inner, "timestamp") == Lookup(inner[1..], "timestamp") == Lookup(inner[2..], "timestamp");
    Obj([("error", Obj(inner))])
  }

  /** `new ToolExecutionError(toolName, message)` */
  function ToolExecutionError(toolName: string, cause: string, now: string): (e: AppError)
    ensures e.code == TOOL_EXECUTION_FAILED && e.statusCode == 500
    ensures e.kind == ToolExecution(toolName, cause)
    ensures Text.StartsWith(e.message, "工具 \"" + toolName + "\"")
    ensures |cause| <= |e.message| && e.message[|e.message| - |cause|..] == cause
    ensures e.message == "工具 \"" + toolName + "\" 执行失败: " + cause
  {
    var prefix := "工具 \"" + toolName + "\" 执行失败: ";
    var m := prefix + cause;
    assert m[..|"工具 \"" + toolName + "\""|] == "工具 \"" + toolName + "\"";
    assert m[|m| - |cause|..] == cause;
    AppError(m, TOOL_EXECUTION_FAILED, 500, now, ToolExecution(toolName, cause))
  }

  /** `new ToolNotFoundError(toolName)` */
  function ToolNotFoundError(toolName: string, now: string): (e: AppError)
    ensures e.code == TOOL_NOT_FOUND && e.statusCode == 404
    ensures e.kind == ToolNotFound(toolName)
    ensures e.message == "工具 \"" + toolName + "\" 未注册"
  {
    AppError("工具 \"" + toolName + "\" 未注册", TOOL_NOT_FOUND, 404, now, ToolNotFound(toolName))
  }

  /**
   * `formatErrorForAI`: an application error is shown with its code and
   * message, anything else as one fixed text that reveals nothing about it.
   */
  function FormatErrorForAI(f: Fault): (r: string)
    ensures f.App? ==> Text.StartsWith(r, "[错误: " + f.app.code + "] ")
    ensures f.App? ==> |f.app.message| <= |r| && r[|r| - |f.app.message|..] == f.app.message
    ensures f.App? ==> r == "[错误: " + f.app.code + "] " + f.app.message
    ensures f.Other? ==> r == GENERIC_AI_ERROR
  {
    if f.App? then
      var head := "[错误: " + f.app.code + "] ";
      var r := head + f.app.message;
      assert r[..|head|] == head;
      assert r[|r| - |f.app.message|..] == f.app.message;
      r
    else GENERIC_AI_ERROR
  }

  /** Two faults that are not application errors are indistinguishable to the model. */
  lemma FormatErrorHidesDetails(f: Fault, g: Fault)
    requires f.Other? && g.Other?
    ensures FormatErrorForAI(f) == FormatErrorForAI(g)
  {
  }

  /**
   * `safeJSONParse(text, defaultValue)`; `parse` is `JSON.parse`, giving None
   * where it throws.
   */
  function SafeJsonParse(text: string, defaultValue: Value, parse: string -> Option<Value>): (r: Value)
    ensures parse(text).Some? ==> r == parse(text).value
    ensures parse(text).None? ==> r == defaultValue
  {
    match parse(text)
    case Some(v) => v
    case None => defaultValue
  }
}
