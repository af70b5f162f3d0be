/**
 * The message model of the AI adapter (server.js, class `AIAdapter`): chat
 * messages, tool calls, provider replies, the projection `formatMessages`
 * that shapes a history for a provider, the credential lookup, and one
 * provider call with its error wrapping.  The HTTP request itself is an
 * oracle `ask`.
 */
module Adapter {
  import opened Results
  import opened JsValues
  import Text

  const SYSTEM := "system"
  const USER := "user"
  const ASSISTANT := "assistant"
  const TOOL := "tool"

  /** A function call requested by the model: `{id, function: {name, arguments}}`. */
  datatype ToolCall = ToolCall(id: string, name: string, arguments: string)

  /**
   * The `content` of a message: absent, null, plain text, or the JSON text
   * of a value (what `JSON.stringify` made of a tool result).
   */
  datatype Content = Absent | NullContent | Text(text: string) | JsonText(value: Value)

  /** Truthiness of a content (`msg.content || …`). */
  predicate ContentTruthy(c: Content) {
    (c.Text? && c.text != "") || c.JsonText?
  }

  /** A chat message `{role, content, tool_calls?, tool_call_id?}`. */
  datatype Message = Message(role: string, content: Content, toolCalls: Option<seq<ToolCall>>, toolCallId: Option<string>)

  /** The two providers. */
  datatype Vendor = GLM | DeepSeek

  /** A provider's answer `{content, tool_calls, model, usage}`. */
  datatype ProviderReply = ProviderReply(content: Content, toolCalls: Option<seq<ToolCall>>, model: string, usage: Value)

  /**
   * The HTTP exchange with a provider: the formatted messages and the tool
   * catalogue in, a reply or the error message of the failed request out.
   */
  type Ask = (Vendor, seq<Message>, seq<Value>) -> Result<ProviderReply, string>

  /** One history entry as `formatMessages` projects it. */
  function FormatOne(m: Message): (r: Message)
    ensures r.role == m.role
    ensures m.role == ASSISTANT && m.toolCalls.Some? ==>
      r.toolCalls == m.toolCalls && r.toolCallId.None?
      && r.content == (if ContentTruthy(m.content) then m.content else NullContent)
    ensures m.role == TOOL ==> r.toolCallId == m.toolCallId && r.content == m.content && r.toolCalls.None?
    ensures !(m.role == ASSISTANT && m.toolCalls.Some?) && m.role != TOOL ==>
      r.content == m.content && r.toolCalls.None? && r.toolCallId.None?
  {
    if m.role == ASSISTANT && m.toolCalls.Some? then
      Message(m.role, if ContentTruthy(m.content) then m.content else NullContent, m.toolCalls, None)
    else if m.role == TOOL then
      Message(m.role, m.content, None, m.toolCallId)
    else
      Message(m.role, m.content, None, None)
  }

  /** Whether `formatMessages` adds the user turn: a message is given and the history does not end mid-tool-turn. */
  predicate AppendsUserTurn(message: Option<string>, history: seq<Message>) {
    message.Some? && (|history| == 0 || history[|history| - 1].role != TOOL)
  }

  /**
   * `formatMessages(message, history)`: every history entry projected in
   * order, then one user turn when `AppendsUserTurn` holds.
   */
  function FormatMessages(message: Option<string>, history: seq<Message>): (r: seq<Message>)
    ensures |r| == |history| + (if AppendsUserTurn(message, history) then 1 else 0)
    ensures forall i :: 0 <= i < |history| ==> r[i] == FormatOne(history[i])
    ensures AppendsUserTurn(message, history) ==> r[|history|] == Message(USER, Text(message.value), None, None)
  {
    var projected := seq(|history|, i requires 0 <= i < |history| => FormatOne(history[i]));
    if AppendsUserTurn(message, history) then projected + [Message(USER, Text(message.value), None, None)]
    else projected
  }

  /** Formatting an already formatted history changes nothing. */
  lemma FormatIdempotent(history: seq<Message>)
    ensures FormatMessages(None, FormatMessages(None, history)) == FormatMessages(None, history)
  {
    var once := FormatMessages(None, history);
    forall i | 0 <= i < |history| ensures FormatOne(once[i]) == once[i] {
      var m := history[i];
      if m.role == ASSISTANT && m.toolCalls.Some? {
        assert once[i].content == NullContent || ContentTruthy(once[i].content);
      }
    }
  }

  /** The environment variable that holds a provider's key: `<PROVIDER>_API_KEY`. */
  function KeyName(provider: string): string {
    Text.Upper(provider) + "_API_KEY"
  }

  /** `getApiKey(provider)`: the configured key, or the error that it is missing or empty. */
  function GetApiKey(provider: string, env: map<string, string>): (r: Result<string, string>)
    ensures r.Ok? <==> KeyName(provider) in env && env[KeyName(provider)] != ""
    ensures r.Ok? ==> r.value == env[KeyName(provider)]
    ensures r.Err? ==> r.error == KeyName(provider) + " 未配置"
  {
    var name := KeyName(provider);
    if name in env && env[name] != "" then Ok(env[name]) else Err(name + " 未配置")
  }

  function VendorId(v: Vendor): string {
    match v
    case GLM => "glm"
    case DeepSeek => "deepseek"
  }

  /** The prefix of a wrapped provider failure. */
  function VendorLabel(v: Vendor): string {
    match v
    case GLM => "GLM"
    case DeepSeek => "DeepSeek"
  }

  /**
   * `chatWithGLM` / `chatWithDeepSeek`: the key is checked before anything
   * is sent; the request carries the formatted messages; a failed request
   * surfaces as `<Vendor> API 调用失败: <reason>`.
   */
  function CallProvider(vendor: Vendor, message: Option<string>, history: seq<Message>, tools: seq<Value>,
                        env: map<string, string>, ask: Ask): (r: Result<ProviderReply, string>)
    ensures GetApiKey(VendorId(vendor), env).Err? ==> r == Err(GetApiKey(VendorId(vendor), env).error)
    ensures GetApiKey(VendorId(vendor), env).Ok? ==>
      match ask(vendor, FormatMessages(message, history), tools)
      case Ok(reply) => r == Ok(reply)
      case Err(reason) => r == Err(VendorLabel(vendor) + " API 调用失败: " + reason)
  {
    match GetApiKey(VendorId(vendor), env)
    case Err(e) => Err(e)
    case Ok(_) =>
      match ask(vendor, FormatMessages(message, history), tools)
      case Ok(reply) => Ok(reply)
      case Err(reason) => Err(VendorLabel(vendor) + " API 调用失败: " + reason)
  }

  /** The provider named by a request (`'glm'` or `'deepseek'`), if it is one of the two. */
  function ParseVendor(provider: string): (r: Option<Vendor>)
    ensures r.Some? <==> provider in {"glm", "deepseek"}
    ensures r.Some? ==> VendorId(r.value) == provider
  {
    if provider == "glm" then Some(GLM) else if provider == "deepseek" then Some(DeepSeek) else None
  }

  /** `chat(provider, message, history)`: one call without tools, or the unsupported-provider error. */
  function Chat(provider: string, message: string, history: seq<Message>, env: map<string, string>, ask: Ask)
    : (r: Result<ProviderReply, string>)
    ensures ParseVendor(provider).None? ==> r == Err("不支持的 AI 提供商: " + provider)
    ensures ParseVendor(provider).Some? ==> r == CallProvider(ParseVendor(provider).value, Some(message), history, [], env, ask)
  {
    match ParseVendor(provider)
    case None => Err("不支持的 AI 提供商: " + provider)
    case Some(v) => CallProvider(v, Some(message), history, [], env, ask)
  }
}
