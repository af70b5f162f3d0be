/**
 * The start-up configuration check: the guards on ports, arrays, URLs,
 * numeric ranges and enumerations, and `validateConfig`, which runs them in
 * order, collects the non-fatal problems into `errors` and `warnings`, and
 * throws once at the end when `errors` is not empty.
 *
 * Inputs arrive already parsed: `parseInt`/`parseFloat` results are
 * `Parsed` values, the `URL` constructor is an oracle `parses` (true when
 * `new URL(s)` does not throw), and the two API-key environment variables
 * are the booleans `!!process.env.GLM_API_KEY` and
 * `!!process.env.DEEPSEEK_API_KEY`.
 */
module ConfigValidators {
  import opened Results
  import opened JsValues
  import opened Text

  /** Why a guard throws; each names the setting the way its message does. */
  datatype ConfigError =
    | PortOutOfRange(name: string, shown: string)
    | NotAnArray(name: string)
    | EmptyArray(name: string)
    | NotAString(name: string)
    | MalformedUrl(name: string, url: string)
    | NotANumber(name: string)
    | OutOfRange(name: string, min: int, max: int, num: real)
    | NotAllowed(name: string, allowed: seq<Value>, value: Value)
    | Invalid(message: string)

  // ------------------------------------------------------------------ guards

  /**
   * `validatePort(port, name)`: `portNum` is `parseInt(port)` and `shown` is
   * how `${port}` prints in the message.
   */
  function ValidatePort(portNum: Parsed<int>, shown: string, name: string): (r: Result<int, ConfigError>)
    ensures r.Ok? <==> portNum.Finite? && 1 <= portNum.value <= 65535
    ensures r.Ok? ==> r.value == portNum.value
    ensures r.Err? ==> r.error == PortOutOfRange(name, shown)
  {
    if portNum.NaN? || portNum.value < 1 || portNum.value > 65535 then Err(PortOutOfRange(name, shown))
    else Ok(portNum.value)
  }

  /** `validateArray(value, name)`: a non-empty array comes back unchanged. */
  function ValidateArray(value: Value, name: string): (r: Result<seq<Value>, ConfigError>)
    ensures r.Ok? <==> value.Arr? && |value.items| > 0
    ensures r.Ok? ==> Arr(r.value) == value
    ensures !value.Arr? ==> r == Err(NotAnArray(name))
    ensures value == Arr([]) ==> r == Err(EmptyArray(name))
  {
    if !value.Arr? then Err(NotAnArray(name))
    else if |value.items| == 0 then Err(EmptyArray(name))
    else Ok(value.items)
  }

  /** What `validateUrl` accepts: a string that is empty or that `new URL` parses. */
  predicate UrlAccepted(url: Value, parses: string -> bool) {
    url.Str? && (url.s == "" || parses(url.s))
  }

  /** `validateUrl(url, name)`: the empty string is accepted without consulting the parser. */
  function ValidateUrl(url: Value, name: string, parses: string -> bool): (r: Result<bool, ConfigError>)
    ensures r.Ok? <==> UrlAccepted(url, parses)
    ensures r.Ok? ==> r.value
    ensures !url.Str? ==> r == Err(NotAString(name))
    ensures url.Str? && url.s != "" && !parses(url.s) ==> r == Err(MalformedUrl(name, url.s))
  {
    if !url.Str? then Err(NotAString(name))
    else if url.s == "" then Ok(true)
    else if parses(url.s) then Ok(true)
    else Err(MalformedUrl(name, url.s))
  }

  /** `validateNumberRange(value, name, min, max)` on `num = parseFloat(value)`; both bounds are inclusive. */
  function ValidateNumberRange(num: Parsed<real>, name: string, min: int, max: int): (r: Result<real, ConfigError>)
    ensures r.Ok? <==> num.Finite? && min as real <= num.value <= max as real
    ensures r.Ok? ==> r.value == num.value
    ensures num.NaN? ==> r == Err(NotANumber(name))
    ensures num.Finite? && !(min as real <= num.value <= max as real) ==> r == Err(OutOfRange(name, min, max, num.value))
  {
    if num.NaN? then Err(NotANumber(name))
    else if num.value < min as real || num.value > max as real then Err(OutOfRange(name, min, max, num.value))
    else Ok(num.value)
  }

  /** `validateEnum(value, name, allowedValues)`: `allowedValues.includes(value)`. */
  function ValidateEnum(value: Value, name: string, allowed: seq<Value>): (r: Result<Value, ConfigError>)
    ensures r.Ok? <==> value in allowed
    ensures r.Ok? ==> r.value == value
    ensures r.Err? ==> r.error == NotAllowed(name, allowed, value)
  {
    if value !in allowed then Err(NotAllowed(name, allowed, value)) else Ok(value)
  }

  // ------------------------------------------------------------------ config

  /** The temperature and token limit of one model (`config.ai.glm`, `config.ai.deepseek`). */
  datatype ModelLimits = ModelLimits(temperature: Parsed<real>, maxTokens: Parsed<real>)

  /** The parts of the configuration object the check reads. */
  datatype Config = Config(
    port: Parsed<int>,            // `parseInt(config.server.port)`
    portShown: string,            // `${config.server.port}`
    env: Value,                   // `config.server.env`
    corsOrigin: Value,            // `config.cors.origin`
    bodyLimit: Value,             // `config.bodyLimit`
    rateLimitMax: Parsed<real>,   // `parseFloat(config.rateLimit.max)`
    glm: ModelLimits,
    deepseek: ModelLimits,
    maxMessageLength: Parsed<real>,
    defaultProvider: Value,       // `config.api.defaultProvider`
    providers: seq<Value>)        // `config.api.providers`

  /** Which API keys the environment holds. */
  datatype Keys = Keys(glm: bool, deepseek: bool)

  /** The object returned on success: `{ port, env, isValid: true }`. */
  datatype Summary = Summary(port: int, env: Value, isValid: bool)

  const ENVIRONMENTS: seq<Value> := [Str("development"), Str("production"), Str("test")]

  const BODY_LIMIT_ERROR := "bodyLimit 必须是字符串类型（如 \"1mb\"）"
  const NO_KEY_ERROR := "至少需要配置一个 AI API Key（GLM_API_KEY 或 DEEPSEEK_API_KEY）"
  const GLM_WARNING := "GLM_API_KEY 未配置"
  const DEEPSEEK_WARNING := "DEEPSEEK_API_KEY 未配置"
  const ERRORS_HEADER := "❌ 配置错误:"

  /** The name `CORS origin[${index}]` of one origin. */
  function OriginName(index: nat): string {
    "CORS origin[" + NatToString(index) + "]"
  }

  /** The `origins.forEach` pass from `index` on: `'*'` is skipped, anything else must pass `validateUrl`. */
  function OriginsFrom(origins: seq<Value>, index: nat, parses: string -> bool): (r: Result<bool, ConfigError>)
    requires index <= |origins|
    decreases |origins| - index
  {
    if index == |origins| then Ok(true)
    else if origins[index] == Str("*") then OriginsFrom(origins, index + 1, parses)
    else
      var checked :- ValidateUrl(origins[index], OriginName(index), parses);
      OriginsFrom(origins, index + 1, parses)
  }

  /** Whether one origin passes the pass over the origins. */
  predicate OriginAccepted(origin: Value, parses: string -> bool) {
    origin == Str("*") || UrlAccepted(origin, parses)
  }

  /** The range checks of one configured model. */
  function LimitsChecked(limits: ModelLimits, temperatureName: string, tokensName: string): (r: Result<real, ConfigError>)
    ensures r.Ok? <==> InLimits(limits)
  {
    var temperature :- ValidateNumberRange(limits.temperature, temperatureName, 0, 2);
    ValidateNumberRange(limits.maxTokens, tokensName, 1, 32000)
  }

  /** What `errors` holds once every guard has passed, in the order it was pushed. */
  function ConfigErrors(c: Config, keys: Keys): (errors: seq<string>)
    ensures BODY_LIMIT_ERROR in errors <==> !c.bodyLimit.Str?
    ensures NO_KEY_ERROR in errors <==> !keys.glm && !keys.deepseek
    ensures forall e :: e in errors ==> e == BODY_LIMIT_ERROR || e == NO_KEY_ERROR
  {
    (if !c.bodyLimit.Str? then [BODY_LIMIT_ERROR] else [])
    + (if !keys.glm && !keys.deepseek then [NO_KEY_ERROR] else [])
  }

  /** What `warnings` holds at the end: one line per missing key. */
  function Warnings(keys: Keys): (warnings: seq<string>)
    ensures GLM_WARNING in warnings <==> !keys.glm
    ensures DEEPSEEK_WARNING in warnings <==> !keys.deepseek
    ensures |warnings| <= 1 ==> keys.glm || keys.deepseek
  {
    (if keys.glm then [] else [GLM_WARNING]) + (if keys.deepseek then [] else [DEEPSEEK_WARNING])
  }

  /** The bullet `  - ${e}` of each error. */
  function Bullets(errors: seq<string>): (lines: seq<string>)
    ensures |lines| == |errors|
    ensures forall i :: 0 <= i < |errors| ==> lines[i] == "  - " + errors[i]
  {
    seq(|errors|, i requires 0 <= i < |errors| => "  - " + errors[i])
  }

  /** The message thrown for a non-empty `errors`. */
  function AccumulatedMessage(errors: seq<string>): string {
    "\n" + ERRORS_HEADER + "\n" + Join(Bullets(errors), "\n")
  }

  /**
   * `validateConfig(config)`: the guards in source order (the first that
   * throws decides the outcome), then the throw for accumulated errors,
   * then the summary.
   */
  function ConfigChecked(c: Config, keys: Keys, parses: string -> bool): (r: Result<Summary, ConfigError>) {
    var port :- ValidatePort(c.port, c.portShown, "PORT");
    var env :- ValidateEnum(c.env, "NODE_ENV", ENVIRONMENTS);
    var origins :- ValidateArray(c.corsOrigin, "CORS origin");
    var urls :- OriginsFrom(origins, 0, parses);
    var rate :- ValidateNumberRange(c.rateLimitMax, "RATE_LIMIT_MAX", 1, 10000);
    var glm :- if keys.glm then LimitsChecked(c.glm, "GLM_TEMPERATURE", "GLM_MAX_TOKENS") else Ok(0.0);
    var deepseek :- if keys.deepseek then LimitsChecked(c.deepseek, "DEEPSEEK_TEMPERATURE", "DEEPSEEK_MAX_TOKENS") else Ok(0.0);
    var length :- ValidateNumberRange(c.maxMessageLength, "MAX_MESSAGE_LENGTH", 1, 100000);
    var provider :- ValidateEnum(c.defaultProvider, "DEFAULT_MODEL", c.providers);
    var errors := ConfigErrors(c, keys);
    if |errors| > 0 then Err(Invalid(AccumulatedMessage(errors)))
    else Ok(Summary(port, env, true))
  }

  /**
   * An independent statement of when the configuration is accepted: every
   * guard's condition, the body limit a string, and at least one key.
   */
  predicate Acceptable(c: Config, keys: Keys, parses: string -> bool) {
    && c.port.Finite? && 1 <= c.port.value <= 65535
    && c.env in ENVIRONMENTS
    && c.corsOrigin.Arr? && |c.corsOrigin.items| > 0
    && (forall i :: 0 <= i < |c.corsOrigin.items| ==> OriginAccepted(c.corsOrigin.items[i], parses))
    && c.bodyLimit.Str?
    && c.rateLimitMax.Finite? && 1.0 <= c.rateLimitMax.value <= 10000.0
    && (keys.glm || keys.deepseek)
    && (keys.glm ==> InLimits(c.glm))
    && (keys.deepseek ==> InLimits(c.deepseek))
    && c.maxMessageLength.Finite? && 1.0 <= c.maxMessageLength.value <= 100000.0
    && c.defaultProvider in c.providers
  }

  predicate InLimits(limits: ModelLimits) {
    && limits.temperature.Finite? && 0.0 <= limits.temperature.value <= 2.0
    && limits.maxTokens.Finite? && 1.0 <= limits.maxTokens.value <= 32000.0
  }

  /** `validateConfig(config)` as the source runs it, statement by statement. */
  method ValidateConfig(c: Config, keys: Keys, parses: string -> bool) returns (r: Result<Summary, ConfigError>, logged: seq<string>)
    ensures r == ConfigChecked(c, keys, parses)
    ensures logged == if r.Ok? then Warnings(keys) else []
  {
    var errors: seq<string> := [];
    var warnings: seq<string> := [];
    logged := [];
    var port :- ValidatePort(c.port, c.portShown, "PORT");
    var env :- ValidateEnum(c.env, "NODE_ENV", ENVIRONMENTS);
    var origins :- ValidateArray(c.corsOrigin, "CORS origin");
    var urls := CheckOrigins(origins, parses);
    if urls.Err? {
      return Err(urls.error), [];
    }
    if !c.bodyLimit.Str? {
      errors := errors + [BODY_LIMIT_ERROR];
    }
    var rate :- ValidateNumberRange(c.rateLimitMax, "RATE_LIMIT_MAX", 1, 10000);
    if !keys.glm && !keys.deepseek {
      errors := errors + [NO_KEY_ERROR];
    }
    if keys.glm {
      var temperature :- ValidateNumberRange(c.glm.temperature, "GLM_TEMPERATURE", 0, 2);
      var tokens :- ValidateNumberRange(c.glm.maxTokens, "GLM_MAX_TOKENS", 1, 32000);
    } else {
      warnings := warnings + [GLM_WARNING];
    }
    if keys.deepseek {
      var temperature :- ValidateNumberRange(c.deepseek.temperature, "DEEPSEEK_TEMPERATURE", 0, 2);
      var tokens :- ValidateNumberRange(c.deepseek.maxTokens, "DEEPSEEK_MAX_TOKENS", 1, 32000);
    } else {
      warnings := warnings + [DEEPSEEK_WARNING];
    }
    var length :- ValidateNumberRange(c.maxMessageLength, "MAX_MESSAGE_LENGTH", 1, 100000);
    var provider :- ValidateEnum(c.defaultProvider, "DEFAULT_MODEL", c.providers);
    assert errors == ConfigErrors(c, keys);
    if |errors| > 0 {
      return Err(Invalid(AccumulatedMessage(errors))), [];
    }
    return Ok(Summary(port, env, true)), warnings;
  }

  /** The `origins.forEach` loop; the first origin that `validateUrl` rejects ends it. */
  method CheckOrigins(origins: seq<Value>, parses: string -> bool) returns (r: Result<bool, ConfigError>)
    ensures r == OriginsFrom(origins, 0, parses)
  {
    var index := 0;
    while index < |origins|
      invariant 0 <= index <= |origins|
      invariant OriginsFrom(origins, 0, parses) == OriginsFrom(origins, index, parses)
    {
      if origins[index] != Str("*") {
        var checked := ValidateUrl(origins[index], OriginName(index), parses);
        if checked.Err? {
          return Err(checked.error);
        }
      }
      index := index + 1;
    }
    return Ok(true);
  }

  // ---------------------------------------------------------------- lemmas

  /** The pass over the origins succeeds exactly when every origin is `'*'` or an accepted URL. */
  lemma {:induction false} OriginsFromOk(origins: seq<Value>, index: nat, parses: string -> bool)
    requires index <= |origins|
    ensures OriginsFrom(origins, index, parses).Ok?
        <==> forall i :: index <= i < |origins| ==> OriginAccepted(origins[i], parses)
    decreases |origins| - index
  {
    if index < |origins| {
      OriginsFromOk(origins, index + 1, parses);
    }
  }

  /**
   * The pass fails with the error `validateUrl` gives for the first origin
   * that is neither `'*'` nor accepted.
   */
  lemma {:induction false} OriginsFailAtFirst(origins: seq<Value>, index: nat, bad: nat, parses: string -> bool)
    requires index <= bad < |origins| && !OriginAccepted(origins[bad], parses)
    requires forall i :: index <= i < bad ==> OriginAccepted(origins[i], parses)
    ensures OriginsFrom(origins, index, parses) == ValidateUrl(origins[bad], OriginName(bad), parses)
    decreases bad - index
  {
    if index < bad {
      OriginsFailAtFirst(origins, index + 1, bad, parses);
    }
  }

  /** `'*'` is never handed to the URL parser: parsers that differ only on `"*"` give the same outcome. */
  lemma {:induction false} WildcardNeverParsed(origins: seq<Value>, index: nat, parses: string -> bool, other: string -> bool)
    requires index <= |origins|
    requires forall s :: s != "*" ==> parses(s) == other(s)
    ensures OriginsFrom(origins, index, parses) == OriginsFrom(origins, index, other)
    decreases |origins| - index
  {
    if index < |origins| {
      WildcardNeverParsed(origins, index + 1, parses, other);
      if origins[index] != Str("*") && origins[index].Str? && origins[index].s != "" {
        assert origins[index].s != "*";
      }
    }
  }

  /** The check accepts a configuration exactly when `Acceptable` holds, and then returns `{port, env, isValid: true}`. */
  lemma ConfigAcceptedIff(c: Config, keys: Keys, parses: string -> bool)
    ensures ConfigChecked(c, keys, parses).Ok? <==> Acceptable(c, keys, parses)
    ensures ConfigChecked(c, keys, parses).Ok? ==>
      ConfigChecked(c, keys, parses).value == Summary(c.port.value, c.env, true)
  {
    if c.corsOrigin.Arr? {
      OriginsFromOk(c.corsOrigin.items, 0, parses);
    }
  }

  /** With no API key at all the check throws, whatever else the configuration holds. */
  lemma NoKeyFails(c: Config, parses: string -> bool)
    ensures ConfigChecked(c, Keys(false, false), parses).Err?
    ensures var r := ConfigChecked(c, Keys(false, false), parses);
      r.error.Invalid? ==> NO_KEY_ERROR in ConfigErrors(c, Keys(false, false))
  {
  }

  /** The limits of a model whose key is missing are never range-checked. */
  lemma UnconfiguredLimitsIgnored(c: Config, keys: Keys, parses: string -> bool, glm: ModelLimits, deepseek: ModelLimits)
    ensures var c' := c.(glm := if keys.glm then c.glm else glm, deepseek := if keys.deepseek then c.deepseek else deepseek);
      ConfigChecked(c', keys, parses) == ConfigChecked(c, keys, parses)
  {
  }

  /**
   * The thrown message is a blank line, the header, then one `  - ` line
   * per accumulated error in order.
   */
  lemma AccumulatedLines(errors: seq<string>)
    requires |errors| >= 1
    requires forall i :: 0 <= i < |errors| ==> '\n' !in errors[i]
    ensures Split(AccumulatedMessage(errors), '\n') == ["", ERRORS_HEADER] + Bullets(errors)
  {
    var bullets := Bullets(errors);
    forall i | 0 <= i < |bullets|
      ensures '\n' !in bullets[i]
    {
      assert bullets[i] == "  - " + errors[i];
    }
    var parts := ["", ERRORS_HEADER] + bullets;
    assert parts[2..] == bullets;
    assert Join(parts, "\n") == AccumulatedMessage(errors);
    SplitJoin(parts, '\n');
  }
}
