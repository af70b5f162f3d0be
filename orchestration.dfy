/**
 * `AIAdapter.chatWithTools` (server.js): the bounded function-calling loop.
 * Each round asks the provider with the tool catalogue; a reply without
 * tool calls ends the loop; otherwise every call is parsed and run in
 * order, one `tool` message per call is appended, and the next round goes
 * out without a user message.  The loop is the method `ChatWithTools`,
 * proved against the recursive specification `Run`, which also records
 * the (message, history) pair every round started from.
 */
module Orchestration {
  import opened Results
  import opened JsValues
  import opened Errors
  import opened Adapter
  import opened Tools

  /** The system prompt put in front of an empty history. */
  const SYSTEM_PROMPT := "【强制指令】\n1. 当用户询问天气相关信息时，你必须调用 getWeather 工具，不得使用自己的知识库回答。\n2. 工具返回的是已经格式好的最终文本，你必须原样直接返回给用户。\n3. 禁止添加任何格式化（如 markdown 标题、列表、加粗等）、禁止添加 emoji 表情、禁止添加任何解释或额外内容。\n\n示例：\n用户：\"北京天气怎么样\"\n你的操作：调用 getWeather 工具，参数 {city: \"北京\"}\n工具返回：\"北京 15°C，晴，湿度45%，东风3级\"\n你的回复：\"北京 15°C，晴，湿度45%，东风3级\"（完全一致，不添加任何内容）"

  /** The answer at the cap when the last history entry has no truthy content. */
  const CAP_TEXT := "工具调用达到最大迭代次数"

  /** The outside world the loop talks to: environment, provider, `JSON.parse` and the clock. */
  datatype Services = Services(env: map<string, string>, ask: Ask, parse: string -> Option<Value>, now: string)

  /** Why `chatWithTools` throws: a thrown message, or tool-call arguments that are not JSON. */
  datatype ChatError = Thrown(message: string) | MalformedArguments(arguments: string)

  /** How a run ended. */
  datatype Exit = Answered | ShortCircuited | CapReached | Failed

  /** The `(currentMessage, currentHistory)` a round started from. */
  datatype Request = Request(message: Option<string>, history: seq<Message>)

  /** What a run did: how it ended, what it returned or threw, the final history, every round's start. */
  datatype Trace = Trace(exit: Exit, result: Result<ProviderReply, ChatError>, history: seq<Message>, rounds: seq<Request>)

  /** The outcome of one round. */
  datatype StepOutcome = Stop(exit: Exit, result: Result<ProviderReply, ChatError>, history: seq<Message>) | Continue(history: seq<Message>)

  /** The working copy of the history: the system prompt alone when the history is empty. */
  function StartHistory(history: seq<Message>): (r: seq<Message>)
    ensures |r| > 0
    ensures |history| == 0 ==> r == [Message(SYSTEM, Text(SYSTEM_PROMPT), None, None)]
    ensures |history| > 0 ==> r == history
  {
    if |history| == 0 then [Message(SYSTEM, Text(SYSTEM_PROMPT), None, None)] else history
  }

  /** The assistant turn recorded for a reply; the tool calls are kept when present (even empty). */
  function AssistantMessage(reply: ProviderReply): (m: Message)
    ensures m.role == ASSISTANT && m.content == reply.content && m.toolCalls == reply.toolCalls
  {
    Message(ASSISTANT, reply.content, reply.toolCalls, None)
  }

  /** What a tool message carries: the executor's envelope, or `{success: false, error}`. */
  function ToolContent(r: Result<Value, AppError>): (v: Value)
    ensures r.Ok? ==> v == r.value
    ensures r.Err? ==> v.Obj? && Get(v, "success") == Bool(false) && Get(v, "error") == Str(r.error.message)
  {
    match r
    case Ok(envelope) => envelope
    case Err(e) =>
      var v := Obj([("success", Bool(false)), ("error", Str(e.message))]);
      assert Get(v, "error") == Lookup(v.fields[1..], "error");
      v
  }

  /** The `tool` message answering one call. */
  function ToolMessage(call: ToolCall, r: Result<Value, AppError>): (m: Message)
    ensures m.role == TOOL && m.toolCallId == Some(call.id) && m.content == JsonText(ToolContent(r))
  {
    Message(TOOL, JsonText(ToolContent(r)), None, Some(call.id))
  }

  /** The tool message for a call whose arguments parsed to `args`. */
  function Answer(call: ToolCall, args: Value, table: Table, now: string): (m: Message)
    ensures m == ToolMessage(call, Execute(table, call.name, args, now))
  {
    ToolMessage(call, Execute(table, call.name, args, now))
  }

  /**
   * The tool messages of one round: for each call in order, parse its
   * arguments and run it.  Arguments that do not parse throw out of the
   * whole loop (the parse is outside the `try`), naming the first such
   * text; a tool that is unknown or throws only yields a failure message.
   */
  function ToolMessages(calls: seq<ToolCall>, table: Table, parse: string -> Option<Value>, now: string)
    : (r: Result<seq<Message>, string>)
    ensures r.Ok? <==> forall i :: 0 <= i < |calls| ==> parse(calls[i].arguments).Some?
    ensures r.Ok? ==> |r.value| == |calls|
  {
    if |calls| == 0 then Ok([])
    else
      var init := calls[..|calls| - 1];
      var call := calls[|calls| - 1];
      assert forall i :: 0 <= i < |init| ==> init[i] == calls[i];
      match ToolMessages(init, table, parse, now)
      case Err(text) => Err(text)
      case Ok(ms) =>
        match parse(call.arguments)
        case None => Err(call.arguments)
        case Some(args) => Ok(ms + [Answer(call, args, table, now)])
  }

  /** One more call whose arguments parse adds its answer to the tool messages so far. */
  lemma ToolMessagesSnoc(calls: seq<ToolCall>, i: nat, table: Table, parse: string -> Option<Value>, now: string,
                         ms: seq<Message>)
    requires i < |calls| && ToolMessages(calls[..i], table, parse, now) == Ok(ms)
    requires parse(calls[i].arguments).Some?
    ensures ToolMessages(calls[..i + 1], table, parse, now) == Ok(ms + [Answer(calls[i], parse(calls[i].arguments).value, table, now)])
  {
    assert calls[..i + 1][..i] == calls[..i];
  }

  /** A call whose arguments do not parse ends the round's tool messages with that text, whatever follows. */
  lemma {:induction false} ToolMessagesStops(calls: seq<ToolCall>, k: nat, table: Table, parse: string -> Option<Value>, now: string)
    requires k < |calls| && parse(calls[k].arguments).None?
    requires forall i :: 0 <= i < k ==> parse(calls[i].arguments).Some?
    ensures ToolMessages(calls, table, parse, now) == Err(calls[k].arguments)
  {
    if k < |calls| - 1 {
      var init := calls[..|calls| - 1];
      assert init[k] == calls[k];
      assert forall i :: 0 <= i < k ==> init[i] == calls[i];
      ToolMessagesStops(init, k, table, parse, now);
    }
  }

  /** The loop of `chatWithTools` over the calls stops at the first call whose arguments do not parse. */
  lemma ToolMessagesStopAt(calls: seq<ToolCall>, k: nat, table: Table, parse: string -> Option<Value>, now: string)
    requires k < |calls| && parse(calls[k].arguments).None?
    requires ToolMessages(calls[..k], table, parse, now).Ok?
    ensures ToolMessages(calls, table, parse, now) == Err(calls[k].arguments)
  {
    forall i | 0 <= i < k
      ensures parse(calls[i].arguments).Some?
    {
      assert calls[..k][i] == calls[i];
    }
    ToolMessagesStops(calls, k, table, parse, now);
  }

  /** The answer at the cap: the last entry's content when truthy, else `CAP_TEXT`; no tool calls, model `unknown`, usage null. */
  function CapReply(history: seq<Message>): (r: ProviderReply)
    requires |history| > 0
  {
    var last := history[|history| - 1];
    ProviderReply(if ContentTruthy(last.content) then last.content else Text(CAP_TEXT), None, "unknown", Null)
  }

  /** One round of the loop body, from the provider switch to the short-circuit check. */
  function Step(provider: string, tools: seq<Value>, table: Table, sv: Services,
                message: Option<string>, history: seq<Message>): (o: StepOutcome)
    ensures |o.history| >= |history| && o.history[..|history|] == history
    ensures o.Continue? ==> |o.history| > |history|
  {
    match ParseVendor(provider)
    case None => Stop(Failed, Err(Thrown("不支持的 AI 提供商: " + provider)), history)
    case Some(vendor) =>
      match CallProvider(vendor, message, history, tools, sv.env, sv.ask)
      case Err(m) => Stop(Failed, Err(Thrown(m)), history)
      case Ok(reply) =>
        var h1 := history + [AssistantMessage(reply)];
        assert h1[..|history|] == history;
        if reply.toolCalls.None? || |reply.toolCalls.value| == 0 then Stop(Answered, Ok(reply), h1)
        else
          match ToolMessages(reply.toolCalls.value, table, sv.parse, sv.now)
          case Err(text) => Stop(Failed, Err(MalformedArguments(text)), h1)
          case Ok(ms) =>
            var h2 := h1 + ms;
            assert h2[..|history|] == history;
            if |ms| == 1 && JsonRoundTrip(ms[0].content.value).Str? then
              Stop(ShortCircuited, Ok(ProviderReply(Text(JsonRoundTrip(ms[0].content.value).s), None, provider, reply.usage)), h2)
            else Continue(h2)
  }

  /** A round as a function of the `(currentMessage, currentHistory)` it starts from. */
  type Stepper = (Option<string>, seq<Message>) -> StepOutcome

  /** Rounds only ever extend the history, and a round that goes on adds to it. */
  ghost predicate Extends(step: Stepper) {
    forall m, h :: |step(m, h).history| >= |h| && step(m, h).history[..|h|] == h
                   && (step(m, h).Continue? ==> |step(m, h).history| > |h|)
  }

  /** The loop body of `chatWithTools` for one provider, catalogue, registry and environment. */
  function RoundOf(provider: string, tools: seq<Value>, table: Table, sv: Services): (step: Stepper)
    ensures Extends(step)
    ensures forall m, h :: step(m, h) == Step(provider, tools, table, sv, m, h)
  {
    (m, h) => Step(provider, tools, table, sv, m, h)
  }

  /**
   * The loop from a given state with `remaining` rounds left; `sent`
   * holds the rounds already started.
   */
  function Run(step: Stepper, message: Option<string>, history: seq<Message>, remaining: nat, sent: seq<Request>): (t: Trace)
    requires Extends(step) && |history| > 0
    decreases remaining
  {
    if remaining == 0 then Trace(CapReached, Ok(CapReply(history)), history, sent)
    else
      var sent' := sent + [Request(message, history)];
      match step(message, history)
      case Stop(exit, result, h) => Trace(exit, result, h, sent')
      case Continue(h) => Run(step, None, h, remaining - 1, sent')
  }

  /** One unfolding of `Run`: a round is started and either stops the run or leads to the next one. */
  lemma RunStep(step: Stepper, message: Option<string>, history: seq<Message>, remaining: nat, sent: seq<Request>)
    requires Extends(step) && |history| > 0 && remaining > 0
    ensures var o := step(message, history);
      var sent' := sent + [Request(message, history)];
      Run(step, message, history, remaining, sent) ==
        if o.Stop? then Trace(o.exit, o.result, o.history, sent') else Run(step, None, o.history, remaining - 1, sent')
  {
  }

  /** `RunStep` once the round's outcome `o` is known. */
  lemma RunAfter(step: Stepper, message: Option<string>, history: seq<Message>, remaining: nat, sent: seq<Request>,
                 o: StepOutcome)
    requires Extends(step) && |history| > 0 && remaining > 0 && o == step(message, history)
    ensures o.Stop? ==> Run(step, message, history, remaining, sent)
                        == Trace(o.exit, o.result, o.history, sent + [Request(message, history)])
    ensures o.Continue? ==> |o.history| > 0 && Run(step, message, history, remaining, sent)
                            == Run(step, None, o.history, remaining - 1, sent + [Request(message, history)])
  {
    RunStep(step, message, history, remaining, sent);
  }

  /** The number of rounds `while (iteration < maxIterations)` allows. */
  function Rounds(maxIterations: int): nat {
    if maxIterations < 0 then 0 else maxIterations
  }

  /**
   * At most `remaining` rounds are started (so at most that many provider
   * calls), at least one when any is allowed; the first starts from the
   * given message and every later one from no message; the history only
   * grows.
   */
  lemma {:induction false} RunRounds(step: Stepper, message: Option<string>, history: seq<Message>, remaining: nat, sent: seq<Request>)
    requires Extends(step) && |history| > 0
    ensures var t := Run(step, message, history, remaining, sent);
      |sent| <= |t.rounds| <= |sent| + remaining
      && t.rounds[..|sent|] == sent
      && (remaining > 0 ==> |t.rounds| > |sent| && t.rounds[|sent|] == Request(message, history))
      && (forall k :: |sent| < k < |t.rounds| ==> t.rounds[k].message.None?)
      && |t.history| >= |history| && t.history[..|history|] == history
    decreases remaining
  {
    if remaining > 0 {
      var o := step(message, history);
      var sent' := sent + [Request(message, history)];
      assert |o.history| >= |history| && o.history[..|history|] == history;
      if o.Continue? {
        RunRounds(step, None, o.history, remaining - 1, sent');
        var t := Run(step, None, o.history, remaining - 1, sent');
        assert t.rounds[..|sent|] == t.rounds[..|sent'|][..|sent|];
        assert t.rounds[|sent|] == t.rounds[..|sent'|][|sent|];
        assert t.history[..|history|] == t.history[..|o.history|][..|history|];
      }
    }
  }

  /** A round that never takes the short-circuit. */
  ghost predicate NoShortCircuit(step: Stepper) {
    forall m, h :: !(step(m, h).Stop? && step(m, h).exit == ShortCircuited)
  }

  /** A run whose rounds never short-circuit never does. */
  lemma {:induction false} RunNeverShortCircuits(step: Stepper, message: Option<string>, history: seq<Message>,
                                                remaining: nat, sent: seq<Request>)
    requires Extends(step) && NoShortCircuit(step) && |history| > 0
    ensures Run(step, message, history, remaining, sent).exit != ShortCircuited
    decreases remaining
  {
    if remaining > 0 && step(message, history).Continue? {
      RunNeverShortCircuits(step, None, step(message, history).history, remaining - 1, sent + [Request(message, history)]);
    }
  }

  /** A round that answers returns a reply without tool calls, recorded last; a round fails exactly when it throws. */
  ghost predicate StopsHonestly(step: Stepper) {
    forall m, h :: step(m, h).Stop? ==>
      var o := step(m, h);
      o.exit != CapReached
      && (o.exit == Failed <==> o.result.Err?)
      && (o.exit == Answered ==>
            o.result.Ok? && (o.result.value.toolCalls.None? || |o.result.value.toolCalls.value| == 0)
            && |o.history| > 0 && o.history[|o.history| - 1] == AssistantMessage(o.result.value))
  }

  /**
   * How a run ends: with an answer, the first reply without tool calls,
   * last in the history; at the cap, after all rounds, with `CapReply`.
   */
  lemma {:induction false} RunExits(step: Stepper, message: Option<string>, history: seq<Message>, remaining: nat, sent: seq<Request>)
    requires Extends(step) && StopsHonestly(step) && |history| > 0
    ensures var t := Run(step, message, history, remaining, sent);
      (t.exit == CapReached ==>
         |t.rounds| == |sent| + remaining && |t.history| > 0 && t.result == Ok(CapReply(t.history)))
      && (t.exit == Answered ==>
         t.result.Ok? && (t.result.value.toolCalls.None? || |t.result.value.toolCalls.value| == 0)
         && |t.history| > 0 && t.history[|t.history| - 1] == AssistantMessage(t.result.value))
      && (t.exit == Failed <==> t.result.Err?)
    decreases remaining
  {
    if remaining > 0 && step(message, history).Continue? {
      RunExits(step, None, step(message, history).history, remaining - 1, sent + [Request(message, history)]);
    }
  }

  /** A round that always goes on, ending its history with a tool message. */
  ghost predicate AlwaysCallsTools(step: Stepper) {
    forall m, h :: step(m, h).Continue? && |step(m, h).history| > 0
                   && step(m, h).history[|step(m, h).history| - 1].role == TOOL
                   && step(m, h).history[|step(m, h).history| - 1].content.JsonText?
  }

  /**
   * When every round asks for tools the loop runs to the cap, using every
   * round, and answers with the last tool message's content.
   */
  lemma {:induction false} AlwaysToolsReachesCap(step: Stepper, message: Option<string>, history: seq<Message>,
                                                remaining: nat, sent: seq<Request>)
    requires Extends(step) && AlwaysCallsTools(step) && |history| > 0
    ensures var t := Run(step, message, history, remaining, sent);
      t.exit == CapReached && |t.rounds| == |sent| + remaining && |t.history| > 0
      && (remaining > 0 ==> t.history[|t.history| - 1].role == TOOL
                            && t.result == Ok(ProviderReply(t.history[|t.history| - 1].content, None, "unknown", Null)))
    decreases remaining
  {
    if remaining > 0 {
      var h := step(message, history).history;
      AlwaysToolsReachesCap(step, None, h, remaining - 1, sent + [Request(message, history)]);
      if remaining == 1 {
        assert h[|h| - 1].content.JsonText?;
      }
    }
  }

  /** The tool message at position `k` answers the call at position `k`. */
  lemma {:induction false} ToolMessageAt(calls: seq<ToolCall>, k: nat, table: Table, parse: string -> Option<Value>, now: string)
    requires ToolMessages(calls, table, parse, now).Ok? && k < |calls|
    ensures ToolMessages(calls, table, parse, now).value[k] == Answer(calls[k], parse(calls[k].arguments).value, table, now)
  {
    var init := calls[..|calls| - 1];
    if k < |init| {
      assert init[k] == calls[k];
      ToolMessageAt(init, k, table, parse, now);
    }
  }

  /** A round's tool messages answer the calls one for one, in order, each carrying its call's id and the executor's outcome. */
  lemma ToolMessagesAnswerCalls(calls: seq<ToolCall>, table: Table, parse: string -> Option<Value>, now: string)
    requires ToolMessages(calls, table, parse, now).Ok?
    ensures var ms := ToolMessages(calls, table, parse, now).value;
      forall i :: 0 <= i < |calls| ==> ms[i] == Answer(calls[i], parse(calls[i].arguments).value, table, now)
  {
    forall i | 0 <= i < |calls| {
      ToolMessageAt(calls, i, table, parse, now);
    }
  }

  /**
   * A round that goes on appended the assistant turn carrying the tool
   * calls, then one tool message per call in call order.
   */
  lemma StepToolRound(provider: string, tools: seq<Value>, table: Table, sv: Services,
                      message: Option<string>, history: seq<Message>)
    requires Step(provider, tools, table, sv, message, history).Continue?
    ensures var h := Step(provider, tools, table, sv, message, history).history;
      |h| > |history| && h[..|history|] == history
      && h[|history|].role == ASSISTANT && h[|history|].toolCalls.Some?
      && |h| == |history| + 1 + |h[|history|].toolCalls.value|
      && forall i :: 0 <= i < |h[|history|].toolCalls.value| ==>
           h[|history| + 1 + i].role == TOOL
           && h[|history| + 1 + i].toolCallId == Some(h[|history|].toolCalls.value[i].id)
  {
    var vendor := ParseVendor(provider).value;
    var reply := CallProvider(vendor, message, history, tools, sv.env, sv.ask).value;
    var calls := reply.toolCalls.value;
    ToolMessagesAnswerCalls(calls, table, sv.parse, sv.now);
    var ms := ToolMessages(calls, table, sv.parse, sv.now).value;
    var h := history + [AssistantMessage(reply)] + ms;
    assert Step(provider, tools, table, sv, message, history).history == h;
    forall i | 0 <= i < |calls| ensures h[|history| + 1 + i] == ms[i] { }
  }

  /** A round never takes the bare-string short-circuit: every tool message holds an object. */
  lemma StepNeverShortCircuits(provider: string, tools: seq<Value>, table: Table, sv: Services,
                               message: Option<string>, history: seq<Message>)
    ensures var o := Step(provider, tools, table, sv, message, history);
      !(o.Stop? && o.exit == ShortCircuited)
  {
    match ParseVendor(provider)
    case None =>
    case Some(vendor) =>
      match CallProvider(vendor, message, history, tools, sv.env, sv.ask)
      case Err(_) =>
      case Ok(reply) =>
        if reply.toolCalls.Some? && |reply.toolCalls.value| > 0 {
          var calls := reply.toolCalls.value;
          if ToolMessages(calls, table, sv.parse, sv.now).Ok? {
            ToolMessagesAnswerCalls(calls, table, sv.parse, sv.now);
          }
        }
  }

  /** The rounds of `chatWithTools` never short-circuit. */
  lemma RoundNeverShortCircuits(provider: string, tools: seq<Value>, table: Table, sv: Services)
    ensures NoShortCircuit(RoundOf(provider, tools, table, sv))
  {
    forall m, h ensures !(Step(provider, tools, table, sv, m, h).Stop? && Step(provider, tools, table, sv, m, h).exit == ShortCircuited) {
      StepNeverShortCircuits(provider, tools, table, sv, m, h);
    }
  }

  /**
   * The short-circuit never fires: the executor wraps every result in an
   * envelope object, so the decoded tool content is never a bare string.
   */
  lemma ChatNeverShortCircuits(provider: string, tools: seq<Value>, table: Table, sv: Services,
                               message: string, history: seq<Message>, maxIterations: int)
    ensures Run(RoundOf(provider, tools, table, sv), Some(message), StartHistory(history), Rounds(maxIterations), []).exit
            != ShortCircuited
  {
    RoundNeverShortCircuits(provider, tools, table, sv);
    RunNeverShortCircuits(RoundOf(provider, tools, table, sv), Some(message), StartHistory(history), Rounds(maxIterations), []);
  }

  /** The rounds of `chatWithTools` answer with a tool-free reply recorded last, and fail exactly when they throw. */
  lemma RoundStopsHonestly(provider: string, tools: seq<Value>, table: Table, sv: Services)
    ensures StopsHonestly(RoundOf(provider, tools, table, sv))
  {
    forall m, h ensures Step(provider, tools, table, sv, m, h).Stop? ==>
      var o := Step(provider, tools, table, sv, m, h);
      o.exit != CapReached
      && (o.exit == Failed <==> o.result.Err?)
      && (o.exit == Answered ==>
            o.result.Ok? && (o.result.value.toolCalls.None? || |o.result.value.toolCalls.value| == 0)
            && |o.history| > 0 && o.history[|o.history| - 1] == AssistantMessage(o.result.value))
    {
      StepNeverShortCircuits(provider, tools, table, sv, m, h);
    }
  }

  /**
   * A provider that always asks for tools, with arguments that parse,
   * keeps every round going with a tool message last.
   */
  lemma RoundAlwaysCallsTools(provider: string, tools: seq<Value>, table: Table, sv: Services)
    requires ParseVendor(provider).Some? && GetApiKey(VendorId(ParseVendor(provider).value), sv.env).Ok?
    requires forall ms :: sv.ask(ParseVendor(provider).value, ms, tools).Ok?
    requires forall ms :: var reply := sv.ask(ParseVendor(provider).value, ms, tools);
      reply.Ok? ==> reply.value.toolCalls.Some? && |reply.value.toolCalls.value| > 0
                    && forall i :: 0 <= i < |reply.value.toolCalls.value| ==> sv.parse(reply.value.toolCalls.value[i].arguments).Some?
    ensures AlwaysCallsTools(RoundOf(provider, tools, table, sv))
  {
    forall m, h ensures Step(provider, tools, table, sv, m, h).Continue?
      && |Step(provider, tools, table, sv, m, h).history| > 0
      && Step(provider, tools, table, sv, m, h).history[|Step(provider, tools, table, sv, m, h).history| - 1].role == TOOL
      && Step(provider, tools, table, sv, m, h).history[|Step(provider, tools, table, sv, m, h).history| - 1].content.JsonText?
    {
      StepCallsTools(provider, tools, table, sv, m, h);
    }
  }

  /** A round whose provider reply asks for tools, with arguments that parse, goes on with a tool message last. */
  lemma StepCallsTools(provider: string, tools: seq<Value>, table: Table, sv: Services, m: Option<string>, h: seq<Message>)
    requires ParseVendor(provider).Some?
    requires var reply := CallProvider(ParseVendor(provider).value, m, h, tools, sv.env, sv.ask);
      reply.Ok? && reply.value.toolCalls.Some? && |reply.value.toolCalls.value| > 0
      && forall i :: 0 <= i < |reply.value.toolCalls.value| ==> sv.parse(reply.value.toolCalls.value[i].arguments).Some?
    ensures var o := Step(provider, tools, table, sv, m, h);
      o.Continue? && |o.history| > 0
      && o.history[|o.history| - 1].role == TOOL && o.history[|o.history| - 1].content.JsonText?
  {
    var reply := CallProvider(ParseVendor(provider).value, m, h, tools, sv.env, sv.ask).value;
    var calls := reply.toolCalls.value;
    var ms := ToolMessages(calls, table, sv.parse, sv.now).value;
    StepNeverShortCircuits(provider, tools, table, sv, m, h);
    ToolMessageAt(calls, |calls| - 1, table, sv.parse, sv.now);
    var o := Step(provider, tools, table, sv, m, h);
    assert o.history == h + [AssistantMessage(reply)] + ms;
    assert o.history[|o.history| - 1] == ms[|calls| - 1];
  }

  /** The `for` loop over one reply's tool calls, building `toolResults`. */
  method RunToolCalls(calls: seq<ToolCall>, executor: ToolExecutor, sv: Services) returns (r: Result<seq<Message>, string>)
    requires executor.registry.Valid()
    ensures r == ToolMessages(calls, executor.registry.Model(), sv.parse, sv.now)
  {
    var toolResults: seq<Message> := [];
    for i := 0 to |calls|
      invariant ToolMessages(calls[..i], executor.registry.Model(), sv.parse, sv.now) == Ok(toolResults)
    {
      var toolArgs := sv.parse(calls[i].arguments);
      if toolArgs.None? {
        ToolMessagesStopAt(calls, i, executor.registry.Model(), sv.parse, sv.now);
        return Err(calls[i].arguments);
      }
      var result := executor.ExecuteTool(calls[i].name, toolArgs.value, sv.now);
      ToolMessagesSnoc(calls, i, executor.registry.Model(), sv.parse, sv.now, toolResults);
      toolResults := toolResults + [ToolMessage(calls[i], result)];
    }
    assert calls[..|calls|] == calls;
    r := Ok(toolResults);
  }

  /** One pass of the loop body: the provider switch, the call, the tool round and the short-circuit check. */
  method RunRound(provider: string, tools: seq<Value>, executor: ToolExecutor, sv: Services,
                  message: Option<string>, history: seq<Message>) returns (o: StepOutcome)
    requires executor.registry.Valid()
    ensures o == Step(provider, tools, executor.registry.Model(), sv, message, history)
  {
    var vendor := ParseVendor(provider);
    if vendor.None? {
      return Stop(Failed, Err(Thrown("不支持的 AI 提供商: " + provider)), history);
    }
    var reply := CallProvider(vendor.value, message, history, tools, sv.env, sv.ask);
    if reply.Err? {
      return Stop(Failed, Err(Thrown(reply.error)), history);
    }
    var response := reply.value;
    var currentHistory := history + [AssistantMessage(response)];
    if response.toolCalls.None? || |response.toolCalls.value| == 0 {
      return Stop(Answered, Ok(response), currentHistory);
    }
    var toolResults := RunToolCalls(response.toolCalls.value, executor, sv);
    if toolResults.Err? {
      return Stop(Failed, Err(MalformedArguments(toolResults.error)), currentHistory);
    }
    currentHistory := currentHistory + toolResults.value;
    if |toolResults.value| == 1 {
      var decoded := JsonRoundTrip(toolResults.value[0].content.value);
      if decoded.Str? {
        return Stop(ShortCircuited, Ok(ProviderReply(Text(decoded.s), None, provider, response.usage)), currentHistory);
      }
    }
    o := Continue(currentHistory);
  }

  /**
   * `chatWithTools(provider, message, history, tools, maxIterations)`:
   * without tools a single plain `chat`; otherwise the loop, whose result
   * is `Run`'s from the working copy of the history.
   */
  method ChatWithTools(provider: string, message: string, history: seq<Message>, tools: Option<seq<Value>>,
                       maxIterations: int, executor: ToolExecutor, sv: Services)
    returns (r: Result<ProviderReply, ChatError>, transcript: seq<Message>)
    requires executor.registry.Valid()
    ensures (tools.None? || |tools.value| == 0) ==>
      r == (match Chat(provider, message, history, sv.env, sv.ask)
            case Ok(reply) => Ok(reply)
            case Err(m) => Err(Thrown(m)))
      && transcript == history
    ensures tools.Some? && |tools.value| > 0 ==>
      var t := Run(RoundOf(provider, tools.value, executor.registry.Model(), sv), Some(message), StartHistory(history),
                   Rounds(maxIterations), []);
      r == t.result && transcript == t.history
  {
    if tools.None? || |tools.value| == 0 {
      var plain := Chat(provider, message, history, sv.env, sv.ask);
      r := match plain
        case Ok(reply) => Ok(reply)
        case Err(m) => Err(Thrown(m));
      return r, history;
    }
    var catalogue := tools.value;
    ghost var step := RoundOf(provider, catalogue, executor.registry.Model(), sv);
    ghost var cap := Rounds(maxIterations);
    var currentHistory := StartHistory(history);
    var currentMessage: Option<string> := Some(message);
    var iteration := 0;
    ghost var sent: seq<Request> := [];
    while iteration < maxIterations
      invariant 0 <= iteration <= cap
      invariant |currentHistory| > 0
      invariant Run(step, Some(message), StartHistory(history), cap, [])
             == Run(step, currentMessage, currentHistory, cap - iteration, sent)
    {
      var outcome := RunRound(provider, catalogue, executor, sv, currentMessage, currentHistory);
      assert outcome == step(currentMessage, currentHistory);
      RunAfter(step, currentMessage, currentHistory, cap - iteration, sent, outcome);
      iteration := iteration + 1;
      sent := sent + [Request(currentMessage, currentHistory)];
      if outcome.Stop? {
        return outcome.result, outcome.history;
      }
      currentHistory := outcome.history;
      currentMessage := None;
    }
    return Ok(CapReply(currentHistory)), currentHistory;
  }
}
