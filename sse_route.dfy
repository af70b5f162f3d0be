/**
 * The two chat routes of server.js.  `POST /api/chat` validates the
 * message and answers with one provider reply.  `POST /api/chat/stream`
 * validates the message, takes the tool loop when tools are wanted and
 * registered (answering with JSON), and otherwise, or when the tool loop
 * throws, streams server-sent events: a `start` frame, then whatever the
 * provider's `onData`/`onError`/`onComplete` callbacks write, each of them
 * first checking `res.writableEnded`.
 */
module SseRoute {
  import opened Results
  import opened JsValues
  import opened Text
  import opened Errors
  import opened Adapter
  import opened Tools
  import opened Orchestration
  import opened StreamDecoder

  const INVALID_MESSAGE := "INVALID_MESSAGE"
  const MESSAGE_TOO_LONG := "MESSAGE_TOO_LONG"
  const EMPTY_MESSAGE_TEXT := "消息内容不能为空"
  /** The length limit of `/api/chat`. */
  const CHAT_MAX_LENGTH := 10000
  const UNSUPPORTED_STREAM_PROVIDER := "不支持的提供商"
  const SERVICE_UNAVAILABLE := "AI 服务暂时不可用"

  function TooLongText(maxLength: nat): string {
    "消息长度不能超过 " + NatToString(maxLength) + " 字符"
  }

  /**
   * The request check both routes make: a non-empty string, at most
   * `maxLength` UTF-16 code units long (`message.length`).
   */
  function ValidateMessage(message: Value, maxLength: nat, now: string): (r: Result<string, AppError>)
    ensures r.Ok? <==> message.Str? && message.s != "" && Utf16Length(message.s) <= maxLength
    ensures r.Ok? ==> r.value == message.s
    ensures r.Err? ==> r.error.statusCode == 400 && r.error.kind == Plain
    ensures r.Err? && !(message.Str? && message.s != "") ==>
      r.error.code == INVALID_MESSAGE && r.error.message == EMPTY_MESSAGE_TEXT
    ensures r.Err? && message.Str? && message.s != "" ==>
      r.error.code == MESSAGE_TOO_LONG && r.error.message == TooLongText(maxLength)
  {
    if !Truthy(message) || !message.Str? then Err(NewAppError(EMPTY_MESSAGE_TEXT, Some(INVALID_MESSAGE), Some(400), now))
    else if Utf16Length(message.s) > maxLength then Err(NewAppError(TooLongText(maxLength), Some(MESSAGE_TOO_LONG), Some(400), now))
    else Ok(message.s)
  }

  /** The JSON body of a successful `/api/chat`: `{reply, model, usage, provider}`. */
  datatype ChatReply = ChatReply(reply: Content, model: string, usage: Value, provider: string)

  /** Why a chat request fails: rejected by validation, or the provider call threw. */
  datatype ChatFailure = Rejected(error: AppError) | ProviderFailed(message: string)

  /** `POST /api/chat`: validate, then one plain `chat` call. */
  function ChatRoute(message: Value, history: seq<Message>, provider: string, env: map<string, string>, ask: Ask,
                     now: string): (r: Result<ChatReply, ChatFailure>)
    ensures ValidateMessage(message, CHAT_MAX_LENGTH, now).Err? ==>
      r == Err(Rejected(ValidateMessage(message, CHAT_MAX_LENGTH, now).error))
    ensures ValidateMessage(message, CHAT_MAX_LENGTH, now).Ok? ==>
      match Chat(provider, message.s, history, env, ask)
      case Ok(reply) => r == Ok(ChatReply(reply.content, reply.model, reply.usage, provider))
      case Err(m) => r == Err(ProviderFailed(m))
  {
    match ValidateMessage(message, CHAT_MAX_LENGTH, now)
    case Err(e) => Err(Rejected(e))
    case Ok(text) =>
      match Chat(provider, text, history, env, ask)
      case Ok(reply) => Ok(ChatReply(reply.content, reply.model, reply.usage, provider))
      case Err(m) => Err(ProviderFailed(m))
  }

  /** `useTools && toolRegistry.size() > 0`, with `useTools` defaulting to true when absent. */
  predicate TakesToolPath(useTools: Value, registered: nat) {
    Truthy(if useTools.Undefined? then Bool(true) else useTools) && registered > 0
  }

  /** The JSON body of the tool path: `{reply, model, usage, provider, toolsUsed, toolResults}`. */
  datatype ToolsReply = ToolsReply(reply: Content, model: string, usage: Value, provider: string,
                                   toolsUsed: bool, toolResults: seq<ToolCall>)

  /**
   * The tool-path body as the route builds it: `toolsUsed` is
   * `result.tool_calls !== null` and `toolResults` is
   * `result.tool_calls || []`.
   */
  function ToolsReplyAsWritten(provider: string, result: ProviderReply): (r: ToolsReply)
    ensures r.toolsUsed <==> result.toolCalls.Some?
    ensures r.toolResults == (if result.toolCalls.Some? then result.toolCalls.value else [])
    ensures r.reply == result.content && r.model == result.model && r.usage == result.usage && r.provider == provider
  {
    ToolsReply(result.content, result.model, result.usage, provider,
               result.toolCalls.Some?, if result.toolCalls.Some? then result.toolCalls.value else [])
  }

  /** The messages a run of the tool loop appended to the history it started from. */
  function Appended(start: seq<Message>, transcript: seq<Message>): (r: seq<Message>)
  {
    if |start| <= |transcript| then transcript[|start|..] else []
  }

  /** Whether a run of the tool loop executed any tool: it appended a `tool` message. */
  predicate RanTools(appended: seq<Message>) {
    exists i :: 0 <= i < |appended| && appended[i].role == TOOL
  }

  /** The tool calls that the messages asked for, in order. */
  function ToolCallsOf(messages: seq<Message>): (r: seq<ToolCall>)
    ensures (forall i :: 0 <= i < |messages| ==> messages[i].toolCalls.None?) ==> r == []
  {
    if |messages| == 0 then []
    else
      var m := messages[|messages| - 1];
      ToolCallsOf(messages[..|messages| - 1]) + (if m.toolCalls.Some? then m.toolCalls.value else [])
  }

  /** The calls of two runs of messages are those of the first, then those of the second. */
  lemma {:induction false} ToolCallsOfAppend(a: seq<Message>, b: seq<Message>)
    ensures ToolCallsOf(a + b) == ToolCallsOf(a) + ToolCallsOf(b)
    decreases |b|
  {
    if |b| > 0 {
      var b' := b[..|b| - 1];
      assert (a + b)[..|a + b| - 1] == a + b';
      assert (a + b)[|a + b| - 1] == b[|b| - 1];
      ToolCallsOfAppend(a, b');
    } else {
      assert a + b == a;
    }
  }

  /**
   * The tool-path body as evidently meant: `toolsUsed` says whether any
   * tool ran and `toolResults` lists the tool calls the run made.
   */
  function ToolsReplyIntended(provider: string, result: ProviderReply, appended: seq<Message>): (r: ToolsReply)
    ensures r.toolsUsed <==> RanTools(appended)
    ensures r.toolResults == ToolCallsOf(appended)
    ensures r.reply == result.content && r.model == result.model && r.usage == result.usage && r.provider == provider
  {
    ToolsReply(result.content, result.model, result.usage, provider, RanTools(appended), ToolCallsOf(appended))
  }

  /**
   * As written, the tool path never reports what ran: whatever a
   * non-short-circuited loop returns has `tool_calls` null or empty, so
   * `toolResults` is always `[]` and `toolsUsed` holds only for a final
   * reply with an empty `tool_calls` array.
   */
  lemma AsWrittenReportsNoTools(provider: string, tools: seq<Value>, table: Table, sv: Services,
                                message: string, history: seq<Message>, maxIterations: int)
    ensures var t := Run(RoundOf(provider, tools, table, sv), Some(message), StartHistory(history), Rounds(maxIterations), []);
      t.result.Ok? ==>
        var body := ToolsReplyAsWritten(provider, t.result.value);
        body.toolResults == [] && (body.toolsUsed <==> t.result.value.toolCalls == Some([]))
  {
    var step := RoundOf(provider, tools, table, sv);
    RoundStopsHonestly(provider, tools, table, sv);
    RoundNeverShortCircuits(provider, tools, table, sv);
    RunExits(step, Some(message), StartHistory(history), Rounds(maxIterations), []);
    RunNeverShortCircuits(step, Some(message), StartHistory(history), Rounds(maxIterations), []);
  }

  /**
   * The input that shows it: when every round asks for tools and they all
   * run, the loop stops at the cap having run tools in every round, yet the
   * route reports `toolsUsed: false`.
   */
  lemma AsWrittenHidesToolRounds(provider: string, tools: seq<Value>, table: Table, sv: Services,
                                 message: string, history: seq<Message>, maxIterations: int)
    requires maxIterations > 0
    requires ParseVendor(provider).Some? && GetApiKey(VendorId(ParseVendor(provider).value), sv.env).Ok?
    requires forall ms :: sv.ask(ParseVendor(provider).value, ms, tools).Ok?
    requires forall ms :: var reply := sv.ask(ParseVendor(provider).value, ms, tools);
               reply.Ok? && reply.value.toolCalls.Some? && |reply.value.toolCalls.value| > 1
               && forall i :: 0 <= i < |reply.value.toolCalls.value| ==> sv.parse(reply.value.toolCalls.value[i].arguments).Some?
    ensures var start := StartHistory(history);
      var t := Run(RoundOf(provider, tools, table, sv), Some(message), start, Rounds(maxIterations), []);
      t.result.Ok? && RanTools(Appended(start, t.history)) && !ToolsReplyAsWritten(provider, t.result.value).toolsUsed
  {
    var step := RoundOf(provider, tools, table, sv);
    var start := StartHistory(history);
    RoundAlwaysCallsTools(provider, tools, table, sv);
    AlwaysToolsReachesCap(step, Some(message), start, Rounds(maxIterations), []);
    RunRounds(step, Some(message), start, Rounds(maxIterations), []);
    var t := Run(step, Some(message), start, Rounds(maxIterations), []);
    assert t.history[|t.history| - 1].role == TOOL;
    assert |start| <= |t.history| - 1 by {
      assert |t.history| >= |start|;
      if |t.history| == |start| {
        assert t.history == start;
        RunGrowsWhenToolsRun(step, Some(message), start, Rounds(maxIterations), []);
      }
    }
    var appended := Appended(start, t.history);
    assert appended[|t.history| - 1 - |start|] == t.history[|t.history| - 1];
  }

  /** A run in which every round goes on ends with a longer history than it started with. */
  lemma {:induction false} RunGrowsWhenToolsRun(step: Stepper, message: Option<string>, history: seq<Message>,
                                               remaining: nat, sent: seq<Request>)
    requires Extends(step) && AlwaysCallsTools(step) && |history| > 0 && remaining > 0
    ensures |Run(step, message, history, remaining, sent).history| > |history|
    decreases remaining
  {
    var o := step(message, history);
    var sent' := sent + [Request(message, history)];
    if remaining > 1 {
      RunGrowsWhenToolsRun(step, None, o.history, remaining - 1, sent');
    }
  }

  /** With the intended body, a loop that answers in its first round reports that no tool ran, and no calls. */
  lemma IntendedFirstAnswerUsesNoTools(provider: string, tools: seq<Value>, table: Table, sv: Services,
                                       message: string, history: seq<Message>, maxIterations: int)
    requires maxIterations > 0
    requires var o := Step(provider, tools, table, sv, Some(message), StartHistory(history));
      o.Stop? && o.exit == Answered
    ensures var start := StartHistory(history);
      var t := Run(RoundOf(provider, tools, table, sv), Some(message), start, Rounds(maxIterations), []);
      t.result.Ok?
      && !ToolsReplyIntended(provider, t.result.value, Appended(start, t.history)).toolsUsed
      && ToolsReplyIntended(provider, t.result.value, Appended(start, t.history)).toolResults == []
  {
    var start := StartHistory(history);
    var step := RoundOf(provider, tools, table, sv);
    RunStep(step, Some(message), start, Rounds(maxIterations), []);
    var o := Step(provider, tools, table, sv, Some(message), start);
    var reply := o.result.value;
    assert o.history == start + [AssistantMessage(reply)];
    var appended := Appended(start, o.history);
    assert appended == [AssistantMessage(reply)];
    assert ToolCallsOf(appended) == ToolCallsOf([]) + (if reply.toolCalls.Some? then reply.toolCalls.value else []);
  }

  /**
   * With the intended body, a run whose rounds all call tools reports
   * `toolsUsed`, and its `toolResults` open with the calls of the first
   * round, which are not empty.
   */
  lemma IntendedReportsToolRounds(provider: string, tools: seq<Value>, table: Table, sv: Services,
                                  message: string, history: seq<Message>, maxIterations: int)
    requires maxIterations > 0
    requires ParseVendor(provider).Some? && GetApiKey(VendorId(ParseVendor(provider).value), sv.env).Ok?
    requires forall ms :: sv.ask(ParseVendor(provider).value, ms, tools).Ok?
    requires forall ms :: var reply := sv.ask(ParseVendor(provider).value, ms, tools);
               reply.Ok? && reply.value.toolCalls.Some? && |reply.value.toolCalls.value| > 1
               && forall i :: 0 <= i < |reply.value.toolCalls.value| ==> sv.parse(reply.value.toolCalls.value[i].arguments).Some?
    ensures var start := StartHistory(history);
      var t := Run(RoundOf(provider, tools, table, sv), Some(message), start, Rounds(maxIterations), []);
      t.result.Ok? && ToolsReplyIntended(provider, t.result.value, Appended(start, t.history)).toolsUsed
    ensures var start := StartHistory(history);
      var t := Run(RoundOf(provider, tools, table, sv), Some(message), start, Rounds(maxIterations), []);
      var first := Step(provider, tools, table, sv, Some(message), start).history;
      t.result.Ok? && |first| > |start| && first[|start|].toolCalls.Some?
      && |first[|start|].toolCalls.value| > 0
      && first[|start|].toolCalls.value <= ToolsReplyIntended(provider, t.result.value, Appended(start, t.history)).toolResults
  {
    AsWrittenHidesToolRounds(provider, tools, table, sv, message, history, maxIterations);
    var step := RoundOf(provider, tools, table, sv);
    var start := StartHistory(history);
    RoundAlwaysCallsTools(provider, tools, table, sv);
    FirstRoundCallsTools(provider, tools, table, sv, message, start);
    RunKeepsFirstRound(step, Some(message), start, Rounds(maxIterations), []);
    var t := Run(step, Some(message), start, Rounds(maxIterations), []);
    var first := Step(provider, tools, table, sv, Some(message), start).history;
    assert t.history[|start|] == t.history[..|first|][|start|] == first[|start|];
    ToolCallsOfHead(Appended(start, t.history));
  }

  /** The first round of such a run appends an assistant turn with a non-empty list of calls. */
  lemma FirstRoundCallsTools(provider: string, tools: seq<Value>, table: Table, sv: Services,
                             message: string, start: seq<Message>)
    requires AlwaysCallsTools(RoundOf(provider, tools, table, sv))
    ensures var first := Step(provider, tools, table, sv, Some(message), start).history;
      |first| > |start| && first[|start|].toolCalls.Some? && |first[|start|].toolCalls.value| > 0
  {
    var o := Step(provider, tools, table, sv, Some(message), start);
    assert o == RoundOf(provider, tools, table, sv)(Some(message), start);
    StepToolRound(provider, tools, table, sv, Some(message), start);
  }

  /** A run keeps the history its first round produced as a prefix of its own. */
  lemma RunKeepsFirstRound(step: Stepper, message: Option<string>, history: seq<Message>, remaining: nat, sent: seq<Request>)
    requires Extends(step) && |history| > 0 && remaining > 0
    ensures var h := step(message, history).history;
      var t := Run(step, message, history, remaining, sent);
      |t.history| >= |h| && t.history[..|h|] == h
  {
    var o := step(message, history);
    RunAfter(step, message, history, remaining, sent, o);
    if o.Continue? {
      RunRounds(step, None, o.history, remaining - 1, sent + [Request(message, history)]);
    }
  }

  /** The calls of the first message open the calls of the whole run. */
  lemma ToolCallsOfHead(messages: seq<Message>)
    requires |messages| > 0 && messages[0].toolCalls.Some?
    ensures messages[0].toolCalls.value <= ToolCallsOf(messages)
  {
    var a := messages[0];
    assert messages == [a] + messages[1..];
    ToolCallsOfAppend([a], messages[1..]);
    assert ToolCallsOf([a]) == ToolCallsOf([]) + a.toolCalls.value;
  }

  /** One `data: …\n\n` frame of the event stream. */
  datatype Frame = Start(provider: string) | ContentFrame(content: Value) | ErrorFrame(error: string) | DoneFrame

  /** The frames after which the route calls `res.end()`. */
  predicate Terminal(f: Frame) {
    f.ErrorFrame? || f.DoneFrame?
  }

  /** A call the streaming provider makes into the route. */
  datatype Callback = OnDataCall(content: Value) | OnErrorCall(message: string) | OnCompleteCall

  predicate Ends(c: Callback) {
    !c.OnDataCall?
  }

  /** The frame a callback writes while the response is open. */
  function FrameOf(c: Callback): (f: Frame)
    ensures Terminal(f) <==> Ends(c)
  {
    match c
    case OnDataCall(content) => ContentFrame(content)
    case OnErrorCall(message) => ErrorFrame(message)
    case OnCompleteCall => DoneFrame
  }

  /**
   * The frames a run of callbacks writes on a response that is `ended` or
   * not: nothing once ended; each callback its frame while open, the
   * first error or completion ending the response.
   */
  function Written(ended: bool, callbacks: seq<Callback>): (r: seq<Frame>)
    ensures ended ==> r == []
    ensures |r| <= |callbacks|
    ensures forall i :: 0 <= i < |r| ==> !r[i].Start?
    ensures forall i :: 0 <= i < |r| - 1 ==> !Terminal(r[i])
    decreases |callbacks|
  {
    if ended || |callbacks| == 0 then []
    else
      var f := FrameOf(callbacks[0]);
      var rest := Written(Terminal(f), callbacks[1..]);
      [f] + rest
  }

  /** The position of the first callback that ends the response, or the length when none does. */
  function FirstEnd(callbacks: seq<Callback>): (k: nat)
    ensures k <= |callbacks|
    ensures forall i :: 0 <= i < k ==> !Ends(callbacks[i])
    ensures k < |callbacks| ==> Ends(callbacks[k])
  {
    if |callbacks| == 0 then 0
    else if Ends(callbacks[0]) then 0
    else 1 + FirstEnd(callbacks[1..])
  }

  /**
   * What an open response shows: one content frame per `onData` before
   * the first error or completion, then that one's frame, and nothing
   * after it.
   */
  lemma {:induction false} WrittenUpToFirstEnd(callbacks: seq<Callback>)
    ensures var k := FirstEnd(callbacks);
      var r := Written(false, callbacks);
      |r| == (if k < |callbacks| then k + 1 else k)
      && (forall i :: 0 <= i < |r| ==> r[i] == FrameOf(callbacks[i]))
  {
    if |callbacks| > 0 && !Ends(callbacks[0]) {
      WrittenUpToFirstEnd(callbacks[1..]);
    }
  }

  /** Once a callback has ended the response, later callbacks, a second `onComplete` among them, write nothing. */
  lemma {:induction false} WrittenIgnoresAfterEnd(callbacks: seq<Callback>, more: seq<Callback>)
    requires FirstEnd(callbacks) < |callbacks|
    ensures Written(false, callbacks + more) == Written(false, callbacks)
  {
    if !Ends(callbacks[0]) {
      assert (callbacks + more)[1..] == callbacks[1..] + more;
      WrittenIgnoresAfterEnd(callbacks[1..], more);
    }
  }

  /** The callback each reader event invokes. */
  function CallbackOf(e: Event): (c: Callback)
    ensures Ends(c) <==> e == Complete
  {
    match e
    case Data(content) => OnDataCall(content)
    case Complete => OnCompleteCall
  }

  function Callbacks(events: seq<Event>): (r: seq<Callback>)
    ensures |r| == |events| && forall i :: 0 <= i < |events| ==> r[i] == CallbackOf(events[i])
  {
    seq(|events|, i requires 0 <= i < |events| => CallbackOf(events[i]))
  }

  /**
   * A stream that sends `[DONE]` and then ends calls `onComplete` twice;
   * the response still shows exactly one `done` frame, last, after the
   * content frames of the lines before `[DONE]`.
   */
  lemma DoneThenEndWritesOneDone(decode: string -> Option<Event>, lines: seq<string>)
    requires Complete in LinesEvents(decode, lines)
    ensures var events := LinesEvents(decode, lines);
      var r := Written(false, Callbacks(events + [Complete]));
      r == Written(false, Callbacks(events))
      && |r| == |events| && r[|r| - 1] == DoneFrame
      && forall i :: 0 <= i < |r| - 1 ==> r[i] == ContentFrame(events[i].content)
  {
    var events := LinesEvents(decode, lines);
    var cs := Callbacks(events);
    forall i | 0 <= i < |events| - 1
      ensures events[i].Data?
    {
      assert events[i] == events[..|events| - 1][i];
    }
    assert cs[|events| - 1] == OnCompleteCall;
    assert FirstEnd(cs) == |events| - 1;
    assert Callbacks(events + [Complete]) == cs + [OnCompleteCall];
    WrittenIgnoresAfterEnd(cs, [OnCompleteCall]);
    WrittenUpToFirstEnd(cs);
  }

  /** The HTTP response of `/api/chat/stream` while its event stream is written. */
  class SseResponse {
    /** The frames written so far. */
    var written: seq<Frame>
    /** `res.writableEnded`. */
    var ended: bool

    /** One `start` frame first, at most one terminal frame and only last, ended exactly after it. */
    ghost predicate Valid()
      reads this
    {
      |written| > 0 && written[0].Start?
      && (forall i :: 1 <= i < |written| ==> !written[i].Start?)
      && (forall i :: 0 <= i < |written| - 1 ==> !Terminal(written[i]))
      && (ended <==> Terminal(written[|written| - 1]))
    }

    /** The headers and `{type: 'start', provider}` frame. */
    constructor(provider: string)
      ensures Valid() && written == [Start(provider)] && !ended
    {
      written := [Start(provider)];
      ended := false;
    }

    /** Writes `frame` and, for a terminal one, ends the response, unless it has already ended. */
    method Write(frame: Frame)
      requires Valid() && !frame.Start?
      modifies this
      ensures Valid()
      ensures old(ended) ==> written == old(written) && ended
      ensures !old(ended) ==> written == old(written) + [frame] && ended == Terminal(frame)
    {
      if !ended {
        written := written + [frame];
        ended := Terminal(frame);
      }
    }

    /** The route's `onData`, `onError` or `onComplete` callback. */
    method Receive(c: Callback)
      requires Valid()
      modifies this
      ensures Valid()
      ensures written == old(written) + Written(old(ended), [c])
      ensures ended == (old(ended) || Ends(c))
    {
      Write(FrameOf(c));
    }

    /** The callbacks of one streaming call, in the order the provider makes them. */
    method ReceiveAll(callbacks: seq<Callback>)
      requires Valid()
      modifies this
      ensures Valid()
      ensures written == old(written) + Written(old(ended), callbacks)
    {
      ghost var start, wasEnded := written, ended;
      var i := 0;
      ghost var added: seq<Frame> := [];
      while i < |callbacks|
        invariant 0 <= i <= |callbacks|
        invariant Valid()
        invariant written == start + added
        invariant Written(wasEnded, callbacks) == added + Written(ended, callbacks[i..])
      {
        ghost var piece := Written(ended, [callbacks[i]]);
        ghost var rest := Written(ended || Ends(callbacks[i]), callbacks[i + 1..]);
        assert Written(ended, callbacks[i..]) == piece + rest by {
          WrittenCons(ended, callbacks[i..]);
          assert callbacks[i..][1..] == callbacks[i + 1..];
        }
        AppendAssoc(added, piece, rest);
        AppendAssoc(start, added, piece);
        Receive(callbacks[i]);
        added := added + piece;
        i := i + 1;
      }
    }
  }

  /** The frames of a callback sequence are those of its first callback, then those of the rest. */
  lemma WrittenCons(ended: bool, callbacks: seq<Callback>)
    requires |callbacks| > 0
    ensures Written(ended, callbacks)
         == Written(ended, [callbacks[0]]) + Written(ended || Ends(callbacks[0]), callbacks[1..])
  {
  }

  /**
   * The event stream of the streaming path for a provider: `start`, then
   * an error frame for an unsupported provider or a missing key (thrown
   * before the request, caught by the route), otherwise what the
   * provider's callbacks write.
   */
  function StreamFrames(provider: string, env: map<string, string>, callbacks: seq<Callback>): (r: seq<Frame>)
    ensures |r| >= 1 && r[0] == Start(provider)
    ensures ParseVendor(provider).None? ==> r == [Start(provider), ErrorFrame(UNSUPPORTED_STREAM_PROVIDER)]
    ensures ParseVendor(provider).Some? && GetApiKey(VendorId(ParseVendor(provider).value), env).Err? ==>
      r == [Start(provider), ErrorFrame(GetApiKey(VendorId(ParseVendor(provider).value), env).error)]
  {
    match ParseVendor(provider)
    case None => [Start(provider), ErrorFrame(UNSUPPORTED_STREAM_PROVIDER)]
    case Some(vendor) =>
      match GetApiKey(VendorId(vendor), env)
      case Err(m) => [Start(provider), ErrorFrame(if m == "" then SERVICE_UNAVAILABLE else m)]
      case Ok(_) => [Start(provider)] + Written(false, callbacks)
  }

  /** Every event stream the route writes has one `start` frame first and at most one terminal frame, last. */
  lemma StreamFramesWellFormed(provider: string, env: map<string, string>, callbacks: seq<Callback>)
    ensures var r := StreamFrames(provider, env, callbacks);
      (forall i :: 1 <= i < |r| ==> !r[i].Start?)
      && (forall i :: 0 <= i < |r| - 1 ==> !Terminal(r[i]))
  {
    var r := StreamFrames(provider, env, callbacks);
    if ParseVendor(provider).Some? && GetApiKey(VendorId(ParseVendor(provider).value), env).Ok? {
      var w := Written(false, callbacks);
      assert r == [Start(provider)] + w;
      assert forall i :: 1 <= i < |r| ==> r[i] == w[i - 1];
    }
  }

  /** What `/api/chat/stream` answers with: a JSON body from the tool loop, or an event stream. */
  datatype StreamAnswer = ToolsJson(body: ToolsReply) | EventStream(frames: seq<Frame>)

  /**
   * `POST /api/chat/stream`.  `callbacks` are the calls the streaming
   * provider makes, should the route stream.
   */
  method ChatStream(message: Value, history: seq<Message>, provider: string, useTools: Value, maxLength: nat,
                    executor: ToolExecutor, sv: Services, callbacks: seq<Callback>)
    returns (r: Result<StreamAnswer, AppError>)
    requires executor.registry.Valid()
    ensures ValidateMessage(message, maxLength, sv.now).Err? ==> r == Err(ValidateMessage(message, maxLength, sv.now).error)
    ensures ValidateMessage(message, maxLength, sv.now).Ok? ==>
      var start := StartHistory(history);
      var loop := Run(RoundOf(provider, executor.registry.GetAllToolDefinitions(), executor.registry.Model(), sv),
                      Some(message.s), start, Rounds(5), []);
      if TakesToolPath(useTools, |executor.registry.entries|) && loop.result.Ok? then
        r == Ok(ToolsJson(ToolsReplyAsWritten(provider, loop.result.value)))
      else
        r == Ok(EventStream(StreamFrames(provider, sv.env, callbacks)))
  {
    var text :- ValidateMessage(message, maxLength, sv.now);
    var registry := executor.registry;
    if TakesToolPath(useTools, registry.Size()) {
      var definitions := registry.GetAllToolDefinitions();
      var result, transcript := ChatWithTools(provider, text, history, Some(definitions), 5, executor, sv);
      if result.Ok? {
        return Ok(ToolsJson(ToolsReplyAsWritten(provider, result.value)));
      }
    }
    var frames := StreamPath(provider, sv.env, callbacks);
    return Ok(EventStream(frames));
  }

  /** The streaming path: open the response, then the provider switch and its callbacks. */
  method StreamPath(provider: string, env: map<string, string>, callbacks: seq<Callback>) returns (frames: seq<Frame>)
    ensures frames == StreamFrames(provider, env, callbacks)
  {
    var res := new SseResponse(provider);
    var vendor := ParseVendor(provider);
    if vendor.None? {
      res.Write(ErrorFrame(UNSUPPORTED_STREAM_PROVIDER));
    } else {
      var key := GetApiKey(VendorId(vendor.value), env);
      if key.Err? {
        res.Write(ErrorFrame(if key.error == "" then SERVICE_UNAVAILABLE else key.error));
      } else {
        res.ReceiveAll(callbacks);
      }
    }
    return res.written;
  }
}
