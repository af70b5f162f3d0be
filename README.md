# Chatbot server core, modelled in Dafny

This project models the server-side logic of a small chat assistant. It is an Express server that forwards chat messages to one of two language-model providers, GLM and DeepSeek. When asked, it runs a function-calling loop in which the model may request registered tools. The network, the web framework and the browser are replaced by explicit inputs. What remains is sequential and deterministic, and is modelled module by module:

- `Adapter` (server.js, class `AIAdapter`): the chat message model and `formatMessages`, which shapes a history for a provider and decides whether a user turn is appended. It also covers the API-key lookup `getApiKey`, and one provider call with its error wrapping. The HTTP request itself is the oracle `ask`.
- `Orchestration` (server.js, `chatWithTools`): the bounded function-calling loop. It is the imperative method `ChatWithTools`, proved against the recursive specification `Run`. The lemmas state the iteration cap and the append-only history. They state the exact shape of each tool round: the assistant entry first, then one `tool` message per call, in call order. A malformed argument string escapes the loop as an explicit error. The "single bare-string tool result" return (server.js:533-545) never fires, because the executor always wraps a result in a `{tool, success, result}` object (`ChatNeverShortCircuits`).
- `StreamDecoder` (server.js, the streaming `data` handlers): the line-framing state machine, as the class `StreamReader`. It carries a `buffer` and a chunk count across chunks. The lemmas prove that the buffer is always the text after the last newline. They also prove that two chunkings of the same text give the same callbacks up to the first `[DONE]`.
- `SseRoute` (server.js, `/api/chat` and `/api/chat/stream`): message validation, and the tool path's JSON body. It also covers the server-sent-event response as the class `SseResponse`, whose callbacks check `writableEnded`. Every stream has one `start` frame first and at most one terminal frame, last. This holds even though `onComplete` can fire twice.
- `Tools` (tools/index.js): `ToolRegistry`, a class over an insertion-ordered map, and `ToolExecutor` with its single and batch execution. It also covers `parseToolCalls`.
- `Errors` (tools/utils/error-handler.js): the error records, `toJSON`, `formatErrorForAI` and `safeJSONParse`.
- `ErrorMiddleware` (middleware/error-handler.js): the first-match `normalizeError` and the responses of `errorHandler` and `notFoundHandler`.
- `ParamValidator` (tools/utils/param-validator.js): `validateParams`, `extractParamValue`, `generateGuidancePrompt` and `analyzeIntent`. Each loop in the source is a method proved against a specification function. The intent confidence is an exact rational.
- `Weather` (tools/weather-tools.js): the wind-force scale, the direction and description translations, and the ordered alert line. It also covers the reply text of `getWeatherHandler`. This tool is never registered (tools/index.js:234-237), so these helpers stand on their own.
- `ConfigValidators` (config/validators.js): the start-up guards, and `validateConfig` with its accumulated errors and warnings.
- The shared modules are `Results` (Option and Result), `JsValues` (dynamic JavaScript values, truthiness, member access, a JSON round trip) and `Text` (trim, case mapping, split, join, decimal digits).

Everything outside the process is a parameter:

- the provider request is `ask`;
- `JSON.parse` of a string is `parse`, where `None` means a syntax error;
- the environment is a map `env`;
- the clock reading that timestamps an error is `now`;
- the `URL` constructor is `parses`;
- the article-content regular expressions of `extractParamValue` are `scan`;
- the wttr.in lookup is `fetch`;
- a tool handler is a total function from parameters to a returned value or a thrown message.

## Model

| member | source | states |
|---|---|---|
| Errors.NewAppError | tools/utils/error-handler.js:10-15 | the message and the construction time are kept; an omitted code defaults to `UNKNOWN_ERROR` and an omitted status to 500, a given one is kept |
| Errors.ToJson | tools/utils/error-handler.js:26-34 | the client body has exactly the member `error`, holding exactly `message`, `code`, `timestamp` in that order, each equal to the error's own field |
| Errors.ToolExecutionError | tools/utils/error-handler.js:68-76 | code `TOOL_EXECUTION_FAILED`, status 500, the tool name and cause kept; the message is exactly `工具 "<name>" 执行失败: <cause>` |
| Errors.ToolNotFoundError | tools/utils/error-handler.js:81-86 | code `TOOL_NOT_FOUND`, status 404, message `工具 "<name>" 未注册`, tool name kept |
| Errors.FormatErrorForAI | tools/utils/error-handler.js:104-111 | an application error is shown as exactly `[错误: <code>] <message>`; any other error as the one fixed text |
| Errors.FormatErrorHidesDetails | tools/utils/error-handler.js:109-110 | two errors that are not application errors are shown to the model identically, so nothing of their content leaks |
| Errors.SafeJsonParse | tools/utils/error-handler.js:149-156 | the parsed value when parsing succeeds, otherwise exactly the default value |
| ErrorMiddleware.NormalizeError | middleware/error-handler.js:18-71 | an application error passes unchanged; otherwise, in this precedence: an upstream response gives `AI_API_ERROR` with the upstream status (500 when absent) and message (fixed text when absent); a request without response gives `NETWORK_ERROR`/503; `ValidationError` gives `VALIDATION_ERROR`/400 with its message; `ECONNABORTED` or a message containing `timeout` gives `TIMEOUT_ERROR`/504; anything else `INTERNAL_ERROR`/500 with the message hidden in production |
| ErrorMiddleware.NormalizeIdempotent | middleware/error-handler.js:20-22 | normalising an already normalised error changes nothing |
| ErrorMiddleware.NormalizedStatusCodes | middleware/error-handler.js:37-70 | without an upstream response the status is one of 400, 500, 503, 504 |
| ErrorMiddleware.ProductionHidesInternalMessages | middleware/error-handler.js:63-70 | in production two internal errors of the same class produce the same normalised error, whatever their messages |
| ErrorMiddleware.ErrorResponse | middleware/error-handler.js:80-109 | the HTTP status is the normalised status; the body is `{error: {message, code}}` from the normalised error, plus `stack` and `original` (the raw message) outside production |
| ErrorMiddleware.NotFoundResponse | middleware/error-handler.js:116-124 | status 404 with body `error` holding `message`, code `NOT_FOUND` and the request path |
| Adapter.FormatOne | server.js:88-104 | the role is kept; an assistant entry with tool calls keeps them and has content null when its content is falsy; a tool entry keeps its `tool_call_id` and content; any other entry keeps only role and content |
| Adapter.FormatMessages | server.js:87-113 | one formatted entry per history entry, in order, plus one trailing `{role: 'user', content: message}` exactly when the message is present and the last history entry is not a tool message |
| Adapter.FormatIdempotent | server.js:87-113 | formatting an already formatted history (without a new message) changes nothing |
| Adapter.GetApiKey | server.js:76-82 | succeeds exactly when `<PROVIDER>_API_KEY` is set and non-empty, returning it; otherwise the error `<PROVIDER>_API_KEY 未配置` |
| Adapter.CallProvider | server.js:119-166 | a missing key fails before any request is sent; otherwise the request carries the formatted messages and tools, and a failed request becomes `<Vendor> API 调用失败: <reason>` |
| Adapter.ParseVendor | server.js:415-422 | only `glm` and `deepseek` name a provider, and the provider's id is the given name |
| Adapter.Chat | server.js:412-423 | an unknown provider fails with `不支持的 AI 提供商: <provider>`; a known one makes one call with the message and no tools |
| Tools.Put | tools/index.js:35-39 | `Map.set`: the entry for the name is replaced; a new name is appended to the insertion order, an existing one keeps its place |
| Tools.PutWellFormed | tools/index.js:35-39 | setting an entry keeps the names distinct and in step with the entries |
| Tools.Delete | tools/index.js:97-99 | `Map.delete`: the entry is gone and the name leaves the order, the others keep theirs |
| Tools.DeleteWellFormed | tools/index.js:97-99 | deleting an entry keeps the names distinct and in step with the entries |
| Tools.SizeIsEntries | tools/index.js:113-115 | the number of names in order equals the number of entries |
| Tools.RegistrationError | tools/index.js:23-33 | registration is refused exactly when the name is not a non-empty string, the definition is not an object, or the handler is not a function, with the message of the first failed check in that order |
| Tools.FirstInvalid | tools/index.js:53-55 | the index of the first tool that registration refuses; every earlier one is accepted |
| Tools.PutAllKeys | tools/index.js:53-55 | after registering a list of valid tools the registry holds the earlier names plus exactly the listed names |
| Tools.PutAllLastWins | tools/index.js:48-56 | when a name occurs more than once, the last registration under it is the one kept |
| Tools.ToolRegistry.constructor | tools/index.js:12-14 | the registry starts empty |
| Tools.ToolRegistry.RegisterTool | tools/index.js:22-42 | a refused registration returns its message and leaves the registry unchanged; an accepted one sets the entry |
| Tools.ToolRegistry.RegisterTools | tools/index.js:48-56 | a non-array fails with `tools 必须是数组` and changes nothing; otherwise the tools before the first refused one are registered in order and the refusal's message is returned |
| Tools.ToolRegistry.GetTool | tools/index.js:63-65 | the registration under the name, and none exactly when the name is not registered |
| Tools.ToolRegistry.GetAllToolDefinitions | tools/index.js:80-82 | one definition per registered tool, in insertion order |
| Tools.ToolRegistry.GetToolNames | tools/index.js:88-90 | the names in insertion order, without repetition, each exactly when it is registered; the i-th name is the name of the i-th definition `GetAllToolDefinitions` lists |
| Tools.ToolRegistry.Size | tools/index.js:113-115 | the number of registered tools |
| Tools.ToolRegistry.UnregisterTool | tools/index.js:97-99 | reports whether the name was registered, and removes it |
| Tools.ToolRegistry.Clear | tools/index.js:104-107 | the registry is empty afterwards |
| Tools.SuccessFields | tools/index.js:152-156 | the success envelope holds the tool name, `success: true` and the handler's result |
| Tools.Execute | tools/index.js:132-165 | an unregistered name fails with `ToolNotFoundError`; otherwise the handler runs on the parameters (`{}` when omitted), a return gives the success envelope and a throw a `ToolExecutionError` carrying its message; every failure has one of those two codes |
| Tools.ExecuteEnvelope | tools/index.js:147-156 | a successful execution reports `success: true`, the tool's name and the handler's result |
| Tools.EntrySuccess | tools/index.js:184-195 | each batch entry's `success` member says whether that execution succeeded |
| Tools.BatchEntrySuccess | tools/index.js:189-194 | a failed call's entry has `success: false` and the error's code |
| Tools.ToolExecutor.constructor | tools/index.js:122-124 | the executor uses the given registry |
| Tools.ToolExecutor.ExecuteTool | tools/index.js:132-165 | executes against the registry's current contents, as `Execute` |
| Tools.ToolExecutor.ExecuteTools | tools/index.js:172-199 | a non-array gives `[]`; otherwise one entry per call in order, each the outcome of that call, failures included without stopping the batch |
| Tools.ParseToolCalls | tools/index.js:206-224 | no reply or no tool calls gives null; otherwise it fails exactly when some call's arguments do not parse, and else gives one `{name, parameters}` per call in order |
| Tools.ParseCalls | tools/index.js:216-219 | the `map` over the calls: defined exactly when every argument string parses, element by element |
| Orchestration.StartHistory | server.js:444-451 | an empty history becomes the system prompt alone; a non-empty one is copied unchanged |
| Orchestration.AssistantMessage | server.js:474-483 | the appended assistant entry carries the reply's content and its tool calls |
| Orchestration.ToolContent | server.js:502-521 | a tool's result is passed on as returned; a failure becomes `{success: false, error: <message>}` |
| Orchestration.ToolMessage | server.js:507-521 | a tool message has role `tool`, the call's id as `tool_call_id`, and the JSON of the tool's content |
| Orchestration.Answer | server.js:499-521 | the message answering one call is the tool message of executing that call's tool on its parsed arguments |
| Orchestration.ToolMessages | server.js:494-522 | the `for … of` over the calls: it fails exactly when some call's arguments do not parse, and otherwise gives one message per call |
| Orchestration.ToolMessagesSnoc | server.js:494-522 | one more call whose arguments parse appends exactly its answer |
| Orchestration.ToolMessagesStops | server.js:497 | the first call whose arguments do not parse makes the whole pass throw with those arguments, later calls are not run |
| Orchestration.ToolMessagesStopAt | server.js:497 | a call whose arguments do not parse, after calls that all parse, ends the pass with that call's arguments |
| Orchestration.ToolMessageAt | server.js:494-522 | the message at position k answers call k |
| Orchestration.ToolMessagesAnswerCalls | server.js:494-522 | every message answers the call at the same position |
| Orchestration.Step | server.js:456-541 | a round only extends the history, and a round that goes on adds to it |
| Orchestration.StepToolRound | server.js:474-525 | a round that goes on appends the assistant entry with its tool calls, then exactly one tool message per call, in call order, each answering that call's id |
| Orchestration.RoundOf | server.js:454-542 | the loop body as a function of the round's start state extends the history |
| Orchestration.RunStep | server.js:454-542 | unfolding one iteration: a stopping round ends the run, a continuing one runs on without a user message and one round fewer |
| Orchestration.RunAfter | server.js:454-542 | the same unfolding, given the round's outcome |
| Orchestration.RunRounds | server.js:454-542 | a run starts at most `maxIterations` rounds; the first sends the user message and every later round sends none; the final history extends the starting one |
| Orchestration.RunNeverShortCircuits | server.js:533-545 | a run whose rounds never short-circuit never ends by the short-circuit |
| Orchestration.RunExits | server.js:485-552 | at the cap exactly `maxIterations` rounds ran and the answer is the cap reply; an answered run returns a reply without tool calls that is the last history entry; a run fails exactly when it throws |
| Orchestration.AlwaysToolsReachesCap | server.js:544-552 | a provider that always asks for tools uses every round, and the returned content is the last tool message's content with model `unknown` and usage null |
| Orchestration.StepNeverShortCircuits | server.js:533-545 | no round takes the bare-string return: every tool message holds an object envelope |
| Orchestration.RoundNeverShortCircuits | server.js:533-545 | the rounds of `chatWithTools` never short-circuit |
| Orchestration.ChatNeverShortCircuits | server.js:533-545 | the "single tool result that is a string" return never fires, because the executor wraps every result in `{tool, success, result}` |
| Orchestration.RoundStopsHonestly | server.js:465-490 | a round never stops at the cap itself; it fails exactly when it throws, and an answered round returns a tool-free reply recorded last in the history |
| Orchestration.RoundAlwaysCallsTools | server.js:485-525 | with a provider that always answers with parseable tool calls, every round goes on and ends the history with a tool message |
| Orchestration.StepCallsTools | server.js:485-525 | a reply with tool calls whose arguments all parse makes the round go on with a tool message last |
| Orchestration.RunToolCalls | server.js:494-522 | the loop over the calls builds exactly `ToolMessages` against the registry's contents |
| Orchestration.RunRound | server.js:456-541 | one iteration of the loop body computes exactly `Step` |
| Orchestration.ChatWithTools | server.js:434-563 | without tools it is one plain `chat` with the history unchanged; with tools its result and final history are those of the bounded run from the prepared history with the user message |
| StreamDecoder.LineEvent | server.js:262-284 | a line not starting with `data: ` does nothing; a line whose trimmed payload is `[DONE]` completes, and only such a line does; a delivered event carries `choices[0].delta.content` of a payload that parses, and only content the vendor's handler passes on (GLM: a non-empty string; DeepSeek: any truthy value) |
| StreamDecoder.LineDecoder | server.js:262-284 | the per-vendor decoder agrees with `LineEvent` on every line |
| StreamDecoder.LinesEvents | server.js:262-285 | the `for … of` over the lines: at most one callback per line, and `onComplete` can only be the last one, after which the rest of the chunk is abandoned |
| StreamDecoder.LinesEventsAppend | server.js:262-285 | reading two runs of lines is reading the first, then the second unless the first completed |
| StreamDecoder.LinesEventsSnoc | server.js:262-285 | one more line adds its event unless the stream already completed |
| StreamDecoder.LinesEventsRead | server.js:262-285 | a line that does not complete adds its event and leaves the stream incomplete |
| StreamDecoder.LinesEventsDone | server.js:268-272 | the first `[DONE]` line ends reading: the events are those before it plus one completion |
| StreamDecoder.UpToComplete | server.js:268-272 | cutting a callback sequence after its first completion keeps a completion-free sequence whole, and keeps a completion exactly when there is one |
| StreamDecoder.UpToCompleteAppend | server.js:268-272 | cutting after the first completion distributes over concatenation |
| StreamDecoder.UpToCompleteOfLines | server.js:262-285 | the callbacks of one chunk's lines end at their first completion |
| StreamDecoder.StreamReader.constructor | server.js:245-246 | a new connection has an empty buffer, no chunks counted and no callbacks |
| StreamDecoder.StreamReader.OnData | server.js:248-286 | after abort a chunk changes nothing; otherwise the buffer becomes the text after the last newline of buffer plus chunk, the count goes up by one, and the callbacks of the complete lines are added |
| StreamDecoder.StreamReader.ReadLines | server.js:262-285 | the loop over the complete lines adds exactly their callbacks and leaves buffer and count alone |
| StreamDecoder.StreamReader.OnEnd | server.js:288-291 | the end of the response adds one completion callback |
| StreamDecoder.LastPieceAfterLastNewline | server.js:257-260 | the kept buffer holds no newline, is a suffix of the text, and is preceded by a newline unless it is the whole text |
| StreamDecoder.SplitOnePiece | server.js:257 | text splits into one piece, itself, exactly when it has no newline |
| StreamDecoder.SplitAfterBuffer | server.js:256-260 | splitting the buffered text plus a new chunk keeps the earlier complete lines and continues from the buffer |
| StreamDecoder.EventsStep | server.js:256-285 | the callbacks after one more chunk, cut at the first completion, are those of all complete lines so far |
| StreamDecoder.ReplayReadsLines | server.js:248-286 | after any sequence of chunks the buffer is the last piece of the whole text, and the callbacks up to the first completion are those of its complete lines |
| StreamDecoder.ChunkingIrrelevant | server.js:248-286 | two chunkings of the same text leave the same buffer and give the same callbacks up to the first `[DONE]` |
| SseRoute.ValidateMessage | server.js:632-638 | accepted exactly when the message is a non-empty string of at most the limit's length in UTF-16 code units (`message.length`), and then returned; an absent, empty or non-string message gives `INVALID_MESSAGE`, a too long one `MESSAGE_TOO_LONG`, both with status 400 |
| SseRoute.ChatRoute | server.js:598-620 | a message that is not a non-empty string of at most 10000 UTF-16 code units is answered with its validation error; otherwise the reply, model and usage of one plain `chat` call on the given history and provider, with the provider named, or that call's failure (the body defaults are inputs, see Left out) |
| SseRoute.ToolsReplyAsWritten | server.js:652-660 | as written: `toolsUsed` is whether the reply's `tool_calls` is non-null and `toolResults` is those calls or `[]` |
| SseRoute.ToolCallsOf | server.js:652-660 | messages that ask for no tools yield no tool calls |
| SseRoute.ToolCallsOfAppend | server.js:652-660 | the calls of two runs of messages are those of the first followed by those of the second |
| SseRoute.ToolCallsOfHead | server.js:652-660 | the calls of the first message open the calls of the whole run |
| SseRoute.ToolsReplyIntended | server.js:652-660 | as intended: `toolsUsed` says whether the run executed any tool, `toolResults` is the concatenation of the calls of the appended messages in order, and reply, model, usage and provider come from the result |
| SseRoute.AsWrittenReportsNoTools | server.js:652-660 | as written, a successful tool run always reports `toolResults: []`, and `toolsUsed` only for a final reply with an empty `tool_calls` array |
| SseRoute.AsWrittenHidesToolRounds | server.js:652-660 | a run that executed tools in every round still reports `toolsUsed: false` as written |
| SseRoute.RunGrowsWhenToolsRun | server.js:454-542 | a run whose rounds always call tools appends to the history |
| SseRoute.IntendedFirstAnswerUsesNoTools | server.js:652-660 | with the intended body, an answer in the first round reports no tools used and no tool results |
| SseRoute.IntendedReportsToolRounds | server.js:652-660 | with the intended body, a run that executed tools reports `toolsUsed: true`, and its `toolResults` open with the first round's calls, which are not empty |
| SseRoute.FirstRoundCallsTools | server.js:474-525 | when every round calls tools, the first round appends an assistant entry with a non-empty list of calls |
| SseRoute.RunKeepsFirstRound | server.js:454-542 | the final history of a run extends the history its first round produced |
| SseRoute.FrameOf | server.js:695-714 | `onError` and `onComplete` write the frames after which the response ends; `onData` writes a content frame |
| SseRoute.Written | server.js:695-714 | once the response has ended nothing more is written; each callback writes at most one frame; no frame is a start frame, and only the last can end the response |
| SseRoute.FirstEnd | server.js:702-713 | the position of the first callback that ends the response |
| SseRoute.WrittenUpToFirstEnd | server.js:695-714 | the frames written are exactly those of the callbacks up to and including the first one that ends the response |
| SseRoute.WrittenIgnoresAfterEnd | server.js:695-714 | callbacks after the response has ended write nothing |
| SseRoute.CallbackOf | server.js:695-714 | a provider callback ends the response exactly when it is the completion |
| SseRoute.Callbacks | server.js:695-714 | one route callback per provider event, in order |
| SseRoute.DoneThenEndWritesOneDone | server.js:270-271 | a `[DONE]` line followed by the response's end calls `onComplete` twice, yet only one `done` frame is written, after the content frames |
| SseRoute.SseResponse.constructor | server.js:680 | the response starts with the `start` frame naming the provider and is open |
| SseRoute.SseResponse.Write | server.js:697-712 | writing on an ended response changes nothing; otherwise the frame is appended and the response ends after an error or done frame |
| SseRoute.SseResponse.Receive | server.js:695-714 | one callback appends what `Written` says for it and ends the response when it is terminal |
| SseRoute.SseResponse.ReceiveAll | server.js:695-714 | a sequence of callbacks appends exactly their `Written` frames |
| SseRoute.WrittenCons | server.js:695-714 | the frames of callbacks are those of the first, then those of the rest from the state it leaves |
| SseRoute.StreamFrames | server.js:680-759 | the stream starts with `start`; an unsupported provider gives one `不支持的提供商` error frame; a missing key gives one error frame with its message; otherwise the callbacks' frames follow |
| SseRoute.StreamFramesWellFormed | server.js:680-759 | every event stream has exactly one `start` frame, first, and any terminal frame only last |
| SseRoute.ChatStream | server.js:628-760 | a message that is not a non-empty string of at most the limit in UTF-16 code units is the validation error; with tools wanted and registered and a successful tool run, the JSON body as the program writes it (`ToolsReplyAsWritten` of the run's final reply); otherwise, also when the tool run throws, the event stream |
| SseRoute.StreamPath | server.js:671-759 | the streaming branch writes exactly `StreamFrames` |
| ParamValidator.DigitRunEnd | tools/utils/param-validator.js:108 | the end of the maximal run of digits starting at a position (the greedy `\d+`) |
| ParamValidator.SpaceRunEnd | tools/utils/param-validator.js:108 | the end of the maximal run of white space starting at a position (the greedy `\s*`) |
| ParamValidator.FirstMention | tools/utils/param-validator.js:108 | the first position where `(\d+)\s*(字\|字符\|长度)` matches, and none exactly when no position matches |
| ParamValidator.FirstMentionStartsRun | tools/utils/param-validator.js:108-110 | the leftmost match starts a whole run of digits, so the captured number is never a tail of a longer one |
| ParamValidator.MentionedNumber | tools/utils/param-validator.js:108-111 | present exactly when the pattern matches, and then the decimal value of the first match's digits |
| ParamValidator.Insert | tools/utils/param-validator.js:137 | `Set.add`: members are the old ones plus the value, insertion order kept, no duplicates created |
| ParamValidator.InsertAll | tools/utils/param-validator.js:134 | `new Set(…)`/repeated `add`: members are the old ones plus the added ones, order kept, no duplicates created |
| ParamValidator.MentionedTypes | tools/utils/param-validator.js:135-139 | the types whose keyword the message contains, and only those |
| ParamValidator.DefaultItems | tools/utils/param-validator.js:118-134 | a falsy default starts the set empty; an array default starts it with its distinct items; a truthy default that is neither array nor string throws |
| ParamValidator.CollectedTypesSpec | tools/utils/param-validator.js:134-141 | the result starts with the defaults, has no duplicates, and holds a type exactly when it is a default or the message contains one of its keywords |
| ParamValidator.CollectStep | tools/utils/param-validator.js:135-139 | one more keyword entry adds its type exactly when the message contains the keyword |
| ParamValidator.CollectTypes | tools/utils/param-validator.js:134-141 | the loop over the keyword table builds exactly `CollectedTypes` |
| ParamValidator.IsContentParam | tools/utils/param-validator.js:66-69 | a parameter named `content` in any case is a content parameter; any other name with an undefined definition throws |
| ParamValidator.EmptyMessageSuppliesNothing | tools/utils/param-validator.js:63 | an empty message extracts null for every parameter |
| ParamValidator.PlainParamNeverExtracted | tools/utils/param-validator.js:144-145 | a parameter that is not content, number or array is never extracted |
| ParamValidator.NumberParamValue | tools/utils/param-validator.js:107-114 | a number parameter takes the first mentioned length, else its default when truthy, else null |
| ParamValidator.ArrayParamAlwaysFound | tools/utils/param-validator.js:117-142 | an array parameter always yields an array, which is truthy, so it is never missing |
| ParamValidator.ExtractParamValue | tools/utils/param-validator.js:62-146 | the branches in order (empty message, content, number, array, otherwise null) compute exactly `ExtractedValue` |
| ParamValidator.FieldNames | tools/utils/param-validator.js:29 | the member names of an object, in order |
| ParamValidator.FirstIndex | tools/utils/param-validator.js:29 | the position of the first member with a given name |
| ParamValidator.SetField | tools/utils/param-validator.js:29 | `foundParams[name] = value`: the name is added at the end unless present, and reading it gives the value |
| ParamValidator.SetFieldKeeps | tools/utils/param-validator.js:29 | setting one member leaves every other member's value alone |
| ParamValidator.ExtractorOf | tools/utils/param-validator.js:23-26 | the value each required name extracts from the message under its own definition |
| ParamValidator.Unsupplied | tools/utils/param-validator.js:28-36 | the required names the message does not supply with a truthy value |
| ParamValidator.ClassifySnoc | tools/utils/param-validator.js:22-37 | one more required name is sorted into found (truthy value), missing, or a throw for an undefined definition |
| ParamValidator.MissingNames | tools/utils/param-validator.js:31-35 | the names of the missing entries, in order |
| ParamValidator.ClassifyMissing | tools/utils/param-validator.js:22-37 | the missing entries are exactly the unsupplied required names, in order |
| ParamValidator.ClassifyFound | tools/utils/param-validator.js:22-37 | the found members are exactly the supplied required names, each holding its extracted value |
| ParamValidator.ValidatedPartitions | tools/utils/param-validator.js:22-37 | every required name is either missing or found, never both |
| ParamValidator.Validated | tools/utils/param-validator.js:14-53 | complete exactly when nothing is missing; a prompt exactly when incomplete, and then the guidance prompt for the tool, the missing and the found parameters; a throw exactly when sorting the names throws |
| ParamValidator.ValidateParams | tools/utils/param-validator.js:14-53 | computes exactly `Validated` |
| ParamValidator.ClassifyRequired | tools/utils/param-validator.js:22-37 | the `forEach` over the required names computes exactly `Classify` |
| ParamValidator.PrefixErrStays | tools/utils/param-validator.js:22-37 | once a required name throws, the whole pass throws the same |
| ParamValidator.Action | tools/utils/param-validator.js:156-161 | `summarizeArticle` and `extractKeyInfo` get their own action text; any other name gets the generic action text (prototype member names aside, see Left out) |
| ParamValidator.FoundLine | tools/utils/param-validator.js:185-195 | a string longer than 50 UTF-16 code units is shown as its first 30 code units in brackets with `...`, a shorter one as it is, so a string's line stays short |
| ParamValidator.FoundLinesSnoc | tools/utils/param-validator.js:185-195 | one more found member adds exactly its line |
| ParamValidator.GuidancePrompt | tools/utils/param-validator.js:155-199 | the prompt starts with `好的，我可以帮你<action>。` |
| ParamValidator.NumberedListLines | tools/utils/param-validator.js:176-179 | the list has one line `<i+1>. <description>` per missing parameter, in order, ending with a newline |
| ParamValidator.GenerateGuidancePrompt | tools/utils/param-validator.js:155-199 | builds exactly `GuidancePrompt` |
| ParamValidator.AppendNumberedList | tools/utils/param-validator.js:177-179 | the `forEach` appends exactly the numbered list |
| ParamValidator.AppendFoundLines | tools/utils/param-validator.js:185-195 | the `forEach` appends exactly the found lines |
| ParamValidator.KeywordsOf | tools/utils/param-validator.js:215-224 | a known tool has seven keywords |
| ParamValidator.MatchCount | tools/utils/param-validator.js:234-239 | at most the number of keywords match |
| ParamValidator.CandidateOf | tools/utils/param-validator.js:229-242 | a tool whose name has no keyword entry is skipped; a known tool scores the fraction of its seven keywords the message contains, between 0 and 1 (names of prototype members aside, see Left out) |
| ParamValidator.ScoreInRange | tools/utils/param-validator.js:242 | the normalised score lies between 0 and 1 |
| ParamValidator.CandidatesOf | tools/utils/param-validator.js:228-247 | one candidate per tool, in order |
| ParamValidator.BestOf | tools/utils/param-validator.js:226-247 | the best confidence is at least every candidate's and at most 1; it is the first candidate reaching it (a later equal score does not replace it); a zero confidence leaves the tool name null |
| ParamValidator.FirstBestExtends | tools/utils/param-validator.js:244-246 | the first best candidate of a prefix is still first among the longer list |
| ParamValidator.IntentOf | tools/utils/param-validator.js:207-255 | an empty message or no tools gives `{needTool: false, confidence: 0}`; the confidence lies in [0, 1], and a tool is needed exactly when it exceeds 0.3 |
| ParamValidator.ThresholdMeansThreeKeywords | tools/utils/param-validator.js:242-251 | a score of n out of 7 exceeds 0.3 exactly when n is at least 3 |
| ParamValidator.NeedToolIffThreeKeywords | tools/utils/param-validator.js:207-255 | a tool is needed exactly when the lower-cased message contains three keywords of some listed tool |
| ParamValidator.BestAboveThresholdHasThree | tools/utils/param-validator.js:244-251 | a best confidence above 0.3 comes from a tool with three matching keywords |
| ParamValidator.ThreeKeywordsBeatThreshold | tools/utils/param-validator.js:244-251 | a tool with three matching keywords lifts the best confidence above 0.3 |
| ParamValidator.CountMatches | tools/utils/param-validator.js:234-239 | the inner loop's score is the number of matching keywords (weight 1.0 each) |
| ParamValidator.AnalyzeIntent | tools/utils/param-validator.js:207-255 | computes exactly `IntentOf` |
| ParamValidator.ScoreTool | tools/utils/param-validator.js:229-242 | scores one tool exactly as `CandidateOf` |
| ParamValidator.BestOfLast | tools/utils/param-validator.js:244-246 | one more tool replaces the best only with a strictly higher score |
| Weather.WindForce | tools/weather-tools.js:14-29 | the level is at most 12, the speed lies below the level's upper bound and at or above the previous bound; an unparsable speed falls through every comparison to 12 |
| Weather.ConvertWindLevel | tools/weather-tools.js:14-29 | one of the thirteen level names; `0级` exactly below 1 km/h, `12级` exactly at 117 km/h and above or for an unparsable speed |
| Weather.WindForceMonotone | tools/weather-tools.js:16-28 | a faster wind never gets a lower level |
| Weather.TranslateWindDir | tools/weather-tools.js:36-59 | a known abbreviation maps to its Chinese name; any other direction comes back unchanged, and only then (prototype member names aside, see Left out) |
| Weather.WindDirectionsCoverCompass | tools/weather-tools.js:37-56 | the table holds the sixteen compass points plus `Variable` and `VRB`, both read as variable wind |
| Weather.FirstMatch | tools/weather-tools.js:70-97 | the first rule that matches, and no earlier rule matches; none when no rule matches |
| Weather.TranslateWeatherDesc | tools/weather-tools.js:66-101 | the name of the first matching rule on the lower-cased trimmed description, else the description unchanged |
| Weather.TranslationIgnoresCaseAndSpace | tools/weather-tools.js:67 | two descriptions equal up to case and surrounding space translate alike when some rule matches |
| Weather.RuleLayout | tools/weather-tools.js:70-97 | the exact rules come first (with the one `includes` rule at its place among them), the fuzzy rules after |
| Weather.ExactPhraseWins | tools/weather-tools.js:70-91 | a description equal to an exact phrase is decided by an exact rule no later than that phrase's own rule |
| Weather.NextHours | tools/weather-tools.js:137 | at most the first three hourly forecasts are looked at, none without a forecast |
| Weather.CoolingTo | tools/weather-tools.js:150-156 | a cooling alert exactly when tomorrow's maximum is present and at least 8 degrees below today's temperature, and then it names tomorrow's maximum |
| Weather.OrderedAppend | tools/weather-tools.js:117-156 | pushing an alert of a later kind keeps the alerts in source order |
| Weather.AlertsOrdered | tools/weather-tools.js:117-156 | the alerts always appear in the order the checks run |
| Weather.AlertsFire | tools/weather-tools.js:117-130 | the heat, visibility and gale alerts fire exactly when their conditions hold |
| Weather.RainAlertsFire | tools/weather-tools.js:132-147 | `rain now` exactly when it rains now; `rain soon` exactly when rain is expected within three hours and it does not rain now |
| Weather.NoAlertsIffQuiet | tools/weather-tools.js:158 | no alert at all exactly when no condition fires |
| Weather.CoolingAlertLast | tools/weather-tools.js:149-156 | a cooling alert, when there is one, is the last alert and names tomorrow's maximum |
| Weather.AlertTexts | tools/weather-tools.js:117-156 | one text per alert, in order |
| Weather.AlertLine | tools/weather-tools.js:158 | null exactly when no condition fires |
| Weather.IntTextHasNoSemicolon | tools/weather-tools.js:154 | a printed temperature holds no `；` |
| Weather.NoSemicolonInAlert | tools/weather-tools.js:117-156 | no alert text holds the `；` separator |
| Weather.AlertLinePieces | tools/weather-tools.js:158 | splitting the alert line on `；` gives back exactly the alert texts, in order |
| Weather.HasRainKeyword | tools/weather-tools.js:133-134 | true exactly when the description contains one of the rain keywords |
| Weather.PushWhen | tools/weather-tools.js:117-130 | pushes the alert's text exactly when its condition fires |
| Weather.IsHazy | tools/weather-tools.js:123 | true exactly when the description mentions haze, fog or mist |
| Weather.RainInNextHours | tools/weather-tools.js:136-141 | true exactly when one of the next three hours' descriptions holds a rain keyword |
| Weather.TomorrowMuchColder | tools/weather-tools.js:149-156 | computes exactly `CoolingTo` |
| Weather.ReadSignals | tools/weather-tools.js:112-141 | reads the observation and forecast into exactly `SignalsOf` |
| Weather.ComposeAlert | tools/weather-tools.js:109-159 | builds exactly `AlertLine` |
| Weather.PushRain | tools/weather-tools.js:143-147 | pushes exactly the rain alert due |
| Weather.PushCooling | tools/weather-tools.js:150-156 | pushes exactly the cooling alert due |
| Weather.GenerateWeatherAlert | tools/weather-tools.js:109-159 | computes exactly `WeatherAlert` |
| Weather.Report | tools/weather-tools.js:183-210 | the report carries the city, temperature and humidity unchanged, the translated description and wind direction, a valid wind level and the alert line |
| Weather.WeatherText | tools/weather-tools.js:258-263 | the reply starts with the summary line and is longer exactly when there is an alert |
| Weather.WeatherTextLines | tools/weather-tools.js:258-263 | the reply's lines are the summary line, then a blank line and the alert when there is one |
| Weather.ReplyLines | tools/weather-tools.js:262 | a line plus a blank line plus an alert splits into exactly those three lines |
| Weather.CityOutcomes | tools/weather-tools.js:246-254 | a falsy city or an all-space one is refused as empty, a truthy non-string throws, anything else is looked up trimmed (non-empty, no space at either end) |
| Weather.GetWeatherHandler | tools/weather-tools.js:245-270 | the city's error, or the lookup error wrapped in both prefixes, or the reply text built from the looked-up report |
| Weather.ReplyText | tools/weather-tools.js:258-266 | builds exactly `WeatherText` |
| ConfigValidators.ValidatePort | config/validators.js:9-15 | accepted exactly when the parsed port is a number from 1 to 65535, which it returns; otherwise the out-of-range error naming the setting and the value as given |
| ConfigValidators.ValidateArray | config/validators.js:20-28 | accepted exactly when the value is a non-empty array, returned unchanged; a non-array and an empty array throw their own errors |
| ConfigValidators.ValidateUrl | config/validators.js:33-46 | accepted exactly when the value is a string that is empty or parses as a URL; a non-string and a malformed URL throw their own errors |
| ConfigValidators.ValidateNumberRange | config/validators.js:51-60 | accepted exactly when the parsed number lies within both bounds inclusive, which it returns; not-a-number and out-of-range throw their own errors |
| ConfigValidators.ValidateEnum | config/validators.js:65-70 | accepted exactly when the value is one of the allowed values, returned unchanged |
| ConfigValidators.LimitsChecked | config/validators.js:111-125 | a configured model passes exactly when its temperature lies in 0-2 and its token limit in 1-32000 |
| ConfigValidators.ConfigErrors | config/validators.js:96-108 | the accumulated errors name a non-string body limit exactly when it is not a string, the missing keys exactly when neither key is set, and nothing else |
| ConfigValidators.Warnings | config/validators.js:111-125 | one warning for each missing key, and only for those |
| ConfigValidators.Bullets | config/validators.js:137 | one `  - <error>` line per error, in order |
| ConfigValidators.ValidateConfig | config/validators.js:75-166 | the statements in order give exactly `ConfigChecked`; the warnings are logged only when the check succeeds |
| ConfigValidators.CheckOrigins | config/validators.js:88-92 | the `forEach` over the origins gives exactly `OriginsFrom` |
| ConfigValidators.OriginsFromOk | config/validators.js:88-92 | the origins pass exactly when each is `*` or an accepted URL |
| ConfigValidators.OriginsFailAtFirst | config/validators.js:88-92 | a failing pass reports the error of the first rejected origin, named by its index |
| ConfigValidators.WildcardNeverParsed | config/validators.js:89 | `*` is never handed to the URL parser |
| ConfigValidators.ConfigAcceptedIff | config/validators.js:75-166 | the configuration is accepted exactly when every guard's condition holds, the body limit is a string and some key is set, and then the result is `{port, env, isValid: true}` |
| ConfigValidators.NoKeyFails | config/validators.js:106-108 | with neither key the check always throws, and an accumulated-errors throw then includes the missing-key error |
| ConfigValidators.UnconfiguredLimitsIgnored | config/validators.js:111-125 | the limits of a model whose key is missing never affect the outcome |
| ConfigValidators.AccumulatedLines | config/validators.js:136-138 | the thrown message is a blank line, the header, then one bullet per error in order |
| JsValues.Or | tools/weather-tools.js:58 | `a \|\| b`: a truthy left operand wins, otherwise the right one |
| JsValues.Get | tools/weather-tools.js:246 | reading a member of a plain object gives its first member of that name, `undefined` when it lacks one; any other value reads as `undefined` (the throw on null and undefined and the members of strings and arrays are left out) |
| JsValues.Lookup | tools/weather-tools.js:246 | a member read gives the value of the first member with that name, `undefined` when there is none |
| JsValues.Index | tools/weather-tools.js:115 | an index inside an array gives that element, anything else `undefined` |
| JsValues.JsonRoundTrip | server.js:510-534 | `JSON.parse(JSON.stringify(v))` keeps objects objects, strings unchanged and arrays the same length |
| JsValues.DefinedMembers | server.js:510 | serialising an object drops its `undefined` members |
| Text.TrimStart | tools/weather-tools.js:249 | removes exactly the leading white space |
| Text.TrimEnd | tools/weather-tools.js:249 | removes exactly the trailing white space |
| Text.Trim | tools/weather-tools.js:249 | the result has no white space at either end, and is empty exactly when the string is all white space |
| Text.Lower | tools/weather-tools.js:67 | `toLowerCase` restricted to ASCII: each character is mapped on its own, `A`-`Z` to `a`-`z`, every other character kept |
| Text.Upper | server.js:77 | `toUpperCase` restricted to ASCII: each character is mapped on its own, `a`-`z` to `A`-`Z`, every other character kept |
| Text.Split | server.js:258 | `split('\n')` gives at least one piece, and no piece holds the separator |
| Text.JoinSplit | server.js:258 | joining the pieces of a split with the separator gives back the string |
| Text.SplitJoin | tools/weather-tools.js:158 | splitting pieces free of the separator after joining them gives back the pieces |
| Text.SplitAppend | server.js:257-258 | splitting a concatenation glues the last piece of the first part to the first piece of the second |
| Text.SplitWithoutSep | server.js:258 | a string without the separator splits into itself alone |
| Text.Utf16Length | server.js:606 | `s.length` counts UTF-16 code units: at least one per character and at most two |
| Text.Utf16Prefix | tools/utils/param-validator.js:191 | `substring(0, n)` keeps a prefix of the string |
| Text.Utf16PrefixFits | tools/utils/param-validator.js:191 | the prefix fits in `n` code units, and one more character would not fit |
| Text.NatToString | config/validators.js:90 | the decimal digits of a natural number, whose value is that number |

## Left out

- Provider HTTP requests (`axios.post` in `chatWithGLM`/`chatWithDeepSeek` and the streaming request set-up): they are the oracle `ask` and the chunk sequence given to `StreamReader`. The request's model name, temperature and token fields are not modelled.
- Express plumbing: CORS, rate limiting, static files, SSE header writes, `req.on('close')`, `AbortController` timing (the abort flag is an input to `OnData`), `app.listen` and signal handlers. These are I/O and event scheduling.
- The routes `/api/health`, `/api/models`, `/api/set-model`, `/api/config`, `/api/tools` and `/api/chat/tools` of server.js are outside the modelled core. They read configuration or call the modelled operations once.
- tools/text-tools.js is not part of this model. Its handlers wrap a network call to the server's own chat route. The start-up registration at tools/index.js:234-237 is therefore not modelled either; the registry is studied for arbitrary contents.
- `getWeatherFromWttr` (tools/weather-tools.js:166-214) is a network call. It is the oracle `fetch`, which yields the parsed current observation and tomorrow's forecast. `Weather.Report` models only the fields it assembles from them.
- public/app.js, config.js, config/frontend.config.js, scripts/generate-config.js and public/config.js are not part of this model. They are browser code, environment reading and generated text.
- `JSON.parse` of strings is an oracle. `JSON.stringify` followed by `JSON.parse` of a value is `JsValues.JsonRoundTrip`, which drops `undefined` members and maps `undefined` array elements to `null`. Numbers inside values are integers.
- The regular expressions of the content branch of `extractParamValue` (tools/utils/param-validator.js:69-104) are the oracle `scan`. The number branch's pattern is spelled out.
- `parseInt`/`parseFloat` of strings are taken as already-parsed `Parsed` values, a number or NaN. Floating-point numbers are exact reals, or integers where the source parses an integer. Rounding of JavaScript doubles is not modelled.
- `ConfigValidators`: the guards' thrown messages are structured `ConfigError` values naming the setting and the offending value. The formatting of the numbers and arrays inside the message text is not modelled. The thrown message for accumulated errors is modelled exactly.
- `ConfigValidators.ValidateConfig`: the success log lines (the summary with the rate-limit window) are not modelled. Only the warnings it prints are returned.
- Console logging, `logError`, and the stack text of errors are side effects or runtime detail. `stack` is carried as an opaque string.
- `StreamDecoder`: chunks are text after `chunk.toString()`. A multi-byte UTF-8 character split across two chunks is not modelled.
- `StreamDecoder.StreamReader.OnEnd`: `onComplete` on the response's `end` event is modelled as one more callback after any `[DONE]`. Nothing claims it fires once; `SseRoute.DoneThenEndWritesOneDone` shows the route tolerates both.
- SseRoute.ChatRoute: the body defaults of `/api/chat` (server.js:599), `history = []` and `provider = process.env.DEFAULT_MODEL || 'glm'`, are not modelled. History and provider are inputs as already resolved. The same holds for `ChatStream` (server.js:629), whose `useTools = true` and configured default provider are inputs too.
- JsValues.Get: JavaScript throws a `TypeError` when a member of `null` or `undefined` is read. Examples are `tool.name` at tools/utils/param-validator.js:230 for a null tool, and `const { city } = params` at tools/weather-tools.js:246 for null params. The model reads `undefined` there instead. Strings and arrays have their own members, such as `length`, and the model reads those as `undefined` too.
- ParamValidator.SetField: `Object.entries` lists integer-like member names first, in ascending numeric order, then the rest in insertion order. The model keeps insertion order for every name, so a parameter named like `"1"` would be listed in a different place among the found parameters.
- ParamValidator.Action: the action table is a plain object literal, so a tool named after an inherited member (`toString`, `constructor`, `__proto__`) reads a function or the prototype, not `undefined`. The prompt would then show that value where the model shows the generic action text. The model treats the table as having only its two own members.
- ParamValidator.CandidateOf: the keyword table is a plain object literal. For a tool named `toString`, `constructor` or `__proto__`, `toolKeywords[toolName]` is an inherited member and is truthy. Its `keywords` member is `undefined`, so the `for … of` at tools/utils/param-validator.js:235 throws. The model instead skips such a tool as having no keywords. `KeywordsOf` likewise covers only the own members.
- Weather.TranslateWindDir: `windDirMap[dir] || dir` with `dir` naming an inherited member (`toString`, `constructor`) gives that function, not `dir`. The model returns `dir` unchanged for every name outside the table's eighteen own members.
- Text.Lower: `toLowerCase` maps the whole of Unicode, and the model maps only the ASCII letters. For non-ASCII input the model differs, for example `"SMO\u212AE"` (KELVIN SIGN, lower-cased by JavaScript to `k`), `İ`, or `ß` (upper-cased to `SS`, which changes the length). The callers inherit this: `Weather.TranslateWeatherDesc`, `Weather.IsHazy` and `Weather.HasRainKeyword` lower-case the description, `ParamValidator.IntentOf` lower-cases the message, `ParamValidator.IsContentParam` lower-cases the parameter name, and `Adapter.GetApiKey` upper-cases the provider name.
- Text.Upper: `toUpperCase` maps the whole of Unicode, and the model maps only the ASCII letters, as for `Text.Lower`. `Adapter.GetApiKey` builds the key's variable name with it, so a provider name with a non-ASCII letter names a different variable in the model.
- ParamValidator.FoundLine: when the 30th UTF-16 code unit of a long string is the first half of a surrogate pair, `substring(0, 30)` keeps a lone surrogate. A Dafny string cannot hold one, so the model stops before that character, and the line has 29 code units of the string instead of 30.

## Findings

| source | as written | input that shows it | evidently intended | confidence | as-written member | corrected member |
|---|---|---|---|---|---|---|
| server.js:658-659 | the tool path answers `toolsUsed: result.tool_calls !== null` and `toolResults: result.tool_calls \|\| []`, read from the final reply of `chatWithTools` | a provider that first asks for a tool and then answers in text: the loop runs the tool and returns a reply whose `tool_calls` is null, so the body says `toolsUsed: false`, `toolResults: []` | `toolsUsed` true exactly when the run executed a tool, and `toolResults` listing the calls made | not executed | SseRoute.AsWrittenHidesToolRounds | SseRoute.IntendedReportsToolRounds |
