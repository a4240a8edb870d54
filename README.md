# ocbot browser agent — a Dafny model

ocbot is a Chromium build that ships an AI side-panel extension. The
extension talks to large-language-model providers and lets a model drive the
active browser tab through tools. This project models the core of that
extension and the scripts and header that wire it into the browser:

- **LLM layer.** `LlmTypes` holds the provider and message types and the
  provider-family mapping. Three adapters turn a conversation into one HTTP
  request and turn each server-sent-events line back into events:
  `OpenAIAdapter`, `AnthropicAdapter` and `GoogleAdapter`. `Client` is the
  streaming client. It picks the adapter, reports HTTP failures with debug
  information, splits the body into lines, follows `event:` names and
  flushes the residual line. `LegacyOpenAI` is the older callback-based
  OpenAI client.
- **Agent.** `AgentLoop` models `runAgentLoop`: up to 20 phases, each of
  which streams one answer. A phase collects text and tool calls, then runs
  the tools and appends their results. The loop can be aborted and reports
  errors. `Tools` holds the seven browser tools and `executeTool`.
  `SystemPrompt` builds the system prompt, and `Models` holds the provider
  template table.
- **Side panel.** `UseChat` models the chat state that `sendMessage`
  updates through the agent callbacks, with `stopAgent` and `clearChat`.
- **Browser and scripts.** `OcbotConstants` models the extension id table of
  `ocbot_constants.h`. `Icons` models the icon source choice of
  `scripts/icons.py`. `PatchScript` models how `scripts/patch.py` lists,
  applies and regenerates patches. `UpdatePatches` models how
  `scripts/update_patches.py` maps source files to their patches.

Code that only computes becomes datatypes, functions and lemmas. Every loop
of the source becomes a `method` whose postcondition ties its result to a
recursive specification function, and the properties are proved about those
functions. The chat hook's state becomes the class `UseChat.Chat`, whose
methods update its fields.

JSON is an abstract `Json` value. `JSON.parse` and `JSON.stringify` are a
`Codec` of two oracle functions. The one fact fixed about parsing is that
`"{}"` parses to the empty object. JavaScript property access follows the
language: a missing key is `undefined`, a non-empty string is truthy, and
reading a property of `null` throws. Every `try`/`catch` of the source
becomes an empty or `None` result.

## Model

| member | source | states |
|---|---|---|
| LlmTypes.TypeNameInjective | extension/lib/llm/types.ts:1 | the ten provider type names are pairwise distinct |
| LlmTypes.GetProviderFamily | extension/lib/llm/types.ts:93-102 | anthropic maps to the anthropic family and google to the google family, each in both directions; every other type maps to openai |
| LlmTypes.BaseUrlOr | extension/lib/llm/adapters/openai.ts:42 | the result is a non-empty configured base URL when there is one, otherwise the fallback |
| LlmTypes.ContentOr | extension/lib/llm/adapters/openai.ts:25 | the content reads as "" exactly when it is absent or empty, and otherwise is the message's content |
| LlmTypes.FirstSystem | extension/lib/llm/adapters/openai.ts:43 | None exactly when no message is a system message; otherwise a system message of the history |
| LlmTypes.NonSystem | extension/lib/llm/adapters/openai.ts:48 | keeps exactly the non-system messages, and no others |
| LlmTypes.NonSystemAppend | extension/lib/llm/adapters/anthropic.ts:4-5 | filtering system messages distributes over concatenation |
| LlmTypes.NonSystemNoop | extension/lib/llm/adapters/google.ts:6-7 | a history without system messages passes the filter unchanged |
| LlmTypes.Header | extension/lib/llm/adapters/openai.ts:60-63 | a header is found exactly when some entry has that name, and its value is that entry's |
| LlmTypes.HeaderMember | extension/lib/llm/adapters/anthropic.ts:68-73 | an entry whose name no earlier entry has is what lookup returns |
| OpenAIAdapter.AssistantCallsJson | extension/lib/llm/adapters/openai.ts:7-17 | an assistant turn with tool calls has role assistant, null content when its text is empty, and one function entry per call |
| OpenAIAdapter.ToolResultJson | extension/lib/llm/adapters/openai.ts:18-24 | a tool result has role tool, the content, and tool_call_id exactly when the message has one |
| OpenAIAdapter.PlainJson | extension/lib/llm/adapters/openai.ts:25 | other messages keep their role and content and carry no tool_calls |
| OpenAIAdapter.ConvertMessage | extension/lib/llm/adapters/openai.ts:3-27 | each converted message keeps its role name |
| OpenAIAdapter.SystemEntry | extension/lib/llm/adapters/openai.ts:43-48 | one system entry exactly when the history has a system message |
| OpenAIAdapter.BodyFields | extension/lib/llm/adapters/openai.ts:45-56 | model, messages and stream are sent; tools are sent exactly when there are tools |
| OpenAIAdapter.BuildRequest | extension/lib/llm/adapters/openai.ts:41-66 | URL is the base URL without trailing slashes plus /chat/completions; JSON content type; a Bearer Authorization header exactly when the key is non-empty |
| OpenAIAdapter.BuildRequestBody | extension/lib/llm/adapters/openai.ts:41-66 | the body streams, names the model, sends one tool per definition, and the messages are the system entry followed by each non-system message converted, in order |
| OpenAIAdapter.ToolJson | extension/lib/llm/adapters/openai.ts:29-38 | an entry read back has `type` "function" and a `function` holding the tool's name, description and parameters schema |
| OpenAIAdapter.ConvertTools | extension/lib/llm/adapters/openai.ts:29-38 | one entry per tool, in order, each the ToolJson of that tool |
| OpenAIAdapter.SentTools | extension/lib/llm/adapters/openai.ts:54-56 | no tools member without tools; otherwise entry i of the sent `tools` reads back as `type` "function" with tool i's name, description and parameters |
| OpenAIAdapter.HeaderFacts | extension/lib/llm/adapters/openai.ts:60-63 | Content-Type is JSON; Authorization is present exactly when the key is non-empty |
| OpenAIAdapter.MessagesFacts | extension/lib/llm/adapters/openai.ts:47-50 | the messages array has the system entry first, then the converted history in order |
| OpenAIAdapter.LineEvents | extension/lib/llm/adapters/openai.ts:68-107 | the events of one SSE line; its properties are stated by ParseSSELine, LineEventsShape, NonDataIgnored and NullToolCallDiscardsLine |
| OpenAIAdapter.WalkToolCalls | extension/lib/llm/adapters/openai.ts:80-97 | the loop over tool_calls yields the events of its specification, and throws when an entry is null |
| OpenAIAdapter.ParseSSELine | extension/lib/llm/adapters/openai.ts:68-107 | the method yields exactly the specified events of a line |
| OpenAIAdapter.ToolCallEventsShape | extension/lib/llm/adapters/openai.ts:80-97 | tool_calls yield only starts and deltas, at most two per entry |
| OpenAIAdapter.SingleToolCall | extension/lib/llm/adapters/openai.ts:82-95 | a single entry yields a start when it has a name, then a delta when it has arguments |
| OpenAIAdapter.NullEntryThrows | extension/lib/llm/adapters/openai.ts:82-83 | a null entry anywhere discards the walk |
| OpenAIAdapter.DeltaEventsShape | extension/lib/llm/adapters/openai.ts:75-101 | a delta yields no done and no error, and a text delta comes last |
| OpenAIAdapter.LineEventsShape | extension/lib/llm/adapters/openai.ts:68-107 | done comes exactly from `data: [DONE]` and stands alone; no line yields an error; text comes last |
| OpenAIAdapter.PayloadEvents | extension/lib/llm/adapters/openai.ts:74-103 | the events of a parsed payload: the tool-call entries of `choices[0].delta`, then its text; its properties are stated by PayloadEventsShape and NullToolCallDiscardsPayload |
| OpenAIAdapter.PayloadEventsShape | extension/lib/llm/adapters/openai.ts:74-103 | a parsed payload yields only text deltas and tool-call starts and deltas, and a text delta can only come last |
| OpenAIAdapter.NonDataIgnored | extension/lib/llm/adapters/openai.ts:69 | lines that are not data lines yield nothing |
| OpenAIAdapter.NullToolCallDiscardsLine | extension/lib/llm/adapters/openai.ts:104-106 | a null tool call discards the whole line, text included |
| OpenAIAdapter.NullToolCallDiscardsPayload | extension/lib/llm/adapters/openai.ts:80-83 | a parsed payload whose tool_calls hold a null entry yields nothing |
| OpenAIAdapter.OneCallDeltaEvents | extension/lib/llm/adapters/openai.ts:75-101 | a delta with one named call and text yields start, delta, text, in that order |
| OpenAIAdapter.OneToolCallChunk | extension/lib/llm/adapters/openai.ts:68-107 | a data line carrying such a delta yields exactly those three events |
| AnthropicAdapter.AssistantContent | extension/lib/llm/adapters/anthropic.ts:7-23 | a text block when there is text, then one tool_use block per call, in order |
| AnthropicAdapter.AssistantBlocks | extension/lib/llm/adapters/anthropic.ts:8-21 | the loop builds that content |
| AnthropicAdapter.ConvertMessage | extension/lib/llm/adapters/anthropic.ts:3-36 | assistant turns keep role assistant and everything else becomes user; tool results are one tool_result block; other content is the text |
| AnthropicAdapter.ConvertMessages | extension/lib/llm/adapters/anthropic.ts:3-36 | one converted message per non-system message, in order |
| AnthropicAdapter.OptionalFields | extension/lib/llm/adapters/anthropic.ts:58-64 | the optional fields are only system and tools |
| AnthropicAdapter.BuildRequest | extension/lib/llm/adapters/anthropic.ts:47-76 | URL ends in /v1/messages; x-api-key, anthropic-version 2023-06-01 and the direct-browser-access header are sent, and no Authorization |
| AnthropicAdapter.HeaderFacts | extension/lib/llm/adapters/anthropic.ts:68-73 | x-api-key carries the key, anthropic-version is 2023-06-01, direct browser access is "true", and no Authorization header is sent |
| AnthropicAdapter.BodyFixedFields | extension/lib/llm/adapters/anthropic.ts:51-56 | model, max_tokens 4096, stream true and the converted messages |
| AnthropicAdapter.BodyOptionalFields | extension/lib/llm/adapters/anthropic.ts:58-64 | system exactly when the history has a system text; tools exactly when there are tools |
| AnthropicAdapter.ToolJson | extension/lib/llm/adapters/anthropic.ts:38-44 | an entry read back has the tool's name, description, and its parameters schema as `input_schema` |
| AnthropicAdapter.ConvertTools | extension/lib/llm/adapters/anthropic.ts:38-44 | one entry per tool, in order, each the ToolJson of that tool |
| AnthropicAdapter.BodyTools | extension/lib/llm/adapters/anthropic.ts:62-64 | the body's `tools` member is convertTools of the tools, and absent when there are none |
| AnthropicAdapter.SentTools | extension/lib/llm/adapters/anthropic.ts:62-64 | no tools member without tools; otherwise entry i of the sent `tools` reads back with tool i's name, description and `input_schema` |
| AnthropicAdapter.MessagesRoles | extension/lib/llm/adapters/anthropic.ts:3-36 | every message sent is a user or an assistant turn, and tool results go as user turns |
| AnthropicAdapter.LineEvents | extension/lib/llm/adapters/anthropic.ts:78-113 | the events of one SSE line under an optional `event:` name; its properties are stated by LineEventsShape, HintAgreesWithType, MessageStopEndsStream and UnparsableIgnored |
| AnthropicAdapter.PayloadEvents | extension/lib/llm/adapters/anthropic.ts:85-109 | the events of a parsed payload under its event kind; its properties are stated by PayloadEventsShape and MessageStopEndsStream |
| AnthropicAdapter.PayloadEventsShape | extension/lib/llm/adapters/anthropic.ts:85-108 | at most one event per payload; done exactly for message_stop; an error only for error, with a non-empty message; argument deltas carry no id |
| AnthropicAdapter.LineEventsShape | extension/lib/llm/adapters/anthropic.ts:78-113 | at most one event per line; done exactly from a parsed message_stop |
| AnthropicAdapter.HintAgreesWithType | extension/lib/llm/adapters/anthropic.ts:85 | an `event:` name equal to the payload's type changes nothing |
| AnthropicAdapter.Kind | extension/lib/llm/adapters/anthropic.ts:85 | a non-empty `event:` name is the kind switched on; without one, the payload's `type` is |
| AnthropicAdapter.MessageStopEndsStream | extension/lib/llm/adapters/anthropic.ts:103-104 | a message_stop event yields exactly done |
| AnthropicAdapter.UnparsableIgnored | extension/lib/llm/adapters/anthropic.ts:110-112 | an unparsable payload yields nothing |
| GoogleAdapter.ModelParts | extension/lib/llm/adapters/google.ts:9-23 | a text part when there is text, then one functionCall part per call, in order |
| GoogleAdapter.ResponseName | extension/lib/llm/adapters/google.ts:34 | the function name is the tool call id when it is non-empty, and never empty |
| GoogleAdapter.AssistantParts | extension/lib/llm/adapters/google.ts:9-23 | the loop builds those parts |
| GoogleAdapter.ConvertMessages | extension/lib/llm/adapters/google.ts:3-49 | the loop builds the specified contents |
| GoogleAdapter.ContentsFollowHistory | extension/lib/llm/adapters/google.ts:3-49 | one entry per non-system message, in order |
| GoogleAdapter.EntryRole | extension/lib/llm/adapters/google.ts:9-45 | assistant turns have role model, and everything else has role user |
| GoogleAdapter.ToolResponseKeepsText | extension/lib/llm/adapters/google.ts:26-29 | a tool result that is not JSON is wrapped as `{result: text}` |
| GoogleAdapter.ToolResponse | extension/lib/llm/adapters/google.ts:25-29 | empty content is sent as `{}`; ToolResponseKeepsText states that text which does not parse is sent as `{result: text}` |
| GoogleAdapter.BuildRequest | extension/lib/llm/adapters/google.ts:62-85 | URL is base plus /models/<model>:streamGenerateContent?alt=sse&key=<key>; only a JSON Content-Type header |
| GoogleAdapter.BodyFields | extension/lib/llm/adapters/google.ts:66-76 | systemInstruction exactly when there is a system text; tools exactly when there are tools |
| GoogleAdapter.Declaration | extension/lib/llm/adapters/google.ts:53-57 | a declaration read back has the tool's name, description and parameters schema |
| GoogleAdapter.ToolsJson | extension/lib/llm/adapters/google.ts:51-59 | a one-element array whose object holds `functionDeclarations`, one declaration per tool, in order |
| GoogleAdapter.BodyTools | extension/lib/llm/adapters/google.ts:74-76 | the body's `tools` member is convertTools of the tools, and absent when there are none |
| GoogleAdapter.SentTools | extension/lib/llm/adapters/google.ts:74-76 | no tools member without tools; otherwise `tools` has one element, and declaration i of its `functionDeclarations` reads back with tool i's name, description and parameters |
| GoogleAdapter.LineEvents | extension/lib/llm/adapters/google.ts:87-127 | the events of one SSE line; its properties are stated by ParseSSELine, LineEventsShape, NullPartThrows and NoPartsNoDone |
| GoogleAdapter.WalkParts | extension/lib/llm/adapters/google.ts:98-115 | the loop over parts yields its specified events |
| GoogleAdapter.ParseSSELine | extension/lib/llm/adapters/google.ts:87-127 | the method yields exactly the specified events of a line |
| GoogleAdapter.NullPartThrows | extension/lib/llm/adapters/google.ts:99 | a null part discards the line |
| GoogleAdapter.PairedAppend | extension/lib/llm/adapters/google.ts:98-115 | pairing of starts and deltas is kept under concatenation |
| GoogleAdapter.PartsEventsPaired | extension/lib/llm/adapters/google.ts:102-113 | every tool-call start is followed by a delta with the same id, and every delta follows its start |
| GoogleAdapter.LineEventsShape | extension/lib/llm/adapters/google.ts:87-127 | done can only come last, after all part events; a line yields no error; starts and deltas are paired |
| GoogleAdapter.PayloadEvents | extension/lib/llm/adapters/google.ts:92-122 | the events of a parsed payload: its parts' events, then done for a STOP or MAX_TOKENS finish; its properties are stated by PayloadEventsShape and NoPartsNoDone |
| GoogleAdapter.PayloadEventsShape | extension/lib/llm/adapters/google.ts:91-126 | a parsed payload yields no error, done only last, and paired starts and deltas before it |
| GoogleAdapter.NoPartsNoDone | extension/lib/llm/adapters/google.ts:93-94 | a chunk without parts yields nothing, not even done |
| Client.AdapterRequest | extension/lib/llm/client.ts:7-14 | the request is built by the adapter of the provider's family |
| Client.AdapterParse | extension/lib/llm/client.ts:72-76 | dispatches a line to the family's parser |
| Client.LineStep | extension/lib/llm/client.ts:59-78 | one complete line of the body: blank, `event:`, `data:` or other; its properties are stated by LineStepHint, LinesAppendOnly and DispatchLine |
| Client.Decode | extension/lib/llm/client.ts:51-87 | the events of a whole body text, including the flushed last line; its properties are stated by StreamChat, LinesAppend and TrailingNewlineNoResidual |
| Client.LinesAppend | extension/lib/llm/client.ts:51-79 | decoding lines in two runs equals decoding them in one |
| Client.LinesAppendOnly | extension/lib/llm/client.ts:59-78 | decoding only appends events |
| Client.LineStepHint | extension/lib/llm/client.ts:59-78 | a blank line clears the event name; `event:` sets it; other lines keep it; non-data lines yield nothing |
| Client.TrailingNewlineNoResidual | extension/lib/llm/client.ts:82-87 | a body that ends in a newline leaves no residual line to flush |
| Client.HttpError | extension/lib/llm/client.ts:34-38 | the message is `HTTP <status>: `, then the first 200 characters of the body (all of it when shorter), a newline and the debug info |
| Client.DebugInfo | extension/lib/llm/client.ts:25 | the suffix starts with `[url=<url>] [auth=` and ends with `] [key_len=<key length>]`; DebugAuthMissing states when the auth part is MISSING |
| Client.StreamChat | extension/lib/llm/client.ts:16-91 | fetch failure throws; non-ok yields one error; no body yields "No response body"; a read body yields the events of the whole text, whatever its chunking |
| Client.ReadChunks | extension/lib/llm/client.ts:51-79 | after the chunks, the state is that of the complete lines, and the buffer holds the last partial line |
| Client.DispatchLines | extension/lib/llm/client.ts:59-78 | the inner loop over complete lines follows the line-by-line specification |
| Client.DispatchLine | extension/lib/llm/client.ts:60-77 | one complete line updates the events, the event name and the count as the line-by-line specification says |
| Client.DebugAuthMissing | extension/lib/llm/client.ts:25 | the debug info reports the Authorization header as missing for anthropic and google |
| LegacyOpenAI.LineToken | extension/lib/llm/openai.ts:52-63 | the token of one complete line; its properties are stated by NoTokenLines and ScanLines |
| LegacyOpenAI.Reported | extension/lib/llm/openai.ts:71-74 | a caught error is reported once, an AbortError not at all; StreamChat states where it is used |
| LegacyOpenAI.TokenCallbacks | extension/lib/llm/openai.ts:57-63 | one onToken per token, in order |
| LegacyOpenAI.StreamChat | extension/lib/llm/openai.ts:15-76 | the error paths report exactly one error; on success the tokens are reported in order and onDone receives their concatenation |
| LegacyOpenAI.ReadChunks | extension/lib/llm/openai.ts:43-68 | the tokens are those of the complete lines of the body, and the full text is their concatenation |
| LegacyOpenAI.ScanLines | extension/lib/llm/openai.ts:51-67 | the line loop yields the tokens of those lines and their concatenation |
| LegacyOpenAI.ConcatAppend | extension/lib/llm/openai.ts:61 | the accumulated text distributes over appended tokens |
| LegacyOpenAI.TokensAppend | extension/lib/llm/openai.ts:51-67 | tokens of concatenated line lists concatenate |
| LegacyOpenAI.NoTokenLines | extension/lib/llm/openai.ts:53-55 | non-data lines and `[DONE]` yield no token |
| LegacyOpenAI.ResidualIgnored | extension/lib/llm/openai.ts:43-70 | a trailing line without a newline contributes nothing |
| LegacyOpenAI.EndOfStreamDiffers | extension/lib/llm/client.ts:82-87 | for a body without a newline, the legacy client yields nothing while the new client parses the line |
| AgentLoop.PageContextOf | extension/lib/agent/loop.ts:17-25 | a page context exactly when the tab has a non-empty url and title |
| AgentLoop.AssistantMessage | extension/lib/agent/loop.ts:102-106 | role assistant; content absent exactly when the text is empty; tool calls absent exactly when there are none |
| AgentLoop.EventStep | extension/lib/agent/loop.ts:50-87 | one streamed event: the abort check, then text, tool-call start or delta, error or done; its properties are stated by StartId, AddArgumentsTarget, StopSticks and EmptyIdStart |
| AgentLoop.Scan | extension/lib/agent/loop.ts:50-88 | the event loop of one iteration; its properties are stated by ScanEvents, ScanUniqueIds, ScanErrors and ScanIdsNonEmpty |
| AgentLoop.RunTools | extension/lib/agent/loop.ts:114-126 | the tool loop of one iteration; its properties are stated by ExecuteTools, RunToolsSpec, RunToolsNoErrors and ToolsStopSticks |
| AgentLoop.Phase | extension/lib/agent/loop.ts:42-126 | one iteration of the loop; its properties are stated by RunPhase, PhaseContinues, PhaseNeverCaps, AnswerEndsRun and FailureEndsRun |
| AgentLoop.Loop | extension/lib/agent/loop.ts:41-129 | the iterations up to the cap of 20; its properties are stated by RunAgentLoop, LoopAppends, CapReport and ToolsEveryPhaseReachCap |
| AgentLoop.Find | extension/lib/agent/loop.ts:69 | finds the call with the id, or None exactly when no call has it |
| AgentLoop.SetCall | extension/lib/agent/loop.ts:61 | an existing id is replaced in place; a new id is appended; ids stay unique |
| AgentLoop.AddArguments | extension/lib/agent/loop.ts:67-79 | ids, names and count are kept, and ids stay unique |
| AgentLoop.AddArgumentsTarget | extension/lib/agent/loop.ts:67-79 | a delta extends the call with its id, otherwise the last call; nothing else changes |
| AgentLoop.StartId | extension/lib/agent/loop.ts:60 | an empty id becomes `tc_<n>`, where n counts the starts so far |
| AgentLoop.ScanUniqueIds | extension/lib/agent/loop.ts:45-65 | the tool-call map never holds two calls with one id |
| AgentLoop.ScanErrors | extension/lib/agent/loop.ts:81-83 | an error event ends the phase with exactly one onError, last |
| AgentLoop.ScanEvents | extension/lib/agent/loop.ts:50-88 | the event loop computes the specified accumulators |
| AgentLoop.StopSticks | extension/lib/agent/loop.ts:51 | once aborted or errored, later events change nothing |
| AgentLoop.RunToolsSpec | extension/lib/agent/loop.ts:114-126 | each executed call gives onToolCallEnd then onToolMessage with the same result, and a tool message, in order |
| AgentLoop.RunToolsNoErrors | extension/lib/agent/loop.ts:114-126 | running the tool calls never reports an error |
| AgentLoop.ExecuteTools | extension/lib/agent/loop.ts:114-126 | the tool loop computes its specification |
| AgentLoop.ToolsStopSticks | extension/lib/agent/loop.ts:115 | after an abort, no further tool runs |
| AgentLoop.RunAgentLoop | extension/lib/agent/loop.ts:27-130 | the loop computes the specified run from the system message and the history |
| AgentLoop.RunPhase | extension/lib/agent/loop.ts:42-126 | one iteration computes the specified phase |
| AgentLoop.LoopAppends | extension/lib/agent/loop.ts:102-125 | history and callbacks are only appended to |
| AgentLoop.LoopContinues | extension/lib/agent/loop.ts:41-126 | a phase that neither ends the run nor is aborted hands its history and callbacks to the next iteration |
| AgentLoop.LoopEnds | extension/lib/agent/loop.ts:89-111 | a phase that ends the run leaves its callbacks and messages last |
| AgentLoop.RunHistory | extension/lib/agent/loop.ts:34-39 | the run's history starts with the system prompt, then the caller's messages |
| AgentLoop.PhaseContinues | extension/lib/agent/loop.ts:96-126 | a phase goes on only after an assistant turn with tool calls and their results, without errors |
| AgentLoop.PhaseNeverCaps | extension/lib/agent/loop.ts:41-127 | a single phase never reports the cap |
| AgentLoop.CapReport | extension/lib/agent/loop.ts:129 | reaching the cap reports its message exactly once, last |
| AgentLoop.AnswerEndsRun | extension/lib/agent/loop.ts:108-111 | a phase without tool calls ends the run with the text as the assistant message |
| AgentLoop.FailureEndsRun | extension/lib/agent/loop.ts:42-126 | a phase that ends in an abort reports no error; a failed phase appends nothing and reports its error once, last; an abort inside the stream appends nothing |
| AgentLoop.ThrownStream | extension/lib/agent/loop.ts:89-93 | a stream that throws reports the thrown message once, last, and ends the run, unless the signal is aborted by then, when nothing is reported |
| AgentLoop.AbortedRunSilent | extension/lib/agent/loop.ts:41-129 | a run that ends in an abort, at any check point, never reported an error |
| AgentLoop.EmptyIdStart | extension/lib/agent/loop.ts:59-65 | a start without an id is stored as `tc_<n>` and bumps the counter |
| AgentLoop.ScanIdsNonEmpty | extension/lib/agent/loop.ts:60 | every stored call has a non-empty id |
| AgentLoop.EmptyIdDeltaFollowsStart | extension/lib/agent/loop.ts:67-79 | an id-less delta right after the start of a new call is attributed to that call |
| AgentLoop.AssistantTurnsAppend | extension/lib/agent/loop.ts:102 | assistant turns add up over appended histories |
| AgentLoop.PhaseOneTurn | extension/lib/agent/loop.ts:96-126 | a phase that goes on records exactly one assistant turn |
| AgentLoop.ToolsEveryPhaseReachCap | extension/lib/agent/loop.ts:41-129 | when every phase asks for tools, the loop ends at the cap with its error last, one assistant turn per phase |
| AgentLoop.ToolsEveryPhaseRun | extension/lib/agent/loop.ts:41-129 | from the start, exactly 20 phases stream before the cap error |
| Tools.NormalizeUrl | extension/lib/agent/tools.ts:100-103 | URLs starting with http:// or https://, in any case, are kept; others get https:// in front |
| Tools.NormalizeIdempotent | extension/lib/agent/tools.ts:100-103 | normalising twice equals normalising once |
| Tools.DigitRun | extension/lib/agent/tools.ts:176 | the longest prefix of digits |
| Tools.ParseInt | extension/lib/agent/tools.ts:176 | JavaScript `parseInt` on a string: leading blanks, a sign and the leading decimal digits; its properties are stated by ParseDigits, ParseIntRoundTrip and IntOr |
| Tools.ParseDigits | extension/lib/agent/tools.ts:176 | parseInt reads a string of decimal digits as its value |
| Tools.ParseIntRoundTrip | extension/lib/agent/tools.ts:176 | parseInt of a number's decimal text returns the number |
| Tools.IntOr | extension/lib/agent/tools.ts:176 | the parsed number when it is non-zero, otherwise the default (`\|\| d`) |
| Tools.Lookup | extension/lib/agent/tools.ts:179-184 | finds a key's value exactly when the key is present |
| Tools.Put | extension/lib/agent/tools.ts:182 | sets the key and leaves every other key's lookup unchanged |
| Tools.PutUnique | extension/lib/agent/tools.ts:182 | keys stay unique |
| Tools.KeptAttributesSpec | extension/lib/agent/tools.ts:179-184 | only id, class, href, src, type, name, value, placeholder, aria-label and role are kept, each with its last value |
| Tools.KeepAttributes | extension/lib/agent/tools.ts:180-184 | the attribute loop computes that set |
| Tools.ElementText | extension/lib/agent/tools.ts:188 | the element text is a prefix of innerText, at most 100 characters |
| Tools.Summary | extension/lib/agent/tools.ts:177-190 | one match's index, lower-cased tag, text and kept attributes; its properties are stated by Summaries, ElementText and KeptAttributesSpec |
| Tools.Summaries | extension/lib/agent/tools.ts:177-190 | JavaScript slice(0, limit) of the matches, each summarised with its index |
| Tools.GetElements | extension/lib/agent/tools.ts:173-194 | the result is the JSON of those summaries |
| Tools.InTab | extension/lib/agent/tools.ts:88-96 | the injected function's value, or a throw when the injection returns nothing or rejects; InjectionFailure states how it is reported |
| Tools.ActiveTab | extension/lib/agent/tools.ts:82-86 | throws exactly when there is no active tab or its id is 0 |
| Tools.ScrollAmount | extension/lib/agent/tools.ts:152-159 | -500 exactly for up, otherwise 500 |
| Tools.PageText | extension/lib/agent/tools.ts:161-171 | a prefix of the body text, at most 5000 characters |
| Tools.Dispatch | extension/lib/agent/tools.ts:226-234 | the switch over tool names; its properties are stated by UnknownTool, NoActiveTab, MissingElement, NavigateTarget, WaitStatus and TableMatchesDispatch |
| Tools.ExecuteTool | extension/lib/agent/tools.ts:223-240 | unparsable arguments give `Error executing <name>: <message>`; otherwise a tool's result is returned as it is, and anything it throws becomes `Error executing <name>: <message>` |
| Tools.EmptyArgs | extension/lib/agent/tools.ts:225 | empty arguments are read as `{}` |
| Tools.Arg | extension/lib/agent/tools.ts:100 | a string argument exactly when the member is a string, and then that string |
| Tools.UnknownTool | extension/lib/agent/tools.ts:234 | an unknown name gives `Error: Unknown tool "<name>"` |
| Tools.NoActiveTab | extension/lib/agent/tools.ts:82-86 | without an active tab every tool reports "No active tab found" |
| Tools.InjectionFailure | extension/lib/agent/tools.ts:88-96 | a script injection that returns nothing or rejects becomes `Error executing <name>: <message>` for every tool that injects |
| Tools.NullArguments | extension/lib/agent/tools.ts:223-233 | `null` arguments make every tool but getText report the read of its first argument |
| Tools.MissingElement | extension/lib/agent/tools.ts:123-150 | click and type report an element that was not found |
| Tools.Navigate | extension/lib/agent/tools.ts:98-121 | the tab is sent to the normalised URL and its url and title are reported; NavigateTarget states it |
| Tools.Click | extension/lib/agent/tools.ts:123-131 | the click result or the not-found message, inside the tab; MissingElement and InjectionFailure state it |
| Tools.TypeText | extension/lib/agent/tools.ts:133-150 | the typing result or the not-found message, inside the tab; MissingElement and InjectionFailure state it |
| Tools.Scroll | extension/lib/agent/tools.ts:152-159 | scrolls by ScrollAmount and reports the new position; ScrollAmount and InjectionFailure state it |
| Tools.GetText | extension/lib/agent/tools.ts:161-171 | the page's url, title and capped text as JSON; PageText and InjectionFailure state it |
| Tools.NavigateTarget | extension/lib/agent/tools.ts:98-121 | navigate goes to the normalised URL and reports it |
| Tools.WaitForNavigation | extension/lib/agent/tools.ts:196-221 | a complete tab answers at once, otherwise the tab after the wait; WaitStatus states it |
| Tools.WaitStatus | extension/lib/agent/tools.ts:196-221 | a complete tab reports already_loaded; otherwise the status after waiting |
| Tools.TableMatchesDispatch | extension/lib/agent/tools.ts:3-80 | the tool table lists the seven dispatched names, in order, without repetition |
| Tools.RequiredAreProperties | extension/lib/agent/tools.ts:3-80 | every required parameter is a declared property |
| SystemPrompt.BuildSystemPrompt | extension/lib/agent/systemPrompt.ts:1-32 | the base prompt, followed by the URL and title section when there is a page; its properties are stated by PromptShape and PromptDeterminesPage |
| SystemPrompt.PromptShape | extension/lib/agent/systemPrompt.ts:1-32 | the base prompt is a prefix; with no page it is the whole result; otherwise a Current Page section with the URL and title follows |
| SystemPrompt.PromptDeterminesPage | extension/lib/agent/systemPrompt.ts:23-29 | distinct pages whose URLs have no newline give distinct prompts |
| SystemPrompt.SectionDeterminesPage | extension/lib/agent/systemPrompt.ts:23-29 | the page section determines the URL and title |
| SystemPrompt.FirstNewline | extension/lib/agent/systemPrompt.ts:27-28 | the first newline after a newline-free URL ends it |
| Models.Find | extension/lib/llm/models.ts:66-68 | the first template of the given type name, or None exactly when there is none |
| Models.GetTemplateByType | extension/lib/llm/models.ts:66-68 | a listed template of that type, or None exactly when none is listed |
| Models.ModelIds | extension/lib/llm/models.ts:3-64 | the model ids, in order |
| Models.TypesDistinct | extension/lib/llm/models.ts:3-64 | no provider type has two templates |
| Models.TemplateTypes | extension/lib/llm/models.ts:3-64 | the five templates: openai, anthropic, google, openrouter, openai-compatible |
| Models.TemplateMissing | extension/lib/llm/models.ts:66-68 | deepseek, qwen, kimi, glm and minimax have no template |
| Models.TemplatePresent | extension/lib/llm/models.ts:66-68 | every other type finds its own template |
| Models.DefaultModelListed | extension/lib/llm/models.ts:3-64 | a template's default model is one of its models |
| Models.CompatibleTemplateEmpty | extension/lib/llm/models.ts:56-63 | the openai-compatible template has no models and an empty default |
| UseChat.CanSend | extension/entrypoints/sidepanel/hooks/useChat.ts:22 | the guard of `sendMessage`: a provider, non-blank text and no run in progress; Chat.Begin states that a refused send changes nothing |
| UseChat.UserMessage | extension/entrypoints/sidepanel/hooks/useChat.ts:29-34 | the user entry: id `msg_<now>` from one clock reading and createdAt from the other, role user and the trimmed text; Chat.Begin and Chat.SendMessage state where it goes |
| UseChat.ToRequest | extension/entrypoints/sidepanel/hooks/useChat.ts:40-59 | tool entries send their result and id; assistant entries with calls send the calls, with content absent when empty; others keep role and content |
| UseChat.LlmMessages | extension/entrypoints/sidepanel/hooks/useChat.ts:39-59 | one request message per entry, in order |
| UseChat.StatusStarted | extension/entrypoints/sidepanel/hooks/useChat.ts:75-77 | one more running status |
| UseChat.StatusEnded | extension/entrypoints/sidepanel/hooks/useChat.ts:78-82 | the statuses with that id become done with the result, and the others are kept |
| UseChat.StatusStep | extension/entrypoints/sidepanel/hooks/useChat.ts:75-82 | a start appends a running status, an end marks its id done, and other callbacks keep the list; StatusesFollowStarts states the result over a run |
| UseChat.Statuses | extension/entrypoints/sidepanel/hooks/useChat.ts:75-82 | the status list after a run's callbacks; StatusesFollowStarts states one status per start, in order, with its id |
| UseChat.Entries | extension/entrypoints/sidepanel/hooks/useChat.ts:83-110 | an assistant entry exactly when there is text or a call, with id `msg_<t>_assistant`; a tool entry with id `msg_<t>_tool_<callId>` whose result is capped at 500 characters; both created at the callback's own clock reading |
| UseChat.AssistantIdsDiffer | extension/entrypoints/sidepanel/hooks/useChat.ts:85-86 | assistant entries stamped at different milliseconds get different ids |
| UseChat.LastError | extension/entrypoints/sidepanel/hooks/useChat.ts:111-113 | the last reported error, or None exactly when none was reported |
| UseChat.StatusesFollowStarts | extension/entrypoints/sidepanel/hooks/useChat.ts:75-82 | one status per tool start, in order and with its id |
| UseChat.ToolResultsCapped | extension/entrypoints/sidepanel/hooks/useChat.ts:101-110 | every tool entry of a run holds at most 500 characters |
| UseChat.Chat.constructor | extension/entrypoints/sidepanel/hooks/useChat.ts:13-19 | the chat starts empty, idle and without an error |
| UseChat.Chat.Begin | extension/entrypoints/sidepanel/hooks/useChat.ts:21-59 | with no provider, blank text or a run in progress nothing changes; otherwise the state is reset, the trimmed user message is added, and the request is the history |
| UseChat.Chat.Apply | extension/entrypoints/sidepanel/hooks/useChat.ts:71-113 | each callback updates the entries, the statuses, the error and the streaming text as the hook does |
| UseChat.Chat.SendMessage | extension/entrypoints/sidepanel/hooks/useChat.ts:21-125 | after a run, the entries are those of its callbacks, each stamped by the clock reading of its own callback; the statuses and error are those of the callbacks, and the panel is idle |
| UseChat.Chat.Finish | extension/entrypoints/sidepanel/hooks/useChat.ts:67-124 | once the loop returns: the entries, statuses and error of its callbacks, then loading off and no streaming text |
| UseChat.Chat.ApplyAll | extension/entrypoints/sidepanel/hooks/useChat.ts:67-116 | applying a run's callbacks in order, the k-th with clock reading k, gives the entries, statuses and error of the run |
| UseChat.Chat.StopAgent | extension/entrypoints/sidepanel/hooks/useChat.ts:127-131 | stops loading and clears the streaming text; nothing else changes |
| UseChat.Chat.ClearChat | extension/entrypoints/sidepanel/hooks/useChat.ts:133-138 | clears entries, streaming text, statuses and error, and leaves loading as it was |
| OcbotConstants.IsOcbotExtension | resources/patches/chrome/browser/ocbot/ocbot_constants.h:49-51 | equality with the ocbot id; ListedIffOcbot states that it agrees with the table |
| OcbotConstants.IsOcbotPinnedExtension | resources/patches/chrome/browser/ocbot/ocbot_constants.h:54-61 | the pinned search over the table; PinnedIffOcbot states that only the ocbot id is pinned |
| OcbotConstants.IsOcbotLabelledExtension | resources/patches/chrome/browser/ocbot/ocbot_constants.h:64-71 | the labelled search over the table; NeverLabelled states that no id is labelled |
| OcbotConstants.PinnedIn | resources/patches/chrome/browser/ocbot/ocbot_constants.h:54-61 | true exactly when a table entry with that id is pinned |
| OcbotConstants.LabelledIn | resources/patches/chrome/browser/ocbot/ocbot_constants.h:64-71 | true exactly when a table entry with that id is labelled |
| OcbotConstants.GetOcbotExtensionIds | resources/patches/chrome/browser/ocbot/ocbot_constants.h:74-80 | the ids of the table, in order |
| OcbotConstants.ExtensionIdShape | resources/patches/chrome/browser/ocbot/ocbot_constants.h:24-25 | the id has 32 characters, each in a to p |
| OcbotConstants.PinnedIffOcbot | resources/patches/chrome/browser/ocbot/ocbot_constants.h:49-61 | an id is pinned exactly when it is the ocbot id |
| OcbotConstants.NeverLabelled | resources/patches/chrome/browser/ocbot/ocbot_constants.h:40-42 | no id is labelled |
| OcbotConstants.ListedIffOcbot | resources/patches/chrome/browser/ocbot/ocbot_constants.h:40-51 | an id is in the table exactly when it is the ocbot id |
| Icons.FindBestSource | scripts/icons.py:29-37 | the exact size, else the smallest larger size, else the last available size; its properties are stated by BestSourceAvailable, ExactSizeChosen, LargerSizeChosen and LargestSizeFallback |
| Icons.LeastAtLeast | scripts/icons.py:34-36 | the least available size at or above the target, or None exactly when all are smaller |
| Icons.BestSourceAvailable | scripts/icons.py:29-37 | a source exactly when some size is available, and it belongs to an available size |
| Icons.ExactSizeChosen | scripts/icons.py:31-32 | an available target size is chosen itself |
| Icons.LargerSizeChosen | scripts/icons.py:34-36 | otherwise the smallest larger size is chosen |
| Icons.LargestSizeFallback | scripts/icons.py:37 | with all sizes smaller, the largest is chosen (the list is sorted) |
| PatchScript.ListedPaths | scripts/patch.py:32-36 | exactly the files that are not dot files |
| PatchScript.LexReflexive | scripts/patch.py:39 | string order is reflexive |
| PatchScript.LexTotal | scripts/patch.py:39 | string order is total |
| PatchScript.LexAntisymmetric | scripts/patch.py:39 | string order is antisymmetric |
| PatchScript.LexTransitive | scripts/patch.py:39 | string order is transitive |
| PatchScript.Insert | scripts/patch.py:39 | inserting keeps the list sorted and adds exactly the element |
| PatchScript.SortPaths | scripts/patch.py:39 | a sorted permutation |
| PatchScript.SortedUnique | scripts/patch.py:39 | two sorted permutations are equal, so the order is deterministic |
| PatchScript.GetPatchesList | scripts/patch.py:31-41 | the listed files sorted, and a permutation of them |
| PatchScript.IsPatch | scripts/patch.py:69 | a name ending in .patch or .diff; BinaryNeverApplied states that no binary path passes it |
| PatchScript.ApplyAll | scripts/patch.py:62-105 | the apply loop, stopping at the first failure; its properties are stated by ApplyPatches and StopsAtFirstFailure |
| PatchScript.ApplyPatches | scripts/patch.py:62-105 | the loop computes the specified actions |
| PatchScript.StopsAtFirstFailure | scripts/patch.py:62-105 | applying stops at the first failure; every earlier entry succeeded in order; nothing later is tried |
| PatchScript.ParseStatusLine | scripts/patch.py:172-178 | a blank line is skipped, and the status is the first two characters |
| PatchScript.StripClean | scripts/patch.py:178 | strip keeps a path without surrounding spaces |
| PatchScript.ParseChangeLine | scripts/patch.py:176-178 | `XY path` parses to its status and path |
| PatchScript.ParseRenameLine | scripts/patch.py:180-182 | a rename line parses to the new path |
| PatchScript.RenameSplits | scripts/patch.py:181-182 | the second field of `old -> new` is new |
| PatchScript.IsBinary | scripts/patch.py:164-169 | the lower-cased path ends in one of the binary extensions; its properties are stated by BinaryIgnoresCase and LowerEnding |
| PatchScript.LowerIdempotent | scripts/patch.py:192 | lower-casing twice equals once |
| PatchScript.BinaryIgnoresCase | scripts/patch.py:192-196 | the binary test ignores ASCII case |
| PatchScript.ExtensionEndings | scripts/patch.py:164-169 | every binary extension starts with a dot and does not end in .patch or .diff |
| PatchScript.BinaryNeverApplied | scripts/patch.py:69 | a binary file is never taken for a patch |
| PatchScript.LowerEnding | scripts/patch.py:69 | a path whose lower case ends in such an extension is not a patch |
| PatchScript.ModifiedFiles | scripts/patch.py:172-197 | the files of the status lines, in order; its properties are stated by ScanStatus, BinaryFlagsAgree and Untracked |
| PatchScript.BinaryFlagsAgree | scripts/patch.py:172-197 | every scanned file's binary flag is the binary test of its path |
| PatchScript.LineFlagsAgree | scripts/patch.py:185-197 | the same holds for one line's entries |
| PatchScript.ScanStatus | scripts/patch.py:172-197 | the status loop computes the specified files |
| PatchScript.ScanLine | scripts/patch.py:173-197 | one line's entries, including a walked directory |
| PatchScript.WalkDirectory | scripts/patch.py:187-194 | the files of an untracked directory |
| PatchScript.Untracked | scripts/patch.py:220 | exactly the paths whose status holds `??` |
| PatchScript.DirectoryFilesUntracked | scripts/patch.py:193-194 | files inside an untracked directory count as untracked |
| PatchScript.Destination | scripts/patch.py:230-252 | a binary file is copied to its own path, a text file saved as `<path>.patch`; SavedKindApplied states how each is applied later |
| PatchScript.SavedKindApplied | scripts/patch.py:230-251 | a saved text diff ends in .patch and is applied later; a copied binary keeps its path and is copied back |
| UpdatePatches.PatchKeys | scripts/update_patches.py:36-53 | the keys of one entry: none for series and dot files, two for a `.patch`, its own path otherwise; its properties are stated by NeverMapped, RecordOne, RecordTwo and PatchKeysOfPatch |
| UpdatePatches.Record | scripts/update_patches.py:42-53 | the keys of an entry map to it, and every other key is kept |
| UpdatePatches.GetExistingPatches | scripts/update_patches.py:29-55 | the walk computes the specified map |
| UpdatePatches.AddEntry | scripts/update_patches.py:36-53 | one file's keys are recorded |
| UpdatePatches.RecordOne | scripts/update_patches.py:51-53 | a direct file maps its own path |
| UpdatePatches.RecordTwo | scripts/update_patches.py:42-50 | a patch maps both of its keys |
| UpdatePatches.BuildKeys | scripts/update_patches.py:33-53 | a key is mapped exactly when some file yields it |
| UpdatePatches.BuildValue | scripts/update_patches.py:33-53 | it is mapped to the last file that yields it |
| UpdatePatches.ExistingPatchesSpec | scripts/update_patches.py:29-55 | the map of the patch directory, with the last writer winning |
| UpdatePatches.NeverMapped | scripts/update_patches.py:36-37 | series and dot files are never mapped to |
| UpdatePatches.Lookup | scripts/update_patches.py:86-91 | the exact path first, then the path without its extension |
| UpdatePatches.LinePlan | scripts/update_patches.py:69-116 | the plan of one status line: skip a static or deleted file, update a mapped entry, else create a copy or a patch; its properties are stated by MappedPlan, CreatedFacts, CreatedPatchFound and CreatedCopyFound |
| UpdatePatches.Plans | scripts/update_patches.py:68-116 | one plan per status line, in order |
| UpdatePatches.StaticSuffixCaseSensitive | scripts/update_patches.py:73-75 | the static-file test is case-sensitive |
| UpdatePatches.MappedPlan | scripts/update_patches.py:93-101 | a mapped path updates its patch or its copy |
| UpdatePatches.LastIndexOfAppend | scripts/update_patches.py:95 | appending text without the character keeps its last index |
| UpdatePatches.BaseNameAppend | scripts/update_patches.py:95 | appending text without a slash extends the base name |
| UpdatePatches.CreatedPatchFound | scripts/update_patches.py:110-116 | a created patch is found and updated on the next run |
| UpdatePatches.CreatedFacts | scripts/update_patches.py:102-116 | a line that creates an entry names it after its path |
| UpdatePatches.PatchEntryKeyed | scripts/update_patches.py:42-45 | a `.patch` entry is keyed by its path |
| UpdatePatches.PatchKeysOfPatch | scripts/update_patches.py:42-45 | the first key of a `.patch` entry is its path without the `.patch` suffix |
| UpdatePatches.CreatedCopyFound | scripts/update_patches.py:104-108 | a created copy is found and updated on the next run |

## Left out

- JSON parsing and serialising are oracle functions of a `Codec`. Only `JSON.parse("{}")` is fixed, so every statement about JSON text holds for any parser. The message of the syntax error `JSON.parse` throws on a tool's argument text is an oracle of that text.
- `Date.now()` in `useChat` is an oracle. Each new entry takes two readings, one for its id and one for `createdAt` (a `Stamp`). The user message has its own stamp, and the callback at position k of the run's log reads `clock(k)`. Nothing is assumed about the clock, not even that it moves forward.
- The Google adapter derives tool-call ids from `Date.now()` and `Math.random()`. They are an oracle from the part's position to an id.
- `fetch`, `TextDecoder` and UTF-8 decoding are left out. The response is given as its status, its text and its body as a list of already decoded chunks, with an optional read failure. The reader and its lock are not modelled, so the `finally` that releases the lock on every exit of the new client has no counterpart.
- Abort signals and `AbortController` are an oracle. It answers at each point where the loop checks `signal.aborted`.
- The Chrome APIs (`chrome.tabs`, `chrome.scripting`) and the DOM are oracles: the active tab, the page, and whether an injected script returns or throws. The effects of click, type, form submit and scroll on the page are left out. Tools.Dispatch: waitForNavigation reads the tab found by the active-tab query, where the source fetches it a second time with `chrome.tabs.get(tabId)`; a tab that changes between the two calls is not modelled.
- Tools.WaitForNavigation: the 10-second timeout and `setTimeout` are left out. The waited-for status comes from the browser oracle.
- Tools.Navigate: the navigation wait and its 10000 ms timeout are left out. The reported title comes from the oracle.
- Tools.Arg: every non-string JSON value in an argument (null, a number, a boolean, an array or an object) is treated as absent. A template literal or `'https://' + url` then renders it as `undefined`, and `parseInt` falls back to the default, where JavaScript would use its string form: `{"url": null}` navigates to `https://null` in the source and to `https://undefined` in the model, and a numeric `limit` of 5 is 5 in the source and 10 in the model.
- OpenAIAdapter.LineEvents, AnthropicAdapter.LineEvents, GoogleAdapter.LineEvents, LegacyOpenAI.LineToken: a truthy non-string JSON value where the source expects a string is not carried into the event. For OpenAI `name`, `arguments` and `content`, Anthropic `text` and `partial_json`, Google `text` and the legacy client's token, the event (or token) is dropped, where the source emits it carrying the non-string value (the legacy client appends it to the full text and calls onToken). An Anthropic error message that is not a string becomes "Unknown error". A non-string id, tool name or Anthropic `type` is read as "".
- Icons.BestSourceAvailable: the result is the file name, not `icons_src / name`.
- `reasoningContent` is declared in the message type and never used, so it is not modelled.
- UseChat.Chat.SendMessage: `runAgentLoop` does not throw in this model, so the `catch` of `sendMessage` is not reached.
- The React plumbing (`useState`, `useCallback`, refs and re-renders) is collapsed into the fields of `UseChat.Chat`.
- The side panel's own chat entry type (`lib/types.ts`) differs from the fields `useChat` reads. The model uses the fields `useChat` reads.
- PatchScript.IsBinary, Tools.Summary: lower-casing folds ASCII letters only. Python's `str.lower()` and JavaScript's `toLowerCase()` also map other characters (U+212A KELVIN SIGN becomes `k`, so a path ending `.pa` followed by that sign counts as a `.pak` binary in the source but not in the model).
- Tools.ElementText, Tools.PageText, Tools.Summaries, Tools.GetElements, Client.HttpError, Client.DebugInfo, UseChat.Entries, UseChat.ToolResultsCapped: strings are sequences of code points, so the caps of 100, 5000, 200 and 500 characters, `slice(-4)` and the key's length count code points. JavaScript counts UTF-16 code units: text with characters outside the Basic Multilingual Plane is cut shorter in the source, and a cut inside a surrogate pair, which the source can make, cannot happen in the model.
- Tools.Navigate, Tools.WaitForNavigation: `chrome.tabs.update` and `chrome.tabs.get` never fail in the model, and the tab always has a url and a title. In the source they can reject (for a tab closed during the wait), which executeTool reports as `Error executing <name>: <message>`, and an undefined url or title is left out of the JSON answer.
- Integers are unbounded. `parseInt` results, sizes and indices never overflow.
- The filesystem, `git`, `os.walk`, `rglob` and `shutil` are oracles over paths: presence, success of a copy or an apply, and directory listings. Logging is left out.
- `ocbot_side_panel_manager` and the build, packaging, download and run scripts are not part of this model.
