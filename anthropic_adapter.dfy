/** The Anthropic Messages-protocol adapter (extension/lib/llm/adapters/anthropic.ts):
    the request it builds for `/v1/messages` and the events one SSE line yields,
    dispatched on the preceding `event:` line when there is one. */
module AnthropicAdapter {
  import opened Wrappers
  import opened Text
  import opened JsonValue
  import opened LlmTypes

  const DefaultBaseUrl: string := "https://api.anthropic.com"
  const MaxTokens: real := 4096.0
  const ApiVersion: string := "2023-06-01"

  // ---- buildRequest ---------------------------------------------------------

  function TextBlock(text: string): Json {
    JObj([("type", JStr("text")), ("text", JStr(text))])
  }

  /** A `tool_use` block; arguments that do not parse become the empty object. */
  function ToolUseBlock(c: Codec, tc: ToolCallPart): Json {
    JObj([("type", JStr("tool_use")),
          ("id", JStr(tc.id)),
          ("name", JStr(tc.name)),
          ("input", Parse(c, tc.arguments).GetOr(JObj([])))])
  }

  /** The content blocks of an assistant turn that made tool calls: a text
      block when there is text, then one `tool_use` block per call, in order. */
  function AssistantContent(c: Codec, text: string, calls: seq<ToolCallPart>): (r: seq<Json>)
    ensures var off := if text != [] then 1 else 0;
            |r| == off + |calls|
            && (text != [] ==> r[0] == TextBlock(text))
            && forall i :: 0 <= i < |calls| ==> r[off + i] == ToolUseBlock(c, calls[i])
  {
    if calls == [] then (if text != [] then [TextBlock(text)] else [])
    else AssistantContent(c, text, calls[..|calls| - 1]) + [ToolUseBlock(c, calls[|calls| - 1])]
  }

  /** The loop that fills an assistant turn's content array. */
  method AssistantBlocks(c: Codec, m: Message) returns (content: seq<Json>)
    requires HasToolCalls(m)
    ensures content == AssistantContent(c, ContentOr(m), m.toolCalls.value)
  {
    content := [];
    if ContentOr(m) != [] {
      content := content + [TextBlock(ContentOr(m))];
    }
    var calls := m.toolCalls.value;
    for i := 0 to |calls|
      invariant content == AssistantContent(c, ContentOr(m), calls[..i])
    {
      assert calls[..i + 1][..i] == calls[..i];
      var input := JObj([]);
      var parsed := Parse(c, calls[i].arguments);
      if parsed.Some? {
        input := parsed.value;
      }
      content := content + [JObj([("type", JStr("tool_use")),
                                  ("id", JStr(calls[i].id)),
                                  ("name", JStr(calls[i].name)),
                                  ("input", input)])];
    }
    assert calls[..|calls|] == calls;
  }

  /** A tool result goes back as a user turn holding one `tool_result` block. */
  function ToolResultBlock(m: Message): Json {
    JObj([("type", JStr("tool_result"))]
         + (match m.toolCallId case Some(id) => [("tool_use_id", JStr(id))] case None => [])
         + [("content", JStr(ContentOr(m)))])
  }

  /** One non-system message in Anthropic's shape: there is no `tool` role, so
      a tool result is sent as a user turn. */
  function ConvertMessage(c: Codec, m: Message): (r: Json)
    requires m.role != System
    ensures r.JObj? && |r.fields| == 2
    ensures r.fields[0] == ("role", JStr(if m.role == Assistant then "assistant" else "user"))
    ensures r.fields[1].0 == "content"
    ensures m.role == Tool ==> r.fields[1].1 == JArr([ToolResultBlock(m)])
    ensures m.role == Assistant && HasToolCalls(m) ==>
              r.fields[1].1 == JArr(AssistantContent(c, ContentOr(m), m.toolCalls.value))
    ensures !(m.role == Assistant && HasToolCalls(m)) && m.role != Tool ==> r.fields[1].1 == JStr(ContentOr(m))
  {
    if m.role == Assistant && HasToolCalls(m) then
      JObj([("role", JStr("assistant")), ("content", JArr(AssistantContent(c, ContentOr(m), m.toolCalls.value)))])
    else if m.role == Tool then
      JObj([("role", JStr("user")), ("content", JArr([ToolResultBlock(m)]))])
    else
      JObj([("role", JStr(RoleName(m.role))), ("content", JStr(ContentOr(m)))])
  }

  function ConvertMessages(c: Codec, ms: seq<Message>): (r: seq<Json>)
    ensures |r| == |NonSystem(ms)|
    ensures forall i :: 0 <= i < |r| ==> r[i] == ConvertMessage(c, NonSystem(ms)[i])
  {
    var ns := NonSystem(ms);
    seq(|ns|, i requires 0 <= i < |ns| => ConvertMessage(c, ns[i]))
  }

  /** One entry of `convertTools`: the name, the description and the
      parameters schema as `input_schema`. */
  function ToolJson(t: ToolDefinition): (r: Json)
    ensures Prop(Some(r), "name") == Some(JStr(t.name))
    ensures Prop(Some(r), "description") == Some(JStr(t.description))
    ensures Prop(Some(r), "input_schema") == Some(ParametersJson(t))
  {
    var fields := [("name", JStr(t.name)), ("description", JStr(t.description)), ("input_schema", ParametersJson(t))];
    GetMember(fields, 0);
    GetMember(fields, 1);
    GetMember(fields, 2);
    JObj(fields)
  }

  /** `convertTools(tools)`: one entry per tool, in order. */
  function ConvertTools(tools: seq<ToolDefinition>): (r: seq<Json>)
    ensures |r| == |tools| && forall i :: 0 <= i < |tools| ==> r[i] == ToolJson(tools[i])
  {
    seq(|tools|, i requires 0 <= i < |tools| => ToolJson(tools[i]))
  }

  /** The system prompt: the first system message's content, when it has some. */
  function SystemText(ms: seq<Message>): Option<string> {
    match FirstSystem(ms)
    case Some(s) => if ContentOr(s) != [] then Some(ContentOr(s)) else None
    case None => None
  }

  function FixedFields(c: Codec, p: Provider, ms: seq<Message>): seq<(string, Json)> {
    [("model", JStr(p.modelId)),
     ("max_tokens", JNum(MaxTokens)),
     ("stream", JBool(true)),
     ("messages", JArr(ConvertMessages(c, ms)))]
  }

  function OptionalFields(ms: seq<Message>, tools: seq<ToolDefinition>): (r: seq<(string, Json)>)
    ensures forall j :: 0 <= j < |r| ==> r[j].0 == "system" || r[j].0 == "tools"
  {
    SystemField(ms) + ToolsField(tools)
  }

  function SystemField(ms: seq<Message>): seq<(string, Json)> {
    match SystemText(ms) case Some(t) => [("system", JStr(t))] case None => []
  }

  function ToolsField(tools: seq<ToolDefinition>): seq<(string, Json)> {
    if tools != [] then [("tools", JArr(ConvertTools(tools)))] else []
  }

  function Body(c: Codec, p: Provider, ms: seq<Message>, tools: seq<ToolDefinition>): seq<(string, Json)> {
    FixedFields(c, p, ms) + OptionalFields(ms, tools)
  }

  function RequestHeaders(apiKey: string): seq<(string, string)> {
    [("Content-Type", "application/json"),
     ("x-api-key", apiKey),
     ("anthropic-version", ApiVersion),
     ("anthropic-dangerous-direct-browser-access", "true")]
  }

  /** The request for one streamed message. */
  function BuildRequest(c: Codec, p: Provider, ms: seq<Message>, tools: seq<ToolDefinition>): (r: Request)
    ensures r.url == TrimTrailing(BaseUrlOr(p, DefaultBaseUrl), '/') + "/v1/messages"
    ensures Header(r.headers, "x-api-key") == Some(p.apiKey)
    ensures Header(r.headers, "anthropic-version") == Some(ApiVersion)
    ensures Header(r.headers, "anthropic-dangerous-direct-browser-access") == Some("true")
    ensures Header(r.headers, "Authorization").None?
    ensures r.body == JObj(Body(c, p, ms, tools))
  {
    HeaderFacts(p.apiKey);
    Request(TrimTrailing(BaseUrlOr(p, DefaultBaseUrl), '/') + "/v1/messages", RequestHeaders(p.apiKey), JObj(Body(c, p, ms, tools)))
  }

  lemma HeaderFacts(apiKey: string)
    ensures Header(RequestHeaders(apiKey), "x-api-key") == Some(apiKey)
    ensures Header(RequestHeaders(apiKey), "anthropic-version") == Some(ApiVersion)
    ensures Header(RequestHeaders(apiKey), "anthropic-dangerous-direct-browser-access") == Some("true")
    ensures Header(RequestHeaders(apiKey), "Authorization").None?
  {
    var hs := RequestHeaders(apiKey);
    assert forall i :: 0 <= i < |hs| ==> |hs[i].0| != |"Authorization"|;
    HeaderMember(hs, 1);
    HeaderMember(hs, 2);
    HeaderMember(hs, 3);
  }

  /** The fixed members of the body. */
  lemma BodyFixedFields(c: Codec, p: Provider, ms: seq<Message>, tools: seq<ToolDefinition>)
    ensures var fields := Body(c, p, ms, tools);
            Get(fields, "model") == Some(JStr(p.modelId))
            && Get(fields, "max_tokens") == Some(JNum(MaxTokens))
            && Get(fields, "stream") == Some(JBool(true))
            && Get(fields, "messages") == Some(JArr(ConvertMessages(c, ms)))
  {
    var fixed := FixedFields(c, p, ms);
    var opt := OptionalFields(ms, tools);
    GetAppendOther(fixed, opt, "model");
    GetAppendOther(fixed, opt, "max_tokens");
    GetAppendOther(fixed, opt, "stream");
    GetAppendOther(fixed, opt, "messages");
    GetMember(fixed, 0);
    GetMember(fixed, 1);
    GetMember(fixed, 2);
  }

  /** `system` is present exactly when there is a system text, and `tools`
      exactly when there are tools. */
  lemma BodyOptionalFields(c: Codec, p: Provider, ms: seq<Message>, tools: seq<ToolDefinition>)
    ensures var fields := Body(c, p, ms, tools);
            Get(fields, "system") == (match SystemText(ms) case Some(t) => Some(JStr(t)) case None => None)
            && (Get(fields, "tools").Some? <==> tools != [])
  {
    var fixed := FixedFields(c, p, ms);
    var sys := SystemField(ms);
    var tl := ToolsField(tools);
    assert Body(c, p, ms, tools) == (fixed + sys) + tl;
    assert fixed[0].0 == "model" && fixed[1].0 == "max_tokens" && fixed[2].0 == "stream" && fixed[3].0 == "messages";
    assert forall j :: 0 <= j < |tl| ==> tl[j].0 == "tools";
    assert forall j :: 0 <= j < |sys| ==> sys[j].0 == "system";
    SystemMember(fixed, sys, tl, ms);
    ToolsMember(fixed + sys, tl, tools);
  }

  lemma SystemMember(fixed: seq<(string, Json)>, sys: seq<(string, Json)>, tl: seq<(string, Json)>, ms: seq<Message>)
    requires |fixed| == 4 && forall j :: 0 <= j < 4 ==> fixed[j].0 != "system"
    requires sys == SystemField(ms)
    requires forall j :: 0 <= j < |tl| ==> tl[j].0 != "system"
    ensures Get((fixed + sys) + tl, "system") == (match SystemText(ms) case Some(t) => Some(JStr(t)) case None => None)
  {
    GetAppendOther(fixed + sys, tl, "system");
    if SystemText(ms).Some? {
      GetMember(fixed + sys, 4);
    } else {
      assert fixed + sys == fixed;
      GetAbsent(fixed, "system");
    }
  }

  lemma ToolsMember(head: seq<(string, Json)>, tl: seq<(string, Json)>, tools: seq<ToolDefinition>)
    requires tl == ToolsField(tools)
    requires forall j :: 0 <= j < |head| ==> head[j].0 != "tools"
    ensures Get(head + tl, "tools").Some? <==> tools != []
    ensures tools != [] ==> Get(head + tl, "tools") == Some(JArr(ConvertTools(tools)))
  {
    if tools != [] {
      GetMember(head + tl, |head|);
    } else {
      assert head + tl == head;
      GetAbsent(head, "tools");
    }
  }

  /** Each tool sent reads back, in order, with that tool's name, description
      and parameters schema under `input_schema`; no tools, no member. */
  lemma SentTools(c: Codec, p: Provider, ms: seq<Message>, tools: seq<ToolDefinition>)
    ensures var sent := Prop(Some(BuildRequest(c, p, ms, tools).body), "tools");
            (tools == [] ==> sent.None?)
            && (tools != [] ==>
                  sent.Some? && sent.value.JArr? && |sent.value.items| == |tools|
                  && forall i :: 0 <= i < |tools| ==>
                       var e := Some(sent.value.items[i]);
                       Prop(e, "name") == Some(JStr(tools[i].name))
                       && Prop(e, "description") == Some(JStr(tools[i].description))
                       && Prop(e, "input_schema") == Some(ParametersJson(tools[i])))
  {
    BodyTools(c, p, ms, tools);
    var items := ConvertTools(tools);
    forall i | 0 <= i < |tools|
      ensures var e := Some(items[i]);
              Prop(e, "name") == Some(JStr(tools[i].name))
              && Prop(e, "description") == Some(JStr(tools[i].description))
              && Prop(e, "input_schema") == Some(ParametersJson(tools[i]))
    {
      assert items[i] == ToolJson(tools[i]);
    }
  }

  /** The `tools` member of the body is `convertTools(tools)`, present iff there are tools. */
  lemma BodyTools(c: Codec, p: Provider, ms: seq<Message>, tools: seq<ToolDefinition>)
    ensures Get(Body(c, p, ms, tools), "tools") == if tools != [] then Some(JArr(ConvertTools(tools))) else None
  {
    var fixed := FixedFields(c, p, ms);
    var sys := SystemField(ms);
    var tl := ToolsField(tools);
    assert Body(c, p, ms, tools) == (fixed + sys) + tl;
    assert fixed[0].0 == "model" && fixed[1].0 == "max_tokens" && fixed[2].0 == "stream" && fixed[3].0 == "messages";
    assert forall j :: 0 <= j < |sys| ==> sys[j].0 == "system";
    ToolsMember(fixed + sys, tl, tools);
  }

  /** Every message sent is a user or an assistant turn, one per non-system
      message, in order; tool results travel as user turns. */
  lemma MessagesRoles(c: Codec, ms: seq<Message>)
    ensures var msgs := ConvertMessages(c, ms);
            |msgs| == |NonSystem(ms)|
            && forall i :: 0 <= i < |msgs| ==>
                 Prop(Some(msgs[i]), "role") == Some(JStr(if NonSystem(ms)[i].role == Assistant then "assistant" else "user"))
  {
    var msgs := ConvertMessages(c, ms);
    forall i | 0 <= i < |msgs|
      ensures Prop(Some(msgs[i]), "role") == Some(JStr(if NonSystem(ms)[i].role == Assistant then "assistant" else "user"))
    {
      GetMember(msgs[i].fields, 0);
    }
  }

  // ---- parseSSELine ---------------------------------------------------------

  /** The event kind switched on: the SSE `event:` name when one is set,
      otherwise the payload's own `type`. */
  function Kind(hint: Option<string>, json: Json): (r: string)
    ensures hint.Some? && hint.value != [] ==> r == hint.value
    ensures hint.None? || hint.value == [] ==> r == StrOf(Prop(Some(json), "type"))
  {
    if hint.Some? && hint.value != [] then hint.value else StrOf(Prop(Some(json), "type"))
  }

  /** The events of a parsed payload of the given kind. */
  function PayloadEvents(kind: string, json: Json): seq<Event> {
    if kind == "content_block_start" then
      var block := Prop(Some(json), "content_block");
      if Prop(block, "type") == Some(JStr("tool_use"))
      then [ToolCallStart(StrOf(Prop(block, "id")), StrOf(Prop(block, "name")))]
      else []
    else if kind == "content_block_delta" then
      var delta := Prop(Some(json), "delta");
      if Prop(delta, "type") == Some(JStr("text_delta")) && IsText(Prop(delta, "text"))
      then [TextDelta(StrOf(Prop(delta, "text")))]
      else if Prop(delta, "type") == Some(JStr("input_json_delta")) && IsText(Prop(delta, "partial_json"))
      then [ToolCallDelta("", StrOf(Prop(delta, "partial_json")))]
      else []
    else if kind == "message_stop" then [Done]
    else if kind == "error" then
      // `json.error` throws when the payload is `null`
      if json == JNull then []
      else
        var msg := Prop(Prop(Some(json), "error"), "message");
        [Error(if IsText(msg) then StrOf(msg) else "Unknown error")]
    else []
  }

  /** What `parseSSELine` returns for `line` after `event: hint`; a thrown
      exception becomes []. */
  function LineEvents(c: Codec, line: string, hint: Option<string>): seq<Event> {
    if !StartsWith(line, "data: ") then []
    else
      match Parse(c, JsTrim(line[6..]))
      case None => []
      case Some(json) => PayloadEvents(Kind(hint, json), json)
  }

  /** A payload yields at most one event; `done` exactly for `message_stop`;
      an error only for `error`, always with a message; a text delta only for
      `content_block_delta`; argument deltas carry no id. */
  lemma PayloadEventsShape(kind: string, json: Json)
    ensures var es := PayloadEvents(kind, json);
            |es| <= 1
            && (es == [Done] <==> kind == "message_stop")
            && (es != [] && es[0].Error? ==> kind == "error" && es[0].error != [])
            && (es != [] && (es[0].TextDelta? || es[0].ToolCallDelta?) ==> kind == "content_block_delta")
            && (es != [] && es[0].ToolCallDelta? ==> es[0].id == [])
            && (es != [] && es[0].ToolCallStart? ==> kind == "content_block_start")
            && forall i :: 0 <= i < |es| ==> AdapterEvent(es[i])
  {
  }

  /** A line yields at most one event, and `done` comes exactly from a parsed
      `message_stop`. */
  lemma LineEventsShape(c: Codec, line: string, hint: Option<string>)
    ensures var es := LineEvents(c, line, hint);
            |es| <= 1
            && (es == [Done] <==> StartsWith(line, "data: ") && Parse(c, JsTrim(line[6..])).Some?
                                  && Kind(hint, Parse(c, JsTrim(line[6..])).value) == "message_stop")
            && forall i :: 0 <= i < |es| ==> AdapterEvent(es[i])
  {
    if StartsWith(line, "data: ") && Parse(c, JsTrim(line[6..])).Some? {
      var json := Parse(c, JsTrim(line[6..])).value;
      PayloadEventsShape(Kind(hint, json), json);
    }
  }

  /** An `event:` name that agrees with the payload's `type` changes nothing. */
  lemma HintAgreesWithType(c: Codec, line: string, h: string)
    requires h != []
    requires StartsWith(line, "data: ") && Parse(c, JsTrim(line[6..])).Some?
    requires Prop(Parse(c, JsTrim(line[6..])), "type") == Some(JStr(h))
    ensures LineEvents(c, line, Some(h)) == LineEvents(c, line, None)
  {
    var json := Parse(c, JsTrim(line[6..])).value;
    assert Kind(Some(h), json) == h == Kind(None, json);
    assert LineEvents(c, line, Some(h)) == PayloadEvents(h, json);
    assert LineEvents(c, line, None) == PayloadEvents(h, json);
  }

  /** After `event: message_stop` any parsable payload ends the stream, even `null`. */
  lemma MessageStopEndsStream(c: Codec, line: string)
    requires StartsWith(line, "data: ") && Parse(c, JsTrim(line[6..])).Some?
    ensures LineEvents(c, line, Some("message_stop")) == [Done]
  {
    var json := Parse(c, JsTrim(line[6..])).value;
    assert Kind(Some("message_stop"), json) == "message_stop";
    assert LineEvents(c, line, Some("message_stop")) == PayloadEvents("message_stop", json);
    StopPayload(json);
  }

  lemma StopPayload(json: Json)
    ensures PayloadEvents("message_stop", json) == [Done]
  {
    assert "message_stop" != "content_block_start" && "message_stop" != "content_block_delta";
  }

  /** An unparsable payload yields nothing, whatever the `event:` name. */
  lemma UnparsableIgnored(c: Codec, line: string, hint: Option<string>)
    requires StartsWith(line, "data: ") && Parse(c, JsTrim(line[6..])).None?
    ensures LineEvents(c, line, hint) == []
  {
  }
}
