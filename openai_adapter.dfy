/** The OpenAI-protocol adapter (extension/lib/llm/adapters/openai.ts), used by
    every provider type outside the Anthropic and Google families: the request
    it builds for `/chat/completions` and the events one SSE line yields. */
module OpenAIAdapter {
  import opened Wrappers
  import opened Text
  import opened JsonValue
  import opened LlmTypes

  const DefaultBaseUrl: string := "https://api.openai.com/v1"

  // ---- buildRequest ---------------------------------------------------------

  function ToolCallJson(tc: ToolCallPart): Json {
    JObj([("id", JStr(tc.id)),
          ("type", JStr("function")),
          ("function", JObj([("name", JStr(tc.name)), ("arguments", JStr(tc.arguments))]))])
  }

  /** An assistant turn that made tool calls: `content` null when empty. */
  function AssistantCallsJson(m: Message): (r: Json)
    requires HasToolCalls(m)
    ensures r.JObj? && Prop(Some(r), "role") == Some(JStr("assistant"))
    ensures Prop(Some(r), "content") == Some(if ContentOr(m) == [] then JNull else JStr(ContentOr(m)))
    ensures var tcs := Prop(Some(r), "tool_calls");
            tcs.Some? && tcs.value.JArr? && |tcs.value.items| == |m.toolCalls.value|
            && forall i :: 0 <= i < |m.toolCalls.value| ==> tcs.value.items[i] == ToolCallJson(m.toolCalls.value[i])
  {
    var calls := m.toolCalls.value;
    var f := [("role", JStr("assistant")),
              ("content", if ContentOr(m) == [] then JNull else JStr(ContentOr(m))),
              ("tool_calls", JArr(seq(|calls|, i requires 0 <= i < |calls| => ToolCallJson(calls[i]))))];
    GetMember(f, 0);
    GetMember(f, 1);
    GetMember(f, 2);
    JObj(f)
  }

  /** A tool result: `tool_call_id` is left out when the message has none. */
  function ToolResultJson(m: Message): (r: Json)
    ensures r.JObj? && Prop(Some(r), "role") == Some(JStr("tool"))
    ensures Prop(Some(r), "content") == Some(JStr(ContentOr(m)))
    ensures Prop(Some(r), "tool_call_id") == if m.toolCallId.Some? then Some(JStr(m.toolCallId.value)) else None
  {
    match m.toolCallId
    case Some(id) =>
      var f := [("role", JStr("tool")), ("tool_call_id", JStr(id)), ("content", JStr(ContentOr(m)))];
      GetMember(f, 0);
      GetMember(f, 1);
      JObj(f)
    case None =>
      var f := [("role", JStr("tool")), ("content", JStr(ContentOr(m)))];
      GetMember(f, 0);
      GetAbsent(f, "tool_call_id");
      JObj(f)
  }

  /** Any other message: its role and `content || ''`. */
  function PlainJson(m: Message): (r: Json)
    ensures r.JObj? && Prop(Some(r), "role") == Some(JStr(RoleName(m.role)))
    ensures Prop(Some(r), "content") == Some(JStr(ContentOr(m)))
    ensures Prop(Some(r), "tool_calls").None?
  {
    var f := [("role", JStr(RoleName(m.role))), ("content", JStr(ContentOr(m)))];
    GetMember(f, 0);
    GetAbsent(f, "tool_calls");
    JObj(f)
  }

  /** One non-system message in OpenAI's shape: the role is always kept. */
  function ConvertMessage(m: Message): (r: Json)
    ensures r.JObj? && Prop(Some(r), "role") == Some(JStr(RoleName(m.role)))
  {
    if m.role == Assistant && HasToolCalls(m) then AssistantCallsJson(m)
    else if m.role == Tool then ToolResultJson(m)
    else PlainJson(m)
  }

  /** The system entry: the first system message, its content kept as is. */
  function SystemEntry(ms: seq<Message>): (r: seq<Json>)
    ensures |r| == if FirstSystem(ms).Some? then 1 else 0
    ensures |r| == 1 ==> Prop(Some(r[0]), "role") == Some(JStr("system"))
  {
    match FirstSystem(ms)
    case None => []
    case Some(s) =>
      var f := [("role", JStr("system"))] + (match s.content case Some(c) => [("content", JStr(c))] case None => []);
      GetMember(f, 0);
      [JObj(f)]
  }

  /** One entry of `convertTools`: a function-typed tool whose `function`
      carries the name, the description and the parameters schema. */
  function ToolJson(t: ToolDefinition): (r: Json)
    ensures Prop(Some(r), "type") == Some(JStr("function"))
    ensures var f := Prop(Some(r), "function");
            Prop(f, "name") == Some(JStr(t.name))
            && Prop(f, "description") == Some(JStr(t.description))
            && Prop(f, "parameters") == Some(ParametersJson(t))
  {
    var fn := [("name", JStr(t.name)), ("description", JStr(t.description)), ("parameters", ParametersJson(t))];
    var outer := [("type", JStr("function")), ("function", JObj(fn))];
    GetMember(fn, 0);
    GetMember(fn, 1);
    GetMember(fn, 2);
    GetMember(outer, 0);
    GetMember(outer, 1);
    JObj(outer)
  }

  /** `convertTools(tools)`: one entry per tool, in order. */
  function ConvertTools(tools: seq<ToolDefinition>): (r: seq<Json>)
    ensures |r| == |tools| && forall i :: 0 <= i < |tools| ==> r[i] == ToolJson(tools[i])
  {
    seq(|tools|, i requires 0 <= i < |tools| => ToolJson(tools[i]))
  }

  /** `nonSystemMessages.map(convertMessage)`. */
  function ConvertAll(ns: seq<Message>): (r: seq<Json>)
    ensures |r| == |ns| && forall i :: 0 <= i < |ns| ==> r[i] == ConvertMessage(ns[i])
  {
    seq(|ns|, i requires 0 <= i < |ns| => ConvertMessage(ns[i]))
  }

  /** The `messages` array: the system entry, then the other messages. */
  function MessageItems(ms: seq<Message>): seq<Json> {
    SystemEntry(ms) + ConvertAll(NonSystem(ms))
  }

  function Body(p: Provider, ms: seq<Message>, tools: seq<ToolDefinition>): seq<(string, Json)> {
    [("model", JStr(p.modelId)),
     ("messages", JArr(MessageItems(ms))),
     ("stream", JBool(true))]
    + (if tools != [] then [("tools", JArr(ConvertTools(tools)))] else [])
  }

  function RequestHeaders(apiKey: string): seq<(string, string)> {
    [("Content-Type", "application/json")]
    + (if apiKey != [] then [("Authorization", "Bearer " + apiKey)] else [])
  }

  /** Each member of the body is found by name. */
  lemma BodyFields(p: Provider, ms: seq<Message>, tools: seq<ToolDefinition>)
    ensures var fields := Body(p, ms, tools);
            Get(fields, "model") == Some(fields[0].1)
            && Get(fields, "messages") == Some(fields[1].1)
            && Get(fields, "stream") == Some(fields[2].1)
            && (Get(fields, "tools").Some? <==> tools != [])
            && (tools != [] ==> Get(fields, "tools") == Some(fields[3].1))
  {
    var fields := Body(p, ms, tools);
    GetMember(fields, 0);
    GetMember(fields, 1);
    GetMember(fields, 2);
    if tools != [] {
      GetMember(fields, 3);
    } else {
      GetAbsent(fields, "tools");
    }
  }

  /** The request for one streamed completion. `tools` None and [] both send no tools. */
  function BuildRequest(p: Provider, ms: seq<Message>, tools: seq<ToolDefinition>): (r: Request)
    ensures r.url == TrimTrailing(BaseUrlOr(p, DefaultBaseUrl), '/') + "/chat/completions"
    ensures Header(r.headers, "Content-Type") == Some("application/json")
    ensures Header(r.headers, "Authorization") == if p.apiKey != [] then Some("Bearer " + p.apiKey) else None
    ensures r.body == JObj(Body(p, ms, tools))
  {
    HeaderFacts(p.apiKey);
    Request(TrimTrailing(BaseUrlOr(p, DefaultBaseUrl), '/') + "/chat/completions",
            RequestHeaders(p.apiKey), JObj(Body(p, ms, tools)))
  }

  /** The body names the model, asks for a stream, carries the first system
      message then every other message converted in order, and carries tools
      exactly when some are given. */
  lemma BuildRequestBody(p: Provider, ms: seq<Message>, tools: seq<ToolDefinition>)
    ensures var body := Some(BuildRequest(p, ms, tools).body);
            Prop(body, "model") == Some(JStr(p.modelId))
            && Prop(body, "stream") == Some(JBool(true))
            && (Prop(body, "tools").Some? <==> tools != [])
            && (tools != [] ==> Prop(body, "tools").value.JArr? && |Prop(body, "tools").value.items| == |tools|)
    ensures var msgs := Prop(Some(BuildRequest(p, ms, tools).body), "messages");
            msgs.Some? && msgs.value.JArr?
            && var off := |SystemEntry(ms)|;
               off == (if FirstSystem(ms).Some? then 1 else 0)
               && |msgs.value.items| == off + |NonSystem(ms)|
               && (off == 1 ==> Prop(Some(msgs.value.items[0]), "role") == Some(JStr("system")))
               && forall i :: 0 <= i < |NonSystem(ms)| ==> msgs.value.items[off + i] == ConvertMessage(NonSystem(ms)[i])
  {
    BodyFields(p, ms, tools);
    MessagesFacts(ms);
    assert Prop(Some(BuildRequest(p, ms, tools).body), "messages") == Some(JArr(MessageItems(ms)));
  }

  /** Each tool sent reads back, in order, as a function tool with that
      tool's name, description and parameters schema; no tools, no member. */
  lemma SentTools(p: Provider, ms: seq<Message>, tools: seq<ToolDefinition>)
    ensures var sent := Prop(Some(BuildRequest(p, ms, tools).body), "tools");
            (tools == [] ==> sent.None?)
            && (tools != [] ==>
                  sent.Some? && sent.value.JArr? && |sent.value.items| == |tools|
                  && forall i :: 0 <= i < |tools| ==>
                       var e := Some(sent.value.items[i]);
                       Prop(e, "type") == Some(JStr("function"))
                       && Prop(Prop(e, "function"), "name") == Some(JStr(tools[i].name))
                       && Prop(Prop(e, "function"), "description") == Some(JStr(tools[i].description))
                       && Prop(Prop(e, "function"), "parameters") == Some(ParametersJson(tools[i])))
  {
    BodyFields(p, ms, tools);
    if tools != [] {
      var items := ConvertTools(tools);
      assert Prop(Some(BuildRequest(p, ms, tools).body), "tools") == Some(JArr(items));
      forall i | 0 <= i < |tools|
        ensures var e := Some(items[i]);
                Prop(e, "type") == Some(JStr("function"))
                && Prop(Prop(e, "function"), "name") == Some(JStr(tools[i].name))
                && Prop(Prop(e, "function"), "description") == Some(JStr(tools[i].description))
                && Prop(Prop(e, "function"), "parameters") == Some(ParametersJson(tools[i]))
      {
        assert items[i] == ToolJson(tools[i]);
      }
    }
  }

  lemma HeaderFacts(apiKey: string)
    ensures Header(RequestHeaders(apiKey), "Content-Type") == Some("application/json")
    ensures Header(RequestHeaders(apiKey), "Authorization") == if apiKey != [] then Some("Bearer " + apiKey) else None
  {
    var hs := RequestHeaders(apiKey);
    if apiKey != [] {
      assert hs[1..] == [("Authorization", "Bearer " + apiKey)];
    }
  }

  lemma MessagesFacts(ms: seq<Message>)
    ensures var items := MessageItems(ms);
            var off := |SystemEntry(ms)|;
            off == (if FirstSystem(ms).Some? then 1 else 0)
            && |items| == off + |NonSystem(ms)|
            && (off == 1 ==> Prop(Some(items[0]), "role") == Some(JStr("system")))
            && forall i :: 0 <= i < |NonSystem(ms)| ==> items[off + i] == ConvertMessage(NonSystem(ms)[i])
  {
    ItemsFacts(SystemEntry(ms), NonSystem(ms));
  }

  lemma ItemsFacts(head: seq<Json>, ns: seq<Message>)
    ensures var items := head + ConvertAll(ns);
            |items| == |head| + |ns|
            && (head != [] ==> items[0] == head[0])
            && forall i :: 0 <= i < |ns| ==> items[|head| + i] == ConvertMessage(ns[i])
  {
    var conv := ConvertAll(ns);
    var items := head + conv;
    forall i | 0 <= i < |ns| ensures items[|head| + i] == ConvertMessage(ns[i]) {
      assert items[|head| + i] == conv[i];
    }
  }

  // ---- parseSSELine ---------------------------------------------------------

  /** The events of one `tool_calls` entry: a start when `function.name` is
      set, then a delta when `function.arguments` is set; a missing id is "". */
  function ToolCallEntry(tc: Json): seq<Event> {
    var f := Prop(Some(tc), "function");
    var id := StrOf(Prop(Some(tc), "id"));
    (if IsText(Prop(f, "name")) then [ToolCallStart(id, StrOf(Prop(f, "name")))] else [])
    + (if IsText(Prop(f, "arguments")) then [ToolCallDelta(id, StrOf(Prop(f, "arguments")))] else [])
  }

  /** The events of walking `tool_calls` in order; None when an entry is
      `null`, where reading `tc.function` throws. */
  function ToolCallEvents(tcs: seq<Json>): Option<seq<Event>> {
    if tcs == [] then Some([])
    else
      match ToolCallEvents(tcs[..|tcs| - 1])
      case None => None
      case Some(es) => if tcs[|tcs| - 1] == JNull then None else Some(es + ToolCallEntry(tcs[|tcs| - 1]))
  }

  /** The events of a truthy `delta`; None when reading it throws. */
  function DeltaEvents(delta: Option<Json>): Option<seq<Event>> {
    var calls := Prop(delta, "tool_calls");
    var tools :=
      if !Truthy(calls) then Some([])
      else match Iter(calls.value) case None => None case Some(tcs) => ToolCallEvents(tcs);
    match tools
    case None => None
    case Some(es) =>
      Some(es + if IsText(Prop(delta, "content")) then [TextDelta(StrOf(Prop(delta, "content")))] else [])
  }

  /** What `parseSSELine` returns for `line`; a thrown exception becomes []. */
  function LineEvents(c: Codec, line: string): seq<Event> {
    if !StartsWith(line, "data: ") then []
    else
      var data := JsTrim(line[6..]);
      if data == "[DONE]" then [Done]
      else
        match Parse(c, data)
        case None => []
        case Some(json) => PayloadEvents(json)
  }

  /** The events of a parsed chunk: those of `choices[0].delta` when truthy. */
  function PayloadEvents(json: Json): seq<Event> {
    var delta := Prop(Index0(Prop(Some(json), "choices")), "delta");
    if !Truthy(delta) then [] else DeltaEvents(delta).GetOr([])
  }

  /** The `for (const tc of delta.tool_calls)` loop; None when it throws. */
  method WalkToolCalls(items: seq<Json>) returns (r: Option<seq<Event>>)
    ensures r == ToolCallEvents(items)
  {
    var events := [];
    var i := 0;
    while i < |items|
      invariant 0 <= i <= |items|
      invariant ToolCallEvents(items[..i]) == Some(events)
    {
      assert items[..i + 1][..i] == items[..i];
      var tc := items[i];
      if tc == JNull {
        NullEntryThrows(items, i);
        return None;
      }
      ghost var before := events;
      var f := Prop(Some(tc), "function");
      var id := StrOf(Prop(Some(tc), "id"));
      if IsText(Prop(f, "name")) {
        events := events + [ToolCallStart(id, StrOf(Prop(f, "name")))];
      }
      if IsText(Prop(f, "arguments")) {
        events := events + [ToolCallDelta(id, StrOf(Prop(f, "arguments")))];
      }
      assert events == before + ToolCallEntry(tc);
      i := i + 1;
    }
    assert items[..i] == items;
    return Some(events);
  }

  /** `parseSSELine`, with its loop over `delta.tool_calls`. */
  method ParseSSELine(c: Codec, line: string) returns (events: seq<Event>)
    ensures events == LineEvents(c, line)
  {
    if !StartsWith(line, "data: ") {
      return [];
    }
    var data := JsTrim(line[6..]);
    if data == "[DONE]" {
      return [Done];
    }
    var parsed := Parse(c, data);
    if parsed.None? {
      return [];
    }
    assert LineEvents(c, line) == PayloadEvents(parsed.value);
    var delta := Prop(Index0(Prop(parsed, "choices")), "delta");
    if !Truthy(delta) {
      return [];
    }
    events := [];
    var calls := Prop(delta, "tool_calls");
    if Truthy(calls) {
      var tcs := Iter(calls.value);
      if tcs.None? {
        return [];
      }
      var walked := WalkToolCalls(tcs.value);
      if walked.None? {
        return [];
      }
      events := walked.value;
    }
    if IsText(Prop(delta, "content")) {
      events := events + [TextDelta(StrOf(Prop(delta, "content")))];
    }
  }

  // ---- Properties of a line's events ------------------------------------------

  /** Tool-call walking yields only starts and deltas, at most two per entry. */
  lemma {:induction false} ToolCallEventsShape(tcs: seq<Json>)
    ensures ToolCallEvents(tcs).Some? ==>
              var es := ToolCallEvents(tcs).value;
              |es| <= 2 * |tcs| && forall i :: 0 <= i < |es| ==> es[i].ToolCallStart? || es[i].ToolCallDelta?
  {
    if tcs != [] {
      ToolCallEventsShape(tcs[..|tcs| - 1]);
    }
  }

  lemma SingleToolCall(tc: Json)
    requires tc != JNull
    ensures ToolCallEvents([tc]) == Some(ToolCallEntry(tc))
  {
    assert [tc][..0] == [];
    assert ToolCallEvents([]) == Some([]);
    assert [] + ToolCallEntry(tc) == ToolCallEntry(tc);
  }

  /** A `null` entry anywhere in `tool_calls` discards the whole walk. */
  lemma {:induction false} NullEntryThrows(tcs: seq<Json>, k: nat)
    requires k < |tcs| && tcs[k] == JNull
    ensures ToolCallEvents(tcs).None?
  {
    if k < |tcs| - 1 {
      NullEntryThrows(tcs[..|tcs| - 1], k);
    }
  }

  /** A delta yields no `done`, no error and no reasoning event, and its text
      delta, when present, comes last. */
  lemma DeltaEventsShape(delta: Option<Json>)
    ensures DeltaEvents(delta).Some? ==>
              var es := DeltaEvents(delta).value;
              (forall i :: 0 <= i < |es| ==> es[i].TextDelta? || es[i].ToolCallStart? || es[i].ToolCallDelta?)
              && (forall i :: 0 <= i < |es| - 1 ==> !es[i].TextDelta?)
  {
    var calls := Prop(delta, "tool_calls");
    if Truthy(calls) && Iter(calls.value).Some? {
      ToolCallEventsShape(Iter(calls.value).value);
    }
  }

  /** `[DONE]` is the only source of `done`, and it stands alone; a line yields
      no error or reasoning event; a text delta, when present, comes last. */
  lemma LineEventsShape(c: Codec, line: string)
    ensures var es := LineEvents(c, line);
            (Done in es <==> StartsWith(line, "data: ") && JsTrim(line[6..]) == "[DONE]")
            && (Done in es ==> es == [Done])
            && (forall i :: 0 <= i < |es| ==> AdapterEvent(es[i]) && !es[i].Error?)
            && (forall i :: 0 <= i < |es| - 1 ==> !es[i].TextDelta? && !es[i].Done?)
  {
    var es := LineEvents(c, line);
    if !StartsWith(line, "data: ") {
      assert es == [];
    } else if JsTrim(line[6..]) == "[DONE]" {
      assert es == [Done];
    } else {
      var parsed := Parse(c, JsTrim(line[6..]));
      if parsed.None? {
        assert es == [];
      } else {
        assert es == PayloadEvents(parsed.value);
        PayloadEventsShape(parsed.value);
        assert Done !in es by {
          forall i | 0 <= i < |es| ensures es[i] != Done { }
        }
      }
    }
  }

  /** A parsed chunk yields no `done`, no error and no reasoning event, and
      its text delta, when present, comes last. */
  lemma PayloadEventsShape(json: Json)
    ensures var es := PayloadEvents(json);
            (forall i :: 0 <= i < |es| ==> es[i].TextDelta? || es[i].ToolCallStart? || es[i].ToolCallDelta?)
            && (forall i :: 0 <= i < |es| - 1 ==> !es[i].TextDelta?)
  {
    DeltaEventsShape(Prop(Index0(Prop(Some(json), "choices")), "delta"));
  }

  /** Lines that are not `data: ` lines are ignored. */
  lemma NonDataIgnored(c: Codec, line: string)
    requires !StartsWith(line, "data: ")
    ensures LineEvents(c, line) == []
  {
  }

  /** A delta with a `null` tool-call entry yields nothing, not even its text. */
  lemma {:induction false} NullToolCallDiscardsLine(c: Codec, line: string, tcs: seq<Json>, k: nat)
    requires StartsWith(line, "data: ") && JsTrim(line[6..]) != "[DONE]"
    requires var p := Parse(c, JsTrim(line[6..]));
             p.Some? && Prop(Prop(Index0(Prop(p, "choices")), "delta"), "tool_calls") == Some(JArr(tcs))
    requires k < |tcs| && tcs[k] == JNull
    ensures LineEvents(c, line) == []
  {
    var p := Parse(c, JsTrim(line[6..]));
    assert LineEvents(c, line) == PayloadEvents(p.value);
    NullToolCallDiscardsPayload(p.value, tcs, k);
  }

  lemma NullToolCallDiscardsPayload(json: Json, tcs: seq<Json>, k: nat)
    requires Prop(Prop(Index0(Prop(Some(json), "choices")), "delta"), "tool_calls") == Some(JArr(tcs))
    requires k < |tcs| && tcs[k] == JNull
    ensures PayloadEvents(json) == []
  {
    var delta := Prop(Index0(Prop(Some(json), "choices")), "delta");
    NullEntryThrows(tcs, k);
    assert Iter(JArr(tcs)) == Some(tcs);
    assert DeltaEvents(delta) == None;
    if Truthy(delta) {
      assert PayloadEvents(json) == DeltaEvents(delta).GetOr([]);
    }
  }

  /** The `delta` of a chunk carrying one complete tool call and some text. */
  function OneCallDelta(id: string, name: string, args: string, text: string): Json {
    JObj([("tool_calls", JArr([JObj([("id", JStr(id)),
                                     ("function", JObj([("name", JStr(name)), ("arguments", JStr(args))]))])])),
          ("content", JStr(text))])
  }

  lemma OneCallDeltaEvents(id: string, name: string, args: string, text: string)
    requires id != [] && name != [] && args != [] && text != []
    ensures DeltaEvents(Some(OneCallDelta(id, name, args, text)))
            == Some([ToolCallStart(id, name), ToolCallDelta(id, args), TextDelta(text)])
  {
    var fn := [("name", JStr(name)), ("arguments", JStr(args))];
    GetMember(fn, 0);
    var tcf := [("id", JStr(id)), ("function", JObj(fn))];
    GetMember(tcf, 0);
    var tc := JObj(tcf);
    assert ToolCallEntry(tc) == [ToolCallStart(id, name), ToolCallDelta(id, args)];
    SingleToolCall(tc);
    var df := [("tool_calls", JArr([tc])), ("content", JStr(text))];
    GetMember(df, 0);
    assert JObj(df) == OneCallDelta(id, name, args, text);
    assert Prop(Some(JObj(df)), "tool_calls") == Some(JArr([tc]));
    assert Prop(Some(JObj(df)), "content") == Some(JStr(text));
    assert Iter(JArr([tc])) == Some([tc]);
    assert [ToolCallStart(id, name), ToolCallDelta(id, args)] + [TextDelta(text)]
           == [ToolCallStart(id, name), ToolCallDelta(id, args), TextDelta(text)];
  }

  /** A chunk carrying one complete tool call and some text yields the start,
      the arguments and the text, in that order. */
  lemma OneToolCallChunk(c: Codec, line: string, id: string, name: string, args: string, text: string)
    requires StartsWith(line, "data: ") && JsTrim(line[6..]) != "[DONE]"
    requires id != [] && name != [] && args != [] && text != []
    requires Parse(c, JsTrim(line[6..]))
             == Some(JObj([("choices", JArr([JObj([("delta", OneCallDelta(id, name, args, text))])]))]))
    ensures LineEvents(c, line) == [ToolCallStart(id, name), ToolCallDelta(id, args), TextDelta(text)]
  {
    OneCallDeltaEvents(id, name, args, text);
  }
}
