/** The Google Gemini-protocol adapter (extension/lib/llm/adapters/google.ts):
    the request it builds for `streamGenerateContent` and the events one SSE
    line yields. Gemini has no tool-call ids, so the adapter invents one per
    function call from the clock and a random number; here they are supplied
    by `ids`, indexed by the part's position in the line. */
module GoogleAdapter {
  import opened Wrappers
  import opened Text
  import opened JsonValue
  import opened LlmTypes

  const DefaultBaseUrl: string := "https://generativelanguage.googleapis.com/v1beta"

  // ---- convertMessages --------------------------------------------------------

  function TextPart(text: string): Json {
    JObj([("text", JStr(text))])
  }

  /** A `functionCall` part; arguments that do not parse become the empty object. */
  function FunctionCallPart(c: Codec, tc: ToolCallPart): Json {
    JObj([("functionCall", JObj([("name", JStr(tc.name)), ("args", Parse(c, tc.arguments).GetOr(JObj([])))]))])
  }

  /** The parts of an assistant turn that made tool calls: a text part when
      there is text, then one `functionCall` part per call, in order. */
  function ModelParts(c: Codec, text: string, calls: seq<ToolCallPart>): (r: seq<Json>)
    ensures var off := if text != [] then 1 else 0;
            |r| == off + |calls|
            && (text != [] ==> r[0] == TextPart(text))
            && forall i :: 0 <= i < |calls| ==> r[off + i] == FunctionCallPart(c, calls[i])
  {
    if calls == [] then (if text != [] then [TextPart(text)] else [])
    else ModelParts(c, text, calls[..|calls| - 1]) + [FunctionCallPart(c, calls[|calls| - 1])]
  }

  /** The response a tool result is sent as: its content parsed as JSON (empty
      content is `{}`), or `{result: content}` when that text does not parse. */
  function ToolResponse(c: Codec, m: Message): (r: Json)
    ensures ContentOr(m) == [] ==> r == JObj([])
  {
    var text := ContentOr(m);
    match Parse(c, if text != [] then text else "{}")
    case Some(v) => v
    case None => JObj([("result", JStr(text))])
  }

  /** `m.toolCallId || 'unknown'`. */
  function ResponseName(m: Message): (r: string)
    ensures r != []
    ensures m.toolCallId.Some? && m.toolCallId.value != [] ==> r == m.toolCallId.value
  {
    match m.toolCallId
    case Some(id) => if id != [] then id else "unknown"
    case None => "unknown"
  }

  /** The `contents` entry of one non-system message. */
  function Entry(c: Codec, m: Message): Json {
    if m.role == Assistant && HasToolCalls(m) then
      JObj([("role", JStr("model")), ("parts", JArr(ModelParts(c, ContentOr(m), m.toolCalls.value)))])
    else if m.role == Tool then
      JObj([("role", JStr("user")),
            ("parts", JArr([JObj([("functionResponse", JObj([("name", JStr(ResponseName(m))),
                                                            ("response", ToolResponse(c, m))]))])]))])
    else
      JObj([("role", JStr(if m.role == User then "user" else "model")), ("parts", JArr([TextPart(ContentOr(m))]))])
  }

  /** The `contents` array: one entry per non-system message, in order. */
  function Contents(c: Codec, ms: seq<Message>): seq<Json> {
    if ms == [] then []
    else Contents(c, ms[..|ms| - 1]) + (if ms[|ms| - 1].role == System then [] else [Entry(c, ms[|ms| - 1])])
  }

  /** The loop filling an assistant turn's parts. */
  method AssistantParts(c: Codec, m: Message) returns (parts: seq<Json>)
    requires HasToolCalls(m)
    ensures parts == ModelParts(c, ContentOr(m), m.toolCalls.value)
  {
    parts := [];
    if ContentOr(m) != [] {
      parts := parts + [TextPart(ContentOr(m))];
    }
    var calls := m.toolCalls.value;
    for i := 0 to |calls|
      invariant parts == ModelParts(c, ContentOr(m), calls[..i])
    {
      assert calls[..i + 1][..i] == calls[..i];
      var args := JObj([]);
      var parsed := Parse(c, calls[i].arguments);
      if parsed.Some? {
        args := parsed.value;
      }
      parts := parts + [JObj([("functionCall", JObj([("name", JStr(calls[i].name)), ("args", args)]))])];
    }
    assert calls[..|calls|] == calls;
  }

  /** `convertMessages`, with its loop over the history. */
  method ConvertMessages(c: Codec, ms: seq<Message>) returns (contents: seq<Json>)
    ensures contents == Contents(c, ms)
  {
    contents := [];
    for i := 0 to |ms|
      invariant contents == Contents(c, ms[..i])
    {
      assert ms[..i + 1][..i] == ms[..i];
      var m := ms[i];
      if m.role == System {
        continue;
      }
      if m.role == Assistant && HasToolCalls(m) {
        var parts := AssistantParts(c, m);
        contents := contents + [JObj([("role", JStr("model")), ("parts", JArr(parts))])];
        continue;
      }
      if m.role == Tool {
        var text := ContentOr(m);
        var result := JObj([]);
        var parsed := Parse(c, if text != [] then text else "{}");
        if parsed.Some? {
          result := parsed.value;
        } else {
          result := JObj([("result", JStr(text))]);
        }
        contents := contents + [JObj([("role", JStr("user")),
                                      ("parts", JArr([JObj([("functionResponse",
                                                             JObj([("name", JStr(ResponseName(m))),
                                                                   ("response", result)]))])]))])];
        continue;
      }
      contents := contents + [JObj([("role", JStr(if m.role == User then "user" else "model")),
                                    ("parts", JArr([TextPart(ContentOr(m))]))])];
    }
    assert ms[..|ms|] == ms;
  }

  /** `contents` holds one entry per non-system message, in order. */
  lemma {:induction false} ContentsFollowHistory(c: Codec, ms: seq<Message>)
    ensures |Contents(c, ms)| == |NonSystem(ms)|
    ensures forall i :: 0 <= i < |NonSystem(ms)| ==> Contents(c, ms)[i] == Entry(c, NonSystem(ms)[i])
  {
    if ms != [] {
      ContentsFollowHistory(c, ms[..|ms| - 1]);
    }
  }

  /** Gemini knows two roles: assistant turns are `model`, user turns and
      tool results are `user`. */
  lemma EntryRole(c: Codec, m: Message)
    requires m.role != System
    ensures Prop(Some(Entry(c, m)), "role") == Some(JStr(if m.role == Assistant then "model" else "user"))
  {
    GetMember(Entry(c, m).fields, 0);
  }

  /** A tool result whose content is not JSON is wrapped, never dropped. */
  lemma ToolResponseKeepsText(c: Codec, m: Message)
    requires m.role == Tool
    requires ContentOr(m) != [] && Parse(c, ContentOr(m)).None?
    ensures ToolResponse(c, m) == JObj([("result", JStr(ContentOr(m)))])
  {
  }

  // ---- buildRequest ---------------------------------------------------------

  /** One function declaration: the name, the description and the parameters schema. */
  function Declaration(t: ToolDefinition): (r: Json)
    ensures Prop(Some(r), "name") == Some(JStr(t.name))
    ensures Prop(Some(r), "description") == Some(JStr(t.description))
    ensures Prop(Some(r), "parameters") == Some(ParametersJson(t))
  {
    var fields := [("name", JStr(t.name)), ("description", JStr(t.description)), ("parameters", ParametersJson(t))];
    GetMember(fields, 0);
    GetMember(fields, 1);
    GetMember(fields, 2);
    JObj(fields)
  }

  /** `convertTools(tools)`: a single tool object whose `functionDeclarations`
      holds one declaration per tool, in order. */
  function ToolsJson(tools: seq<ToolDefinition>): (r: Json)
    ensures r.JArr? && |r.items| == 1
    ensures var decls := Prop(Some(r.items[0]), "functionDeclarations");
            decls.Some? && decls.value.JArr? && |decls.value.items| == |tools|
            && forall i :: 0 <= i < |tools| ==> decls.value.items[i] == Declaration(tools[i])
  {
    var fields := [("functionDeclarations", JArr(seq(|tools|, i requires 0 <= i < |tools| => Declaration(tools[i]))))];
    GetMember(fields, 0);
    JArr([JObj(fields)])
  }

  /** The system instruction: the first system message's content, when it has some. */
  function SystemText(ms: seq<Message>): Option<string> {
    match FirstSystem(ms)
    case Some(s) => if ContentOr(s) != [] then Some(ContentOr(s)) else None
    case None => None
  }

  function Body(c: Codec, ms: seq<Message>, tools: seq<ToolDefinition>): seq<(string, Json)> {
    [("contents", JArr(Contents(c, ms)))]
    + (match SystemText(ms) case Some(t) => [("systemInstruction", JObj([("parts", JArr([TextPart(t)]))]))] case None => [])
    + (if tools != [] then [("tools", ToolsJson(tools))] else [])
  }

  /** The request for one streamed generation: the model and the API key
      travel in the URL, and the only header is the content type. */
  function BuildRequest(c: Codec, p: Provider, ms: seq<Message>, tools: seq<ToolDefinition>): (r: Request)
    ensures r.url == TrimTrailing(BaseUrlOr(p, DefaultBaseUrl), '/') + "/models/" + p.modelId
                     + ":streamGenerateContent?alt=sse&key=" + p.apiKey
    ensures r.headers == [("Content-Type", "application/json")]
    ensures Header(r.headers, "Authorization").None?
    ensures r.body == JObj(Body(c, ms, tools))
  {
    Request(TrimTrailing(BaseUrlOr(p, DefaultBaseUrl), '/') + "/models/" + p.modelId
            + ":streamGenerateContent?alt=sse&key=" + p.apiKey,
            [("Content-Type", "application/json")],
            JObj(Body(c, ms, tools)))
  }

  /** The body always carries `contents`; `systemInstruction` exactly when
      there is a system text; `tools` exactly when there are tools. */
  lemma BodyFields(c: Codec, ms: seq<Message>, tools: seq<ToolDefinition>)
    ensures var fields := Body(c, ms, tools);
            Get(fields, "contents") == Some(JArr(Contents(c, ms)))
            && (Get(fields, "systemInstruction").Some? <==> SystemText(ms).Some?)
            && (Get(fields, "tools").Some? <==> tools != [])
  {
    var sys := match SystemText(ms) case Some(t) => [("systemInstruction", JObj([("parts", JArr([TextPart(t)]))]))] case None => [];
    var tl := if tools != [] then [("tools", ToolsJson(tools))] else [];
    var head := [("contents", JArr(Contents(c, ms)))] + sys;
    assert Body(c, ms, tools) == head + tl;
    GetAppendOther(head, tl, "contents");
    GetAppendOther(head, tl, "systemInstruction");
    GetMember(head, 0);
    if SystemText(ms).Some? {
      GetMember(head, 1);
    } else {
      GetAbsent(head, "systemInstruction");
    }
    if tools != [] {
      GetMember(head + tl, |head|);
    } else {
      GetAbsent(head + tl, "tools");
    }
  }

  /** The `tools` member of the body is `convertTools(tools)`, present iff there are tools. */
  lemma BodyTools(c: Codec, ms: seq<Message>, tools: seq<ToolDefinition>)
    ensures Get(Body(c, ms, tools), "tools") == if tools != [] then Some(ToolsJson(tools)) else None
  {
    var sys := match SystemText(ms) case Some(t) => [("systemInstruction", JObj([("parts", JArr([TextPart(t)]))]))] case None => [];
    var tl := if tools != [] then [("tools", ToolsJson(tools))] else [];
    var head := [("contents", JArr(Contents(c, ms)))] + sys;
    assert Body(c, ms, tools) == head + tl;
    if tools != [] {
      GetMember(head + tl, |head|);
    } else {
      assert head + tl == head;
      GetAbsent(head, "tools");
    }
  }

  /** The tools sent read back as one object whose `functionDeclarations`
      carry, in order, each tool's name, description and parameters schema;
      no tools, no member. */
  lemma SentTools(c: Codec, p: Provider, ms: seq<Message>, tools: seq<ToolDefinition>)
    ensures var sent := Prop(Some(BuildRequest(c, p, ms, tools).body), "tools");
            (tools == [] ==> sent.None?)
            && (tools != [] ==>
                  sent.Some? && sent.value.JArr? && |sent.value.items| == 1
                  && var decls := Prop(Index0(sent), "functionDeclarations");
                     decls.Some? && decls.value.JArr? && |decls.value.items| == |tools|
                     && forall i :: 0 <= i < |tools| ==>
                          var e := Some(decls.value.items[i]);
                          Prop(e, "name") == Some(JStr(tools[i].name))
                          && Prop(e, "description") == Some(JStr(tools[i].description))
                          && Prop(e, "parameters") == Some(ParametersJson(tools[i])))
  {
    BodyTools(c, ms, tools);
    if tools != [] {
      var r := ToolsJson(tools);
      var decls := Prop(Some(r.items[0]), "functionDeclarations");
      forall i | 0 <= i < |tools|
        ensures var e := Some(decls.value.items[i]);
                Prop(e, "name") == Some(JStr(tools[i].name))
                && Prop(e, "description") == Some(JStr(tools[i].description))
                && Prop(e, "parameters") == Some(ParametersJson(tools[i]))
      {
        assert decls.value.items[i] == Declaration(tools[i]);
      }
    }
  }

  // ---- parseSSELine ---------------------------------------------------------

  /** The events of the part at position `k`: its text, then for a function
      call a start and a delta sharing the id `ids(k)`, the delta carrying the
      whole serialised arguments. */
  function PartEvents(c: Codec, ids: nat -> string, k: nat, part: Json): seq<Event> {
    var fc := Prop(Some(part), "functionCall");
    var args := Prop(fc, "args");
    (if IsText(Prop(Some(part), "text")) then [TextDelta(StrOf(Prop(Some(part), "text")))] else [])
    + (if Truthy(fc)
       then [ToolCallStart(ids(k), StrOf(Prop(fc, "name"))),
             ToolCallDelta(ids(k), c.stringify(if Truthy(args) then args.value else JObj([])))]
       else [])
  }

  /** The events of walking `parts` in order; None when a part is `null`,
      where reading `part.text` throws. */
  function PartsEvents(c: Codec, ids: nat -> string, parts: seq<Json>): Option<seq<Event>> {
    if parts == [] then Some([])
    else
      match PartsEvents(c, ids, parts[..|parts| - 1])
      case None => None
      case Some(es) =>
        if parts[|parts| - 1] == JNull then None
        else Some(es + PartEvents(c, ids, |parts| - 1, parts[|parts| - 1]))
  }

  /** `finishReason` is one that ends the turn. */
  predicate Finished(candidate: Option<Json>) {
    var f := Prop(candidate, "finishReason");
    f == Some(JStr("STOP")) || f == Some(JStr("MAX_TOKENS"))
  }

  /** What `parseSSELine` returns for `line`; a thrown exception becomes []. */
  function LineEvents(c: Codec, ids: nat -> string, line: string): seq<Event> {
    if !StartsWith(line, "data: ") then []
    else
      match Parse(c, JsTrim(line[6..]))
      case None => []
      case Some(json) => PayloadEvents(c, ids, json)
  }

  /** The events of a parsed chunk: those of the first candidate's parts,
      then `done` when it has finished. */
  function PayloadEvents(c: Codec, ids: nat -> string, json: Json): seq<Event> {
    var candidate := Index0(Prop(Some(json), "candidates"));
    var parts := Prop(Prop(candidate, "content"), "parts");
    if !Truthy(parts) then []
    else
      match Iter(parts.value)
      case None => []
      case Some(ps) =>
        match PartsEvents(c, ids, ps)
        case None => []
        case Some(es) => es + if Finished(candidate) then [Done] else []
  }

  /** The loop over `parts`; None when it throws. */
  method WalkParts(c: Codec, ids: nat -> string, parts: seq<Json>) returns (r: Option<seq<Event>>)
    ensures r == PartsEvents(c, ids, parts)
  {
    var events := [];
    var i := 0;
    while i < |parts|
      invariant 0 <= i <= |parts|
      invariant PartsEvents(c, ids, parts[..i]) == Some(events)
    {
      assert parts[..i + 1][..i] == parts[..i];
      var part := parts[i];
      if part == JNull {
        NullPartThrows(c, ids, parts, i);
        return None;
      }
      ghost var before := events;
      if IsText(Prop(Some(part), "text")) {
        events := events + [TextDelta(StrOf(Prop(Some(part), "text")))];
      }
      var fc := Prop(Some(part), "functionCall");
      if Truthy(fc) {
        var id := ids(i);
        events := events + [ToolCallStart(id, StrOf(Prop(fc, "name")))];
        var args := Prop(fc, "args");
        events := events + [ToolCallDelta(id, c.stringify(if Truthy(args) then args.value else JObj([])))];
      }
      assert events == before + PartEvents(c, ids, i, part);
      i := i + 1;
    }
    assert parts[..i] == parts;
    return Some(events);
  }

  /** `parseSSELine`. */
  method ParseSSELine(c: Codec, ids: nat -> string, line: string) returns (events: seq<Event>)
    ensures events == LineEvents(c, ids, line)
  {
    if !StartsWith(line, "data: ") {
      return [];
    }
    var parsed := Parse(c, JsTrim(line[6..]));
    if parsed.None? {
      return [];
    }
    assert LineEvents(c, ids, line) == PayloadEvents(c, ids, parsed.value);
    var candidate := Index0(Prop(parsed, "candidates"));
    var parts := Prop(Prop(candidate, "content"), "parts");
    if !Truthy(parts) {
      return [];
    }
    var ps := Iter(parts.value);
    if ps.None? {
      return [];
    }
    var walked := WalkParts(c, ids, ps.value);
    if walked.None? {
      return [];
    }
    events := walked.value;
    if Finished(candidate) {
      events := events + [Done];
    }
  }

  // ---- Properties of a line's events ------------------------------------------

  /** A `null` part anywhere discards the whole walk. */
  lemma {:induction false} NullPartThrows(c: Codec, ids: nat -> string, parts: seq<Json>, k: nat)
    requires k < |parts| && parts[k] == JNull
    ensures PartsEvents(c, ids, parts).None?
  {
    if k < |parts| - 1 {
      NullPartThrows(c, ids, parts[..|parts| - 1], k);
    }
  }

  /** Every function call is delivered whole: each start is immediately
      followed by the delta with the same id, every delta immediately follows
      its start, and the walk yields no `done` or error. */
  predicate Paired(es: seq<Event>) {
    && (forall i :: 0 <= i < |es| ==> es[i].TextDelta? || es[i].ToolCallStart? || es[i].ToolCallDelta?)
    && (forall i :: 0 <= i < |es| && es[i].ToolCallStart? ==>
          i + 1 < |es| && es[i + 1].ToolCallDelta? && es[i + 1].id == es[i].id)
    && (forall i :: 0 <= i < |es| && es[i].ToolCallDelta? ==>
          0 < i && es[i - 1].ToolCallStart? && es[i - 1].id == es[i].id)
  }

  lemma PairedAppend(a: seq<Event>, b: seq<Event>)
    requires Paired(a) && Paired(b)
    ensures Paired(a + b)
  {
    var ab := a + b;
    forall i | 0 <= i < |ab| && ab[i].ToolCallDelta?
      ensures 0 < i && ab[i - 1].ToolCallStart? && ab[i - 1].id == ab[i].id
    {
      if i >= |a| {
        assert b[i - |a|].ToolCallDelta?;
      }
    }
  }

  lemma {:induction false} PartsEventsPaired(c: Codec, ids: nat -> string, parts: seq<Json>)
    ensures PartsEvents(c, ids, parts).Some? ==> Paired(PartsEvents(c, ids, parts).value)
  {
    if parts != [] {
      PartsEventsPaired(c, ids, parts[..|parts| - 1]);
      if PartsEvents(c, ids, parts).Some? {
        var last := PartEvents(c, ids, |parts| - 1, parts[|parts| - 1]);
        assert Paired(last);
        PairedAppend(PartsEvents(c, ids, parts[..|parts| - 1]).value, last);
      }
    }
  }

  /** A line's tool calls arrive paired; `done` comes at most once, last, and
      exactly when the candidate finished and its parts were walked; a line
      without parts yields nothing, even with a finish reason. */
  lemma LineEventsShape(c: Codec, ids: nat -> string, line: string)
    ensures var es := LineEvents(c, ids, line);
            (forall i :: 0 <= i < |es| - 1 ==> !es[i].Done?)
            && (forall i :: 0 <= i < |es| ==> AdapterEvent(es[i]) && !es[i].Error?)
            && (es != [] && es[|es| - 1].Done? ==> Paired(es[..|es| - 1]))
            && (es != [] && !es[|es| - 1].Done? ==> Paired(es))
  {
    if StartsWith(line, "data: ") && Parse(c, JsTrim(line[6..])).Some? {
      PayloadEventsShape(c, ids, Parse(c, JsTrim(line[6..])).value);
    }
  }

  /** The same for a parsed chunk. */
  lemma PayloadEventsShape(c: Codec, ids: nat -> string, json: Json)
    ensures var es := PayloadEvents(c, ids, json);
            (forall i :: 0 <= i < |es| - 1 ==> !es[i].Done?)
            && (forall i :: 0 <= i < |es| ==> AdapterEvent(es[i]) && !es[i].Error?)
            && (es != [] && es[|es| - 1].Done? ==> Paired(es[..|es| - 1]))
            && (es != [] && !es[|es| - 1].Done? ==> Paired(es))
  {
    var candidate := Index0(Prop(Some(json), "candidates"));
    var parts := Prop(Prop(candidate, "content"), "parts");
    if Truthy(parts) && Iter(parts.value).Some? {
      var ps := Iter(parts.value).value;
      PartsEventsPaired(c, ids, ps);
      if PartsEvents(c, ids, ps).Some? {
        var es := PartsEvents(c, ids, ps).value;
        if Finished(candidate) {
          assert (es + [Done])[..|es + [Done]| - 1] == es;
        }
      }
    }
  }

  /** A line whose candidate has no parts yields nothing, even when it
      carries a finish reason. */
  lemma NoPartsNoDone(c: Codec, ids: nat -> string, line: string)
    requires StartsWith(line, "data: ") && Parse(c, JsTrim(line[6..])).Some?
    requires !Truthy(Prop(Prop(Index0(Prop(Parse(c, JsTrim(line[6..])), "candidates")), "content"), "parts"))
    ensures LineEvents(c, ids, line) == []
  {
  }
}
