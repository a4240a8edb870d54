/** The provider-agnostic vocabulary of the LLM layer (extension/lib/llm/types.ts):
    provider types and their three wire-protocol families, canonical request
    messages and tool calls, tool definitions, and the closed set of stream
    events every adapter produces. */
module LlmTypes {
  import opened Wrappers
  import opened JsonValue

  datatype ProviderType =
    | OpenAI | Anthropic | Google | OpenRouter | DeepSeek | Qwen | Kimi | Glm | MiniMax | OpenAICompatible

  /** The string a provider type is stored and compared as. */
  function TypeName(t: ProviderType): string {
    match t
    case OpenAI => "openai"
    case Anthropic => "anthropic"
    case Google => "google"
    case OpenRouter => "openrouter"
    case DeepSeek => "deepseek"
    case Qwen => "qwen"
    case Kimi => "kimi"
    case Glm => "glm"
    case MiniMax => "minimax"
    case OpenAICompatible => "openai-compatible"
  }

  /** Distinct types are stored under distinct strings. */
  lemma TypeNameInjective()
    ensures forall a: ProviderType, b: ProviderType :: TypeName(a) == TypeName(b) ==> a == b
  {
  }

  /** The three wire-protocol families. */
  datatype Family = OpenAIFamily | AnthropicFamily | GoogleFamily

  /** Anthropic and Google have their own protocol; every other provider,
      including the OpenAI-compatible ones, speaks the OpenAI protocol. */
  function GetProviderFamily(t: ProviderType): (f: Family)
    ensures f == AnthropicFamily <==> t == Anthropic
    ensures f == GoogleFamily <==> t == Google
    ensures f == OpenAIFamily <==> t != Anthropic && t != Google
  {
    match t
    case Anthropic => AnthropicFamily
    case Google => GoogleFamily
    case _ => OpenAIFamily
  }

  /** A configured provider. `baseUrl` None is an absent override. */
  datatype Provider = Provider(
    id: string,
    ptype: ProviderType,
    name: string,
    apiKey: string,
    baseUrl: Option<string>,
    modelId: string)

  /** `provider.baseUrl || fallback`: an absent or empty override falls back. */
  function BaseUrlOr(p: Provider, fallback: string): (r: string)
    ensures r == fallback || (p.baseUrl == Some(r) && r != [])
    ensures (p.baseUrl.Some? && p.baseUrl.value != []) ==> r == p.baseUrl.value
  {
    match p.baseUrl
    case Some(u) => if u != [] then u else fallback
    case None => fallback
  }

  datatype Role = System | User | Assistant | Tool

  function RoleName(r: Role): string {
    match r
    case System => "system"
    case User => "user"
    case Assistant => "assistant"
    case Tool => "tool"
  }

  /** One tool call of an assistant turn; `arguments` is raw, possibly partial, JSON text. */
  datatype ToolCallPart = ToolCallPart(id: string, name: string, arguments: string)

  /** A canonical request message; None fields are absent (`undefined`). */
  datatype Message = Message(
    role: Role,
    content: Option<string>,
    toolCalls: Option<seq<ToolCallPart>>,
    toolCallId: Option<string>)

  /** `m.toolCalls?.length` is truthy. */
  predicate HasToolCalls(m: Message) {
    m.toolCalls.Some? && |m.toolCalls.value| > 0
  }

  /** `m.content || ''`. */
  function ContentOr(m: Message): (r: string)
    ensures r == [] <==> m.content.None? || m.content == Some([])
    ensures r != [] ==> m.content == Some(r)
  {
    match m.content
    case Some(c) => c
    case None => ""
  }

  /** `messages.find(m => m.role === 'system')`. */
  function FirstSystem(ms: seq<Message>): (r: Option<Message>)
    ensures r.None? <==> forall i :: 0 <= i < |ms| ==> ms[i].role != System
    ensures r.Some? ==> exists i :: 0 <= i < |ms| && ms[i] == r.value && r.value.role == System
                                    && forall j :: 0 <= j < i ==> ms[j].role != System
  {
    if ms == [] then None
    else if ms[0].role == System then Some(ms[0])
    else
      var r := FirstSystem(ms[1..]);
      assert forall i :: 1 <= i < |ms| ==> ms[i] == ms[1..][i - 1];
      r
  }

  /** `messages.filter(m => m.role !== 'system')`. */
  function NonSystem(ms: seq<Message>): (r: seq<Message>)
    ensures forall i :: 0 <= i < |r| ==> r[i].role != System
    ensures forall m :: m in r <==> m in ms && m.role != System
    ensures |r| <= |ms|
  {
    if ms == [] then []
    else
      var init := NonSystem(ms[..|ms| - 1]);
      assert forall m :: m in ms <==> m in ms[..|ms| - 1] || m == ms[|ms| - 1];
      if ms[|ms| - 1].role == System then init else init + [ms[|ms| - 1]]
  }

  /** Filtering distributes over concatenation, so order is kept. */
  lemma {:induction false} NonSystemAppend(a: seq<Message>, b: seq<Message>)
    ensures NonSystem(a + b) == NonSystem(a) + NonSystem(b)
  {
    if b == [] {
      assert a + b == a;
    } else {
      NonSystemAppend(a, b[..|b| - 1]);
      assert (a + b)[..|a + b| - 1] == a + b[..|b| - 1];
    }
  }

  /** A history without system messages is kept whole, in order. */
  lemma {:induction false} NonSystemNoop(ms: seq<Message>)
    requires forall i :: 0 <= i < |ms| ==> ms[i].role != System
    ensures NonSystem(ms) == ms
  {
    if ms != [] {
      NonSystemNoop(ms[..|ms| - 1]);
    }
  }

  // ---- Tool definitions --------------------------------------------------

  datatype ToolParameter = ToolParameter(ptype: string, description: Option<string>, enumValues: Option<seq<string>>)

  datatype ToolDefinition = ToolDefinition(
    name: string,
    description: string,
    properties: seq<(string, ToolParameter)>,
    required: Option<seq<string>>)

  function StrArray(ss: seq<string>): Json {
    JArr(seq(|ss|, i requires 0 <= i < |ss| => JStr(ss[i])))
  }

  function ParameterJson(p: ToolParameter): Json {
    JObj([("type", JStr(p.ptype))]
         + (match p.description case Some(d) => [("description", JStr(d))] case None => [])
         + (match p.enumValues case Some(e) => [("enum", StrArray(e))] case None => []))
  }

  /** The `parameters` schema object as it is sent. */
  function ParametersJson(t: ToolDefinition): Json {
    JObj([("type", JStr("object")),
          ("properties", JObj(seq(|t.properties|, i requires 0 <= i < |t.properties| =>
                                    (t.properties[i].0, ParameterJson(t.properties[i].1)))))]
         + (match t.required case Some(r) => [("required", StrArray(r))] case None => []))
  }

  // ---- Stream events and requests -----------------------------------------

  /** The closed set of canonical stream events. */
  datatype Event =
    | TextDelta(text: string)
    | ReasoningDelta(text: string)
    | ToolCallStart(id: string, name: string)
    | ToolCallDelta(id: string, arguments: string)
    | Done
    | Error(error: string)

  /** The five kinds the adapters emit (reasoning deltas are declared, never produced). */
  predicate AdapterEvent(e: Event) {
    !e.ReasoningDelta?
  }

  /** An outbound request: `body` is the value handed to `JSON.stringify`. */
  datatype Request = Request(url: string, headers: seq<(string, string)>, body: Json)

  /** The value of header `name`, if the request sets it. */
  function Header(hs: seq<(string, string)>, name: string): (r: Option<string>)
    ensures r.Some? <==> exists i :: 0 <= i < |hs| && hs[i].0 == name
    ensures r.Some? ==> exists i :: 0 <= i < |hs| && hs[i] == (name, r.value)
  {
    if hs == [] then None
    else if hs[0].0 == name then Some(hs[0].1)
    else
      var r := Header(hs[1..], name);
      assert forall i :: 1 <= i < |hs| ==> hs[i] == hs[1..][i - 1];
      r
  }

  /** A header set once, before any other of the same name, is found. */
  lemma {:induction false} HeaderMember(hs: seq<(string, string)>, i: nat)
    requires i < |hs|
    requires forall j :: 0 <= j < i ==> hs[j].0 != hs[i].0
    ensures Header(hs, hs[i].0) == Some(hs[i].1)
  {
    if i > 0 {
      HeaderMember(hs[1..], i - 1);
    }
  }

  /** What one call of `streamChat` delivered: the events yielded, then
      possibly an exception the generator threw. */
  datatype StreamOutcome = StreamOutcome(events: seq<Event>, thrown: Option<string>)
}
