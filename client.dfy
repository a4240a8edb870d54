/** The provider-agnostic streaming client (extension/lib/llm/client.ts): it
    picks the adapter by provider family, sends the request, and decodes the
    response body, a sequence of text chunks, into canonical events. It keeps
    the partial last line in a buffer and the latest `event:` name as a hint. */
module Client {
  import opened Wrappers
  import opened Text
  import opened JsonValue
  import opened LlmTypes
  import OA = OpenAIAdapter
  import AA = AnthropicAdapter
  import GA = GoogleAdapter

  /** The oracles the adapters need: JSON, and the ids the Google adapter
      invents, `googleIds(k)(i)` for part `i` of the `k`-th line parsed. */
  datatype Env = Env(codec: Codec, googleIds: nat -> nat -> string)

  /** `getAdapter(provider).buildRequest(...)`. */
  function AdapterRequest(env: Env, p: Provider, ms: seq<Message>, tools: seq<ToolDefinition>): (r: Request)
    ensures GetProviderFamily(p.ptype) == AnthropicFamily ==> r == AA.BuildRequest(env.codec, p, ms, tools)
    ensures GetProviderFamily(p.ptype) == GoogleFamily ==> r == GA.BuildRequest(env.codec, p, ms, tools)
    ensures GetProviderFamily(p.ptype) == OpenAIFamily ==> r == OA.BuildRequest(p, ms, tools)
  {
    match GetProviderFamily(p.ptype)
    case AnthropicFamily => AA.BuildRequest(env.codec, p, ms, tools)
    case GoogleFamily => GA.BuildRequest(env.codec, p, ms, tools)
    case OpenAIFamily => OA.BuildRequest(p, ms, tools)
  }

  /** `getAdapter(provider).parseSSELine(line, hint)` for the `k`-th line parsed. */
  function AdapterLine(env: Env, f: Family, k: nat, line: string, hint: Option<string>): seq<Event> {
    match f
    case AnthropicFamily => AA.LineEvents(env.codec, line, hint)
    case GoogleFamily => GA.LineEvents(env.codec, env.googleIds(k), line)
    case OpenAIFamily => OA.LineEvents(env.codec, line)
  }

  method AdapterParse(env: Env, f: Family, k: nat, line: string, hint: Option<string>) returns (es: seq<Event>)
    ensures es == AdapterLine(env, f, k, line, hint)
  {
    match f
    case AnthropicFamily => es := AA.LineEvents(env.codec, line, hint);
    case GoogleFamily => es := GA.ParseSSELine(env.codec, env.googleIds(k), line);
    case OpenAIFamily => es := OA.ParseSSELine(env.codec, line);
  }

  /** The hint handed to the adapter: `currentEventType || undefined`. */
  function HintArg(hint: string): Option<string> {
    if hint != [] then Some(hint) else None
  }

  // ---- Line framing -----------------------------------------------------------

  /** What the decoder hands each `data:` line to. */
  type LineParser = (nat, string, Option<string>) -> seq<Event>

  /** The adapter of family `f`, as a line parser. */
  function Parser(env: Env, f: Family): LineParser {
    (k: nat, line: string, hint: Option<string>) => AdapterLine(env, f, k, line, hint)
  }

  /** The decoder's state between lines: events yielded so far, the current
      `event:` name, and how many lines went to the adapter. */
  datatype DecoderState = DecoderState(events: seq<Event>, hint: string, parsed: nat)

  const Start: DecoderState := DecoderState([], "", 0)

  /** One complete line: a blank line resets the hint, `event: ` sets it,
      `data: ` goes to the adapter, anything else is ignored. */
  function LineStep(parse: LineParser, st: DecoderState, line: string): DecoderState {
    var t := JsTrim(line);
    if t == [] then st.(hint := "")
    else if StartsWith(t, "event: ") then st.(hint := JsTrim(t[7..]))
    else if StartsWith(t, "data: ") then
      DecoderState(st.events + parse(st.parsed, t, HintArg(st.hint)), st.hint, st.parsed + 1)
    else st
  }

  /** The complete lines processed in order. */
  function Lines(parse: LineParser, st: DecoderState, lines: seq<string>): DecoderState {
    if lines == [] then st
    else LineStep(parse, Lines(parse, st, lines[..|lines| - 1]), lines[|lines| - 1])
  }

  /** What the whole body decodes to: every complete line, then the trimmed
      residual once when it is not blank. */
  function Decode(env: Env, f: Family, text: string): seq<Event> {
    var pieces := SplitLines(text);
    var st := Lines(Parser(env, f), Start, Init(pieces));
    var rest := JsTrim(Last(pieces));
    if rest == [] then st.events
    else st.events + AdapterLine(env, f, st.parsed, rest, HintArg(st.hint))
  }

  /** Processing lines in two runs is processing them in one. */
  lemma {:induction false} LinesAppend(parse: LineParser, st: DecoderState, a: seq<string>, b: seq<string>)
    ensures Lines(parse, st, a + b) == Lines(parse, Lines(parse, st, a), b)
  {
    if b == [] {
      assert a + b == a;
    } else {
      assert (a + b)[..|a + b| - 1] == a + b[..|b| - 1];
      LinesAppend(parse, st, a, b[..|b| - 1]);
    }
  }

  /** Events are only ever appended, in the order the adapter returned them. */
  lemma {:induction false} LinesAppendOnly(parse: LineParser, st: DecoderState, lines: seq<string>)
    ensures st.events <= Lines(parse, st, lines).events
    ensures st.parsed <= Lines(parse, st, lines).parsed
  {
    if lines != [] {
      LinesAppendOnly(parse, st, lines[..|lines| - 1]);
      LineStepAppends(parse, Lines(parse, st, lines[..|lines| - 1]), lines[|lines| - 1]);
    }
  }

  lemma LineStepAppends(parse: LineParser, st: DecoderState, line: string)
    ensures st.events <= LineStep(parse, st, line).events
    ensures st.parsed <= LineStep(parse, st, line).parsed
  {
  }

  /** A blank line resets the hint and yields nothing; an `event:` line sets
      it and yields nothing; the hint survives every other line. */
  lemma LineStepHint(parse: LineParser, st: DecoderState, line: string)
    ensures var t := JsTrim(line);
            var r := LineStep(parse, st, line);
            (t == [] ==> r == st.(hint := ""))
            && (t != [] && StartsWith(t, "event: ") ==> r == st.(hint := JsTrim(t[7..])))
            && (t != [] && !StartsWith(t, "event: ") ==> r.hint == st.hint)
            && (!StartsWith(t, "data: ") ==> r.events == st.events)
  {
  }

  /** A body ending with a newline leaves no residual to flush. */
  lemma TrailingNewlineNoResidual(env: Env, f: Family, text: string)
    requires EndsWith(text, "\n")
    ensures Decode(env, f, text) == Lines(Parser(env, f), Start, Init(SplitLines(text))).events
  {
    NewlineLeavesEmptyLast(text);
    assert JsTrim(Last(SplitLines(text))) == [];
  }

  lemma NewlineLeavesEmptyLast(text: string)
    requires EndsWith(text, "\n")
    ensures Last(SplitLines(text)) == ""
  {
    var s := text[..|text| - 1];
    assert text == s + "\n";
    SplitAppend(s, "\n");
    assert SplitLines("\n") == ["", ""];
  }

  // ---- streamChat -------------------------------------------------------------

  /** The network's answer: `fetch` rejected, or a response whose body
      (if any) arrives as `chunks`, perhaps followed by a read that throws. */
  datatype Fetch =
    | FetchFailed(error: string)
    | Responded(ok: bool, status: nat, errorText: string, body: Option<seq<string>>, readFailure: Option<string>)

  /** The debug suffix of an HTTP error: the URL, the last four characters of
      the key when an Authorization header was sent, and the key's length. */
  function DebugInfo(p: Provider, r: Request): (d: string)
    ensures StartsWith(d, "[url=" + r.url + "] [auth=")
    ensures EndsWith(d, "] [key_len=" + NatToString(|p.apiKey|) + "]")
  {
    var head := "[url=" + r.url + "] [auth=";
    var auth := if Header(r.headers, "Authorization").Some? then "Bearer ..." + SliceFrom(p.apiKey, -4) else "MISSING";
    var tail := "] [key_len=" + NatToString(|p.apiKey|) + "]";
    assert (head + auth + tail)[..|head|] == head;
    assert (head + auth + tail)[|head + auth|..] == tail;
    head + auth + tail
  }

  /** The error text of a non-ok response. */
  function HttpError(status: nat, text: string, debug: string): (msg: string)
    ensures StartsWith(msg, "HTTP " + NatToString(status) + ": ")
    ensures EndsWith(msg, "\n" + debug)
    ensures |msg| <= |"HTTP " + NatToString(status) + ": "| + 200 + 1 + |debug|
    ensures var n := if |text| < 200 then |text| else 200;
            msg == "HTTP " + NatToString(status) + ": " + text[..n] + "\n" + debug
  {
    var head := "HTTP " + NatToString(status) + ": ";
    var msg := head + SliceTo(text, 200) + "\n" + debug;
    assert msg == head + (SliceTo(text, 200) + "\n" + debug);
    assert msg == (head + SliceTo(text, 200)) + ("\n" + debug);
    msg
  }

  /** `streamChat`: what it yields, and what it throws, for one answer of the
      network. Over a readable body the events are those of the whole text,
      however it was cut into chunks. */
  method StreamChat(env: Env, p: Provider, ms: seq<Message>, tools: seq<ToolDefinition>, fetch: Fetch)
    returns (out: StreamOutcome)
    ensures fetch.FetchFailed? ==> out == StreamOutcome([], Some(fetch.error))
    ensures fetch.Responded? && !fetch.ok ==>
              out == StreamOutcome([Error(HttpError(fetch.status, fetch.errorText,
                                                    DebugInfo(p, AdapterRequest(env, p, ms, tools))))], None)
    ensures fetch.Responded? && fetch.ok && fetch.body.None? ==>
              out == StreamOutcome([Error("No response body")], None)
    ensures fetch.Responded? && fetch.ok && fetch.body.Some? && fetch.readFailure.None? ==>
              out == StreamOutcome(Decode(env, GetProviderFamily(p.ptype), Concat(fetch.body.value)), None)
    ensures fetch.Responded? && fetch.ok && fetch.body.Some? && fetch.readFailure.Some? ==>
              out == StreamOutcome(Lines(Parser(env, GetProviderFamily(p.ptype)), Start,
                                         Init(SplitLines(Concat(fetch.body.value)))).events, fetch.readFailure)
  {
    var f := GetProviderFamily(p.ptype);
    var request := AdapterRequest(env, p, ms, tools);
    var debugInfo := DebugInfo(p, request);
    if fetch.FetchFailed? {
      return StreamOutcome([], Some(fetch.error));
    }
    if !fetch.ok {
      return StreamOutcome([Error(HttpError(fetch.status, fetch.errorText, debugInfo))], None);
    }
    if fetch.body.None? {
      return StreamOutcome([Error("No response body")], None);
    }
    var chunks := fetch.body.value;
    var events, currentEventType, parsed, buffer := ReadChunks(env, f, chunks);
    if fetch.readFailure.Some? {
      return StreamOutcome(events, fetch.readFailure);
    }
    var rest := JsTrim(buffer);
    if rest != [] {
      var es := AdapterParse(env, f, parsed, rest, HintArg(currentEventType));
      events := events + es;
    }
    return StreamOutcome(events, None);
  }

  /** The read loop: append each chunk to the buffer, dispatch its complete
      lines, keep the partial last line. */
  method ReadChunks(env: Env, f: Family, chunks: seq<string>)
    returns (events: seq<Event>, currentEventType: string, parsed: nat, buffer: string)
    ensures DecoderState(events, currentEventType, parsed) == Lines(Parser(env, f), Start, Init(SplitLines(Concat(chunks))))
    ensures buffer == Last(SplitLines(Concat(chunks)))
  {
    events, currentEventType, parsed, buffer := [], "", 0, "";
    for i := 0 to |chunks|
      invariant buffer == Last(SplitLines(Concat(chunks[..i])))
      invariant DecoderState(events, currentEventType, parsed)
                == Lines(Parser(env, f), Start, Init(SplitLines(Concat(chunks[..i]))))
    {
      assert chunks[..i + 1][..i] == chunks[..i];
      assert Concat(chunks[..i + 1]) == Concat(chunks[..i]) + chunks[i];
      SplitChunk(Concat(chunks[..i]), chunks[i]);
      var pieces := SplitLines(buffer + chunks[i]);
      buffer := Last(pieces);
      events, currentEventType, parsed := DispatchLines(env, f, events, currentEventType, parsed, Init(pieces));
      LinesAppend(Parser(env, f), Start, Init(SplitLines(Concat(chunks[..i]))), Init(pieces));
    }
    assert chunks[..|chunks|] == chunks;
  }

  /** The loop over one chunk's complete lines. */
  method DispatchLines(env: Env, f: Family, events0: seq<Event>, hint0: string, parsed0: nat, lines: seq<string>)
    returns (events: seq<Event>, currentEventType: string, parsed: nat)
    ensures DecoderState(events, currentEventType, parsed)
            == Lines(Parser(env, f), DecoderState(events0, hint0, parsed0), lines)
  {
    events, currentEventType, parsed := events0, hint0, parsed0;
    for j := 0 to |lines|
      invariant DecoderState(events, currentEventType, parsed)
                == Lines(Parser(env, f), DecoderState(events0, hint0, parsed0), lines[..j])
    {
      assert lines[..j + 1][..j] == lines[..j];
      events, currentEventType, parsed := DispatchLine(env, f, events, currentEventType, parsed, lines[j]);
    }
    assert lines[..|lines|] == lines;
  }

  /** The body of that loop, for one line. */
  method DispatchLine(env: Env, f: Family, events0: seq<Event>, hint0: string, parsed0: nat, line: string)
    returns (events: seq<Event>, currentEventType: string, parsed: nat)
    ensures DecoderState(events, currentEventType, parsed) == LineStep(Parser(env, f), DecoderState(events0, hint0, parsed0), line)
  {
    events, currentEventType, parsed := events0, hint0, parsed0;
    var trimmed := JsTrim(line);
    LineStepCases(Parser(env, f), DecoderState(events0, hint0, parsed0), line);
    if trimmed == [] {
      currentEventType := "";
    } else if StartsWith(trimmed, "event: ") {
      currentEventType := JsTrim(trimmed[7..]);
    } else if StartsWith(trimmed, "data: ") {
      var es := AdapterParse(env, f, parsed, trimmed, HintArg(currentEventType));
      events := events + es;
      parsed := parsed + 1;
    }
  }

  /** `LineStep` case by case. */
  lemma LineStepCases(parse: LineParser, st: DecoderState, line: string)
    ensures var t := JsTrim(line);
            var r := LineStep(parse, st, line);
            (t == [] ==> r == st.(hint := ""))
            && (t != [] && StartsWith(t, "event: ") ==> r == st.(hint := JsTrim(t[7..])))
            && (t != [] && !StartsWith(t, "event: ") && StartsWith(t, "data: ") ==>
                  r == DecoderState(st.events + parse(st.parsed, t, HintArg(st.hint)), st.hint, st.parsed + 1))
            && (t != [] && !StartsWith(t, "event: ") && !StartsWith(t, "data: ") ==> r == st)
  {
  }

  /** Only the OpenAI family sends an Authorization header, so the debug
      suffix of the other two families always reads `auth=MISSING`. */
  lemma DebugAuthMissing(env: Env, p: Provider, ms: seq<Message>, tools: seq<ToolDefinition>)
    ensures Header(AdapterRequest(env, p, ms, tools).headers, "Authorization").None?
            <==> GetProviderFamily(p.ptype) != OpenAIFamily || p.apiKey == []
  {
  }
}
