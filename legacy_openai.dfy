/** The older, OpenAI-only streaming helper (extension/lib/llm/openai.ts). It
    reports through callbacks: a token per content delta, then the full text
    once the body ends, or an error. Unlike the client it never parses the
    partial line left in the buffer when the body ends. */
module LegacyOpenAI {
  import opened Wrappers
  import opened Text
  import opened JsonValue
  import opened LlmTypes
  import Client

  /** The callbacks, in the order they fire. */
  datatype Callback = OnToken(token: string) | OnDone(fullText: string) | OnError(message: string)

  /** A thrown error; an `AbortError` is never reported. */
  datatype Failure = Failure(message: string, isAbort: bool)

  /** The network's answer, as in the client. */
  datatype Fetch =
    | FetchFailed(failure: Failure)
    | Responded(ok: bool, status: nat, errorBody: string, body: Option<seq<string>>, readFailure: Option<Failure>)

  /** The token of one complete line, if it has one. `[DONE]` is matched
      without trimming the text after `data: `. */
  function LineToken(c: Codec, line: string): Option<string> {
    var t := JsTrim(line);
    if t == [] || !StartsWith(t, "data: ") then None
    else
      var data := t[6..];
      if data == "[DONE]" then None
      else
        match Parse(c, data)
        case None => None
        case Some(json) =>
          var token := Prop(Prop(Index0(Prop(Some(json), "choices")), "delta"), "content");
          if IsText(token) then Some(StrOf(token)) else None
  }

  /** The tokens of a run of complete lines, in order. */
  function Tokens(c: Codec, lines: seq<string>): seq<string> {
    if lines == [] then []
    else
      Tokens(c, lines[..|lines| - 1])
      + match LineToken(c, lines[|lines| - 1]) case Some(t) => [t] case None => []
  }

  function TokenCallbacks(ts: seq<string>): (r: seq<Callback>)
    ensures |r| == |ts| && forall i :: 0 <= i < |ts| ==> r[i] == OnToken(ts[i])
  {
    seq(|ts|, i requires 0 <= i < |ts| => OnToken(ts[i]))
  }

  /** How a caught error is reported: silently dropped when it is an abort. */
  function Reported(f: Failure): seq<Callback> {
    if f.isAbort then [] else [OnError(f.message)]
  }

  /** The tokens of a whole body: only its complete lines count. */
  function BodyTokens(c: Codec, chunks: seq<string>): seq<string> {
    Tokens(c, Init(SplitLines(Concat(chunks))))
  }

  /** `streamChat`: the callbacks it fires for one answer of the network. */
  method StreamChat(c: Codec, fetch: Fetch) returns (log: seq<Callback>)
    ensures fetch.FetchFailed? ==> log == Reported(fetch.failure)
    ensures fetch.Responded? && !fetch.ok ==>
              log == [OnError("OpenAI API error (" + NatToString(fetch.status) + "): " + fetch.errorBody)]
    ensures fetch.Responded? && fetch.ok && fetch.body.None? ==> log == [OnError("No response body")]
    ensures fetch.Responded? && fetch.ok && fetch.body.Some? && fetch.readFailure.None? ==>
              log == TokenCallbacks(BodyTokens(c, fetch.body.value)) + [OnDone(Concat(BodyTokens(c, fetch.body.value)))]
    ensures fetch.Responded? && fetch.ok && fetch.body.Some? && fetch.readFailure.Some? ==>
              log == TokenCallbacks(BodyTokens(c, fetch.body.value)) + Reported(fetch.readFailure.value)
  {
    if fetch.FetchFailed? {
      return Reported(fetch.failure);
    }
    if !fetch.ok {
      return Reported(Failure("OpenAI API error (" + NatToString(fetch.status) + "): " + fetch.errorBody, false));
    }
    if fetch.body.None? {
      return Reported(Failure("No response body", false));
    }
    var tokens, fullText := ReadChunks(c, fetch.body.value);
    log := TokenCallbacks(tokens);
    if fetch.readFailure.Some? {
      log := log + Reported(fetch.readFailure.value);
    } else {
      log := log + [OnDone(fullText)];
    }
  }

  /** The read loop: the tokens of the body's complete lines, and the text
      accumulated from them. */
  method ReadChunks(c: Codec, chunks: seq<string>) returns (tokens: seq<string>, fullText: string)
    ensures tokens == BodyTokens(c, chunks)
    ensures fullText == Concat(tokens)
  {
    tokens, fullText := [], "";
    var buffer := "";
    for i := 0 to |chunks|
      invariant buffer == Last(SplitLines(Concat(chunks[..i])))
      invariant tokens == Tokens(c, Init(SplitLines(Concat(chunks[..i]))))
      invariant fullText == Concat(tokens)
    {
      assert chunks[..i + 1][..i] == chunks[..i];
      assert Concat(chunks[..i + 1]) == Concat(chunks[..i]) + chunks[i];
      SplitChunk(Concat(chunks[..i]), chunks[i]);
      var pieces := SplitLines(buffer + chunks[i]);
      var lines := Init(pieces);
      buffer := Last(pieces);
      ghost var before := tokens;
      var more, text := ScanLines(c, lines);
      assert Concat(tokens + more) == Concat(tokens) + Concat(more) by { ConcatAppend(tokens, more); }
      tokens, fullText := tokens + more, fullText + text;
      TokensAppend(c, Init(SplitLines(Concat(chunks[..i]))), lines);
    }
    assert chunks[..|chunks|] == chunks;
  }

  /** The loop over one chunk's complete lines. */
  method ScanLines(c: Codec, lines: seq<string>) returns (tokens: seq<string>, text: string)
    ensures tokens == Tokens(c, lines)
    ensures text == Concat(tokens)
  {
    tokens, text := [], "";
    for j := 0 to |lines|
      invariant tokens == Tokens(c, lines[..j])
      invariant text == Concat(tokens)
    {
      assert lines[..j + 1][..j] == lines[..j];
      var token := LineToken(c, lines[j]);
      if token.Some? {
        assert (tokens + [token.value])[..|tokens|] == tokens;
        text := text + token.value;
        tokens := tokens + [token.value];
      }
    }
    assert lines[..|lines|] == lines;
  }

  lemma {:induction false} ConcatAppend(a: seq<string>, b: seq<string>)
    ensures Concat(a + b) == Concat(a) + Concat(b)
  {
    if b == [] {
      assert a + b == a;
    } else {
      var ab := a + b;
      assert ab[..|ab| - 1] == a + b[..|b| - 1];
      assert ab[|ab| - 1] == b[|b| - 1];
      assert Concat(ab) == Concat(a + b[..|b| - 1]) + b[|b| - 1];
      ConcatAppend(a, b[..|b| - 1]);
    }
  }

  lemma {:induction false} TokensAppend(c: Codec, a: seq<string>, b: seq<string>)
    ensures Tokens(c, a + b) == Tokens(c, a) + Tokens(c, b)
  {
    if b == [] {
      assert a + b == a;
    } else {
      assert (a + b)[..|a + b| - 1] == a + b[..|b| - 1];
      TokensAppend(c, a, b[..|b| - 1]);
    }
  }

  /** Non-`data:` lines and `[DONE]` yield no token. */
  lemma NoTokenLines(c: Codec, line: string)
    requires !StartsWith(JsTrim(line), "data: ") || JsTrim(line)[6..] == "[DONE]"
    ensures LineToken(c, line).None?
  {
  }

  /** A partial last line is dropped: appending text without a newline to a
      body changes no token. */
  lemma ResidualIgnored(c: Codec, s: string, r: string)
    requires '\n' !in r
    ensures Tokens(c, Init(SplitLines(s + r))) == Tokens(c, Init(SplitLines(s)))
  {
    SplitAppend(s, r);
    SplitNoNewline(r);
    assert Init(SplitLines(s + r)) == Init(SplitLines(s));
  }

  /** The two decoders part at the end of the body: a body that is a single
      unterminated, non-blank line yields no token here, while the client
      hands that line to its adapter. */
  lemma EndOfStreamDiffers(env: Client.Env, f: Family, r: string)
    requires '\n' !in r && JsTrim(r) != []
    ensures Tokens(env.codec, Init(SplitLines(r))) == []
    ensures Client.Decode(env, f, r) == Client.AdapterLine(env, f, 0, JsTrim(r), None)
  {
    SplitNoNewline(r);
  }
}
