/** The side panel's chat state (extension/entrypoints/sidepanel/hooks/useChat.ts):
    the visible conversation, the streaming text, the tool statuses and the
    error, updated by `sendMessage` and by the agent loop's callbacks. */
module UseChat {
  import opened Wrappers
  import opened Text
  import opened LlmTypes
  import AgentLoop

  datatype ToolResult = ToolResult(toolCallId: string, name: string, result: string)

  /** A conversation entry as the hook stores it. */
  datatype ChatMessage = ChatMessage(
    id: string,
    role: Role,
    content: string,
    createdAt: nat,
    toolCalls: Option<seq<ToolCallPart>>,
    toolResult: Option<ToolResult>)

  datatype Status = InProgress | Finished

  /** The two `Date.now()` readings one new entry takes: one for its id and
      one for its `createdAt`. */
  datatype Stamp = Stamp(forId: nat, created: nat)

  datatype ToolStatus = ToolStatus(id: string, name: string, status: Status, result: Option<string>)

  const ResultCap: nat := 500

  // ---- History to request ------------------------------------------------

  /** One entry of the `allMessages.map` in `sendMessage`. */
  function ToRequest(m: ChatMessage): (r: Message)
    ensures m.role == Tool && m.toolResult.Some? ==>
              r == Message(Tool, Some(m.toolResult.value.result), None, Some(m.toolResult.value.toolCallId))
    ensures m.role == Assistant && m.toolCalls.Some? && m.toolCalls.value != [] ==>
              r.role == Assistant && r.toolCalls == m.toolCalls && r.toolCallId.None?
              && (r.content.None? <==> m.content == []) && (r.content.Some? ==> r.content.value == m.content)
    ensures !(m.role == Tool && m.toolResult.Some?) && !(m.role == Assistant && m.toolCalls.Some? && m.toolCalls.value != []) ==>
              r == Message(m.role, Some(m.content), None, None)
    ensures r.role == m.role
  {
    if m.role == Tool && m.toolResult.Some? then
      Message(Tool, Some(m.toolResult.value.result), None, Some(m.toolResult.value.toolCallId))
    else if m.role == Assistant && m.toolCalls.Some? && m.toolCalls.value != [] then
      Message(Assistant, if m.content == [] then None else Some(m.content), m.toolCalls, None)
    else Message(m.role, Some(m.content), None, None)
  }

  function LlmMessages(ms: seq<ChatMessage>): (r: seq<Message>)
    ensures |r| == |ms| && forall i :: 0 <= i < |ms| ==> r[i] == ToRequest(ms[i])
  {
    seq(|ms|, i requires 0 <= i < |ms| => ToRequest(ms[i]))
  }

  /** `sendMessage`'s guard: a provider, a non-blank text, and nothing loading. */
  predicate CanSend(hasProvider: bool, text: string, isLoading: bool) {
    hasProvider && JsTrim(text) != [] && !isLoading
  }

  function UserMessage(now: Stamp, text: string): ChatMessage {
    ChatMessage("msg_" + NatToString(now.forId), User, JsTrim(text), now.created, None, None)
  }

  // ---- The status list ---------------------------------------------------

  /** `onToolCallStart`: one more running status. */
  function StatusStarted(prev: seq<ToolStatus>, id: string, name: string): (r: seq<ToolStatus>)
    ensures r == prev + [ToolStatus(id, name, InProgress, None)]
  {
    prev + [ToolStatus(id, name, InProgress, None)]
  }

  /** `onToolCallEnd`: every status with the id is done with the result; the
      rest and the length stay. */
  function StatusEnded(prev: seq<ToolStatus>, id: string, result: string): (r: seq<ToolStatus>)
    ensures |r| == |prev|
    ensures forall i :: 0 <= i < |prev| && prev[i].id == id ==>
              r[i] == ToolStatus(prev[i].id, prev[i].name, Finished, Some(result))
    ensures forall i :: 0 <= i < |prev| && prev[i].id != id ==> r[i] == prev[i]
  {
    seq(|prev|, i requires 0 <= i < |prev| =>
          if prev[i].id == id then prev[i].(status := Finished, result := Some(result)) else prev[i])
  }

  // ---- Entries from callbacks --------------------------------------------

  /** The conversation entries a callback adds, stamped with the clock
      readings `now` taken inside that callback. */
  function Entries(now: Stamp, cb: AgentLoop.Callback): (r: seq<ChatMessage>)
    ensures cb.OnAssistantMessage? ==>
              (r != [] <==> cb.content != [] || cb.toolCalls != [])
    ensures cb.OnAssistantMessage? && r != [] ==>
              r[0].id == "msg_" + NatToString(now.forId) + "_assistant"
    ensures forall i :: 0 <= i < |r| ==> r[i].createdAt == now.created
    ensures !cb.OnAssistantMessage? && !cb.OnToolMessage? ==> r == []
    ensures cb.OnToolMessage? ==>
              |r| == 1 && r[0].role == Tool && |r[0].content| <= ResultCap
              && r[0].id == "msg_" + NatToString(now.forId) + "_tool_" + cb.toolCallId
              && r[0].toolResult == Some(ToolResult(cb.toolCallId, cb.name, SliceTo(cb.result, ResultCap)))
    ensures |r| <= 1
  {
    match cb
    case OnAssistantMessage(content, calls) =>
      if content != [] || calls != [] then
        [ChatMessage("msg_" + NatToString(now.forId) + "_assistant", Assistant, content, now.created,
                     if calls != [] then Some(calls) else None, None)]
      else []
    case OnToolMessage(id, name, result) =>
      [ChatMessage("msg_" + NatToString(now.forId) + "_tool_" + id, Tool, SliceTo(result, ResultCap), now.created, None,
                   Some(ToolResult(id, name, SliceTo(result, ResultCap))))]
    case _ => []
  }

  /** The entries of a whole run; the callback at position k of the log
      reads the clock as `clock(k)`. */
  /** Assistant entries stamped at different milliseconds get different ids. */
  lemma AssistantIdsDiffer(a: Stamp, b: Stamp, cb: AgentLoop.Callback, cb': AgentLoop.Callback)
    requires cb.OnAssistantMessage? && (cb.content != [] || cb.toolCalls != [])
    requires cb'.OnAssistantMessage? && (cb'.content != [] || cb'.toolCalls != [])
    requires a.forId != b.forId
    ensures Entries(a, cb)[0].id != Entries(b, cb')[0].id
  {
    var x, y := NatToString(a.forId), NatToString(b.forId);
    if Entries(a, cb)[0].id == Entries(b, cb')[0].id {
      var s, t := "msg_" + x + "_assistant", "msg_" + y + "_assistant";
      assert s == t;
      assert |x| == |y|;
      assert x == s[4..4 + |x|];
      assert y == t[4..4 + |y|];
      NatToStringRoundTrip(a.forId);
      NatToStringRoundTrip(b.forId);
      assert false;
    }
  }

  function AllEntries(clock: nat -> Stamp, log: seq<AgentLoop.Callback>): seq<ChatMessage> {
    if log == [] then [] else AllEntries(clock, log[..|log| - 1]) + Entries(clock(|log| - 1), log[|log| - 1])
  }

  function StatusStep(prev: seq<ToolStatus>, cb: AgentLoop.Callback): seq<ToolStatus> {
    match cb
    case OnToolCallStart(id, name) => StatusStarted(prev, id, name)
    case OnToolCallEnd(id, _, result) => StatusEnded(prev, id, result)
    case _ => prev
  }

  function Statuses(log: seq<AgentLoop.Callback>): seq<ToolStatus> {
    if log == [] then [] else StatusStep(Statuses(log[..|log| - 1]), log[|log| - 1])
  }

  /** The last error the log reports. */
  function LastError(log: seq<AgentLoop.Callback>): (r: Option<string>)
    ensures r.None? <==> forall i :: 0 <= i < |log| ==> !log[i].OnError?
    ensures r.Some? ==> exists i :: 0 <= i < |log| && log[i] == AgentLoop.OnError(r.value)
  {
    if log == [] then None
    else if log[|log| - 1].OnError? then Some(log[|log| - 1].error)
    else LastError(log[..|log| - 1])
  }

  /** The status list only grows by starts: it has one entry per start, in order. */
  lemma {:induction false} StatusesFollowStarts(log: seq<AgentLoop.Callback>)
    ensures |Statuses(log)| == |Starts(log)|
    ensures forall i :: 0 <= i < |Statuses(log)| ==> Statuses(log)[i].id == Starts(log)[i]
  {
    if log != [] {
      StatusesFollowStarts(log[..|log| - 1]);
    }
  }

  /** The ids of the tool-call starts in the log, in order. */
  function Starts(log: seq<AgentLoop.Callback>): seq<string> {
    if log == [] then []
    else Starts(log[..|log| - 1]) + (if log[|log| - 1].OnToolCallStart? then [log[|log| - 1].id] else [])
  }

  /** Every stored tool result is capped at 500 characters. */
  lemma {:induction false} ToolResultsCapped(clock: nat -> Stamp, log: seq<AgentLoop.Callback>)
    ensures forall i :: 0 <= i < |AllEntries(clock, log)| && AllEntries(clock, log)[i].role == Tool ==>
              |AllEntries(clock, log)[i].content| <= ResultCap
  {
    if log != [] {
      ToolResultsCapped(clock, log[..|log| - 1]);
    }
  }

  // ---- The hook's state --------------------------------------------------

  class Chat {
    var messages: seq<ChatMessage>
    var streamingText: string
    var isLoading: bool
    var toolStatuses: seq<ToolStatus>
    var error: Option<string>
    /** `sendMessage`'s `currentText`. */
    var currentText: string

    constructor()
      ensures messages == [] && streamingText == "" && !isLoading && toolStatuses == [] && error.None?
      ensures currentText == ""
    {
      messages, streamingText, isLoading, toolStatuses, error, currentText := [], "", false, [], None, "";
    }

    /** The part of `sendMessage` before the agent runs: the guard, the reset,
        the user message, and the request built from the history. */
    method Begin(hasProvider: bool, text: string, now: Stamp) returns (request: Option<seq<Message>>)
      modifies this
      ensures !CanSend(hasProvider, text, old(isLoading)) ==>
                request.None? && unchanged(this)
      ensures CanSend(hasProvider, text, old(isLoading)) ==>
                && request == Some(LlmMessages(old(messages) + [UserMessage(now, text)]))
                && messages == old(messages) + [UserMessage(now, text)]
                && isLoading && streamingText == "" && toolStatuses == [] && error.None? && currentText == ""
    {
      var ok := CanSend(hasProvider, text, isLoading);
      if !ok {
        return None;
      }
      var history := messages + [UserMessage(now, text)];
      error, isLoading, streamingText, toolStatuses := None, true, "", [];
      messages, currentText := history, "";
      request := Some(LlmMessages(history));
    }

    /** One agent callback. */
    method Apply(now: Stamp, cb: AgentLoop.Callback)
      modifies this
      ensures messages == old(messages) + Entries(now, cb)
      ensures toolStatuses == StatusStep(old(toolStatuses), cb)
      ensures error == if cb.OnError? then Some(cb.error) else old(error)
      ensures isLoading == old(isLoading)
      ensures cb.OnTextDelta? ==> currentText == old(currentText) + cb.text && streamingText == currentText
      ensures cb.OnAssistantMessage? && Entries(now, cb) != [] ==> currentText == "" && streamingText == ""
      ensures !cb.OnTextDelta? && !(cb.OnAssistantMessage? && Entries(now, cb) != []) ==>
                currentText == old(currentText) && streamingText == old(streamingText)
    {
      match cb
      case OnTextDelta(t) =>
        currentText := currentText + t;
        streamingText := currentText;
      case OnToolCallStart(id, name) =>
        toolStatuses := StatusStarted(toolStatuses, id, name);
      case OnToolCallEnd(id, _, result) =>
        toolStatuses := StatusEnded(toolStatuses, id, result);
      case OnAssistantMessage(content, calls) =>
        if content != [] || calls != [] {
          messages := messages + Entries(now, cb);
          currentText := "";
          streamingText := "";
        }
      case OnToolMessage(_, _, _) =>
        messages := messages + Entries(now, cb);
      case OnError(e) =>
        error := Some(e);
    }

    /** `sendMessage` from start to end: the agent runs on the request and its
        callbacks update the state; the loop's `finally` clears the loading
        flag and the streaming text. `now` is read for the user message and
        `clock(k)` inside the k-th callback. */
    method SendMessage(hasProvider: bool, text: string, now: Stamp, clock: nat -> Stamp, env: AgentLoop.AgentEnv)
      modifies this
      ensures !CanSend(hasProvider, text, old(isLoading)) ==> unchanged(this)
      ensures CanSend(hasProvider, text, old(isLoading)) ==>
                var request := LlmMessages(old(messages) + [UserMessage(now, text)]);
                var log := AgentLoop.Loop(env, 0, AgentLoop.InitialHistory(env, request), []).log;
                && messages == old(messages) + [UserMessage(now, text)] + AllEntries(clock, log)
                && toolStatuses == Statuses(log)
                && error == LastError(log)
                && !isLoading && streamingText == ""
    {
      var request := Begin(hasProvider, text, now);
      if request.None? {
        return;
      }
      var run := AgentLoop.RunAgentLoop(env, request.value);
      Finish(clock, run.log);
    }

    /** The rest of `sendMessage` once the loop has returned: its callbacks
        in order, then the `finally`. */
    method Finish(clock: nat -> Stamp, log: seq<AgentLoop.Callback>)
      requires toolStatuses == [] && error.None?
      modifies this
      ensures messages == old(messages) + AllEntries(clock, log)
      ensures toolStatuses == Statuses(log)
      ensures error == LastError(log)
      ensures !isLoading && streamingText == ""
    {
      ApplyAll(clock, log);
      isLoading := false;
      streamingText := "";
    }

    /** The callbacks of one run, in order, on a freshly reset state. */
    method ApplyAll(clock: nat -> Stamp, log: seq<AgentLoop.Callback>)
      requires toolStatuses == [] && error.None?
      modifies this
      ensures messages == old(messages) + AllEntries(clock, log)
      ensures toolStatuses == Statuses(log)
      ensures error == LastError(log)
    {
      for i := 0 to |log|
        invariant messages == old(messages) + AllEntries(clock, log[..i])
        invariant toolStatuses == Statuses(log[..i])
        invariant error == LastError(log[..i])
      {
        assert log[..i + 1][..i] == log[..i];
        Apply(clock(i), log[i]);
      }
      assert log[..|log|] == log;
    }

    /** `stopAgent`: the signal is raised (outside this state) and the panel
        stops showing progress. */
    method StopAgent()
      modifies this
      ensures !isLoading && streamingText == ""
      ensures messages == old(messages) && toolStatuses == old(toolStatuses) && error == old(error)
      ensures currentText == old(currentText)
    {
      isLoading := false;
      streamingText := "";
    }

    /** `clearChat`. */
    method ClearChat()
      modifies this
      ensures messages == [] && streamingText == "" && toolStatuses == [] && error.None?
      ensures isLoading == old(isLoading) && currentText == old(currentText)
    {
      messages := [];
      streamingText := "";
      toolStatuses := [];
      error := None;
    }
  }
}
