/** The agent loop (extension/lib/agent/loop.ts): up to twenty phases, each
    streaming one model answer, collecting its text and tool calls, recording
    the assistant turn and running the requested tools one after another.
    The model's stream, the tools, the active tab and the abort signal are
    oracles. */
module AgentLoop {
  import opened Wrappers
  import opened Text
  import opened LlmTypes
  import SystemPrompt

  const MaxIterations: nat := 20
  const CapMessage: string := "Reached maximum iterations (20). Stopping."

  /** The agent's callbacks, in the order they fire. */
  datatype Callback =
    | OnTextDelta(text: string)
    | OnToolCallStart(id: string, name: string)
    | OnToolCallEnd(id: string, name: string, result: string)
    | OnAssistantMessage(content: string, toolCalls: seq<ToolCallPart>)
    | OnToolMessage(toolCallId: string, name: string, result: string)
    | OnError(error: string)

  /** No callback in `log` reports an error. */
  predicate NoErrors(log: seq<Callback>) {
    forall j :: 0 <= j < |log| ==> !log[j].OnError?
  }

  /** The places where the loop looks at the abort signal. */
  datatype Checkpoint =
    | PhaseStart(phase: nat)
    | AtEvent(phase: nat, index: nat)
    | AfterThrow(phase: nat)
    | BeforeTool(phase: nat, index: nat)

  /** `tab` is the active tab's URL and title, if the query finds one;
      `stream` answers a history; `tool` is `executeTool` for the given
      phase, call position, name and arguments; `aborted` samples the signal. */
  datatype AgentEnv = AgentEnv(
    tab: Option<(string, string)>,
    stream: seq<Message> -> StreamOutcome,
    tool: (nat, nat, string, string) -> string,
    aborted: Checkpoint -> bool)

  datatype Ending = Answered | Failed(error: string) | Aborted | CapReached

  // ---- The history ---------------------------------------------------------

  /** `getPageContext`: a context only when the tab has both a URL and a title. */
  function PageContextOf(tab: Option<(string, string)>): (r: Option<SystemPrompt.PageContext>)
    ensures r.Some? <==> tab.Some? && tab.value.0 != [] && tab.value.1 != []
    ensures r.Some? ==> r.value == SystemPrompt.PageContext(tab.value.0, tab.value.1)
  {
    match tab
    case Some((url, title)) => if url != [] && title != [] then Some(SystemPrompt.PageContext(url, title)) else None
    case None => None
  }

  function SystemMessage(env: AgentEnv): Message {
    Message(System, Some(SystemPrompt.BuildSystemPrompt(PageContextOf(env.tab))), None, None)
  }

  /** The assistant turn a phase appends. */
  function AssistantMessage(text: string, calls: seq<ToolCallPart>): (m: Message)
    ensures m.role == Assistant && m.toolCallId.None?
    ensures m.content.None? <==> text == []
    ensures m.content.Some? ==> m.content.value == text
    ensures m.toolCalls.None? <==> calls == []
    ensures m.toolCalls.Some? ==> m.toolCalls.value == calls
  {
    Message(Assistant, if text == [] then None else Some(text), if calls == [] then None else Some(calls), None)
  }

  function ToolMessage(id: string, result: string): Message {
    Message(Tool, Some(result), None, Some(id))
  }

  // ---- The tool-call map ---------------------------------------------------

  predicate UniqueIds(calls: seq<ToolCallPart>) {
    forall i, j :: 0 <= i < j < |calls| ==> calls[i].id != calls[j].id
  }

  /** The position of the call stored under `id`. */
  function Find(calls: seq<ToolCallPart>, id: string): (r: Option<nat>)
    ensures r.Some? ==> r.value < |calls| && calls[r.value].id == id
    ensures r.None? <==> forall i :: 0 <= i < |calls| ==> calls[i].id != id
  {
    if calls == [] then None
    else if calls[|calls| - 1].id == id then Some(|calls| - 1)
    else Find(calls[..|calls| - 1], id)
  }

  /** `Map.set`: an existing id keeps its place and takes the new entry; a new
      id goes last. */
  function SetCall(calls: seq<ToolCallPart>, tc: ToolCallPart): (r: seq<ToolCallPart>)
    ensures Find(calls, tc.id).Some? ==> r == calls[Find(calls, tc.id).value := tc]
    ensures Find(calls, tc.id).None? ==> r == calls + [tc]
    ensures UniqueIds(calls) ==> UniqueIds(r)
  {
    match Find(calls, tc.id)
    case Some(i) => calls[i := tc]
    case None => calls + [tc]
  }

  /** A `tool_call_delta`: its text goes to the call with its id, else to the
      last call; with no calls it is dropped. */
  function AddArguments(calls: seq<ToolCallPart>, id: string, args: string): (r: seq<ToolCallPart>)
    ensures |r| == |calls|
    ensures UniqueIds(calls) ==> UniqueIds(r)
    ensures forall i :: 0 <= i < |calls| ==> r[i].id == calls[i].id && r[i].name == calls[i].name
  {
    match Find(calls, id)
    case Some(i) => calls[i := calls[i].(arguments := calls[i].arguments + args)]
    case None =>
      if calls == [] then calls
      else
        var last := |calls| - 1;
        calls[last := calls[last].(arguments := calls[last].arguments + args)]
  }

  /** The three cases of `AddArguments`. */
  lemma AddArgumentsTarget(calls: seq<ToolCallPart>, id: string, args: string)
    ensures Find(calls, id).Some? ==>
              var i := Find(calls, id).value;
              AddArguments(calls, id, args)[i].arguments == calls[i].arguments + args
              && forall j :: 0 <= j < |calls| && j != i ==> AddArguments(calls, id, args)[j] == calls[j]
    ensures Find(calls, id).None? && calls != [] ==>
              var i := |calls| - 1;
              AddArguments(calls, id, args)[i].arguments == calls[i].arguments + args
              && forall j :: 0 <= j < i ==> AddArguments(calls, id, args)[j] == calls[j]
    ensures calls == [] ==> AddArguments(calls, id, args) == []
  {
  }

  // ---- One phase's events --------------------------------------------------

  datatype Stop = Running | ErrorEvent(error: string) | AbortedInStream

  /** What a phase has gathered so far. `started` counts the starts seen. */
  datatype Acc = Acc(text: string, calls: seq<ToolCallPart>, started: nat, log: seq<Callback>, stop: Stop)

  const Empty: Acc := Acc("", [], 0, [], Running)

  /** The id a `tool_call_start` is stored under. */
  function StartId(id: string, started: nat): (r: string)
    ensures id != [] ==> r == id
    ensures id == [] ==> r == "tc_" + NatToString(started)
  {
    if id != [] then id else "tc_" + NatToString(started)
  }

  /** One event of the `for await` loop, `k` its position. */
  function EventStep(env: AgentEnv, phase: nat, k: nat, acc: Acc, e: Event): Acc {
    if !acc.stop.Running? then acc
    else if env.aborted(AtEvent(phase, k)) then acc.(stop := AbortedInStream)
    else
      match e
      case TextDelta(t) => acc.(text := acc.text + t, log := acc.log + [OnTextDelta(t)])
      case ToolCallStart(id, name) =>
        var key := StartId(id, acc.started);
        acc.(calls := SetCall(acc.calls, ToolCallPart(key, name, "")),
             log := acc.log + [OnToolCallStart(key, name)],
             started := acc.started + 1)
      case ToolCallDelta(id, args) => acc.(calls := AddArguments(acc.calls, id, args))
      case Error(err) => acc.(log := acc.log + [OnError(err)], stop := ErrorEvent(err))
      case Done => acc
      case ReasoningDelta(_) => acc
  }

  /** The event loop over a phase's stream. */
  function Scan(env: AgentEnv, phase: nat, events: seq<Event>): Acc {
    if events == [] then Empty
    else EventStep(env, phase, |events| - 1, Scan(env, phase, events[..|events| - 1]), events[|events| - 1])
  }

  /** The tool-call map never holds two calls with the same id. */
  lemma {:induction false} ScanUniqueIds(env: AgentEnv, phase: nat, events: seq<Event>)
    ensures UniqueIds(Scan(env, phase, events).calls)
  {
    if events != [] {
      ScanUniqueIds(env, phase, events[..|events| - 1]);
    }
  }

  /** Only an error event puts an error callback into a phase's log, and only
      as its last entry. */
  lemma {:induction false} ScanErrors(env: AgentEnv, phase: nat, events: seq<Event>)
    ensures Scan(env, phase, events).stop.ErrorEvent? ==>
              var a := Scan(env, phase, events);
              a.log != [] && a.log[|a.log| - 1] == OnError(a.stop.error)
              && forall i :: 0 <= i < |a.log| - 1 ==> !a.log[i].OnError?
    ensures !Scan(env, phase, events).stop.ErrorEvent? ==>
              forall i :: 0 <= i < |Scan(env, phase, events).log| ==> !Scan(env, phase, events).log[i].OnError?
  {
    if events != [] {
      ScanErrors(env, phase, events[..|events| - 1]);
    }
  }

  method ScanEvents(env: AgentEnv, phase: nat, events: seq<Event>) returns (acc: Acc)
    ensures acc == Scan(env, phase, events)
  {
    var textContent, toolCalls, currentToolCallIndex, log := "", [], 0, [];
    for k := 0 to |events|
      invariant Acc(textContent, toolCalls, currentToolCallIndex, log, Running) == Scan(env, phase, events[..k])
    {
      assert events[..k + 1][..k] == events[..k];
      if env.aborted(AtEvent(phase, k)) {
        acc := Acc(textContent, toolCalls, currentToolCallIndex, log, AbortedInStream);
        StopSticks(env, phase, events, k + 1);
        return;
      }
      match events[k]
      case TextDelta(t) =>
        textContent := textContent + t;
        log := log + [OnTextDelta(t)];
      case ToolCallStart(id, name) =>
        var key := StartId(id, currentToolCallIndex);
        toolCalls := SetCall(toolCalls, ToolCallPart(key, name, ""));
        log := log + [OnToolCallStart(key, name)];
        currentToolCallIndex := currentToolCallIndex + 1;
      case ToolCallDelta(id, args) =>
        toolCalls := AddArguments(toolCalls, id, args);
      case Error(err) =>
        acc := Acc(textContent, toolCalls, currentToolCallIndex, log + [OnError(err)], ErrorEvent(err));
        StopSticks(env, phase, events, k + 1);
        return;
      case Done =>
      case ReasoningDelta(_) =>
    }
    assert events[..|events|] == events;
    acc := Acc(textContent, toolCalls, currentToolCallIndex, log, Running);
  }

  /** Once the event loop has stopped, later events change nothing. */
  lemma {:induction false} StopSticks(env: AgentEnv, phase: nat, events: seq<Event>, k: nat)
    requires k <= |events| && !Scan(env, phase, events[..k]).stop.Running?
    ensures Scan(env, phase, events) == Scan(env, phase, events[..k])
    decreases |events| - k
  {
    if k < |events| {
      assert events[..k + 1][..k] == events[..k];
      StopSticks(env, phase, events, k + 1);
    } else {
      assert events[..k] == events;
    }
  }

  // ---- One phase's tools ---------------------------------------------------

  /** The tool loop as far as it got: callbacks, tool messages, and whether
      the signal stopped it. */
  datatype ToolRun = ToolRun(log: seq<Callback>, messages: seq<Message>, aborted: bool)

  function ToolStep(env: AgentEnv, phase: nat, j: nat, run: ToolRun, tc: ToolCallPart): ToolRun {
    if run.aborted then run
    else if env.aborted(BeforeTool(phase, j)) then run.(aborted := true)
    else
      var result := env.tool(phase, j, tc.name, tc.arguments);
      ToolRun(run.log + [OnToolCallEnd(tc.id, tc.name, result), OnToolMessage(tc.id, tc.name, result)],
              run.messages + [ToolMessage(tc.id, result)], false)
  }

  function RunTools(env: AgentEnv, phase: nat, calls: seq<ToolCallPart>): ToolRun {
    if calls == [] then ToolRun([], [], false)
    else ToolStep(env, phase, |calls| - 1, RunTools(env, phase, calls[..|calls| - 1]), calls[|calls| - 1])
  }

  /** Tools run in order, each leaving one tool message with its call's id and
      a matching pair of callbacks; an uninterrupted run covers every call. */
  lemma {:induction false} RunToolsSpec(env: AgentEnv, phase: nat, calls: seq<ToolCallPart>)
    ensures var t := RunTools(env, phase, calls);
            |t.messages| <= |calls| && |t.log| == 2 * |t.messages|
            && (!t.aborted ==> |t.messages| == |calls|)
            && forall j :: 0 <= j < |t.messages| ==>
                 var result := env.tool(phase, j, calls[j].name, calls[j].arguments);
                 t.messages[j] == ToolMessage(calls[j].id, result)
                 && t.log[2 * j] == OnToolCallEnd(calls[j].id, calls[j].name, result)
                 && t.log[2 * j + 1] == OnToolMessage(calls[j].id, calls[j].name, result)
  {
    if calls != [] {
      RunToolsSpec(env, phase, calls[..|calls| - 1]);
    }
  }

  method ExecuteTools(env: AgentEnv, phase: nat, calls: seq<ToolCallPart>) returns (run: ToolRun)
    ensures run == RunTools(env, phase, calls)
  {
    run := ToolRun([], [], false);
    for j := 0 to |calls|
      invariant run == RunTools(env, phase, calls[..j]) && !run.aborted
    {
      assert calls[..j + 1][..j] == calls[..j];
      var tc := calls[j];
      if env.aborted(BeforeTool(phase, j)) {
        run := run.(aborted := true);
        ToolsStopSticks(env, phase, calls, j + 1);
        return;
      }
      var result := env.tool(phase, j, tc.name, tc.arguments);
      run := ToolRun(run.log + [OnToolCallEnd(tc.id, tc.name, result), OnToolMessage(tc.id, tc.name, result)],
                     run.messages + [ToolMessage(tc.id, result)], false);
    }
    assert calls[..|calls|] == calls;
  }

  lemma {:induction false} ToolsStopSticks(env: AgentEnv, phase: nat, calls: seq<ToolCallPart>, k: nat)
    requires k <= |calls| && RunTools(env, phase, calls[..k]).aborted
    ensures RunTools(env, phase, calls) == RunTools(env, phase, calls[..k])
    decreases |calls| - k
  {
    if k < |calls| {
      assert calls[..k + 1][..k] == calls[..k];
      ToolsStopSticks(env, phase, calls, k + 1);
    } else {
      assert calls[..k] == calls;
    }
  }

  // ---- One phase -----------------------------------------------------------

  /** A phase's callbacks and appended messages; `ending` is None when the
      loop goes on to the next phase. */
  datatype PhaseOut = PhaseOut(log: seq<Callback>, appended: seq<Message>, ending: Option<Ending>)

  function AfterTools(acc: Acc, t: ToolRun): PhaseOut
    requires acc.calls != []
  {
    PhaseOut(acc.log + [OnAssistantMessage(acc.text, acc.calls)] + t.log,
             [AssistantMessage(acc.text, acc.calls)] + t.messages,
             if t.aborted then Some(Aborted) else None)
  }

  function Phase(env: AgentEnv, phase: nat, history: seq<Message>): PhaseOut {
    var out := env.stream(history);
    var acc := Scan(env, phase, out.events);
    match acc.stop
    case ErrorEvent(err) => PhaseOut(acc.log, [], Some(Failed(err)))
    case AbortedInStream => PhaseOut(acc.log, [], Some(Aborted))
    case Running =>
      if out.thrown.Some? then
        if env.aborted(AfterThrow(phase)) then PhaseOut(acc.log, [], Some(Aborted))
        else PhaseOut(acc.log + [OnError(out.thrown.value)], [], Some(Failed(out.thrown.value)))
      else if acc.calls == [] then
        PhaseOut(acc.log + [OnAssistantMessage(acc.text, [])], [AssistantMessage(acc.text, [])], Some(Answered))
      else AfterTools(acc, RunTools(env, phase, acc.calls))
  }

  // ---- The loop ------------------------------------------------------------

  datatype Run = Run(log: seq<Callback>, history: seq<Message>, ending: Ending)

  /** The phases from `i` on, given the history and callbacks so far. */
  function Loop(env: AgentEnv, i: nat, history: seq<Message>, log: seq<Callback>): Run
    decreases MaxIterations - i
  {
    if i >= MaxIterations then Run(log + [OnError(CapMessage)], history, CapReached)
    else if env.aborted(PhaseStart(i)) then Run(log, history, Aborted)
    else
      var p := Phase(env, i, history);
      if p.ending.Some? then Run(log + p.log, history + p.appended, p.ending.value)
      else Loop(env, i + 1, history + p.appended, log + p.log)
  }

  function InitialHistory(env: AgentEnv, messages: seq<Message>): seq<Message> {
    [SystemMessage(env)] + messages
  }

  /** `runAgentLoop`. */
  method RunAgentLoop(env: AgentEnv, messages: seq<Message>) returns (run: Run)
    ensures run == Loop(env, 0, InitialHistory(env, messages), [])
  {
    var allMessages := InitialHistory(env, messages);
    var log: seq<Callback> := [];
    for iteration := 0 to MaxIterations
      invariant Loop(env, iteration, allMessages, log) == Loop(env, 0, InitialHistory(env, messages), [])
    {
      if env.aborted(PhaseStart(iteration)) {
        return Run(log, allMessages, Aborted);
      }
      var p := RunPhase(env, iteration, allMessages);
      if p.ending.Some? {
        return Run(log + p.log, allMessages + p.appended, p.ending.value);
      }
      log, allMessages := log + p.log, allMessages + p.appended;
    }
    run := Run(log + [OnError(CapMessage)], allMessages, CapReached);
  }

  /** One iteration of the `for` loop's body. */
  method RunPhase(env: AgentEnv, phase: nat, history: seq<Message>) returns (p: PhaseOut)
    ensures p == Phase(env, phase, history)
  {
    var out := env.stream(history);
    var acc := ScanEvents(env, phase, out.events);
    if acc.stop.ErrorEvent? {
      return PhaseOut(acc.log, [], Some(Failed(acc.stop.error)));
    }
    if acc.stop.AbortedInStream? {
      return PhaseOut(acc.log, [], Some(Aborted));
    }
    if out.thrown.Some? {
      if env.aborted(AfterThrow(phase)) {
        return PhaseOut(acc.log, [], Some(Aborted));
      }
      return PhaseOut(acc.log + [OnError(out.thrown.value)], [], Some(Failed(out.thrown.value)));
    }
    if acc.calls == [] {
      return PhaseOut(acc.log + [OnAssistantMessage(acc.text, [])], [AssistantMessage(acc.text, [])], Some(Answered));
    }
    var t := ExecuteTools(env, phase, acc.calls);
    p := AfterTools(acc, t);
  }

  // ---- Properties ----------------------------------------------------------

  /** The history starts with the system message and the caller's messages,
      and is only ever appended to; so is the callback log. */
  lemma {:induction false} LoopAppends(env: AgentEnv, i: nat, history: seq<Message>, log: seq<Callback>)
    ensures history <= Loop(env, i, history, log).history
    ensures log <= Loop(env, i, history, log).log
    decreases MaxIterations - i
  {
    if i < MaxIterations && !env.aborted(PhaseStart(i)) && Phase(env, i, history).ending.None? {
      var p := Phase(env, i, history);
      LoopContinues(env, i, history, log);
      LoopAppends(env, i + 1, history + p.appended, log + p.log);
      var r := Loop(env, i, history, log);
      PrefixTrans(history, history + p.appended, r.history);
      PrefixTrans(log, log + p.log, r.log);
    } else {
      LoopStops(env, i, history, log);
    }
  }

  /** A loop that stops at phase `i` only adds to the history and the log. */
  lemma LoopStops(env: AgentEnv, i: nat, history: seq<Message>, log: seq<Callback>)
    requires !(i < MaxIterations && !env.aborted(PhaseStart(i)) && Phase(env, i, history).ending.None?)
    ensures history <= Loop(env, i, history, log).history
    ensures log <= Loop(env, i, history, log).log
  {
    if i < MaxIterations && !env.aborted(PhaseStart(i)) {
      LoopEnds(env, i, history, log);
    }
  }

  lemma PrefixTrans<T>(a: seq<T>, b: seq<T>, c: seq<T>)
    requires a <= b && b <= c
    ensures a <= c
  {
    assert c[..|a|] == b[..|a|];
  }

  /** A phase that ends the run leaves its callbacks and messages last. */
  lemma LoopEnds(env: AgentEnv, i: nat, history: seq<Message>, log: seq<Callback>)
    requires i < MaxIterations && !env.aborted(PhaseStart(i))
    requires Phase(env, i, history).ending.Some?
    ensures var p := Phase(env, i, history);
            Loop(env, i, history, log) == Run(log + p.log, history + p.appended, p.ending.value)
  {
  }

  lemma RunHistory(env: AgentEnv, messages: seq<Message>)
    ensures var h := Loop(env, 0, InitialHistory(env, messages), []).history;
            |h| >= 1 + |messages| && h[0] == SystemMessage(env) && h[1..1 + |messages|] == messages
  {
    LoopAppends(env, 0, InitialHistory(env, messages), []);
    HeadOfPrefix(SystemMessage(env), messages, Loop(env, 0, InitialHistory(env, messages), []).history);
  }

  lemma HeadOfPrefix(s: Message, messages: seq<Message>, h: seq<Message>)
    requires [s] + messages <= h
    ensures |h| >= 1 + |messages| && h[0] == s && h[1..1 + |messages|] == messages
  {
    assert h[..1 + |messages|] == [s] + messages;
    assert h[1..1 + |messages|] == ([s] + messages)[1..];
  }

  /** A phase that goes on ran at least one tool and reported no error. */
  lemma PhaseContinues(env: AgentEnv, phase: nat, history: seq<Message>)
    requires Phase(env, phase, history).ending.None?
    ensures var p := Phase(env, phase, history);
            |p.appended| >= 2 && p.appended[0].role == Assistant && p.appended[0].toolCalls.Some?
            && NoErrors(p.log)
  {
    var out := env.stream(history);
    ScanErrors(env, phase, out.events);
    var acc := Scan(env, phase, out.events);
    assert acc.stop.Running? && out.thrown.None? && acc.calls != [];
    var t := RunTools(env, phase, acc.calls);
    assert Phase(env, phase, history) == AfterTools(acc, t);
    RunToolsSpec(env, phase, acc.calls);
    RunToolsNoErrors(env, phase, acc.calls);
  }

  /** Running tools reports no error. */
  lemma {:induction false} RunToolsNoErrors(env: AgentEnv, phase: nat, calls: seq<ToolCallPart>)
    ensures NoErrors(RunTools(env, phase, calls).log)
  {
    if calls != [] {
      var prev := RunTools(env, phase, calls[..|calls| - 1]);
      RunToolsNoErrors(env, phase, calls[..|calls| - 1]);
      var t := RunTools(env, phase, calls);
      assert t.log == prev.log || exists e1, e2 :: t.log == prev.log + [e1, e2] && e1.OnToolCallEnd? && e2.OnToolMessage?;
      forall j | 0 <= j < |t.log| ensures !t.log[j].OnError? {
        if j >= |prev.log| {
          var e1, e2 :| t.log == prev.log + [e1, e2] && e1.OnToolCallEnd? && e2.OnToolMessage?;
          assert t.log[j] == [e1, e2][j - |prev.log|];
          assert j - |prev.log| == 0 || j - |prev.log| == 1;
        } else {
          assert t.log[j] == prev.log[j];
          assert !prev.log[j].OnError?;
        }
      }
    }
  }

  /** A phase never ends the run by the cap. */
  lemma PhaseNeverCaps(env: AgentEnv, phase: nat, history: seq<Message>)
    ensures Phase(env, phase, history).ending != Some(CapReached)
  {
  }

  /** Reaching the cap reports exactly one error, last. */
  lemma {:induction false} CapReport(env: AgentEnv, i: nat, history: seq<Message>, log: seq<Callback>)
    requires NoErrors(log)
    requires Loop(env, i, history, log).ending == CapReached
    ensures var l := Loop(env, i, history, log).log;
            l != [] && l[|l| - 1] == OnError(CapMessage) && NoErrors(l[..|l| - 1])
    decreases MaxIterations - i
  {
    if i < MaxIterations {
      assert !env.aborted(PhaseStart(i));
      var p := Phase(env, i, history);
      PhaseNeverCaps(env, i, history);
      assert p.ending.None?;
      LoopContinues(env, i, history, log);
      PhaseContinues(env, i, history);
      NoErrorsAppend(log, p.log);
      CapReport(env, i + 1, history + p.appended, log + p.log);
    } else {
      var l := log + [OnError(CapMessage)];
      assert l[..|l| - 1] == log;
    }
  }

  lemma NoErrorsAppend(a: seq<Callback>, b: seq<Callback>)
    requires NoErrors(a) && NoErrors(b)
    ensures NoErrors(a + b)
  {
    forall j | 0 <= j < |a + b| ensures !(a + b)[j].OnError? {
      if j < |a| { assert (a + b)[j] == a[j]; } else { assert (a + b)[j] == b[j - |a|]; }
    }
  }

  /** A phase without tool calls records the answer once and ends the run
      without an error. */
  lemma AnswerEndsRun(env: AgentEnv, phase: nat, history: seq<Message>)
    requires var out := env.stream(history);
             Scan(env, phase, out.events).stop.Running? && out.thrown.None? && Scan(env, phase, out.events).calls == []
    ensures var p := Phase(env, phase, history);
            var acc := Scan(env, phase, env.stream(history).events);
            p.ending == Some(Answered) && p.appended == [AssistantMessage(acc.text, [])]
            && p.log == acc.log + [OnAssistantMessage(acc.text, [])]
            && forall i :: 0 <= i < |p.log| ==> !p.log[i].OnError?
  {
    ScanErrors(env, phase, env.stream(history).events);
  }

  /** An error event or a thrown error reports once and appends nothing; an
      abort reports no error, and an abort inside the stream also appends
      nothing. */
  lemma FailureEndsRun(env: AgentEnv, phase: nat, history: seq<Message>)
    ensures var p := Phase(env, phase, history);
            p.ending == Some(Aborted) ==> NoErrors(p.log)
    ensures var p := Phase(env, phase, history);
            p.ending.Some? && p.ending.value.Failed? ==>
              p.appended == [] && p.log != [] && p.log[|p.log| - 1] == OnError(p.ending.value.error)
              && forall i :: 0 <= i < |p.log| - 1 ==> !p.log[i].OnError?
    ensures var p := Phase(env, phase, history);
            var acc := Scan(env, phase, env.stream(history).events);
            p.ending == Some(Aborted) && !acc.stop.Running? ==> p.appended == [] && p.log == acc.log
  {
    var out := env.stream(history);
    var acc := Scan(env, phase, out.events);
    ScanErrors(env, phase, out.events);
    if acc.stop.Running? && out.thrown.None? && acc.calls != [] {
      var t := RunTools(env, phase, acc.calls);
      assert Phase(env, phase, history) == AfterTools(acc, t);
      RunToolsNoErrors(env, phase, acc.calls);
      NoErrorsAppend(acc.log, [OnAssistantMessage(acc.text, acc.calls)]);
      NoErrorsAppend(acc.log + [OnAssistantMessage(acc.text, acc.calls)], t.log);
    }
  }

  /** A stream that throws after its events reports the thrown message once,
      last, unless the abort signal is raised by then; then it is silent. */
  lemma ThrownStream(env: AgentEnv, phase: nat, history: seq<Message>)
    requires Scan(env, phase, env.stream(history).events).stop.Running?
    requires env.stream(history).thrown.Some?
    ensures var p := Phase(env, phase, history);
            var acc := Scan(env, phase, env.stream(history).events);
            var err := env.stream(history).thrown.value;
            if env.aborted(AfterThrow(phase)) then p == PhaseOut(acc.log, [], Some(Aborted))
            else p == PhaseOut(acc.log + [OnError(err)], [], Some(Failed(err)))
  {
  }

  /** A run that ends in an abort never reported an error, whichever check
      point saw the signal. */
  lemma {:induction false} AbortedRunSilent(env: AgentEnv, i: nat, history: seq<Message>, log: seq<Callback>)
    requires NoErrors(log)
    requires Loop(env, i, history, log).ending == Aborted
    ensures NoErrors(Loop(env, i, history, log).log)
    decreases MaxIterations - i
  {
    if i < MaxIterations && !env.aborted(PhaseStart(i)) && Phase(env, i, history).ending.None? {
      var p := Phase(env, i, history);
      LoopContinues(env, i, history, log);
      PhaseContinues(env, i, history);
      NoErrorsAppend(log, p.log);
      AbortedRunSilent(env, i + 1, history + p.appended, log + p.log);
    } else {
      AbortedStopSilent(env, i, history, log);
    }
  }

  /** The same for the phase at which the run stops. */
  lemma AbortedStopSilent(env: AgentEnv, i: nat, history: seq<Message>, log: seq<Callback>)
    requires !(i < MaxIterations && !env.aborted(PhaseStart(i)) && Phase(env, i, history).ending.None?)
    requires NoErrors(log)
    requires Loop(env, i, history, log).ending == Aborted
    ensures NoErrors(Loop(env, i, history, log).log)
  {
    if i < MaxIterations && !env.aborted(PhaseStart(i)) {
      var p := Phase(env, i, history);
      LoopEnds(env, i, history, log);
      FailureEndsRun(env, i, history);
      NoErrorsAppend(log, p.log);
    }
  }

  /** A start without an id is stored as `tc_<n>`, `n` the starts before it. */
  lemma EmptyIdStart(env: AgentEnv, phase: nat, k: nat, acc: Acc, name: string)
    requires acc.stop.Running? && !env.aborted(AtEvent(phase, k))
    ensures var a := EventStep(env, phase, k, acc, ToolCallStart("", name));
            a.log == acc.log + [OnToolCallStart("tc_" + NatToString(acc.started), name)]
            && a.started == acc.started + 1
            && ToolCallPart("tc_" + NatToString(acc.started), name, "") in a.calls
  {
    var key := "tc_" + NatToString(acc.started);
    var calls := SetCall(acc.calls, ToolCallPart(key, name, ""));
    match Find(acc.calls, key)
    case Some(i) => assert calls[i] == ToolCallPart(key, name, "");
    case None => assert calls[|calls| - 1] == ToolCallPart(key, name, "");
  }
  /** Every call in a phase's map is stored under a non-empty id. */
  lemma {:induction false} ScanIdsNonEmpty(env: AgentEnv, phase: nat, events: seq<Event>)
    ensures forall i :: 0 <= i < |Scan(env, phase, events).calls| ==> Scan(env, phase, events).calls[i].id != []
  {
    if events != [] {
      ScanIdsNonEmpty(env, phase, events[..|events| - 1]);
    }
  }

  /** An argument delta without an id that comes right after the start of a
      new call `x` is attributed to `x`: the map gains exactly that call,
      holding the delta's text. */
  lemma EmptyIdDeltaFollowsStart(env: AgentEnv, phase: nat, k: nat, acc: Acc, x: string, name: string, args: string)
    requires acc.stop.Running? && !env.aborted(AtEvent(phase, k)) && !env.aborted(AtEvent(phase, k + 1))
    requires x != [] && Find(acc.calls, x).None?
    requires forall i :: 0 <= i < |acc.calls| ==> acc.calls[i].id != []
    ensures var a := EventStep(env, phase, k + 1, EventStep(env, phase, k, acc, ToolCallStart(x, name)), ToolCallDelta("", args));
            a.calls == acc.calls + [ToolCallPart(x, name, args)]
  {
    var started := EventStep(env, phase, k, acc, ToolCallStart(x, name));
    assert started.calls == acc.calls + [ToolCallPart(x, name, "")];
    assert Find(started.calls, "").None?;
    assert "" + args == args;
  }

  /** The assistant turns in a history. */
  function AssistantTurns(ms: seq<Message>): nat {
    if ms == [] then 0
    else AssistantTurns(ms[..|ms| - 1]) + (if ms[|ms| - 1].role == Assistant then 1 else 0)
  }

  lemma {:induction false} AssistantTurnsAppend(a: seq<Message>, b: seq<Message>)
    ensures AssistantTurns(a + b) == AssistantTurns(a) + AssistantTurns(b)
  {
    if b == [] {
      assert a + b == a;
    } else {
      assert (a + b)[..|a + b| - 1] == a + b[..|b| - 1];
      AssistantTurnsAppend(a, b[..|b| - 1]);
    }
  }

  lemma {:induction false} NoAssistantTurns(ms: seq<Message>)
    requires forall i :: 0 <= i < |ms| ==> ms[i].role == Tool
    ensures AssistantTurns(ms) == 0
  {
    if ms != [] {
      NoAssistantTurns(ms[..|ms| - 1]);
    }
  }

  /** A phase that goes on records exactly one assistant turn; the rest of
      what it appends are tool results. */
  lemma PhaseOneTurn(env: AgentEnv, phase: nat, history: seq<Message>)
    requires Phase(env, phase, history).ending.None?
    ensures AssistantTurns(Phase(env, phase, history).appended) == 1
  {
    var acc := Scan(env, phase, env.stream(history).events);
    var t := RunTools(env, phase, acc.calls);
    RunToolsSpec(env, phase, acc.calls);
    NoAssistantTurns(t.messages);
    AssistantTurnsAppend([AssistantMessage(acc.text, acc.calls)], t.messages);
    assert [AssistantMessage(acc.text, acc.calls)][..0] == [];
  }

  /** When every phase asks for tools and nothing aborts, the loop streams
      until the cap: it ends by the cap with the cap error last, after one
      assistant turn for each remaining phase. */
  lemma {:induction false} ToolsEveryPhaseReachCap(env: AgentEnv, i: nat, history: seq<Message>, log: seq<Callback>)
    requires i <= MaxIterations
    requires forall k :: i <= k < MaxIterations ==> !env.aborted(PhaseStart(k))
    requires forall k, h :: i <= k < MaxIterations ==> Phase(env, k, h).ending.None?
    ensures var r := Loop(env, i, history, log);
            r.ending == CapReached && r.log != [] && r.log[|r.log| - 1] == OnError(CapMessage)
            && AssistantTurns(r.history) == AssistantTurns(history) + (MaxIterations - i)
    decreases MaxIterations - i
  {
    if i < MaxIterations {
      var p := Phase(env, i, history);
      LoopContinues(env, i, history, log);
      PhaseOneTurn(env, i, history);
      AssistantTurnsAppend(history, p.appended);
      ToolsEveryPhaseReachCap(env, i + 1, history + p.appended, log + p.log);
    }
  }

  /** A phase that neither aborts nor ends hands over to the next one. */
  lemma LoopContinues(env: AgentEnv, i: nat, history: seq<Message>, log: seq<Callback>)
    requires i < MaxIterations && !env.aborted(PhaseStart(i))
    requires Phase(env, i, history).ending.None?
    ensures var p := Phase(env, i, history);
            Loop(env, i, history, log) == Loop(env, i + 1, history + p.appended, log + p.log)
  {
  }

  /** From the start: twenty phases, twenty assistant turns, then the cap. */
  lemma ToolsEveryPhaseRun(env: AgentEnv, messages: seq<Message>)
    requires forall k :: 0 <= k < MaxIterations ==> !env.aborted(PhaseStart(k))
    requires forall k, h :: 0 <= k < MaxIterations ==> Phase(env, k, h).ending.None?
    ensures var r := Loop(env, 0, InitialHistory(env, messages), []);
            r.ending == CapReached && r.log != [] && r.log[|r.log| - 1] == OnError(CapMessage)
            && AssistantTurns(r.history) == AssistantTurns(messages) + MaxIterations
  {
    var system := SystemMessage(env);
    ToolsEveryPhaseReachCap(env, 0, InitialHistory(env, messages), []);
    AssistantTurnsAppend([system], messages);
    NoAssistantInSystem(system);
  }

  lemma NoAssistantInSystem(m: Message)
    requires m.role == System
    ensures AssistantTurns([m]) == 0
  {
    assert [m][..0] == [];
  }
}
