/**
 * The MCP client: the adapter that turns the peer's tool catalogue into the
 * completion API's "function" tools (get_mcp_tools), and the two-phase cycle
 * of process_query (propose tool calls, execute them in order, finalize).
 *
 * The completion backend, the MCP session and json.loads are oracles: the
 * fields of an `Env`. A ghost trace records every call to the session
 * (`ListTools`, `CallTool`) and to the backend (`Complete`); json.loads is
 * not recorded.
 */
module Client {
  import opened Options

  // ---------------------------------------------------------------------------
  // Values exchanged with the peer and the backend
  // ---------------------------------------------------------------------------

  /** A JSON value; numbers keep their literal text. */
  datatype Json =
    | JNull
    | JBool(b: bool)
    | JNumber(literal: string)
    | JString(s: string)
    | JArray(elements: seq<Json>)
    | JObject(members: seq<(string, Json)>)

  /** One entry of the peer's tools/list answer (MCP allows a missing description). */
  datatype ToolDescriptor = ToolDescriptor(name: string, description: Option<string>, inputSchema: Json)

  /** The `function` part of a completion-API tool. */
  datatype FunctionSpec = FunctionSpec(name: string, description: Option<string>, parameters: Json)

  /** A completion-API tool: `{"type": kind, "function": func}`. */
  datatype ModelTool = ModelTool(kind: string, func: FunctionSpec)

  const FUNCTION_KIND := "function"

  /** One tool call proposed by the model; `arguments` is a JSON text still to be parsed. */
  datatype ToolCall = ToolCall(id: string, name: string, arguments: string)

  /** The assistant message of a completion: optional text and the proposed tool calls. */
  datatype AssistantReply = AssistantReply(content: Option<string>, toolCalls: seq<ToolCall>)

  /** A completion response: its list of choices. */
  datatype Response = Response(choices: seq<AssistantReply>)

  /** A conversation entry. */
  datatype Message =
    | UserMessage(content: string)
    | AssistantMessage(reply: AssistantReply)
    | ToolMessage(toolCallId: string, content: string)

  /** The `tool_choice` policy of a completion request. */
  datatype ToolChoice = Auto | Disabled {
    function Wire(): string {
      if Auto? then "auto" else "none"
    }
  }

  /** A content block of a tool result; only text blocks have a `text`. */
  datatype ContentBlock = TextContent(text: string) | OtherContent

  /** What session.call_tool returns. */
  datatype CallToolResult = CallToolResult(content: seq<ContentBlock>, isError: bool)

  /** One call made to the session or to the completion backend (json.loads is not recorded). */
  datatype Event =
    | ListTools
    | Complete(messages: seq<Message>, tools: seq<ModelTool>, choice: ToolChoice)
    | CallTool(name: string, arguments: Json)

  /**
   * The outside world of one cycle. `listing` is the answer to tools/list (None:
   * it raised); `complete`, `callTool` and `loads` return None where the real call raises.
   */
  datatype Env = Env(
    listing: Option<seq<ToolDescriptor>>,
    complete: (seq<Message>, seq<ModelTool>, ToolChoice) -> Option<Response>,
    callTool: (string, Json) -> Option<CallToolResult>,
    loads: string -> Option<Json>)

  /** An exception that escapes process_query; `call` is the 0-based index of the tool call. */
  datatype Failure =
    | ListToolsFailed
    | NoChoices
    | ArgumentError(call: nat)
    | ToolCallFailed(call: nat)
    | NoTextContent(call: nat)
    | FinalCompletionFailed

  /** What process_query does: return a (possibly None) string, or raise. */
  datatype QueryOutcome = Returned(text: Option<string>) | Raised(failure: Failure)

  /** The outcome of one cycle together with the calls it made. */
  datatype Cycle = Cycle(outcome: QueryOutcome, trace: seq<Event>)

  const API_ERROR_TEXT := "Error occurred while calling API"

  // ---------------------------------------------------------------------------
  // Catalogue adapter (get_mcp_tools)
  // ---------------------------------------------------------------------------

  function AdaptTool(t: ToolDescriptor): ModelTool {
    ModelTool(FUNCTION_KIND, FunctionSpec(t.name, t.description, t.inputSchema))
  }

  /** The comprehension of get_mcp_tools: one function tool per descriptor, in order. */
  function Adapt(tools: seq<ToolDescriptor>): (r: seq<ModelTool>)
    ensures |r| == |tools|
    ensures forall i :: 0 <= i < |tools| ==>
      r[i].kind == "function" && r[i].func.name == tools[i].name &&
      r[i].func.description == tools[i].description && r[i].func.parameters == tools[i].inputSchema
  {
    seq(|tools|, i requires 0 <= i < |tools| => AdaptTool(tools[i]))
  }

  /** Reads a descriptor back out of a function tool. */
  function Descriptor(m: ModelTool): ToolDescriptor {
    ToolDescriptor(m.func.name, m.func.description, m.func.parameters)
  }

  function Unadapt(ms: seq<ModelTool>): (r: seq<ToolDescriptor>)
    ensures |r| == |ms|
  {
    seq(|ms|, i requires 0 <= i < |ms| => Descriptor(ms[i]))
  }

  /** Adapting loses nothing: the catalogue can be read back unchanged. */
  lemma AdaptRoundTrip(tools: seq<ToolDescriptor>)
    ensures Unadapt(Adapt(tools)) == tools
  {
    var back := Unadapt(Adapt(tools));
    forall i | 0 <= i < |tools|
      ensures back[i] == tools[i]
    {
      assert back[i] == Descriptor(Adapt(tools)[i]);
    }
  }

  /** Every list of function tools is the adaptation of some catalogue. */
  lemma AdaptOnto(ms: seq<ModelTool>)
    requires forall i :: 0 <= i < |ms| ==> ms[i].kind == FUNCTION_KIND
    ensures Adapt(Unadapt(ms)) == ms
  {
    var again := Adapt(Unadapt(ms));
    forall i | 0 <= i < |ms|
      ensures again[i] == ms[i]
    {
      assert again[i] == AdaptTool(Unadapt(ms)[i]);
    }
  }

  /** Adapting works element by element: it commutes with concatenation. */
  lemma AdaptConcat(a: seq<ToolDescriptor>, b: seq<ToolDescriptor>)
    ensures Adapt(a + b) == Adapt(a) + Adapt(b)
  {
    var l, r := Adapt(a + b), Adapt(a) + Adapt(b);
    forall i | 0 <= i < |a + b|
      ensures l[i] == r[i]
    {
      if i < |a| {
        assert (a + b)[i] == a[i];
      } else {
        assert (a + b)[i] == b[i - |a|];
      }
    }
  }

  // ---------------------------------------------------------------------------
  // Executing the proposed tool calls
  // ---------------------------------------------------------------------------

  /** `result.content[0].text`, when there is a first block and it is text. */
  function FirstText(res: CallToolResult): (r: Option<string>)
    ensures r.Some? <==> |res.content| > 0 && res.content[0].TextContent?
    ensures r.Some? ==> r.value == res.content[0].text
  {
    if |res.content| > 0 && res.content[0].TextContent? then Some(res.content[0].text) else None
  }

  /** One iteration of the tool loop: either a tool message, or the exception it raises. */
  datatype StepResult =
    | Answered(event: Event, reply: Message)
    | Stopped(events: seq<Event>, failure: Failure)

  /** The text a tool call produces: parse, invoke, first text block; None where one of them raises. */
  function ResultText(call: ToolCall, env: Env): Option<string> {
    match env.loads(call.arguments)
    case None => None
    case Some(args) =>
      match env.callTool(call.name, args)
      case None => None
      case Some(res) => FirstText(res)
  }

  /** Parse the arguments of call `k`, invoke the tool, take the first text block. */
  function Step(call: ToolCall, k: nat, env: Env): (r: StepResult)
    ensures r.Answered? <==> ResultText(call, env).Some?
    ensures r.Answered? ==>
      && env.loads(call.arguments).Some?
      && r.event == CallTool(call.name, env.loads(call.arguments).value)
      && r.reply == ToolMessage(call.id, ResultText(call, env).value)
  {
    match env.loads(call.arguments)
    case None => Stopped([], ArgumentError(k))
    case Some(args) =>
      match env.callTool(call.name, args)
      case None => Stopped([CallTool(call.name, args)], ToolCallFailed(k))
      case Some(res) =>
        match FirstText(res)
        case None => Stopped([CallTool(call.name, args)], NoTextContent(k))
        case Some(text) => Answered(CallTool(call.name, args), ToolMessage(call.id, text))
  }

  /** An iteration that raises tags the exception with the call's index; the peer was reached iff parsing succeeded. */
  lemma StepStopped(call: ToolCall, k: nat, env: Env)
    ensures var r := Step(call, k, env);
      r.Stopped? ==>
      && (r.failure.ArgumentError? || r.failure.ToolCallFailed? || r.failure.NoTextContent?)
      && r.failure.call == k
      && (r.failure.ArgumentError? <==> env.loads(call.arguments).None?)
      && (r.failure.ToolCallFailed? <==>
            env.loads(call.arguments).Some? && env.callTool(call.name, env.loads(call.arguments).value).None?)
      && |r.events| <= 1
      && (|r.events| == 1 <==> env.loads(call.arguments).Some?)
      && (env.loads(call.arguments).Some? ==> r.events[0] == CallTool(call.name, env.loads(call.arguments).value))
  {
  }

  /** The tool messages appended, the calls made, and the exception that stopped the loop, if any. */
  datatype ToolRun = ToolRun(replies: seq<Message>, events: seq<Event>, failure: Option<Failure>)

  /** The loop of process_query over `calls`, defined on prefixes as the loop runs. */
  function ExecuteCalls(calls: seq<ToolCall>, env: Env): ToolRun {
    if |calls| == 0 then ToolRun([], [], None)
    else
      var done := ExecuteCalls(calls[..|calls| - 1], env);
      if done.failure.Some? then done
      else
        match Step(calls[|calls| - 1], |calls| - 1, env)
        case Answered(e, m) => ToolRun(done.replies + [m], done.events + [e], None)
        case Stopped(es, f) => ToolRun(done.replies, done.events + es, Some(f))
  }

  /**
   * What the loop leaves behind: no exception iff every call succeeded, and
   * then one tool message per call; message j is call j's reply.
   */
  lemma {:induction false} ExecuteCallsReplies(calls: seq<ToolCall>, env: Env)
    ensures var r := ExecuteCalls(calls, env);
      && (r.failure.None? <==> forall j :: 0 <= j < |calls| ==> Step(calls[j], j, env).Answered?)
      && |r.replies| <= |calls|
      && (r.failure.None? ==> |r.replies| == |calls|)
      && (forall j :: 0 <= j < |r.replies| ==>
            Step(calls[j], j, env).Answered? && r.replies[j] == Step(calls[j], j, env).reply)
  {
    if |calls| > 0 {
      var n := |calls| - 1;
      var init := calls[..n];
      ExecuteCallsReplies(init, env);
      assert forall j :: 0 <= j < n ==> init[j] == calls[j];
      var done := ExecuteCalls(init, env);
      var r := ExecuteCalls(calls, env);
      if done.failure.Some? {
        assert r == done;
        var j :| 0 <= j < n && !Step(init[j], j, env).Answered?;
        assert !Step(calls[j], j, env).Answered?;
      } else if Step(calls[n], n, env).Answered? {
        assert r.replies == done.replies + [Step(calls[n], n, env).reply];
      } else {
        assert r.replies == done.replies;
      }
    }
  }

  /** One call event per message, and one more for a call that raised after reaching the peer. */
  lemma {:induction false} ExecuteCallsEventCount(calls: seq<ToolCall>, env: Env)
    ensures var r := ExecuteCalls(calls, env);
      && |r.replies| <= |r.events| <= |r.replies| + 1 && |r.events| <= |calls|
      && (r.failure.None? ==> |r.events| == |r.replies|)
  {
    if |calls| > 0 {
      var n := |calls| - 1;
      ExecuteCallsEventCount(calls[..n], env);
      ExecuteCallsReplies(calls[..n], env);
      StepStopped(calls[n], n, env);
    }
  }

  /** The calls the loop makes: event j is the CallTool of call j with its parsed arguments. */
  lemma {:induction false} ExecuteCallsEvents(calls: seq<ToolCall>, env: Env)
    ensures var r := ExecuteCalls(calls, env);
      forall j :: 0 <= j < |r.events| ==>
        j < |calls| && env.loads(calls[j].arguments).Some? &&
        r.events[j] == CallTool(calls[j].name, env.loads(calls[j].arguments).value)
  {
    ExecuteCallsEventCount(calls, env);
    if |calls| > 0 {
      var n := |calls| - 1;
      var init := calls[..n];
      ExecuteCallsEvents(init, env);
      ExecuteCallsEventCount(init, env);
      ExecuteCallsReplies(init, env);
      var done := ExecuteCalls(init, env);
      var r := ExecuteCalls(calls, env);
      if done.failure.Some? {
        assert r == done;
        assert forall j :: 0 <= j < |done.events| ==> init[j] == calls[j];
      } else {
        var step := Step(calls[n], n, env);
        StepStopped(calls[n], n, env);
        var es := if step.Answered? then [step.event] else step.events;
        assert r.events == done.events + es;
        assert |done.events| == n;
        assert forall j :: 0 <= j < |es| ==> es[j] == CallTool(calls[n].name, env.loads(calls[n].arguments).value);
        assert forall j :: 0 <= j < n ==> r.events[j] == done.events[j] && init[j] == calls[j];
        assert forall j :: n <= j < |r.events| ==> j == n && r.events[j] == es[0];
      }
    }
  }

  /**
   * After an exception, the call that raised is the first one without a
   * message, and its events (at most its CallTool) end the run.
   */
  lemma {:induction false} ExecuteCallsStop(calls: seq<ToolCall>, env: Env)
    ensures var r := ExecuteCalls(calls, env);
      r.failure.Some? ==>
        |r.replies| < |calls| && |r.replies| <= |r.events| &&
        Step(calls[|r.replies|], |r.replies|, env) == Stopped(r.events[|r.replies|..], r.failure.value)
  {
    if |calls| > 0 {
      var n := |calls| - 1;
      var init := calls[..n];
      ExecuteCallsStop(init, env);
      ExecuteCallsReplies(init, env);
      ExecuteCallsEventCount(init, env);
      var done := ExecuteCalls(init, env);
      var r := ExecuteCalls(calls, env);
      if done.failure.Some? {
        assert r == done;
        assert init[|done.replies|] == calls[|done.replies|];
      } else if !Step(calls[n], n, env).Answered? {
        assert r.replies == done.replies;
        assert r.events[|r.replies|..] == Step(calls[n], n, env).events;
      }
    }
  }

  /** One more iteration of the loop, when the calls so far all succeeded. */
  lemma ExecuteCallsNext(calls: seq<ToolCall>, i: nat, env: Env)
    requires i < |calls|
    requires ExecuteCalls(calls[..i], env).failure.None?
    ensures var done := ExecuteCalls(calls[..i], env);
      ExecuteCalls(calls[..i + 1], env) ==
        match Step(calls[i], i, env)
        case Answered(e, m) => ToolRun(done.replies + [m], done.events + [e], None)
        case Stopped(es, f) => ToolRun(done.replies, done.events + es, Some(f))
  {
    assert calls[..i + 1][..i] == calls[..i];
    assert calls[..i + 1][i] == calls[i];
  }

  /** Once the loop has raised, the later calls make no difference. */
  lemma {:induction false} FailureSticks(calls: seq<ToolCall>, k: nat, env: Env)
    requires k <= |calls|
    requires ExecuteCalls(calls[..k], env).failure.Some?
    ensures ExecuteCalls(calls, env) == ExecuteCalls(calls[..k], env)
    decreases |calls| - k
  {
    if k < |calls| {
      var longer := calls[..k + 1];
      assert longer[..k] == calls[..k];
      assert ExecuteCalls(longer, env) == ExecuteCalls(calls[..k], env);
      FailureSticks(calls, k + 1, env);
    } else {
      assert calls[..k] == calls;
    }
  }

  // ---------------------------------------------------------------------------
  // The cycle (process_query)
  // ---------------------------------------------------------------------------

  /** The conversation replayed to the finalization request. */
  function ToolLog(query: string, reply: AssistantReply, env: Env): seq<Message> {
    [UserMessage(query), AssistantMessage(reply)] + ExecuteCalls(reply.toolCalls, env).replies
  }

  /** The trace up to and including the first completion request. */
  function Opening(query: string, tools: seq<ModelTool>): seq<Event> {
    [ListTools, Complete([UserMessage(query)], tools, Auto)]
  }

  /** The reference definition of one cycle of process_query. */
  function Run(query: string, env: Env): (c: Cycle)
    ensures |c.trace| >= 1 && c.trace[0] == ListTools
  {
    match env.listing
    case None => Cycle(Raised(ListToolsFailed), [ListTools])
    case Some(descriptors) => Propose(query, Adapt(descriptors), env)
  }

  /** The cycle from the first completion request on. */
  function Propose(query: string, tools: seq<ModelTool>, env: Env): (c: Cycle)
    ensures |c.trace| >= 2 && c.trace[..2] == Opening(query, tools)
  {
    match env.complete([UserMessage(query)], tools, Auto)
    case None => Cycle(Returned(Some(API_ERROR_TEXT)), Opening(query, tools))
    case Some(response) =>
      if |response.choices| == 0 then Cycle(Raised(NoChoices), Opening(query, tools))
      else if |response.choices[0].toolCalls| == 0 then Cycle(Returned(response.choices[0].content), Opening(query, tools))
      else ToolPhase(query, tools, response.choices[0], env)
  }

  /** The cycle once the model proposed tool calls: execute them, then finalize. */
  function ToolPhase(query: string, tools: seq<ModelTool>, assistant: AssistantReply, env: Env): (c: Cycle)
    ensures |c.trace| >= 2 && c.trace[..2] == Opening(query, tools)
  {
    var run := ExecuteCalls(assistant.toolCalls, env);
    if run.failure.Some? then Cycle(Raised(run.failure.value), Opening(query, tools) + run.events)
    else
      var log := ToolLog(query, assistant, env);
      var trace := Opening(query, tools) + run.events + [Complete(log, tools, Disabled)];
      match env.complete(log, tools, Disabled)
      case None => Cycle(Raised(FinalCompletionFailed), trace)
      case Some(final) =>
        if |final.choices| == 0 then Cycle(Raised(NoChoices), trace)
        else Cycle(Returned(final.choices[0].content), trace)
  }

  /**
   * The `for tool_call in ...` loop of process_query: parse the arguments,
   * call the tool, append a tool message to `log`; stop at the first exception.
   */
  method ExecuteToolCalls(calls: seq<ToolCall>, env: Env, log: seq<Message>)
    returns (messages: seq<Message>, failure: Option<Failure>, ghost events: seq<Event>)
    ensures messages == log + ExecuteCalls(calls, env).replies
    ensures failure == ExecuteCalls(calls, env).failure
    ensures events == ExecuteCalls(calls, env).events
  {
    messages, failure, events := log, None, [];
    ghost var done := ExecuteCalls(calls[..0], env);
    var i := 0;
    while i < |calls|
      invariant 0 <= i <= |calls|
      invariant done == ExecuteCalls(calls[..i], env) && done.failure.None?
      invariant messages == log + done.replies && events == done.events
    {
      var call := calls[i];
      ExecuteCallsNext(calls, i, env);
      var args := env.loads(call.arguments);
      if args.None? {
        assert Step(call, i, env) == Stopped([], ArgumentError(i));
        FailureSticks(calls, i + 1, env);
        return messages, Some(ArgumentError(i)), events;
      }
      events := events + [CallTool(call.name, args.value)];
      var result := env.callTool(call.name, args.value);
      if result.None? {
        assert Step(call, i, env) == Stopped([CallTool(call.name, args.value)], ToolCallFailed(i));
        FailureSticks(calls, i + 1, env);
        return messages, Some(ToolCallFailed(i)), events;
      }
      var content := result.value.content;
      if |content| == 0 || !content[0].TextContent? {
        assert Step(call, i, env) == Stopped([CallTool(call.name, args.value)], NoTextContent(i));
        FailureSticks(calls, i + 1, env);
        return messages, Some(NoTextContent(i)), events;
      }
      assert Step(call, i, env) == Answered(CallTool(call.name, args.value), ToolMessage(call.id, content[0].text));
      messages := messages + [ToolMessage(call.id, content[0].text)];
      done := ExecuteCalls(calls[..i + 1], env);
      i := i + 1;
    }
    assert calls[..i] == calls;
  }

  /**
   * process_query: one request with tool_choice "auto"; on failure the fixed
   * error text; without tool calls the assistant's text; otherwise the tool
   * loop, then a request with "none" whose text is the answer.
   */
  method ProcessQuery(query: string, env: Env) returns (out: QueryOutcome, ghost trace: seq<Event>)
    ensures out == Run(query, env).outcome
    ensures trace == Run(query, env).trace
  {
    trace := [ListTools];
    if env.listing.None? {
      return Raised(ListToolsFailed), trace;
    }
    var tools := Adapt(env.listing.value);
    assert Run(query, env) == Propose(query, tools, env);
    trace := trace + [Complete([UserMessage(query)], tools, Auto)];
    assert trace == Opening(query, tools);
    var response := env.complete([UserMessage(query)], tools, Auto);
    if response.None? {
      return Returned(Some(API_ERROR_TEXT)), trace;
    }
    if |response.value.choices| == 0 {
      return Raised(NoChoices), trace;
    }
    var assistant := response.value.choices[0];
    var messages := [UserMessage(query), AssistantMessage(assistant)];
    if |assistant.toolCalls| > 0 {
      assert Run(query, env) == ToolPhase(query, tools, assistant, env);
      var failure; ghost var events;
      messages, failure, events := ExecuteToolCalls(assistant.toolCalls, env, messages);
      trace := trace + events;
      if failure.Some? {
        return Raised(failure.value), trace;
      }
      trace := trace + [Complete(messages, tools, Disabled)];
      var final := env.complete(messages, tools, Disabled);
      if final.None? {
        return Raised(FinalCompletionFailed), trace;
      }
      if |final.value.choices| == 0 {
        return Raised(NoChoices), trace;
      }
      return Returned(final.value.choices[0].content), trace;
    }
    return Returned(assistant.content), trace;
  }

  // ---------------------------------------------------------------------------
  // Reading a trace
  // ---------------------------------------------------------------------------

  /** The CallTool events of a trace, in order. */
  function CallToolEvents(t: seq<Event>): (r: seq<Event>)
    ensures |r| <= |t|
  {
    if |t| == 0 then []
    else (if t[0].CallTool? then [t[0]] else []) + CallToolEvents(t[1..])
  }

  /** The Complete events of a trace, in order. */
  function CompleteEvents(t: seq<Event>): (r: seq<Event>)
    ensures |r| <= |t|
  {
    if |t| == 0 then []
    else (if t[0].Complete? then [t[0]] else []) + CompleteEvents(t[1..])
  }

  lemma {:induction false} EventsConcat(a: seq<Event>, b: seq<Event>)
    ensures CallToolEvents(a + b) == CallToolEvents(a) + CallToolEvents(b)
    ensures CompleteEvents(a + b) == CompleteEvents(a) + CompleteEvents(b)
  {
    if |a| > 0 {
      assert (a + b)[0] == a[0];
      assert (a + b)[1..] == a[1..] + b;
      EventsConcat(a[1..], b);
    } else {
      assert a + b == b;
    }
  }

  /** A run of tool calls contributes only CallTool events. */
  lemma {:induction false} OnlyCallTools(es: seq<Event>)
    requires forall j :: 0 <= j < |es| ==> es[j].CallTool?
    ensures CallToolEvents(es) == es && CompleteEvents(es) == []
  {
    if |es| > 0 {
      OnlyCallTools(es[1..]);
      assert es == [es[0]] + es[1..];
    }
  }

  /** Event counts of a trace made of the opening pair, the tool calls and an optional last part. */
  lemma TraceCounts(query: string, tools: seq<ModelTool>, es: seq<Event>, tail: seq<Event>)
    requires forall j :: 0 <= j < |es| ==> es[j].CallTool?
    requires CallToolEvents(tail) == []
    ensures var t := [ListTools, Complete([UserMessage(query)], tools, Auto)] + es + tail;
      CallToolEvents(t) == es && CompleteEvents(t) == [t[1]] + CompleteEvents(tail)
  {
    var opening := [ListTools, Complete([UserMessage(query)], tools, Auto)];
    EventsConcat(opening, es);
    EventsConcat(opening + es, tail);
    OnlyCallTools(es);
    assert opening[1..][1..] == [];
  }

  // ---------------------------------------------------------------------------
  // Properties of a cycle
  // ---------------------------------------------------------------------------

  /** The first completion of the cycle returns `reply` as its first choice. */
  predicate Proposes(query: string, env: Env, reply: AssistantReply) {
    env.listing.Some? &&
    var first := env.complete([UserMessage(query)], Adapt(env.listing.value), Auto);
    first.Some? && |first.value.choices| > 0 && first.value.choices[0] == reply
  }

  /** The first request carries exactly the user message, the adapted catalogue and "auto". */
  lemma FirstRequestShape(query: string, env: Env)
    requires env.listing.Some?
    ensures var t := Run(query, env).trace;
      |t| >= 2 && t[0] == ListTools &&
      t[1] == Complete([UserMessage(query)], Adapt(env.listing.value), Auto) && t[1].choice.Wire() == "auto"
  {
  }

  /** A failing tools/list raises before any completion. */
  lemma ListToolsFailurePath(query: string, env: Env)
    requires env.listing.None?
    ensures Run(query, env) == Cycle(Raised(ListToolsFailed), [ListTools])
  {
  }

  /** A failing first completion gives the fixed error text, and nothing else is called. */
  lemma ApiFailurePath(query: string, env: Env)
    requires env.listing.Some?
    requires env.complete([UserMessage(query)], Adapt(env.listing.value), Auto).None?
    ensures Run(query, env).outcome == Returned(Some(API_ERROR_TEXT))
    ensures CallToolEvents(Run(query, env).trace) == []
    ensures |CompleteEvents(Run(query, env).trace)| == 1
  {
    TraceCounts(query, Adapt(env.listing.value), [], []);
    assert Run(query, env).trace == [ListTools, Complete([UserMessage(query)], Adapt(env.listing.value), Auto)] + [] + [];
  }

  /** A first response without choices raises at `choices[0]`, before any tool call. */
  lemma NoChoicesPath(query: string, env: Env)
    requires env.listing.Some?
    requires var first := env.complete([UserMessage(query)], Adapt(env.listing.value), Auto);
      first.Some? && |first.value.choices| == 0
    ensures Run(query, env).outcome == Raised(NoChoices)
    ensures CallToolEvents(Run(query, env).trace) == []
    ensures |CompleteEvents(Run(query, env).trace)| == 1
  {
    TraceCounts(query, Adapt(env.listing.value), [], []);
    assert Run(query, env).trace == [ListTools, Complete([UserMessage(query)], Adapt(env.listing.value), Auto)] + [] + [];
  }

  /** Without tool calls the assistant's own text is returned after one completion and no tool call. */
  lemma NoToolCallPath(query: string, env: Env, reply: AssistantReply)
    requires Proposes(query, env, reply)
    requires |reply.toolCalls| == 0
    ensures Run(query, env).outcome == Returned(reply.content)
    ensures CallToolEvents(Run(query, env).trace) == []
    ensures |CompleteEvents(Run(query, env).trace)| == 1
  {
    TraceCounts(query, Adapt(env.listing.value), [], []);
    assert Run(query, env).trace == [ListTools, Complete([UserMessage(query)], Adapt(env.listing.value), Auto)] + [] + [];
  }

  /** Tools are called in the order the model listed them, each with its own name and parsed arguments. */
  lemma CallsInOrder(query: string, env: Env, reply: AssistantReply)
    requires Proposes(query, env, reply)
    ensures var made := CallToolEvents(Run(query, env).trace);
      |made| <= |reply.toolCalls| &&
      forall k :: 0 <= k < |made| ==>
        env.loads(reply.toolCalls[k].arguments).Some? &&
        made[k] == CallTool(reply.toolCalls[k].name, env.loads(reply.toolCalls[k].arguments).value)
  {
    var tools := Adapt(env.listing.value);
    var run := ExecuteCalls(reply.toolCalls, env);
    ExecuteCallsEvents(reply.toolCalls, env);
    ExecuteCallsEventCount(reply.toolCalls, env);
    if |reply.toolCalls| == 0 {
      TraceCounts(query, tools, [], []);
      assert Run(query, env).trace == [ListTools, Complete([UserMessage(query)], tools, Auto)] + [] + [];
    } else if run.failure.Some? {
      AbortedTrace(query, env, reply);
      TraceCounts(query, tools, run.events, []);
      assert Run(query, env).trace == Opening(query, tools) + run.events + [];
    } else {
      FinishedTrace(query, env, reply);
      var last := [Complete(ToolLog(query, reply, env), tools, Disabled)];
      assert CallToolEvents(last) == [] by { assert last[1..] == []; }
      TraceCounts(query, tools, run.events, last);
    }
  }

  /**
   * When call k is the first one that raises, the cycle raises that exception;
   * exactly the calls before it (and k itself if its arguments parsed) reached
   * the peer, and no finalization request is sent.
   */
  lemma AbortOnStop(query: string, env: Env, reply: AssistantReply, k: nat)
    requires Proposes(query, env, reply)
    requires k < |reply.toolCalls|
    requires forall j :: 0 <= j < k ==> Step(reply.toolCalls[j], j, env).Answered?
    requires Step(reply.toolCalls[k], k, env).Stopped?
    ensures Run(query, env).outcome == Raised(Step(reply.toolCalls[k], k, env).failure)
    ensures |CallToolEvents(Run(query, env).trace)| == k + |Step(reply.toolCalls[k], k, env).events|
    ensures |CompleteEvents(Run(query, env).trace)| == 1
  {
    var calls := reply.toolCalls;
    var before := ExecuteCalls(calls[..k], env);
    ExecuteCallsReplies(calls[..k], env);
    ExecuteCallsEventCount(calls[..k], env);
    assert before.failure.None? by {
      forall j | 0 <= j < k ensures Step(calls[..k][j], j, env).Answered? {
        assert calls[..k][j] == calls[j];
      }
    }
    ExecuteCallsNext(calls, k, env);
    FailureSticks(calls, k + 1, env);
    var run := ExecuteCalls(calls, env);
    assert run == ToolRun(before.replies, before.events + Step(calls[k], k, env).events, Some(Step(calls[k], k, env).failure));
    ExecuteCallsEvents(calls, env);
    AbortedTrace(query, env, reply);
    TraceCounts(query, Adapt(env.listing.value), run.events, []);
    assert Run(query, env).trace == Opening(query, Adapt(env.listing.value)) + run.events + [];
  }

  /** Arguments of call k that do not parse abort the cycle after exactly k tool calls. */
  lemma ArgumentErrorAborts(query: string, env: Env, reply: AssistantReply, k: nat)
    requires Proposes(query, env, reply)
    requires k < |reply.toolCalls|
    requires forall j :: 0 <= j < k ==> Step(reply.toolCalls[j], j, env).Answered?
    requires env.loads(reply.toolCalls[k].arguments).None?
    ensures Run(query, env).outcome == Raised(ArgumentError(k))
    ensures |CallToolEvents(Run(query, env).trace)| == k
    ensures |CompleteEvents(Run(query, env).trace)| == 1
  {
    AbortOnStop(query, env, reply, k);
  }

  /**
   * When every call succeeds, the finalization request replays the user
   * message, the assistant message and one tool message per call, in order,
   * each answering its call's id with that call's first text block; it reuses
   * the catalogue with tool_choice "none", and its text is the answer.
   */
  lemma FinalRequestShape(query: string, env: Env, reply: AssistantReply)
    requires Proposes(query, env, reply)
    requires |reply.toolCalls| > 0
    requires forall j :: 0 <= j < |reply.toolCalls| ==> ResultText(reply.toolCalls[j], env).Some?
    ensures var t := Run(query, env).trace;
      |t| == 3 + |reply.toolCalls| && t[|t| - 1].Complete? &&
      t[|t| - 1].tools == Adapt(env.listing.value) && t[|t| - 1].choice.Wire() == "none" &&
      var log := t[|t| - 1].messages;
      |log| == 2 + |reply.toolCalls| && log[0] == UserMessage(query) && log[1] == AssistantMessage(reply) &&
      forall k :: 0 <= k < |reply.toolCalls| ==>
        log[2 + k] == ToolMessage(reply.toolCalls[k].id, ResultText(reply.toolCalls[k], env).value)
  {
    var run := ExecuteCalls(reply.toolCalls, env);
    var log := ToolLog(query, reply, env);
    AllAnswered(reply.toolCalls, env);
    ExecuteCallsReplies(reply.toolCalls, env);
    ExecuteCallsEventCount(reply.toolCalls, env);
    FinishedTrace(query, env, reply);
    forall k | 0 <= k < |reply.toolCalls|
      ensures log[2 + k] == ToolMessage(reply.toolCalls[k].id, ResultText(reply.toolCalls[k], env).value)
    {
      assert log[2 + k] == run.replies[k];
    }
  }

  /** When all N calls succeed, the cycle makes N tool calls and two completion requests. */
  lemma FinalRequestCounts(query: string, env: Env, reply: AssistantReply)
    requires Proposes(query, env, reply)
    requires |reply.toolCalls| > 0
    requires forall j :: 0 <= j < |reply.toolCalls| ==> ResultText(reply.toolCalls[j], env).Some?
    ensures |CallToolEvents(Run(query, env).trace)| == |reply.toolCalls|
    ensures |CompleteEvents(Run(query, env).trace)| == 2
  {
    var tools := Adapt(env.listing.value);
    var run := ExecuteCalls(reply.toolCalls, env);
    AllAnswered(reply.toolCalls, env);
    ExecuteCallsReplies(reply.toolCalls, env);
    ExecuteCallsEventCount(reply.toolCalls, env);
    ExecuteCallsEvents(reply.toolCalls, env);
    var last := [Complete(ToolLog(query, reply, env), tools, Disabled)];
    FinishedTrace(query, env, reply);
    assert CallToolEvents(last) == [] && CompleteEvents(last) == last by { assert last[1..] == []; }
    TraceCounts(query, tools, run.events, last);
  }

  /** A tool turn that raises ends its trace with the events of the loop. */
  lemma AbortedTrace(query: string, env: Env, reply: AssistantReply)
    requires Proposes(query, env, reply)
    requires |reply.toolCalls| > 0
    requires ExecuteCalls(reply.toolCalls, env).failure.Some?
    ensures var run := ExecuteCalls(reply.toolCalls, env);
      Run(query, env) == Cycle(Raised(run.failure.value), Opening(query, Adapt(env.listing.value)) + run.events)
  {
  }

  /** A tool turn that runs through ends its trace with the finalization request. */
  lemma FinishedTrace(query: string, env: Env, reply: AssistantReply)
    requires Proposes(query, env, reply)
    requires |reply.toolCalls| > 0
    requires ExecuteCalls(reply.toolCalls, env).failure.None?
    ensures var tools := Adapt(env.listing.value);
      Run(query, env).trace == Opening(query, tools) + ExecuteCalls(reply.toolCalls, env).events
        + [Complete(ToolLog(query, reply, env), tools, Disabled)]
  {
  }

  /** The answer after the tool turn is the finalization response's text, or the exception it raises. */
  lemma FinalAnswer(query: string, env: Env, reply: AssistantReply)
    requires Proposes(query, env, reply)
    requires |reply.toolCalls| > 0
    requires forall j :: 0 <= j < |reply.toolCalls| ==> ResultText(reply.toolCalls[j], env).Some?
    ensures var final := env.complete(ToolLog(query, reply, env), Adapt(env.listing.value), Disabled);
      Run(query, env).outcome ==
        if final.None? then Raised(FinalCompletionFailed)
        else if |final.value.choices| == 0 then Raised(NoChoices)
        else Returned(final.value.choices[0].content)
  {
    AllAnswered(reply.toolCalls, env);
  }

  /** When every call produces a text, the loop runs through without an exception. */
  lemma AllAnswered(calls: seq<ToolCall>, env: Env)
    requires forall j :: 0 <= j < |calls| ==> ResultText(calls[j], env).Some?
    ensures ExecuteCalls(calls, env).failure.None?
    ensures forall j :: 0 <= j < |calls| ==> Step(calls[j], j, env).Answered?
  {
    assert forall j :: 0 <= j < |calls| ==> Step(calls[j], j, env).Answered?;
    ExecuteCallsReplies(calls, env);
  }
}
