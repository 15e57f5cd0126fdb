/** The tool-calling conversation loop of the OpenAI agent (class `AIAgent` of
    OpenAI/main.py).

    The loop has the shape of the Ollama agent's, with three differences: a tool
    call carries an id and its arguments as a JSON string, which `json.loads`
    decodes; every call goes to the MCP server through `call_tool_sync`, which
    raises for an unknown tool, so an unknown tool ends the turn with "Chyba: ";
    and each tool message carries the call's id and the function name. The
    backend, `json.loads`, `json.dumps` and `call_tool_sync` are parameters. */
module OpenAIAgent {
  import opened Wrappers
  import opened Json
  import McpStockServer

  /** `tool_call`: its `id`, `function.name` and `function.arguments` (JSON text). */
  datatype ToolCall = ToolCall(id: string, name: string, arguments: string)

  /** An entry of `conversation_history`. */
  datatype Message =
    | Entry(role: string, content: string)                                // {"role": role, "content": content}
    | Assistant(content: string, toolCalls: seq<ToolCall>)                // the response message that asked for tools
    | ToolResult(toolCallId: string, name: string, content: string)       // {"tool_call_id", "role": "tool", "name", "content"}

  /** `response.choices[0].message`: its content and its `tool_calls` (`None` when absent). */
  datatype Response = Response(content: string, toolCalls: Option<seq<ToolCall>>)

  /** What `client.chat.completions.create(...)` does: returns a response or raises. */
  datatype Reply = Responded(message: Response) | Failed(error: string)

  type Client = (string, seq<Message>) -> Reply

  /** The module-level names `chat` uses: `call_tool_sync`, `json.loads` (the
      decoded value or the decoder's error message) and `json.dumps`. */
  datatype Globals = Globals(callTool: (string, Json) -> Outcome,
                             loads: string -> Result<Json, string>,
                             dumps: Json -> string)

  const DefaultModel := "gpt-4"
  const DefaultMaxIterations := 15
  const Sentinel := "Dosáhli jsme maximálního počtu iterací bez získání odpovědi."
  const ErrorPrefix := "Chyba: "

  /** `if tool_calls:` — neither `None` nor an empty list. */
  predicate RequestsTools(r: Response)
  {
    r.toolCalls.Some? && r.toolCalls.value != []
  }

  /** A message the tool-calling branch appends: the echoed request or a tool result. */
  predicate ToolRoundMessage(m: Message)
  {
    m.Assistant? || m.ToolResult?
  }

  /** `call_tool_sync(name, json.loads(arguments))` for one call. */
  function Invoke(call: ToolCall, g: Globals): (o: Outcome)
    ensures g.loads(call.arguments).Failure? ==> o == Threw(g.loads(call.arguments).error)
    ensures g.loads(call.arguments).Success? ==> o == g.callTool(call.name, g.loads(call.arguments).value)
  {
    match g.loads(call.arguments)
    case Failure(e) => Threw(e)
    case Success(args) => g.callTool(call.name, args)
  }

  /** The tool message answering `call` whose result was `v`. */
  function Answer(call: ToolCall, v: Json, g: Globals): Message
  {
    ToolResult(call.id, call.name, g.dumps(v))
  }

  // ---------------------------------------------------------------- one batch of tool calls

  /** The messages the inner `for` loop appends for `calls`, and the message of
      the exception that stopped it, if one did. */
  datatype Dispatch = Dispatch(messages: seq<Message>, fault: Option<string>)

  /** The tool messages appended so far answer the first calls, one each, in
      order, with the call's id and name; a finished batch answers all of them. */
  function RunTools(calls: seq<ToolCall>, g: Globals): (d: Dispatch)
    ensures |d.messages| <= |calls|
    ensures d.fault.None? ==> |d.messages| == |calls|
    ensures forall i :: 0 <= i < |d.messages| ==>
      d.messages[i].ToolResult? && d.messages[i].toolCallId == calls[i].id && d.messages[i].name == calls[i].name
  {
    if calls == [] then Dispatch([], None)
    else
      var done := RunTools(calls[..|calls| - 1], g);
      var call := calls[|calls| - 1];
      if done.fault.Some? then done
      else match Invoke(call, g)
        case Returned(v) => Dispatch(done.messages + [Answer(call, v, g)], None)
        case Threw(e) => Dispatch(done.messages, Some(e))
  }

  /** Once a call has raised, the later calls are not run. */
  lemma {:induction false} RunToolsStopsAtFault(calls: seq<ToolCall>, k: nat, g: Globals)
    requires k <= |calls| && RunTools(calls[..k], g).fault.Some?
    ensures RunTools(calls, g) == RunTools(calls[..k], g)
  {
    if k < |calls| {
      var init := calls[..|calls| - 1];
      assert init[..k] == calls[..k];
      RunToolsStopsAtFault(init, k, g);
    } else {
      assert calls[..k] == calls;
    }
  }

  /** The batch finishes exactly when every call decodes and returns, and every
      message then carries the encoded result of its own call. */
  lemma {:induction false} RunToolsAnswersEveryCall(calls: seq<ToolCall>, g: Globals)
    ensures RunTools(calls, g).fault.None? <==> forall i :: 0 <= i < |calls| ==> Invoke(calls[i], g).Returned?
    ensures forall i :: 0 <= i < |RunTools(calls, g).messages| ==>
      Invoke(calls[i], g).Returned? && RunTools(calls, g).messages[i] == Answer(calls[i], Invoke(calls[i], g).value, g)
  {
    if calls != [] {
      var init := calls[..|calls| - 1];
      RunToolsAnswersEveryCall(init, g);
      assert forall i :: 0 <= i < |init| ==> init[i] == calls[i];
      if RunTools(init, g).fault.Some? {
        RunToolsStopsAtFault(calls, |calls| - 1, g);
      }
    }
  }

  /** When a call raises, the batch keeps the answers to the calls before it and
      no more, and reports that call's message: `k` is the call that raised. */
  lemma {:induction false} RunToolsFaultAt(calls: seq<ToolCall>, g: Globals) returns (k: nat)
    requires RunTools(calls, g).fault.Some?
    ensures k < |calls| && k == |RunTools(calls, g).messages|
    ensures Invoke(calls[k], g) == Threw(RunTools(calls, g).fault.value)
    ensures RunTools(calls[..k], g) == Dispatch(RunTools(calls, g).messages, None)
  {
    var init := calls[..|calls| - 1];
    if RunTools(init, g).fault.Some? {
      k := RunToolsFaultAt(init, g);
      assert init[..k] == calls[..k];
    } else {
      k := |calls| - 1;
    }
  }

  // ---------------------------------------------------------------- the bounded loop

  datatype Exit = Answered(content: string) | Exhausted | Aborted(error: string)

  /** What one `chat` call amounts to: how it ended, the history it leaves and
      the histories it sent to the backend, in order. */
  datatype Turn = Turn(exit: Exit, history: seq<Message>, requests: seq<seq<Message>>)

  /** The string `chat` returns. */
  function AnswerText(e: Exit): string
  {
    match e
    case Answered(content) => content
    case Exhausted => Sentinel
    case Aborted(error) => ErrorPrefix + error
  }

  /** `while iterations < self.max_iterations` with `remaining` rounds left:
      each round sends the history to the backend and goes on with its reply. */
  function Rounds(history: seq<Message>, remaining: nat, model: string, client: Client, g: Globals): Turn
    decreases remaining, 0
  {
    if remaining == 0 then Turn(Exhausted, history, [])
    else
      var rest := Respond(history, client(model, history), remaining - 1, model, client, g);
      Turn(rest.exit, rest.history, [history] + rest.requests)
  }

  /** The body of the `try` after the backend returned `reply`, with `remaining`
      rounds left afterwards: append the tool round and go on, or append the answer
      and stop; an exception stops the turn where it was raised. */
  function Respond(history: seq<Message>, reply: Reply, remaining: nat, model: string, client: Client, g: Globals): Turn
    decreases remaining, 1
  {
    match reply
    case Failed(e) => Turn(Aborted(e), history, [])
    case Responded(r) =>
      if RequestsTools(r) then
        var d := RunTools(r.toolCalls.value, g);
        var next := history + [Assistant(r.content, r.toolCalls.value)] + d.messages;
        if d.fault.Some? then Turn(Aborted(d.fault.value), next, [])
        else Rounds(next, remaining, model, client, g)
      else Turn(Answered(r.content), history + [Entry("assistant", r.content)], [])
  }

  /** The number of rounds a bound allows: a negative bound allows none. */
  function Bound(maxIterations: int): nat
  {
    if maxIterations < 0 then 0 else maxIterations
  }

  /** `chat(user_message)` on the given history. */
  function ChatTurn(history: seq<Message>, userMessage: string, maxIterations: int,
                    model: string, client: Client, g: Globals): Turn
  {
    Rounds(history + [Entry("user", userMessage)], Bound(maxIterations), model, client, g)
  }

  /** `rest` is what is left of `whole` after its first `calls` backend calls. */
  ghost predicate Continues(whole: Turn, calls: nat, rest: Turn)
  {
    whole.exit == rest.exit && whole.history == rest.history && |whole.requests| == calls + |rest.requests|
  }

  // ---------------------------------------------------------------- the agent object

  class AIAgent {
    const client: Client
    const model: string
    var conversationHistory: seq<Message>
    const maxIterations: int
    /** The number of backend calls made by the last `chat` call. */
    ghost var calls: nat

    constructor (client: Client, model: string := DefaultModel)
      ensures this.client == client && this.model == model
      ensures conversationHistory == [] && maxIterations == DefaultMaxIterations && calls == 0
    {
      this.client := client;
      this.model := model;
      conversationHistory := [];
      maxIterations := DefaultMaxIterations;
      calls := 0;
    }

    method AddMessage(role: string, content: string)
      modifies this`conversationHistory
      ensures conversationHistory == old(conversationHistory) + [Entry(role, content)]
    {
      conversationHistory := conversationHistory + [Entry(role, content)];
    }

    method Chat(userMessage: string, g: Globals) returns (answer: string)
      modifies this`conversationHistory, this`calls
      ensures var t := ChatTurn(old(conversationHistory), userMessage, maxIterations, model, client, g);
        answer == AnswerText(t.exit) && conversationHistory == t.history && calls == |t.requests|
    {
      AddMessage("user", userMessage);
      calls := 0;
      ghost var bound := Bound(maxIterations);
      ghost var whole := Rounds(conversationHistory, bound, model, client, g);
      ghost var left := bound;
      var iterations := 0;
      while iterations < maxIterations
        invariant 0 <= iterations <= bound && left == bound - iterations
        invariant Continues(whole, calls, Rounds(conversationHistory, left, model, client, g))
        decreases maxIterations - iterations
      {
        iterations := iterations + 1;
        var reply := client(model, conversationHistory);
        calls := calls + 1;
        left := left - 1;
        ghost var rest := Respond(conversationHistory, reply, left, model, client, g);
        assert Continues(whole, calls, rest);
        match reply
        case Failed(e) =>
          assert rest == Turn(Aborted(e), conversationHistory, []);
          answer := ErrorPrefix + e;
          return;
        case Responded(response) =>
          if RequestsTools(response) {
            var toolCalls := response.toolCalls.value;
            conversationHistory := conversationHistory + [Assistant(response.content, toolCalls)];
            var fault := RunToolCalls(toolCalls, g);
            if fault.Some? {
              assert rest == Turn(Aborted(fault.value), conversationHistory, []);
              answer := ErrorPrefix + fault.value;
              return;
            }
            assert rest == Rounds(conversationHistory, left, model, client, g);
          } else {
            assert rest == Turn(Answered(response.content), conversationHistory + [Entry("assistant", response.content)], []);
            AddMessage("assistant", response.content);
            answer := response.content;
            return;
          }
      }
      answer := Sentinel;
    }

    /** The inner `for tool_call in tool_calls` loop: one tool message per call,
        until decoding or a call raises. */
    method RunToolCalls(toolCalls: seq<ToolCall>, g: Globals) returns (fault: Option<string>)
      modifies this`conversationHistory
      ensures conversationHistory == old(conversationHistory) + RunTools(toolCalls, g).messages
      ensures fault == RunTools(toolCalls, g).fault
    {
      ghost var base := conversationHistory;
      var i := 0;
      while i < |toolCalls|
        invariant 0 <= i <= |toolCalls|
        invariant RunTools(toolCalls[..i], g).fault.None?
        invariant conversationHistory == base + RunTools(toolCalls[..i], g).messages
      {
        var toolCall := toolCalls[i];
        assert toolCalls[..i + 1][..i] == toolCalls[..i];
        var functionArgs := g.loads(toolCall.arguments);
        if functionArgs.Failure? {
          RunToolsStopsAtFault(toolCalls, i + 1, g);
          return Some(functionArgs.error);
        }
        var functionResponse := g.callTool(toolCall.name, functionArgs.value);
        assert Invoke(toolCall, g) == functionResponse;
        match functionResponse
        case Threw(e) =>
          RunToolsStopsAtFault(toolCalls, i + 1, g);
          return Some(e);
        case Returned(v) =>
          conversationHistory := conversationHistory + [ToolResult(toolCall.id, toolCall.name, g.dumps(v))];
        i := i + 1;
      }
      assert toolCalls[..|toolCalls|] == toolCalls;
      return None;
    }

    method ResetConversation()
      modifies this`conversationHistory
      ensures conversationHistory == []
    {
      conversationHistory := [];
    }
  }

  // ---------------------------------------------------------------- what a turn guarantees

  /** The history only grows, and every request starts with the history the loop
      was entered with. */
  lemma {:induction false} RoundsExtend(h: seq<Message>, n: nat, model: string, client: Client, g: Globals)
    decreases n
    ensures var t := Rounds(h, n, model, client, g);
      && h <= t.history
      && forall i :: 0 <= i < |t.requests| ==> h <= t.requests[i]
  {
    if n > 0 {
      match client(model, h)
      case Failed(_) =>
      case Responded(r) =>
        if RequestsTools(r) {
          var d := RunTools(r.toolCalls.value, g);
          var next := h + [Assistant(r.content, r.toolCalls.value)] + d.messages;
          if d.fault.None? {
            RoundsExtend(next, n - 1, model, client, g);
            var rest := Rounds(next, n - 1, model, client, g);
            assert h <= next;
            forall i | 0 <= i < |rest.requests| ensures h <= rest.requests[i] {
              assert next <= rest.requests[i];
            }
          }
        }
    }
  }

  /** The user message is appended before the first backend call and is still in
      the history however the turn ends. */
  lemma ChatKeepsUserMessage(h: seq<Message>, userMessage: string, maxIterations: int,
                             model: string, client: Client, g: Globals)
    ensures var t := ChatTurn(h, userMessage, maxIterations, model, client, g);
      && h + [Entry("user", userMessage)] <= t.history
      && forall i :: 0 <= i < |t.requests| ==> h + [Entry("user", userMessage)] <= t.requests[i]
  {
    RoundsExtend(h + [Entry("user", userMessage)], Bound(maxIterations), model, client, g);
  }

  /** At most `remaining` backend calls, at least one when a round is allowed,
      and exactly `remaining` when the bound is what ended the turn. */
  lemma {:induction false} RoundsBounded(h: seq<Message>, n: nat, model: string, client: Client, g: Globals)
    decreases n
    ensures var t := Rounds(h, n, model, client, g);
      && |t.requests| <= n
      && (n > 0 ==> |t.requests| >= 1)
      && (t.exit.Exhausted? ==> |t.requests| == n)
  {
    if n > 0 {
      match client(model, h)
      case Failed(_) =>
      case Responded(r) =>
        if RequestsTools(r) {
          var d := RunTools(r.toolCalls.value, g);
          if d.fault.None? {
            RoundsBounded(h + [Assistant(r.content, r.toolCalls.value)] + d.messages, n - 1, model, client, g);
          }
        }
    }
  }

  /** A `chat` call makes at most `max_iterations` calls to
      `chat.completions.create` (15 unless changed). */
  lemma ChatBounded(h: seq<Message>, userMessage: string, maxIterations: int,
                    model: string, client: Client, g: Globals)
    ensures var t := ChatTurn(h, userMessage, maxIterations, model, client, g);
      && |t.requests| <= Bound(maxIterations)
      && (maxIterations == DefaultMaxIterations ==> |t.requests| <= 15)
      && (t.exit.Exhausted? ==> |t.requests| == Bound(maxIterations))
  {
    RoundsBounded(h + [Entry("user", userMessage)], Bound(maxIterations), model, client, g);
  }

  /** How each exit leaves the history. An answer is the content of a backend
      response without tool calls to the last request, appended as exactly one
      assistant entry. An exception leaves the history as it was when it was
      raised: the last request, or the last request with the echoed tool request
      and the answers to the calls before the one that raised. The sentinel is
      never appended. Apart from a final answer, a turn appends only echoed tool
      requests and tool messages. */
  lemma {:induction false} RoundsExits(h: seq<Message>, n: nat, model: string, client: Client, g: Globals)
    decreases n
    ensures var t := Rounds(h, n, model, client, g);
      && |h| <= |t.history|
      && (t.exit.Answered? ==>
            && |t.requests| >= 1
            && var last := t.requests[|t.requests| - 1];
            && client(model, last).Responded?
            && !RequestsTools(client(model, last).message)
            && client(model, last).message.content == t.exit.content
            && t.history == last + [Entry("assistant", t.exit.content)]
            && forall i :: |h| <= i < |t.history| - 1 ==> ToolRoundMessage(t.history[i]))
      && (t.exit.Aborted? ==>
            && |t.requests| >= 1
            && var last := t.requests[|t.requests| - 1];
            || (client(model, last) == Failed(t.exit.error) && t.history == last)
            || (&& client(model, last).Responded?
                && var r := client(model, last).message;
                && RequestsTools(r)
                && RunTools(r.toolCalls.value, g).fault == Some(t.exit.error)
                && t.history == last + [Assistant(r.content, r.toolCalls.value)] + RunTools(r.toolCalls.value, g).messages))
      && (!t.exit.Answered? ==> forall i :: |h| <= i < |t.history| ==> ToolRoundMessage(t.history[i]))
  {
    if n > 0 {
      var t := Rounds(h, n, model, client, g);
      var rest := Respond(h, client(model, h), n - 1, model, client, g);
      assert t == Turn(rest.exit, rest.history, [h] + rest.requests);
      match client(model, h)
      case Failed(_) =>
        assert t.requests == [h];
      case Responded(r) =>
        if RequestsTools(r) {
          var d := RunTools(r.toolCalls.value, g);
          var next := h + [Assistant(r.content, r.toolCalls.value)] + d.messages;
          assert forall i :: |h| <= i < |next| ==> ToolRoundMessage(next[i]);
          if d.fault.None? {
            assert rest == Rounds(next, n - 1, model, client, g);
            RoundsExits(next, n - 1, model, client, g);
            RoundsExtend(next, n - 1, model, client, g);
            assert forall i :: |h| <= i < |next| ==> rest.history[i] == next[i];
            if rest.requests != [] {
              assert t.requests[|t.requests| - 1] == rest.requests[|rest.requests| - 1];
            }
          } else {
            assert t.requests == [h];
          }
        } else {
          assert t.requests == [h];
        }
    }
  }

  /** A tool round that goes through appends the echoed request followed by one
      answer per call, in request order, each holding the encoded result. */
  lemma ToolRoundAnswersEveryCall(h: seq<Message>, n: nat, model: string, client: Client, g: Globals)
    requires n > 0
    requires client(model, h).Responded? && RequestsTools(client(model, h).message)
    requires forall i :: 0 <= i < |client(model, h).message.toolCalls.value| ==>
      Invoke(client(model, h).message.toolCalls.value[i], g).Returned?
    ensures var r := client(model, h).message;
      var calls := r.toolCalls.value;
      var next := h + [Assistant(r.content, calls)] + RunTools(calls, g).messages;
      && |next| == |h| + 1 + |calls|
      && (forall i :: 0 <= i < |calls| ==> next[|h| + 1 + i] == Answer(calls[i], Invoke(calls[i], g).value, g))
      && var rest := Rounds(next, n - 1, model, client, g);
         Rounds(h, n, model, client, g) == Turn(rest.exit, rest.history, [h] + rest.requests)
  {
    RunToolsAnswersEveryCall(client(model, h).message.toolCalls.value, g);
  }

  /** A call that raises ends the turn with its message, after the answers to
      the calls before it; the later calls are not run. */
  lemma FaultingCallAborts(h: seq<Message>, n: nat, model: string, client: Client, g: Globals, k: nat)
    requires n > 0
    requires client(model, h).Responded? && RequestsTools(client(model, h).message)
    requires k < |client(model, h).message.toolCalls.value|
    requires forall i :: 0 <= i < k ==> Invoke(client(model, h).message.toolCalls.value[i], g).Returned?
    requires Invoke(client(model, h).message.toolCalls.value[k], g).Threw?
    ensures var r := client(model, h).message;
      var calls := r.toolCalls.value;
      var t := Rounds(h, n, model, client, g);
      && t.exit == Aborted(Invoke(calls[k], g).message)
      && t.history == h + [Assistant(r.content, calls)] + RunTools(calls[..k], g).messages
      && |t.history| == |h| + 1 + k
      && t.requests == [h]
  {
    var calls := client(model, h).message.toolCalls.value;
    RunToolsAnswersEveryCall(calls[..k], g);
    assert calls[..k + 1][..k] == calls[..k];
    RunToolsStopsAtFault(calls, k + 1, g);
  }

  /** Arguments that do not decode end the turn with "Chyba: " and the decoder's
      message. */
  lemma UndecodableArgumentsAbort(h: seq<Message>, n: nat, model: string, client: Client, g: Globals, k: nat)
    requires n > 0
    requires client(model, h).Responded? && RequestsTools(client(model, h).message)
    requires k < |client(model, h).message.toolCalls.value|
    requires forall i :: 0 <= i < k ==> Invoke(client(model, h).message.toolCalls.value[i], g).Returned?
    requires g.loads(client(model, h).message.toolCalls.value[k].arguments).Failure?
    ensures var calls := client(model, h).message.toolCalls.value;
      AnswerText(Rounds(h, n, model, client, g).exit) == ErrorPrefix + g.loads(calls[k].arguments).error
  {
    FaultingCallAborts(h, n, model, client, g, k);
  }

  /** A backend that always asks for tools that all decode and return runs the
      turn into the bound: exactly `n` backend calls and the sentinel. */
  lemma {:induction false} AlwaysToolsExhaust(h: seq<Message>, n: nat, model: string, client: Client, g: Globals)
    decreases n
    requires forall hist :: client(model, hist).Responded? && RequestsTools(client(model, hist).message)
    requires forall c :: Invoke(c, g).Returned?
    ensures var t := Rounds(h, n, model, client, g);
      t.exit == Exhausted && |t.requests| == n && AnswerText(t.exit) == Sentinel
  {
    if n > 0 {
      var r := client(model, h).message;
      RunToolsAnswersEveryCall(r.toolCalls.value, g);
      var d := RunTools(r.toolCalls.value, g);
      AlwaysToolsExhaust(h + [Assistant(r.content, r.toolCalls.value)] + d.messages, n - 1, model, client, g);
    }
  }

  // ---------------------------------------------------------------- with the stock-tool server

  /** The globals of OpenAI/main.py: `call_tool_sync` forwards to the server's
      `call_tool_method`. */
  function ServerGlobals(market: McpStockServer.Market, loads: string -> Result<Json, string>, dumps: Json -> string): Globals
  {
    Globals((name: string, args: Json) => McpStockServer.CallToolMethod(name, args, market), loads, dumps)
  }

  /** A call of a tool the server does not know ends the turn with
      "Chyba: Neznámý nástroj: <name>", after the answers to the calls before it. */
  lemma UnknownToolAbortsTurn(h: seq<Message>, n: nat, model: string, client: Client,
                              market: McpStockServer.Market, loads: string -> Result<Json, string>, dumps: Json -> string, k: nat)
    requires n > 0
    requires client(model, h).Responded? && RequestsTools(client(model, h).message)
    requires k < |client(model, h).message.toolCalls.value|
    requires forall i :: 0 <= i < k ==>
      Invoke(client(model, h).message.toolCalls.value[i], ServerGlobals(market, loads, dumps)).Returned?
    requires client(model, h).message.toolCalls.value[k].name != McpStockServer.StockToolName
    requires loads(client(model, h).message.toolCalls.value[k].arguments).Success?
    ensures var r := client(model, h).message;
      var calls := r.toolCalls.value;
      var g := ServerGlobals(market, loads, dumps);
      var t := Rounds(h, n, model, client, g);
      && AnswerText(t.exit) == ErrorPrefix + McpStockServer.UnknownToolPrefix + calls[k].name
      && t.history == h + [Assistant(r.content, calls)] + RunTools(calls[..k], g).messages
      && t.requests == [h]
  {
    var g := ServerGlobals(market, loads, dumps);
    var calls := client(model, h).message.toolCalls.value;
    assert Invoke(calls[k], g) == Threw(McpStockServer.UnknownToolPrefix + calls[k].name);
    FaultingCallAborts(h, n, model, client, g, k);
  }
}
