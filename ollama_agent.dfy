/** The tool-calling conversation loop of the Ollama agent (class `AIAgent` of
    OllamaAI/main.py).

    The chat backend is a total function from the model name and the history to
    a reply or a raised exception; the tool registry `available_functions` maps
    a name to an executor that returns a value or raises; `json.dumps` is an
    opaque encoder. A `chat` call appends the user message, then asks the backend
    at most `max_iterations` times: a reply with tool calls is appended together
    with one tool message per call of a KNOWN tool (unknown names are skipped
    silently) and the loop goes on; a reply without tool calls is appended as the
    assistant's answer and returned. Bound exhaustion returns a fixed sentence,
    and any exception returns "Chyba: " followed by its message. */
module OllamaAgent {
  import opened Wrappers
  import opened Json

  /** `{"function": {"name": name, "arguments": {...}}}` as the backend requests it. */
  datatype ToolCall = ToolCall(name: string, arguments: Json)

  /** An entry of `conversation_history`. */
  datatype Message =
    | Entry(role: string, content: string)                  // {"role": role, "content": content}
    | Assistant(content: string, toolCalls: seq<ToolCall>)  // a backend message that asked for tools, appended as it came

  /** `response['message']`: its content and its `tool_calls` (`None` when absent). */
  datatype Response = Response(content: string, toolCalls: Option<seq<ToolCall>>)

  /** What `client.chat(...)` does: returns a response or raises. */
  datatype Reply = Responded(message: Response) | Failed(error: string)

  type Client = (string, seq<Message>) -> Reply

  /** `available_functions[name](**arguments)` */
  type Executor = Json -> Outcome

  /** The module-level names `chat` uses: the tool registry and `json.dumps`. */
  datatype Globals = Globals(availableFunctions: map<string, Executor>, dumps: Json -> string)

  const DefaultModel := "llama3.2"
  const DefaultMaxIterations := 15
  const Sentinel := "Dosáhli jsme maximálního počtu iterací bez získání odpovědi."
  const ErrorPrefix := "Chyba: "

  /** `if tool_calls:` — neither `None` nor an empty list. */
  predicate RequestsTools(r: Response)
  {
    r.toolCalls.Some? && r.toolCalls.value != []
  }

  /** A message the tool-calling branch appends: the echoed request or a tool result. */
  predicate ToolRoundMessage(m: Message)
  {
    m.Assistant? || m.role == "tool"
  }

  // ---------------------------------------------------------------- one batch of tool calls

  /** The messages the inner `for` loop appends for `calls`, and the message of
      the exception that stopped it, if one did. */
  datatype Dispatch = Dispatch(messages: seq<Message>, fault: Option<string>)

  function RunTools(calls: seq<ToolCall>, g: Globals): (d: Dispatch)
    ensures |d.messages| <= |calls|
    ensures forall i :: 0 <= i < |d.messages| ==> d.messages[i].Entry? && d.messages[i].role == "tool"
  {
    if calls == [] then Dispatch([], None)
    else
      var done := RunTools(calls[..|calls| - 1], g);
      var call := calls[|calls| - 1];
      if done.fault.Some? || call.name !in g.availableFunctions then done
      else match g.availableFunctions[call.name](call.arguments)
        case Returned(v) => Dispatch(done.messages + [Entry("tool", g.dumps(v))], None)
        case Threw(e) => Dispatch(done.messages, Some(e))
  }

  /** Once a call has raised, the later calls are not run. */
  lemma {:induction false} RunToolsStopsAtFault(calls: seq<ToolCall>, k: nat, g: Globals)
    requires k <= |calls| && RunTools(calls[..k], g).fault.Some?
    ensures RunTools(calls, g) == RunTools(calls[..k], g)
  {
    if k < |calls| {
      var init := calls[..|calls| - 1];
      assert init[..k] == calls[..k];
      RunToolsStopsAtFault(init, k, g);
    } else {
      assert calls[..k] == calls;
    }
  }

  /** The calls whose name is in the registry, in request order. */
  function Known(calls: seq<ToolCall>, g: Globals): (ks: seq<ToolCall>)
    ensures |ks| <= |calls|
    ensures forall i :: 0 <= i < |ks| ==> ks[i] in calls && ks[i].name in g.availableFunctions
    ensures (forall i :: 0 <= i < |calls| ==> calls[i].name !in g.availableFunctions) ==> ks == []
  {
    if calls == [] then []
    else
      var init := Known(calls[..|calls| - 1], g);
      var call := calls[|calls| - 1];
      if call.name in g.availableFunctions then init + [call] else init
  }

  /** Every known call returns. */
  predicate KnownCallsReturn(calls: seq<ToolCall>, g: Globals)
  {
    forall i :: 0 <= i < |calls| && calls[i].name in g.availableFunctions ==>
      g.availableFunctions[calls[i].name](calls[i].arguments).Returned?
  }

  function Execute(call: ToolCall, g: Globals): Outcome
    requires call.name in g.availableFunctions
  {
    g.availableFunctions[call.name](call.arguments)
  }

  /** The batch finishes exactly when every call of a known tool returns, and it
      then appends one tool message per known call, carrying the encoded result,
      in request order; unknown names add nothing. */
  lemma {:induction false} RunToolsAnswersKnownCalls(calls: seq<ToolCall>, g: Globals)
    ensures RunTools(calls, g).fault.None? <==> KnownCallsReturn(calls, g)
    ensures RunTools(calls, g).fault.None? ==>
      var ks := Known(calls, g);
      && |RunTools(calls, g).messages| == |ks|
      && forall i :: 0 <= i < |ks| ==>
           Execute(ks[i], g).Returned? &&
           RunTools(calls, g).messages[i] == Entry("tool", g.dumps(Execute(ks[i], g).value))
  {
    if calls != [] {
      var init := calls[..|calls| - 1];
      var call := calls[|calls| - 1];
      RunToolsAnswersKnownCalls(init, g);
      assert forall i :: 0 <= i < |init| ==> init[i] == calls[i];
      if KnownCallsReturn(init, g) {
        var ks := Known(init, g);
        var d := RunTools(init, g);
        assert forall i :: 0 <= i < |ks| ==> Execute(ks[i], g).Returned?;
        if call.name in g.availableFunctions {
          assert Known(calls, g) == ks + [call];
        }
      } else {
        assert !KnownCallsReturn(calls, g);
        RunToolsStopsAtFault(calls, |calls| - 1, g);
      }
    }
  }

  /** When a call raises, the batch keeps the results of the calls before it and
      no more, and reports that call's message: `k` is the call that raised. */
  lemma {:induction false} RunToolsFaultAt(calls: seq<ToolCall>, g: Globals) returns (k: nat)
    requires RunTools(calls, g).fault.Some?
    ensures k < |calls| && calls[k].name in g.availableFunctions
    ensures Execute(calls[k], g) == Threw(RunTools(calls, g).fault.value)
    ensures RunTools(calls[..k], g).fault.None? && RunTools(calls, g).messages == RunTools(calls[..k], g).messages
  {
    var init := calls[..|calls| - 1];
    if RunTools(init, g).fault.Some? {
      k := RunToolsFaultAt(init, g);
      assert init[..k] == calls[..k];
    } else {
      k := |calls| - 1;
    }
  }

  /** Removing the calls of unknown tools changes nothing. */
  lemma {:induction false} RunToolsIgnoresUnknown(calls: seq<ToolCall>, g: Globals)
    ensures RunTools(calls, g) == RunTools(Known(calls, g), g)
  {
    if calls != [] {
      var init := calls[..|calls| - 1];
      var call := calls[|calls| - 1];
      RunToolsIgnoresUnknown(init, g);
      if call.name in g.availableFunctions {
        var ks := Known(init, g) + [call];
        assert ks[..|ks| - 1] == Known(init, g);
      }
    }
  }

  // ---------------------------------------------------------------- the bounded loop

  datatype Exit = Answered(content: string) | Exhausted | Aborted(error: string)

  /** What one `chat` call amounts to: how it ended, the history it leaves and
      the histories it sent to the backend, in order. */
  datatype Turn = Turn(exit: Exit, history: seq<Message>, requests: seq<seq<Message>>)

  /** The string `chat` returns. */
  function AnswerText(e: Exit): string
  {
    match e
    case Answered(content) => content
    case Exhausted => Sentinel
    case Aborted(error) => ErrorPrefix + error
  }

  /** `while iterations < self.max_iterations` with `remaining` rounds left:
      each round sends the history to the backend and goes on with its reply. */
  function Rounds(history: seq<Message>, remaining: nat, model: string, client: Client, g: Globals): Turn
    decreases remaining, 0
  {
    if remaining == 0 then Turn(Exhausted, history, [])
    else
      var rest := Respond(history, client(model, history), remaining - 1, model, client, g);
      Turn(rest.exit, rest.history, [history] + rest.requests)
  }

  /** The body of the `try` after `client.chat` returned `reply`, with `remaining`
      rounds left afterwards: append the tool round and go on, or append the answer
      and stop; an exception stops the turn where it was raised. */
  function Respond(history: seq<Message>, reply: Reply, remaining: nat, model: string, client: Client, g: Globals): Turn
    decreases remaining, 1
  {
    match reply
    case Failed(e) => Turn(Aborted(e), history, [])
    case Responded(r) =>
      if RequestsTools(r) then
        var d := RunTools(r.toolCalls.value, g);
        var next := history + [Assistant(r.content, r.toolCalls.value)] + d.messages;
        if d.fault.Some? then Turn(Aborted(d.fault.value), next, [])
        else Rounds(next, remaining, model, client, g)
      else Turn(Answered(r.content), history + [Entry("assistant", r.content)], [])
  }

  /** The number of rounds a bound allows: a negative bound allows none. */
  function Bound(maxIterations: int): nat
  {
    if maxIterations < 0 then 0 else maxIterations
  }

  /** `chat(user_message)` on the given history. */
  function ChatTurn(history: seq<Message>, userMessage: string, maxIterations: int,
                    model: string, client: Client, g: Globals): Turn
  {
    Rounds(history + [Entry("user", userMessage)], Bound(maxIterations), model, client, g)
  }

  /** `rest` is what is left of `whole` after its first `calls` backend calls. */
  ghost predicate Continues(whole: Turn, calls: nat, rest: Turn)
  {
    whole.exit == rest.exit && whole.history == rest.history && |whole.requests| == calls + |rest.requests|
  }

  // ---------------------------------------------------------------- the agent object

  class AIAgent {
    const client: Client
    const model: string
    var conversationHistory: seq<Message>
    const maxIterations: int
    /** The number of backend calls made by the last `chat` call. */
    ghost var calls: nat

    constructor (client: Client, model: string := DefaultModel)
      ensures this.client == client && this.model == model
      ensures conversationHistory == [] && maxIterations == DefaultMaxIterations && calls == 0
    {
      this.client := client;
      this.model := model;
      conversationHistory := [];
      maxIterations := DefaultMaxIterations;
      calls := 0;
    }

    method AddMessage(role: string, content: string)
      modifies this`conversationHistory
      ensures conversationHistory == old(conversationHistory) + [Entry(role, content)]
    {
      conversationHistory := conversationHistory + [Entry(role, content)];
    }

    method Chat(userMessage: string, g: Globals) returns (answer: string)
      modifies this`conversationHistory, this`calls
      ensures var t := ChatTurn(old(conversationHistory), userMessage, maxIterations, model, client, g);
        answer == AnswerText(t.exit) && conversationHistory == t.history && calls == |t.requests|
    {
      AddMessage("user", userMessage);
      calls := 0;
      ghost var bound := Bound(maxIterations);
      ghost var whole := Rounds(conversationHistory, bound, model, client, g);
      ghost var left := bound;
      var iterations := 0;
      while iterations < maxIterations
        invariant 0 <= iterations <= bound && left == bound - iterations
        invariant Continues(whole, calls, Rounds(conversationHistory, left, model, client, g))
        decreases maxIterations - iterations
      {
        iterations := iterations + 1;
        var reply := client(model, conversationHistory);
        calls := calls + 1;
        left := left - 1;
        ghost var rest := Respond(conversationHistory, reply, left, model, client, g);
        assert Continues(whole, calls, rest);
        match reply
        case Failed(e) =>
          assert rest == Turn(Aborted(e), conversationHistory, []);
          answer := ErrorPrefix + e;
          return;
        case Responded(response) =>
          if RequestsTools(response) {
            var toolCalls := response.toolCalls.value;
            conversationHistory := conversationHistory + [Assistant(response.content, toolCalls)];
            var fault := RunToolCalls(toolCalls, g);
            if fault.Some? {
              assert rest == Turn(Aborted(fault.value), conversationHistory, []);
              answer := ErrorPrefix + fault.value;
              return;
            }
            assert rest == Rounds(conversationHistory, left, model, client, g);
          } else {
            assert rest == Turn(Answered(response.content), conversationHistory + [Entry("assistant", response.content)], []);
            AddMessage("assistant", response.content);
            answer := response.content;
            return;
          }
      }
      answer := Sentinel;
    }

    /** The inner `for tool in tool_calls` loop: a tool message per known call,
        until a call raises. */
    method RunToolCalls(toolCalls: seq<ToolCall>, g: Globals) returns (fault: Option<string>)
      modifies this`conversationHistory
      ensures conversationHistory == old(conversationHistory) + RunTools(toolCalls, g).messages
      ensures fault == RunTools(toolCalls, g).fault
    {
      ghost var base := conversationHistory;
      var i := 0;
      while i < |toolCalls|
        invariant 0 <= i <= |toolCalls|
        invariant RunTools(toolCalls[..i], g).fault.None?
        invariant conversationHistory == base + RunTools(toolCalls[..i], g).messages
      {
        var call := toolCalls[i];
        assert toolCalls[..i + 1][..i] == toolCalls[..i];
        if call.name in g.availableFunctions {
          var outcome := g.availableFunctions[call.name](call.arguments);
          match outcome
          case Threw(e) =>
            RunToolsStopsAtFault(toolCalls, i + 1, g);
            return Some(e);
          case Returned(v) =>
            conversationHistory := conversationHistory + [Entry("tool", g.dumps(v))];
        }
        i := i + 1;
      }
      assert toolCalls[..|toolCalls|] == toolCalls;
      return None;
    }

    method ResetConversation()
      modifies this`conversationHistory
      ensures conversationHistory == []
    {
      conversationHistory := [];
    }
  }

  // ---------------------------------------------------------------- what a turn guarantees

  /** The history only grows, and every request starts with the history the loop
      was entered with. */
  lemma {:induction false} RoundsExtend(h: seq<Message>, n: nat, model: string, client: Client, g: Globals)
    decreases n
    ensures var t := Rounds(h, n, model, client, g);
      && h <= t.history
      && forall i :: 0 <= i < |t.requests| ==> h <= t.requests[i]
  {
    if n > 0 {
      match client(model, h)
      case Failed(_) =>
      case Responded(r) =>
        if RequestsTools(r) {
          var d := RunTools(r.toolCalls.value, g);
          var next := h + [Assistant(r.content, r.toolCalls.value)] + d.messages;
          if d.fault.None? {
            RoundsExtend(next, n - 1, model, client, g);
            var rest := Rounds(next, n - 1, model, client, g);
            assert h <= next;
            forall i | 0 <= i < |rest.requests| ensures h <= rest.requests[i] {
              assert next <= rest.requests[i];
            }
          }
        }
    }
  }

  /** The user message is appended before the first backend call and is still in
      the history however the turn ends. */
  lemma ChatKeepsUserMessage(h: seq<Message>, userMessage: string, maxIterations: int,
                             model: string, client: Client, g: Globals)
    ensures var t := ChatTurn(h, userMessage, maxIterations, model, client, g);
      && h + [Entry("user", userMessage)] <= t.history
      && forall i :: 0 <= i < |t.requests| ==> h + [Entry("user", userMessage)] <= t.requests[i]
  {
    RoundsExtend(h + [Entry("user", userMessage)], Bound(maxIterations), model, client, g);
  }

  /** At most `remaining` backend calls, at least one when a round is allowed,
      and exactly `remaining` when the bound is what ended the turn. */
  lemma {:induction false} RoundsBounded(h: seq<Message>, n: nat, model: string, client: Client, g: Globals)
    decreases n
    ensures var t := Rounds(h, n, model, client, g);
      && |t.requests| <= n
      && (n > 0 ==> |t.requests| >= 1)
      && (t.exit.Exhausted? ==> |t.requests| == n)
  {
    if n > 0 {
      match client(model, h)
      case Failed(_) =>
      case Responded(r) =>
        if RequestsTools(r) {
          var d := RunTools(r.toolCalls.value, g);
          if d.fault.None? {
            RoundsBounded(h + [Assistant(r.content, r.toolCalls.value)] + d.messages, n - 1, model, client, g);
          }
        }
    }
  }

  /** A `chat` call makes at most `max_iterations` backend calls (15 unless changed). */
  lemma ChatBounded(h: seq<Message>, userMessage: string, maxIterations: int,
                    model: string, client: Client, g: Globals)
    ensures var t := ChatTurn(h, userMessage, maxIterations, model, client, g);
      && |t.requests| <= Bound(maxIterations)
      && (maxIterations == DefaultMaxIterations ==> |t.requests| <= 15)
      && (t.exit.Exhausted? ==> |t.requests| == Bound(maxIterations))
  {
    RoundsBounded(h + [Entry("user", userMessage)], Bound(maxIterations), model, client, g);
  }

  /** How each exit leaves the history. An answer is the content of a backend
      response without tool calls to the last request, appended as exactly one
      assistant entry. An exception leaves the history as it was when it was
      raised: the last request, or the last request with the echoed tool request
      and the results of the calls before the one that raised. The sentinel is
      never appended. Apart from a final answer, a turn appends only echoed tool
      requests and tool results. */
  lemma {:induction false} RoundsExits(h: seq<Message>, n: nat, model: string, client: Client, g: Globals)
    decreases n
    ensures var t := Rounds(h, n, model, client, g);
      && |h| <= |t.history|
      && (t.exit.Answered? ==>
            && |t.requests| >= 1
            && var last := t.requests[|t.requests| - 1];
            && client(model, last).Responded?
            && !RequestsTools(client(model, last).message)
            && client(model, last).message.content == t.exit.content
            && t.history == last + [Entry("assistant", t.exit.content)]
            && forall i :: |h| <= i < |t.history| - 1 ==> ToolRoundMessage(t.history[i]))
      && (t.exit.Aborted? ==>
            && |t.requests| >= 1
            && var last := t.requests[|t.requests| - 1];
            || (client(model, last) == Failed(t.exit.error) && t.history == last)
            || (&& client(model, last).Responded?
                && var r := client(model, last).message;
                && RequestsTools(r)
                && RunTools(r.toolCalls.value, g).fault == Some(t.exit.error)
                && t.history == last + [Assistant(r.content, r.toolCalls.value)] + RunTools(r.toolCalls.value, g).messages))
      && (!t.exit.Answered? ==> forall i :: |h| <= i < |t.history| ==> ToolRoundMessage(t.history[i]))
  {
    if n > 0 {
      var t := Rounds(h, n, model, client, g);
      var rest := Respond(h, client(model, h), n - 1, model, client, g);
      assert t == Turn(rest.exit, rest.history, [h] + rest.requests);
      match client(model, h)
      case Failed(_) =>
        assert t.requests == [h];
      case Responded(r) =>
        if RequestsTools(r) {
          var d := RunTools(r.toolCalls.value, g);
          var next := h + [Assistant(r.content, r.toolCalls.value)] + d.messages;
          assert forall i :: |h| <= i < |next| ==> ToolRoundMessage(next[i]);
          if d.fault.None? {
            assert rest == Rounds(next, n - 1, model, client, g);
            RoundsExits(next, n - 1, model, client, g);
            RoundsExtend(next, n - 1, model, client, g);
            assert forall i :: |h| <= i < |next| ==> rest.history[i] == next[i];
            if rest.requests != [] {
              assert t.requests[|t.requests| - 1] == rest.requests[|rest.requests| - 1];
            }
          } else {
            assert t.requests == [h];
          }
        } else {
          assert t.requests == [h];
        }
    }
  }

  /** A tool round in which every known tool returns appends the echoed request
      and one tool message per known call, in request order, each holding the
      encoded result, and the loop asks the backend again. */
  lemma KnownToolRoundContinues(h: seq<Message>, n: nat, model: string, client: Client, g: Globals)
    requires n > 0
    requires client(model, h).Responded? && RequestsTools(client(model, h).message)
    requires KnownCallsReturn(client(model, h).message.toolCalls.value, g)
    ensures var r := client(model, h).message;
      var ks := Known(r.toolCalls.value, g);
      var next := h + [Assistant(r.content, r.toolCalls.value)] + RunTools(r.toolCalls.value, g).messages;
      && |next| == |h| + 1 + |ks|
      && (forall i :: 0 <= i < |ks| ==> next[|h| + 1 + i] == Entry("tool", g.dumps(Execute(ks[i], g).value)))
      && var rest := Rounds(next, n - 1, model, client, g);
         Rounds(h, n, model, client, g) == Turn(rest.exit, rest.history, [h] + rest.requests)
  {
    var r := client(model, h).message;
    var calls := r.toolCalls.value;
    var d := RunTools(calls, g);
    var ks := Known(calls, g);
    RunToolsAnswersKnownCalls(calls, g);
    var next := h + [Assistant(r.content, calls)] + d.messages;
    forall i | 0 <= i < |ks| ensures next[|h| + 1 + i] == Entry("tool", g.dumps(Execute(ks[i], g).value))
    {
      assert next[|h| + 1 + i] == d.messages[i];
    }
    assert Respond(h, client(model, h), n - 1, model, client, g) == Rounds(next, n - 1, model, client, g);
  }

  /** A batch in which only unknown tools are requested adds no tool message and
      the loop asks the backend again. */
  lemma UnknownToolsContinue(h: seq<Message>, n: nat, model: string, client: Client, g: Globals)
    requires n > 0
    requires client(model, h).Responded? && RequestsTools(client(model, h).message)
    requires forall i :: 0 <= i < |client(model, h).message.toolCalls.value| ==>
      client(model, h).message.toolCalls.value[i].name !in g.availableFunctions
    ensures var r := client(model, h).message;
      var rest := Rounds(h + [Assistant(r.content, r.toolCalls.value)], n - 1, model, client, g);
      Rounds(h, n, model, client, g) == Turn(rest.exit, rest.history, [h] + rest.requests)
  {
    var r := client(model, h).message;
    var calls := r.toolCalls.value;
    RunToolsIgnoresUnknown(calls, g);
    assert RunTools(calls, g) == Dispatch([], None);
    assert h + [Assistant(r.content, calls)] + [] == h + [Assistant(r.content, calls)];
  }

  /** A backend that always asks for tools that all return runs the turn into the
      bound: exactly `n` backend calls and the sentinel. */
  lemma {:induction false} AlwaysToolsExhaust(h: seq<Message>, n: nat, model: string, client: Client, g: Globals)
    decreases n
    requires forall hist :: client(model, hist).Responded? && RequestsTools(client(model, hist).message)
                              && KnownCallsReturn(client(model, hist).message.toolCalls.value, g)
    ensures var t := Rounds(h, n, model, client, g);
      t.exit == Exhausted && |t.requests| == n && AnswerText(t.exit) == Sentinel
  {
    if n > 0 {
      var r := client(model, h).message;
      RunToolsAnswersKnownCalls(r.toolCalls.value, g);
      var d := RunTools(r.toolCalls.value, g);
      AlwaysToolsExhaust(h + [Assistant(r.content, r.toolCalls.value)] + d.messages, n - 1, model, client, g);
    }
  }

  /** The two-round exchange: one known tool that returns, then a plain answer,
      leaves user, echoed request, tool result and answer in the history. */
  lemma OneToolRoundThenAnswer(h: seq<Message>, userMessage: string, maxIterations: int,
                               model: string, client: Client, g: Globals, call: ToolCall, answer: string, content: string)
    requires maxIterations >= 2
    requires call.name in g.availableFunctions && Execute(call, g).Returned?
    requires client(model, h + [Entry("user", userMessage)]) == Responded(Response(content, Some([call])))
    requires var h1 := h + [Entry("user", userMessage), Assistant(content, [call]), Entry("tool", g.dumps(Execute(call, g).value))];
      client(model, h1) == Responded(Response(answer, None))
    ensures var t := ChatTurn(h, userMessage, maxIterations, model, client, g);
      && AnswerText(t.exit) == answer
      && |t.history| == |h| + 4
      && |t.requests| == 2
      && t.history[|h| + 3] == Entry("assistant", answer)
  {
    var n := Bound(maxIterations);
    var h0 := h + [Entry("user", userMessage)];
    var tool := Entry("tool", g.dumps(Execute(call, g).value));
    var h1 := h + [Entry("user", userMessage), Assistant(content, [call]), tool];
    assert [call][..|[call]| - 1] == [];
    assert RunTools([], g) == Dispatch([], None);
    assert RunTools([call], g) == Dispatch([tool], None);
    assert h0 + [Assistant(content, [call])] + [tool] == h1;
    assert Respond(h1, client(model, h1), n - 2, model, client, g) == Turn(Answered(answer), h1 + [Entry("assistant", answer)], []);
    var last := Rounds(h1, n - 1, model, client, g);
    assert last == Turn(Answered(answer), h1 + [Entry("assistant", answer)], [h1]);
    assert Rounds(h0, n, model, client, g) == Turn(last.exit, last.history, [h0] + last.requests);
  }
}
