/** The two delegation tools of MSAgent/supervisor_agent.py, `query_database`
    and `translate_text`. Each writes a script that runs a specialised agent, runs
    it as a subprocess and turns what the subprocess did into a result
    dictionary. The script, the subprocess and the agent it runs are not modelled:
    what the subprocess did is a parameter, a `Completion`. What is modelled is
    how the text between the result markers is cut out of the standard output,
    and the result dictionary of every outcome. */
module Supervisor {
  import opened Wrappers
  import opened Strings
  import opened Dicts

  /** How running the agent script ended: it finished with this standard output
      and standard error, it ran past the subprocess timeout
      (`subprocess.TimeoutExpired`), or some other exception was raised, whose
      `str` is `message`. */
  datatype Completion =
    | Completed(stdout: string, stderr: string)
    | TimedOut
    | Raised(message: string)

  /** The lines the agent script prints around the agent's answer. */
  const StartMarker := "AGENT_RESULT_START"
  const EndMarker := "AGENT_RESULT_END"

  /** How much of the standard output and error an error result quotes. */
  const QuoteLength := 500

  const DatabaseAgent := "database_analyst"
  const TranslatorAgent := "translator"
  const DatabaseUnexpected := "Unexpected output from agent. Stdout: "
  const TranslatorUnexpected := "Unexpected output. Stdout: "
  const DatabaseTimeout := "Agent timeout - task took longer than 60 seconds"
  const TranslatorTimeout := "Translation timeout"

  // ---------------------------------------------------------------- extraction

  /** The answer in the agent's output: when both markers occur, the text from
      just after the first start marker and its line break up to the first end
      marker, stripped of surrounding whitespace; `None` when a marker is
      missing. */
  function ExtractResult(output: string): (r: Option<string>)
    ensures r.Some? <==> Contains(output, StartMarker) && Contains(output, EndMarker)
    ensures r.Some? ==> |r.value| <= |output|
  {
    if Contains(output, StartMarker) && Contains(output, EndMarker) then
      var startIdx := Find(output, StartMarker) + |StartMarker + "\n"|;
      var endIdx := Find(output, EndMarker);
      Some(Strip(Slice(output, startIdx, endIdx)))
    else
      None
  }

  /** An extracted answer has no whitespace left at either end. */
  lemma ExtractResultStripped(output: string)
    ensures ExtractResult(output).Some? ==> Strip(ExtractResult(output).value) == ExtractResult(output).value
  {
    if Contains(output, StartMarker) && Contains(output, EndMarker) {
      var startIdx := Find(output, StartMarker) + |StartMarker + "\n"|;
      StripIdempotent(Slice(output, startIdx, Find(output, EndMarker)));
    }
  }

  /** Whether the subprocess produced an answer between the markers. */
  predicate Answered(c: Completion)
  {
    c.Completed? && ExtractResult(c.stdout).Some?
  }

  /** `process.stderr[:500] if process.stderr else ""` */
  function StderrQuote(stderr: string): (r: string)
    ensures |r| <= QuoteLength && r <= stderr
    ensures |stderr| <= QuoteLength ==> r == stderr
    ensures |stderr| > QuoteLength ==> r == stderr[..QuoteLength]
  {
    if stderr != "" then Head(stderr, QuoteLength) else ""
  }

  // ---------------------------------------------------------------- result dictionaries

  /** A result dictionary: the status, the agent, then further fields. */
  function Reply(status: string, agent: string, more: Dict<string>): Dict<string>
  {
    [("status", status), ("agent", agent)] + more
  }

  /** `query_database(task_description)` once the subprocess has ended as `c`. */
  function QueryDatabase(task: string, c: Completion): Dict<string>
  {
    match c
    case Completed(out, err) =>
      (match ExtractResult(out)
       case Some(answer) =>
         Reply("success", DatabaseAgent, [("result", answer), ("task", task)])
       case None =>
         Reply("error", DatabaseAgent, [("error", DatabaseUnexpected + Head(out, QuoteLength)),
                                        ("stderr", StderrQuote(err)), ("task", task)]))
    case TimedOut =>
      Reply("error", DatabaseAgent, [("error", DatabaseTimeout), ("task", task)])
    case Raised(e) =>
      Reply("error", DatabaseAgent, [("error", e), ("task", task)])
  }

  /** `translate_text(text, target_language)` once the subprocess has ended as
      `c`. The target language is accepted and not used. */
  function TranslateText(text: string, targetLanguage: Option<string>, c: Completion): Dict<string>
  {
    match c
    case Completed(out, err) =>
      (match ExtractResult(out)
       case Some(answer) =>
         Reply("success", TranslatorAgent, [("result", answer), ("original_text", text)])
       case None =>
         Reply("error", TranslatorAgent, [("error", TranslatorUnexpected + Head(out, QuoteLength)),
                                          ("stderr", StderrQuote(err))]))
    case TimedOut =>
      Reply("error", TranslatorAgent, [("error", TranslatorTimeout)])
    case Raised(e) =>
      Reply("error", TranslatorAgent, [("error", e)])
  }

  /** A lookup in a dictionary literal looks at its first pair, then at the
      rest. */
  lemma LookupPair(key: string, value: string, rest: Dict<string>, k: string)
    ensures Lookup([(key, value)] + rest, k) == if k == key then Some(value) else Lookup(rest, k)
  {
    assert ([(key, value)] + rest)[1..] == rest;
  }

  /** The fields of a result with one field after the status and the agent. */
  lemma ThreeFields(status: string, agent: string, a: string, x: string, k: string)
    ensures Lookup(Reply(status, agent, [(a, x)]), k)
      == if k == "status" then Some(status) else if k == "agent" then Some(agent)
         else if k == a then Some(x) else None
  {
    assert Reply(status, agent, [(a, x)]) == [("status", status)] + ([("agent", agent)] + ([(a, x)] + []));
    LookupPair("status", status, [("agent", agent)] + ([(a, x)] + []), k);
    LookupPair("agent", agent, [(a, x)] + [], k);
    LookupPair(a, x, [], k);
  }

  /** The same with two fields after the status and the agent. */
  lemma FourFields(status: string, agent: string, a: string, x: string, b: string, y: string, k: string)
    ensures Lookup(Reply(status, agent, [(a, x), (b, y)]), k)
      == if k == "status" then Some(status) else if k == "agent" then Some(agent)
         else if k == a then Some(x) else if k == b then Some(y) else None
  {
    var tail := [(a, x)] + ([(b, y)] + []);
    assert Reply(status, agent, [(a, x), (b, y)]) == [("status", status)] + ([("agent", agent)] + tail);
    LookupPair("status", status, [("agent", agent)] + tail, k);
    LookupPair("agent", agent, tail, k);
    LookupPair(a, x, [(b, y)] + [], k);
    LookupPair(b, y, [], k);
  }

  /** The same with three fields after the status and the agent. */
  lemma FiveFields(status: string, agent: string, a: string, x: string, b: string, y: string, c: string, z: string, k: string)
    ensures Lookup(Reply(status, agent, [(a, x), (b, y), (c, z)]), k)
      == if k == "status" then Some(status) else if k == "agent" then Some(agent)
         else if k == a then Some(x) else if k == b then Some(y) else if k == c then Some(z) else None
  {
    var tail := [(a, x)] + ([(b, y)] + ([(c, z)] + []));
    assert Reply(status, agent, [(a, x), (b, y), (c, z)]) == [("status", status)] + ([("agent", agent)] + tail);
    LookupPair("status", status, [("agent", agent)] + tail, k);
    LookupPair("agent", agent, tail, k);
    LookupPair(a, x, [(b, y)] + ([(c, z)] + []), k);
    LookupPair(b, y, [(c, z)] + [], k);
    LookupPair(c, z, [], k);
  }

  /** A `query_database` result for output with an answer: a success naming the
      agent, the answer and the task, and no error. */
  lemma QueryDatabaseAnswered(task: string, c: Completion)
    requires Answered(c)
    ensures var r := QueryDatabase(task, c);
      && Lookup(r, "status") == Some("success")
      && Lookup(r, "agent") == Some(DatabaseAgent)
      && Lookup(r, "result") == ExtractResult(c.stdout)
      && Lookup(r, "task") == Some(task)
      && !HasKey(r, "error") && !HasKey(r, "stderr")
  {
    var answer := ExtractResult(c.stdout).value;
    FourFields("success", DatabaseAgent, "result", answer, "task", task, "status");
    FourFields("success", DatabaseAgent, "result", answer, "task", task, "agent");
    FourFields("success", DatabaseAgent, "result", answer, "task", task, "result");
    FourFields("success", DatabaseAgent, "result", answer, "task", task, "task");
    FourFields("success", DatabaseAgent, "result", answer, "task", task, "error");
    FourFields("success", DatabaseAgent, "result", answer, "task", task, "stderr");
  }

  /** A `query_database` result for output without an answer: an error naming
      the agent and the task, quoting the head of the output and of the standard
      error. */
  lemma QueryDatabaseUnexpected(task: string, c: Completion)
    requires c.Completed? && !Answered(c)
    ensures var r := QueryDatabase(task, c);
      && Lookup(r, "status") == Some("error")
      && Lookup(r, "agent") == Some(DatabaseAgent)
      && Lookup(r, "error") == Some(DatabaseUnexpected + Head(c.stdout, QuoteLength))
      && Lookup(r, "stderr") == Some(StderrQuote(c.stderr))
      && Lookup(r, "task") == Some(task)
      && !HasKey(r, "result")
  {
    var m, q := DatabaseUnexpected + Head(c.stdout, QuoteLength), StderrQuote(c.stderr);
    FiveFields("error", DatabaseAgent, "error", m, "stderr", q, "task", task, "status");
    FiveFields("error", DatabaseAgent, "error", m, "stderr", q, "task", task, "agent");
    FiveFields("error", DatabaseAgent, "error", m, "stderr", q, "task", task, "error");
    FiveFields("error", DatabaseAgent, "error", m, "stderr", q, "task", task, "stderr");
    FiveFields("error", DatabaseAgent, "error", m, "stderr", q, "task", task, "task");
    FiveFields("error", DatabaseAgent, "error", m, "stderr", q, "task", task, "result");
  }

  /** A `query_database` whose subprocess timed out or raised: an error naming
      the agent and the task, with the timeout message or the exception's text,
      and nothing else. */
  lemma QueryDatabaseAborted(task: string, c: Completion)
    requires !c.Completed?
    ensures var r := QueryDatabase(task, c);
      && Lookup(r, "status") == Some("error")
      && Lookup(r, "agent") == Some(DatabaseAgent)
      && Lookup(r, "error") == Some(if c.TimedOut? then DatabaseTimeout else c.message)
      && Lookup(r, "task") == Some(task)
      && !HasKey(r, "result") && !HasKey(r, "stderr")
  {
    var m := if c.TimedOut? then DatabaseTimeout else c.message;
    FourFields("error", DatabaseAgent, "error", m, "task", task, "status");
    FourFields("error", DatabaseAgent, "error", m, "task", task, "agent");
    FourFields("error", DatabaseAgent, "error", m, "task", task, "error");
    FourFields("error", DatabaseAgent, "error", m, "task", task, "task");
    FourFields("error", DatabaseAgent, "error", m, "task", task, "result");
    FourFields("error", DatabaseAgent, "error", m, "task", task, "stderr");
  }

  /** Every `query_database` result names the agent and the task, and is a
      success exactly when the output holds an answer. */
  lemma QueryDatabaseStatus(task: string, c: Completion)
    ensures var r := QueryDatabase(task, c);
      && Lookup(r, "agent") == Some(DatabaseAgent)
      && Lookup(r, "task") == Some(task)
      && (Lookup(r, "status") == Some("success") <==> Answered(c))
      && (HasKey(r, "error") <==> !Answered(c))
  {
    if Answered(c) {
      QueryDatabaseAnswered(task, c);
    } else if c.Completed? {
      QueryDatabaseUnexpected(task, c);
    } else {
      QueryDatabaseAborted(task, c);
    }
  }

  /** A `translate_text` result for output with an answer: a success naming the
      agent, the answer and the original text, and no error. */
  lemma TranslateTextAnswered(text: string, language: Option<string>, c: Completion)
    requires Answered(c)
    ensures var r := TranslateText(text, language, c);
      && Lookup(r, "status") == Some("success")
      && Lookup(r, "agent") == Some(TranslatorAgent)
      && Lookup(r, "result") == ExtractResult(c.stdout)
      && Lookup(r, "original_text") == Some(text)
      && !HasKey(r, "error") && !HasKey(r, "stderr") && !HasKey(r, "task")
  {
    var answer := ExtractResult(c.stdout).value;
    FourFields("success", TranslatorAgent, "result", answer, "original_text", text, "status");
    FourFields("success", TranslatorAgent, "result", answer, "original_text", text, "agent");
    FourFields("success", TranslatorAgent, "result", answer, "original_text", text, "result");
    FourFields("success", TranslatorAgent, "result", answer, "original_text", text, "original_text");
    FourFields("success", TranslatorAgent, "result", answer, "original_text", text, "error");
    FourFields("success", TranslatorAgent, "result", answer, "original_text", text, "stderr");
    FourFields("success", TranslatorAgent, "result", answer, "original_text", text, "task");
  }

  /** A `translate_text` result for output without an answer: an error naming
      the agent, quoting the head of the output and of the standard error, and
      without the original text. */
  lemma TranslateTextUnexpected(text: string, language: Option<string>, c: Completion)
    requires c.Completed? && !Answered(c)
    ensures var r := TranslateText(text, language, c);
      && Lookup(r, "status") == Some("error")
      && Lookup(r, "agent") == Some(TranslatorAgent)
      && Lookup(r, "error") == Some(TranslatorUnexpected + Head(c.stdout, QuoteLength))
      && Lookup(r, "stderr") == Some(StderrQuote(c.stderr))
      && !HasKey(r, "result") && !HasKey(r, "original_text") && !HasKey(r, "task")
  {
    var m, q := TranslatorUnexpected + Head(c.stdout, QuoteLength), StderrQuote(c.stderr);
    FourFields("error", TranslatorAgent, "error", m, "stderr", q, "status");
    FourFields("error", TranslatorAgent, "error", m, "stderr", q, "agent");
    FourFields("error", TranslatorAgent, "error", m, "stderr", q, "error");
    FourFields("error", TranslatorAgent, "error", m, "stderr", q, "stderr");
    FourFields("error", TranslatorAgent, "error", m, "stderr", q, "result");
    FourFields("error", TranslatorAgent, "error", m, "stderr", q, "original_text");
    FourFields("error", TranslatorAgent, "error", m, "stderr", q, "task");
  }

  /** A `translate_text` whose subprocess timed out or raised: an error naming
      the agent, with the timeout message or the exception's text, and nothing
      else. */
  lemma TranslateTextAborted(text: string, language: Option<string>, c: Completion)
    requires !c.Completed?
    ensures var r := TranslateText(text, language, c);
      && Lookup(r, "status") == Some("error")
      && Lookup(r, "agent") == Some(TranslatorAgent)
      && Lookup(r, "error") == Some(if c.TimedOut? then TranslatorTimeout else c.message)
      && !HasKey(r, "result") && !HasKey(r, "stderr") && !HasKey(r, "original_text") && !HasKey(r, "task")
  {
    var m := if c.TimedOut? then TranslatorTimeout else c.message;
    ThreeFields("error", TranslatorAgent, "error", m, "status");
    ThreeFields("error", TranslatorAgent, "error", m, "agent");
    ThreeFields("error", TranslatorAgent, "error", m, "error");
    ThreeFields("error", TranslatorAgent, "error", m, "result");
    ThreeFields("error", TranslatorAgent, "error", m, "stderr");
    ThreeFields("error", TranslatorAgent, "error", m, "original_text");
    ThreeFields("error", TranslatorAgent, "error", m, "task");
  }

  /** Every `translate_text` result names the translator, carries the original
      text exactly when it is a success, which it is exactly when the output
      holds an answer, and does not depend on the target language. */
  lemma TranslateTextStatus(text: string, language: Option<string>, c: Completion)
    ensures var r := TranslateText(text, language, c);
      && r == TranslateText(text, None, c)
      && Lookup(r, "agent") == Some(TranslatorAgent)
      && (Lookup(r, "status") == Some("success") <==> Answered(c))
      && (HasKey(r, "original_text") <==> Answered(c))
      && (HasKey(r, "error") <==> !Answered(c))
  {
    if Answered(c) {
      TranslateTextAnswered(text, language, c);
    } else if c.Completed? {
      TranslateTextUnexpected(text, language, c);
    } else {
      TranslateTextAborted(text, language, c);
    }
  }

  /** The message for unexpected output quotes the output from its start:
      its first 500 characters, and all of it when it is no longer. */
  lemma UnexpectedQuotesHead(unexpected: string, out: string)
    ensures var m := unexpected + Head(out, QuoteLength);
      && |m| <= |unexpected| + QuoteLength
      && m == unexpected + out[..if |out| < QuoteLength then |out| else QuoteLength]
      && (|out| <= QuoteLength ==> m == unexpected + out)
  {
    var h := Head(out, QuoteLength);
    var n := if |out| < QuoteLength then |out| else QuoteLength;
    assert h == out[..n];
    if |out| <= QuoteLength {
      assert out[..|out|] == out;
    }
  }

  // ---------------------------------------------------------------- the framed answer

  /** The standard output of an agent script whose agent answered `text`: the
      three lines the script prints, with whatever else was printed before and
      after. */
  function AgentOutput(before: string, text: string, after: string): string
  {
    before + StartMarker + "\n" + text + "\n" + EndMarker + "\n" + after
  }

  /** Where the pieces of `AgentOutput` lie. */
  lemma AgentOutputLayout(before: string, text: string, after: string)
    ensures var out, p := AgentOutput(before, text, after), |before|;
      var t0 := p + |StartMarker| + 1;
      var e := t0 + |text| + 1;
      && e + |EndMarker| <= |out|
      && out[..p] == before
      && out[p..p + |StartMarker|] == StartMarker
      && out[p + |StartMarker|] == '\n'
      && out[t0..t0 + |text|] == text
      && out[t0..e] == text + "\n"
      && out[e - 1] == '\n'
      && out[e..e + |EndMarker|] == EndMarker
  {
    FrameLayout(before, StartMarker, text, EndMarker, after);
  }

  /** Where the pieces lie when `text` is printed between the lines `start`
      and `end`. */
  lemma FrameLayout(before: string, start: string, text: string, end: string, after: string)
    ensures var out, p := before + start + "\n" + text + "\n" + end + "\n" + after, |before|;
      var t0 := p + |start| + 1;
      var e := t0 + |text| + 1;
      && e + |end| <= |out|
      && out[..p] == before
      && out[p..p + |start|] == start
      && out[p + |start|] == '\n'
      && out[t0..t0 + |text|] == text
      && out[t0..e] == text + "\n"
      && out[e - 1] == '\n'
      && out[e..e + |end|] == end
  {
    var out := before + start + "\n" + text + "\n" + end + "\n" + after;
    var p := |before|;
    var head := before + start + "\n";
    var body := text + "\n";
    var tail := end + "\n" + after;
    assert out == head + body + tail;
    assert out[..p] == head[..p] == before;
    assert out[p..p + |start|] == head[p..p + |start|] == start;
    assert out[p + |start|] == head[p + |start|];
    var t0 := |head|;
    assert out[t0..t0 + |body|] == body;
    assert out[t0..t0 + |text|] == body[..|text|] == text;
    var e := t0 + |body|;
    assert out[e..e + |end|] == tail[..|end|] == end;
  }

  /** The end marker does not occur in the start marker. */
  lemma EndMarkerNotInStartMarker(d: nat)
    requires d <= 2
    ensures !OccursAt(StartMarker, EndMarker, d)
  {
    var w := StartMarker[d..d + |EndMarker|];
    assert EndMarker[0] == 'A' && EndMarker[13] == 'E';
    if d == 0 {
      assert StartMarker[13] == 'S';
      assert w[13] == StartMarker[13];
    } else {
      assert StartMarker[1] == 'G' && StartMarker[2] == 'E';
      assert w[0] == StartMarker[d];
    }
  }

  /** The first start marker of `AgentOutput` is the one the script printed,
      when the text printed before it does not contain it and ends a line. */
  lemma FindStartMarker(before: string, text: string, after: string)
    requires before == [] || before[|before| - 1] == '\n'
    requires !Contains(before, StartMarker)
    ensures Find(AgentOutput(before, text, after), StartMarker) == |before|
  {
    var out, p := AgentOutput(before, text, after), |before|;
    AgentOutputLayout(before, text, after);
    assert '\n' !in StartMarker;
    forall k | 0 <= k < p
      ensures !OccursAt(out, StartMarker, k)
    {
      if k + |StartMarker| <= p {
        OccursInPiece(out, 0, before, StartMarker, k);
      } else {
        NotAcrossNewline(out, StartMarker, k, p - 1);
      }
    }
    FindIs(out, StartMarker, p);
  }

  /** The first end marker of `AgentOutput` is the one the script printed, when
      neither the text printed before it nor the answer contains it. */
  lemma FindEndMarker(before: string, text: string, after: string)
    requires before == [] || before[|before| - 1] == '\n'
    requires !Contains(before, EndMarker) && !Contains(text, EndMarker)
    ensures Find(AgentOutput(before, text, after), EndMarker) == |before| + |StartMarker| + 1 + |text| + 1
  {
    var out, p := AgentOutput(before, text, after), |before|;
    var t0 := p + |StartMarker| + 1;
    var n := t0 + |text|;
    AgentOutputLayout(before, text, after);
    assert '\n' !in EndMarker;
    forall k | 0 <= k < n + 1
      ensures !OccursAt(out, EndMarker, k)
    {
      if k + |EndMarker| <= p {
        OccursInPiece(out, 0, before, EndMarker, k);
      } else if k < p {
        NotAcrossNewline(out, EndMarker, k, p - 1);
      } else if k <= p + 2 {
        OccursInPiece(out, p, StartMarker, EndMarker, k);
        EndMarkerNotInStartMarker(k - p);
      } else if k < t0 {
        NotAcrossNewline(out, EndMarker, k, t0 - 1);
      } else if k + |EndMarker| <= n {
        OccursInPiece(out, t0, text, EndMarker, k);
      } else {
        NotAcrossNewline(out, EndMarker, k, n);
      }
    }
    FindIs(out, EndMarker, n + 1);
  }

  /** What the script prints is what the tool extracts: the agent's answer,
      stripped. It holds whenever the output before the three lines does not
      contain a marker and ends a line, and the answer does not contain the end
      marker. */
  lemma {:induction false} ExtractAgentOutput(before: string, text: string, after: string)
    requires before == [] || before[|before| - 1] == '\n'
    requires !Contains(before, StartMarker) && !Contains(before, EndMarker)
    requires !Contains(text, EndMarker)
    ensures ExtractResult(AgentOutput(before, text, after)) == Some(Strip(text))
  {
    var out := AgentOutput(before, text, after);
    FindStartMarker(before, text, after);
    FindEndMarker(before, text, after);
    AgentOutputLayout(before, text, after);
    ExtractFramed(out, |before|, text);
  }

  /** An output whose first start marker is at `s` and whose first end marker
      follows the line after it, with `text` and a line break between, gives
      `text` stripped. */
  lemma ExtractFramed(output: string, s: nat, text: string)
    requires s + |StartMarker| + 1 + |text| + 1 <= |output|
    requires Find(output, StartMarker) == s
    requires Find(output, EndMarker) == s + |StartMarker| + 1 + |text| + 1
    requires output[s + |StartMarker| + 1..s + |StartMarker| + 1 + |text| + 1] == text + "\n"
    ensures ExtractResult(output) == Some(Strip(text))
  {
    var t0 := s + |StartMarker| + 1;
    var e := t0 + |text| + 1;
    assert Slice(output, t0, e) == text + "\n";
    NewlineStrip(text);
    ExtractAt(output, s, e);
  }

  /** With both markers found, the answer is what stands between the line of
      the first start marker and the first end marker, stripped. */
  lemma ExtractAt(output: string, s: nat, e: nat)
    requires Find(output, StartMarker) == s && Find(output, EndMarker) == e
    ensures ExtractResult(output) == Some(Strip(Slice(output, s + |StartMarker| + 1, e)))
  {
    ExtractUnfold(output);
    SameSlice(output, Find(output, StartMarker) + |StartMarker| + 1, s + |StartMarker| + 1, Find(output, EndMarker), e);
  }

  /** Equal bounds give equal slices (kept apart so that no search result is
      in scope while the bounds are compared). */
  lemma SameSlice(output: string, i: nat, i': nat, j: nat, j': nat)
    requires i == i' && j == j'
    ensures Slice(output, i, j) == Slice(output, i', j')
  {
  }

  /** `ExtractResult` with both markers present, in terms of the searches. */
  lemma ExtractUnfold(output: string)
    requires Find(output, StartMarker) >= 0 && Find(output, EndMarker) >= 0
    ensures ExtractResult(output) == Some(Strip(Slice(output, Find(output, StartMarker) + |StartMarker| + 1, Find(output, EndMarker))))
  {
    assert |StartMarker + "\n"| == |StartMarker| + 1;
  }

  /** The line break that ends the answer's line is stripped with it. */
  lemma NewlineStrip(text: string)
    ensures Strip(text + "\n") == Strip(text)
  {
    assert IsSpace("\n"[0]);
    StripTrailingSpace(text, "\n");
  }

  /** A database agent that answers makes `query_database` succeed with its
      answer; one whose answer has no surrounding whitespace has it passed on
      unchanged. */
  lemma QueryDatabaseAnswer(task: string, before: string, text: string, after: string, err: string)
    requires before == [] || before[|before| - 1] == '\n'
    requires !Contains(before, StartMarker) && !Contains(before, EndMarker)
    requires !Contains(text, EndMarker)
    ensures var r := QueryDatabase(task, Completed(AgentOutput(before, text, after), err));
      && Lookup(r, "status") == Some("success")
      && Lookup(r, "result") == Some(Strip(text))
      && (text == [] || (!IsSpace(text[0]) && !IsSpace(text[|text| - 1])) ==> Lookup(r, "result") == Some(text))
  {
    var c := Completed(AgentOutput(before, text, after), err);
    ExtractAgentOutput(before, text, after);
    QueryDatabaseAnswered(task, c);
    if text == [] || (!IsSpace(text[0]) && !IsSpace(text[|text| - 1])) {
      StripStripped(text);
    }
  }

  /** A translator agent that answers makes `translate_text` succeed with its
      answer, next to the original text. */
  lemma TranslateTextAnswer(text: string, language: Option<string>, before: string, answer: string, after: string, err: string)
    requires before == [] || before[|before| - 1] == '\n'
    requires !Contains(before, StartMarker) && !Contains(before, EndMarker)
    requires !Contains(answer, EndMarker)
    ensures var r := TranslateText(text, language, Completed(AgentOutput(before, answer, after), err));
      && Lookup(r, "status") == Some("success")
      && Lookup(r, "result") == Some(Strip(answer))
      && Lookup(r, "original_text") == Some(text)
  {
    var c := Completed(AgentOutput(before, answer, after), err);
    ExtractAgentOutput(before, answer, after);
    TranslateTextAnswered(text, language, c);
  }
}
