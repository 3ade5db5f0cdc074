/** The agent: a history that starts with the system prompt, and `ask`,
    which adds the retrieved context to the user's question and then
    alternates between the model and the tools it calls, for at most
    `maxIterations` tool-calling turns. */
module Agent {
  import opened Wrappers
  import opened Text
  import opened Messages
  import opened Dispatch
  import opened Logging

  const DefaultMaxIterations: int := 20

  /** `create_history()`; the prompt text (which embeds today's date) is a
      parameter. */
  function CreateHistory(systemPrompt: string): (h: seq<Message>)
    ensures |h| == 1 && h[0] == SystemMessage(systemPrompt)
  {
    [SystemMessage(systemPrompt)]
  }

  /** The human message: the heading, the passages one per line, an empty
      line and the question. */
  function ContextualizedQuery(passages: seq<string>, query: string): (r: string)
    ensures |ContextHeading| < |r| && r[..|ContextHeading| + 1] == ContextHeading + "\n"
    ensures EndsWith(r, "\n\n" + QuestionLead + query)
  {
    var r := ContextHeading + "\n" + Join("\n", passages) + "\n\n" + QuestionLead + query;
    var tail := "\n\n" + QuestionLead + query;
    assert r == (ContextHeading + "\n") + (Join("\n", passages) + tail);
    assert r[|r| - |tail|..] == tail;
    r
  }

  /** The working list `ask` starts from: a copy of the history and one
      human message. */
  function StartMessages(history: seq<Message>, passages: seq<string>, query: string): (ms: seq<Message>)
    ensures |ms| == |history| + 1 && ms[..|history|] == history
    ensures ms[|history|] == HumanMessage(ContextualizedQuery(passages, query))
  {
    history + [HumanMessage(ContextualizedQuery(passages, query))]
  }

  const ContextHeading: string := "Konteks Dokumen:"
  const QuestionLead: string := "Pertanyaan Pengguna: "

  /** The lines of the human message: the heading, the passages in
      retrieval order (one empty line when there is none, as `"\n".join`
      of nothing is ""), an empty line and the question. */
  function ContextLines(passages: seq<string>, query: string): seq<string>
  {
    [ContextHeading] + (if passages == [] then [""] else passages) + ["", QuestionLead + query]
  }

  lemma ContextLayout(passages: seq<string>, query: string)
    ensures ContextualizedQuery(passages, query) == Join("\n", ContextLines(passages, query))
  {
    FramedJoin(ContextHeading, passages, QuestionLead + query);
  }

  /** The human message splits, line by line, into the heading, the
      passages in retrieval order (or one empty line), an empty line and
      the question. */
  lemma ContextualizedQueryLines(passages: seq<string>, query: string)
    requires forall i | 0 <= i < |passages| :: '\n' !in passages[i]
    requires '\n' !in query
    ensures Split(ContextualizedQuery(passages, query), "\n") == ContextLines(passages, query)
  {
    ContextLayout(passages, query);
    var lines := ContextLines(passages, query);
    assert '\n' !in QuestionLead;
    assert '\n' !in ContextHeading;
    forall k | 0 <= k < |lines| ensures SepFree(lines[k], "\n") {
      NewlineFree(lines[k]);
    }
    SplitJoin("\n", lines);
  }

  /** With nothing retrieved the message is the heading, two empty lines and
      the question. */
  lemma EmptyRetrieval(query: string)
    requires '\n' !in query
    ensures Split(ContextualizedQuery([], query), "\n") == [ContextHeading, "", "", QuestionLead + query]
  {
    ContextualizedQueryLines([], query);
  }

  // ---------------------------------------------------------------------
  // the loop, as a function

  /** One model response: its content and the tool calls it asks for. */
  datatype Reply = Reply(content: string, toolCalls: seq<ToolCall>)

  /** Why `ask` raises. */
  datatype AskError =
    | MaxIterationsReached
    | ModelRaised(message: string)
    | ToolFailed(error: CallError)

  /** The working list when the loop stops, how it stopped, how often the
      model was invoked and how many tool-calling turns completed. */
  datatype Run = Run(messages: seq<Message>, outcome: Result<string, AskError>, modelCalls: nat, turns: nat)

  /** The inner `for` loop: one `call_tool` per call, in emission order,
      each result appended; the first failure propagates. */
  function DispatchAll(calls: seq<ToolCall>, invoke: (ToolName, map<string, Scalar>) -> Result<string, string>,
                       ms: seq<Message>): (r: Result<seq<Message>, CallError>)
    ensures r.Success? ==> |r.value| == |ms| + |calls| && r.value[..|ms|] == ms
    ensures r.Success? ==> forall i | |ms| <= i < |r.value| :: r.value[i].ToolMessage?
    decreases |calls|
  {
    if calls == [] then Success(ms)
    else match CallTool(calls[0], invoke)
      case Failure(e) => Failure(e)
      case Success(m) =>
        var r := DispatchAll(calls[1..], invoke, ms + [m]);
        if r.Success? then
          assert r.value[..|ms|] == (ms + [m])[..|ms|];
          assert r.value[|ms|] == m && m.ToolMessage?;
          r
        else r
  }

  /** The `while` loop from iteration `n`: the model is invoked unless no
      iteration is left, and the working list never shrinks. */
  function Converse(model: seq<Message> -> Result<Reply, string>,
                    invoke: (ToolName, map<string, Scalar>) -> Result<string, string>,
                    ms: seq<Message>, n: int, maxIterations: int): (r: Run)
    ensures r.modelCalls == 0 <==> n >= maxIterations
    ensures |r.messages| >= |ms|
    decreases maxIterations - n
  {
    if n >= maxIterations then Run(ms, Failure(MaxIterationsReached), 0, 0)
    else match model(ms)
      case Failure(e) => Run(ms, Failure(ModelRaised(e)), 1, 0)
      case Success(reply) =>
        var withReply := ms + [AiMessage(reply.content, reply.toolCalls)];
        if reply.toolCalls == [] then Run(withReply, Success(reply.content), 1, 0)
        else match DispatchAll(reply.toolCalls, invoke, withReply)
          case Failure(e) => Run(withReply, Failure(ToolFailed(e)), 1, 0)
          case Success(answered) =>
            var rest := Converse(model, invoke, answered, n + 1, maxIterations);
            Run(rest.messages, rest.outcome, rest.modelCalls + 1, rest.turns + 1)
  }

  /** With no iterations left the loop raises without invoking the model. */
  lemma NoBudget(model: seq<Message> -> Result<Reply, string>,
                 invoke: (ToolName, map<string, Scalar>) -> Result<string, string>,
                 ms: seq<Message>, maxIterations: int)
    requires maxIterations <= 0
    ensures var r := Converse(model, invoke, ms, 0, maxIterations);
            r.outcome == Failure(MaxIterationsReached) && r.modelCalls == 0
  {
  }

  /** The model is invoked at most once per remaining iteration; every
      invocation but possibly the last opens a tool-calling turn; and the
      loop gives up only after all iterations were used by such turns. */
  lemma {:induction false} Bounds(model: seq<Message> -> Result<Reply, string>,
                                  invoke: (ToolName, map<string, Scalar>) -> Result<string, string>,
                                  ms: seq<Message>, n: int, maxIterations: int)
    ensures var r := Converse(model, invoke, ms, n, maxIterations);
            var budget := if maxIterations > n then maxIterations - n else 0;
            r.modelCalls <= budget &&
            r.turns <= r.modelCalls <= r.turns + 1 &&
            (r.outcome == Failure(MaxIterationsReached) <==> r.turns == budget)
    decreases maxIterations - n
  {
    if n < maxIterations && model(ms).Success? {
      var reply := model(ms).value;
      var withReply := ms + [AiMessage(reply.content, reply.toolCalls)];
      if reply.toolCalls != [] && DispatchAll(reply.toolCalls, invoke, withReply).Success? {
        Bounds(model, invoke, DispatchAll(reply.toolCalls, invoke, withReply).value, n + 1, maxIterations);
      }
    }
  }

  /** A model that always asks for tools that all answer is invoked exactly
      `maxIterations` times, and then the loop raises. */
  lemma {:induction false} AlwaysTools(model: seq<Message> -> Result<Reply, string>,
                                       invoke: (ToolName, map<string, Scalar>) -> Result<string, string>,
                                       ms: seq<Message>, n: int, maxIterations: int)
    requires forall m :: model(m).Success? && model(m).value.toolCalls != []
    requires forall m, c | c in model(m).value.toolCalls :: CallTool(c, invoke).Success?
    requires n <= maxIterations
    ensures var r := Converse(model, invoke, ms, n, maxIterations);
            r.outcome == Failure(MaxIterationsReached) && r.modelCalls == maxIterations - n
    decreases maxIterations - n
  {
    if n < maxIterations {
      var reply := model(ms).value;
      var withReply := ms + [AiMessage(reply.content, reply.toolCalls)];
      DispatchAnswers(reply.toolCalls, invoke, withReply);
      AlwaysTools(model, invoke, DispatchAll(reply.toolCalls, invoke, withReply).value, n + 1, maxIterations);
    }
  }

  /** The tool messages of calls that all succeed, in emission order. */
  function Answers(calls: seq<ToolCall>, invoke: (ToolName, map<string, Scalar>) -> Result<string, string>): seq<Message>
    requires forall c | c in calls :: CallTool(c, invoke).Success?
  {
    seq(|calls|, i requires 0 <= i < |calls| && calls[i] in calls => CallTool(calls[i], invoke).value)
  }

  lemma {:induction false} DispatchAnswers(calls: seq<ToolCall>,
                                           invoke: (ToolName, map<string, Scalar>) -> Result<string, string>,
                                           ms: seq<Message>)
    requires forall c | c in calls :: CallTool(c, invoke).Success?
    ensures DispatchAll(calls, invoke, ms) == Success(ms + Answers(calls, invoke))
    decreases |calls|
  {
    if calls != [] {
      var m := CallTool(calls[0], invoke).value;
      assert forall c | c in calls[1..] :: c in calls;
      assert DispatchAll(calls, invoke, ms) == DispatchAll(calls[1..], invoke, ms + [m]);
      DispatchAnswers(calls[1..], invoke, ms + [m]);
      assert forall i | 1 <= i < |calls| :: calls[i] == calls[1..][i - 1];
      assert Answers(calls, invoke) == [m] + Answers(calls[1..], invoke);
      assert ms + [m] + Answers(calls[1..], invoke) == ms + ([m] + Answers(calls[1..], invoke));
    } else {
      assert Answers(calls, invoke) == [];
      assert ms + [] == ms;
    }
  }

  /** One tool-calling turn: the next model invocation sees the response
      followed by exactly one tool message per call, in emission order,
      each under its call's id. */
  lemma Turn(model: seq<Message> -> Result<Reply, string>,
             invoke: (ToolName, map<string, Scalar>) -> Result<string, string>,
             ms: seq<Message>, n: int, maxIterations: int)
    requires n < maxIterations && model(ms).Success? && model(ms).value.toolCalls != []
    requires forall c | c in model(ms).value.toolCalls :: CallTool(c, invoke).Success?
    ensures var reply := model(ms).value;
            var answers := Answers(reply.toolCalls, invoke);
            var next := ms + [AiMessage(reply.content, reply.toolCalls)] + answers;
            var r := Converse(model, invoke, ms, n, maxIterations);
            var r' := Converse(model, invoke, next, n + 1, maxIterations);
            |answers| == |reply.toolCalls| &&
            (forall i | 0 <= i < |answers| :: answers[i].ToolMessage? && answers[i].toolCallId == CallId(reply.toolCalls[i])) &&
            r.outcome == r'.outcome && r.modelCalls == r'.modelCalls + 1 && r.turns == r'.turns + 1
  {
    var reply := model(ms).value;
    DispatchAnswers(reply.toolCalls, invoke, ms + [AiMessage(reply.content, reply.toolCalls)]);
    var answers := Answers(reply.toolCalls, invoke);
    forall i | 0 <= i < |answers| ensures answers[i].ToolMessage? && answers[i].toolCallId == CallId(reply.toolCalls[i]) {
      var c := reply.toolCalls[i];
      assert c in reply.toolCalls;
      var t := Lookup(c.name).value;
      CallToolAnswers(c, t, invoke, invoke(t, c.args).value);
    }
  }

  /** The first response without tool calls ends the loop with its content,
      which is also the last message of the working list. */
  lemma {:induction false} AnswerIsLastReply(model: seq<Message> -> Result<Reply, string>,
                                             invoke: (ToolName, map<string, Scalar>) -> Result<string, string>,
                                             ms: seq<Message>, n: int, maxIterations: int)
    requires Converse(model, invoke, ms, n, maxIterations).outcome.Success?
    ensures var r := Converse(model, invoke, ms, n, maxIterations);
            |r.messages| > 0 && r.messages[|r.messages| - 1] == AiMessage(r.outcome.value, [])
    decreases maxIterations - n
  {
    var reply := model(ms).value;
    var withReply := ms + [AiMessage(reply.content, reply.toolCalls)];
    if reply.toolCalls != [] {
      AnswerIsLastReply(model, invoke, DispatchAll(reply.toolCalls, invoke, withReply).value, n + 1, maxIterations);
    }
  }

  /** The loop only appends, and only model responses and tool results: the
      list it started from (the caller's history and the question) is kept
      in front, unchanged. */
  lemma {:induction false} OnlyAppends(model: seq<Message> -> Result<Reply, string>,
                                       invoke: (ToolName, map<string, Scalar>) -> Result<string, string>,
                                       ms: seq<Message>, n: int, maxIterations: int)
    ensures var r := Converse(model, invoke, ms, n, maxIterations);
            |ms| <= |r.messages| && r.messages[..|ms|] == ms &&
            forall i | |ms| <= i < |r.messages| :: r.messages[i].AiMessage? || r.messages[i].ToolMessage?
    decreases maxIterations - n
  {
    if n < maxIterations && model(ms).Success? {
      var reply := model(ms).value;
      var withReply := ms + [AiMessage(reply.content, reply.toolCalls)];
      if reply.toolCalls != [] && DispatchAll(reply.toolCalls, invoke, withReply).Success? {
        var answered := DispatchAll(reply.toolCalls, invoke, withReply).value;
        OnlyAppends(model, invoke, answered, n + 1, maxIterations);
        var r := Converse(model, invoke, answered, n + 1, maxIterations);
        assert answered[..|ms|] == ms by {
          assert answered[..|withReply|] == withReply;
          assert withReply[..|ms|] == ms;
        }
        assert r.messages[..|ms|] == answered[..|ms|];
        forall i | |ms| <= i < |r.messages|
          ensures r.messages[i].AiMessage? || r.messages[i].ToolMessage?
        {
          if i < |answered| {
            assert r.messages[i] == answered[i];
            if i >= |withReply| {
              assert answered[i].ToolMessage?;
            } else {
              assert answered[i] == withReply[i];
            }
          }
        }
      }
    }
  }

  /** A list with the system message first and nowhere else keeps that
      shape through the loop. */
  lemma SystemMessageStaysFirst(model: seq<Message> -> Result<Reply, string>,
                                invoke: (ToolName, map<string, Scalar>) -> Result<string, string>,
                                ms: seq<Message>, n: int, maxIterations: int)
    requires |ms| >= 1 && ms[0].SystemMessage?
    requires forall i | 1 <= i < |ms| :: !ms[i].SystemMessage?
    ensures var r := Converse(model, invoke, ms, n, maxIterations);
            |r.messages| >= |ms| && r.messages[0] == ms[0] &&
            forall i | 1 <= i < |r.messages| :: !r.messages[i].SystemMessage?
  {
    OnlyAppends(model, invoke, ms, n, maxIterations);
    var r := Converse(model, invoke, ms, n, maxIterations);
    assert r.messages[0] == r.messages[..|ms|][0];
    forall i | 1 <= i < |r.messages| ensures !r.messages[i].SystemMessage? {
      if i < |ms| {
        assert r.messages[i] == r.messages[..|ms|][i];
      }
    }
  }

  /** Started from `create_history()`, the working list keeps the system
      message first and never gains another one. */
  lemma OneSystemMessage(model: seq<Message> -> Result<Reply, string>,
                         invoke: (ToolName, map<string, Scalar>) -> Result<string, string>,
                         systemPrompt: string, passages: seq<string>, query: string, maxIterations: int)
    ensures var r := Converse(model, invoke, StartMessages(CreateHistory(systemPrompt), passages, query), 0, maxIterations);
            |r.messages| >= 2 && r.messages[0] == SystemMessage(systemPrompt) &&
            forall i | 1 <= i < |r.messages| :: !r.messages[i].SystemMessage?
  {
    var start := StartMessages(CreateHistory(systemPrompt), passages, query);
    SystemMessageStaysFirst(model, invoke, start, 0, maxIterations);
  }

  // ---------------------------------------------------------------------
  // ask

  /** `ask(query, history, llm, max_iterations)`. The retriever's answer
      (`passages`), the model and LangChain's tool invocation are
      parameters; the history is a value, so the caller's list is never
      changed. */
  method Ask(console: Console, query: string, history: seq<Message>, passages: seq<string>,
             model: seq<Message> -> Result<Reply, string>,
             invoke: (ToolName, map<string, Scalar>) -> Result<string, string>,
             maxIterations: int := DefaultMaxIterations)
    returns (r: Result<string, AskError>)
    modifies console
    ensures console.records == old(console.records)
      + [Boxed(Panel(Redact("Query: " + query), "User Request", GreenBorderStyle))]
    ensures r == Converse(model, invoke, StartMessages(history, passages, query), 0, maxIterations).outcome
  {
    LogPanel(console, "User Request", "Query: " + query, GreenBorderStyle);
    var context := Join("\n", passages);
    var contextualized := ContextHeading + "\n" + context + "\n\n" + QuestionLead + query;
    var n := 0;
    var messages := history;
    messages := messages + [HumanMessage(contextualized)];
    ghost var goal := Converse(model, invoke, messages, 0, maxIterations).outcome;
    while n < maxIterations
      invariant 0 <= n
      invariant Converse(model, invoke, messages, n, maxIterations).outcome == goal
      decreases maxIterations - n
    {
      var response := model(messages);
      if response.Failure? {
        return Failure(ModelRaised(response.error));
      }
      var reply := response.value;
      messages := messages + [AiMessage(reply.content, reply.toolCalls)];
      if reply.toolCalls == [] {
        return Success(reply.content);
      }
      ghost var withReply := messages;
      var calls := reply.toolCalls;
      var i := 0;
      while i < |calls|
        invariant 0 <= i <= |calls|
        invariant DispatchAll(calls, invoke, withReply) == DispatchAll(calls[i..], invoke, messages)
      {
        var result := CallTool(calls[i], invoke);
        if result.Failure? {
          return Failure(ToolFailed(result.error));
        }
        messages := messages + [result.value];
        assert calls[i..][1..] == calls[i + 1..];
        i := i + 1;
      }
      n := n + 1;
    }
    return Failure(MaxIterationsReached);
  }
}
