/**
 * The agent graph of the chat route: an "agent" node that asks the model for
 * the next assistant message, a "tools" node that runs the requested tools,
 * and the conditional edge between them.
 */
module AgentGraph {
  import opened Messages

  /** The graph's nodes; `End` is the terminal node "__end__". */
  datatype Node = Agent | Tools | End

  /** The model backend: given the history, the next reply or the error it threw. */
  type Model = seq<Message> -> Result<Reply>

  /** The registered tools: the output text of one call (failures arrive as text too). */
  type ToolRunner = ToolCall -> string

  /** The node every run enters first (the edge from "__start__"). */
  const Start: Node := Agent

  /** What a run of the graph ends with; `history` is the thread's state at that point. */
  datatype RunResult =
    | Done(history: seq<Message>)
    | Failed(history: seq<Message>, error: string)
    | OutOfFuel(history: seq<Message>)

  /**
   * The agent node: the state update it returns, which is the model's
   * response as the one new message.
   */
  function CallModel(model: Model, history: seq<Message>): (update: Result<seq<Message>>)
    ensures update.Ok? <==> model(history).Ok?
    ensures update.Ok? ==> |update.value| == 1 && update.value[0] == AssistantMessage(model(history).value)
    ensures update.Err? ==> update.message == model(history).message
  {
    match model(history)
    case Ok(reply) => Ok([AssistantMessage(reply)])
    case Err(e) => Err(e)
  }

  /**
   * The conditional edge out of the agent node: "tools" when the last message
   * carries tool calls, "__end__" otherwise.
   */
  function ShouldContinue(history: seq<Message>): (next: Node)
    requires |history| > 0
    ensures next != Agent
    ensures next == Tools <==> |Last(history).toolCalls| > 0
    ensures next == End <==> Last(history).toolCalls == []
  {
    if |Last(history).toolCalls| > 0 then Tools else End
  }

  /** The results of `calls`, one tool message per call, in request order. */
  function ToolResults(tools: ToolRunner, calls: seq<ToolCall>): (results: seq<Message>)
    ensures Answers(results, calls)
    ensures forall i :: 0 <= i < |results| ==> results[i].content == tools(calls[i])
  {
    if calls == [] then []
    else [ToolMessage(calls[0], tools(calls[0]))] + ToolResults(tools, calls[1..])
  }

  /** The tools node: the results of the last message's tool calls. */
  function ToolsNode(tools: ToolRunner, history: seq<Message>): seq<Message>
    requires |history| > 0
  {
    ToolResults(tools, Last(history).toolCalls)
  }

  /** What must hold of the history when control reaches `node`. */
  predicate AtNode(node: Node, history: seq<Message>)
  {
    match node
    case Agent => true
    case Tools => |history| > 0 && RequestsTools(Last(history))
    case End => |history| > 0 && IsFinal(Last(history))
  }

  function NodeRank(node: Node): nat
  {
    if node == Tools then 1 else 0
  }

  /**
   * The graph run from `node` on `history`: agent, then tools and back to
   * agent for as long as the model asks for tools. `fuel` bounds the number of
   * model calls; it is a device of this model, the route itself sets no bound.
   */
  function Run(model: Model, tools: ToolRunner, node: Node, history: seq<Message>, fuel: nat): (r: RunResult)
    requires AtNode(node, history)
    ensures history <= r.history
    ensures r.Done? ==> |r.history| > 0 && IsFinal(Last(r.history))
    decreases fuel, NodeRank(node)
  {
    match node
    case End => Done(history)
    case Tools => Run(model, tools, Agent, history + ToolsNode(tools, history), fuel)
    case Agent =>
      if fuel == 0 then OutOfFuel(history)
      else match CallModel(model, history)
        case Err(e) => Failed(history, e)
        case Ok(update) =>
          var next := history + update;
          Run(model, tools, ShouldContinue(next), next, fuel - 1)
  }

  /**
   * A run that starts at the agent node adds complete tool rounds and, when
   * it finishes, one final answer; no tool call is left unanswered. (Fuel is
   * spent only on entering the agent node, so a run that uses it up has
   * already appended the results of the last request.)
   */
  lemma {:induction false} RunShape(model: Model, tools: ToolRunner, history: seq<Message>, fuel: nat)
    ensures var r := Run(model, tools, Start, history, fuel);
            Settled(r.history[|history|..], r.Done?)
    decreases fuel
  {
    var r := Run(model, tools, Agent, history, fuel);
    if fuel == 0 || model(history).Err? {
      assert r.history == history;
      assert r.history[|history|..] == [];
    } else {
      var m := AssistantMessage(model(history).value);
      if m.toolCalls == [] {
        DirectAnswer(model, tools, history, fuel, m.content);
        assert r.history[|history|..] == [m];
        assert [m][..0] == [];
      } else {
        var results := ToolResults(tools, m.toolCalls);
        var after := history + [m] + results;
        ToolRoundStep(model, tools, history, fuel);
        RunShape(model, tools, after, fuel - 1);
        RoundBeforeSettled(history, m, results, r.history, r.Done?);
      }
    }
  }

  /** A tool round in front of what a later run settled on is part of what is settled. */
  lemma RoundBeforeSettled(history: seq<Message>, m: Message, results: seq<Message>, h: seq<Message>, finished: bool)
    requires RequestsTools(m) && Answers(results, m.toolCalls)
    requires history + [m] + results <= h
    requires Settled(h[|history + [m] + results|..], finished)
    ensures Settled(h[|history|..], finished)
  {
    var rest := h[|history + [m] + results|..];
    assert h[|history|..] == [m] + results + rest;
    RoundThenSettled(m, results, rest, finished);
  }

  /** The routing decision looks at the last message only: what came before it never matters. */
  lemma RouteIgnoresEarlier(earlier: seq<Message>, other: seq<Message>, last: Message)
    ensures ShouldContinue(earlier + [last]) == ShouldContinue(other + [last])
    ensures ShouldContinue(earlier + [last]) == ShouldContinue([last])
  {
  }

  /**
   * A run ends only at an agent step: if the model keeps asking for tools the
   * run never finishes, and a finished run's last message is the tool-free
   * reply the model gave for everything before it.
   */
  lemma {:induction false} DoneComesFromModel(model: Model, tools: ToolRunner, history: seq<Message>, fuel: nat)
    requires Run(model, tools, Start, history, fuel).Done?
    ensures var h := Run(model, tools, Start, history, fuel).history;
            |h| > |history| && model(h[..|h| - 1]) == Ok(Reply(Last(h).content, []))
    decreases fuel
  {
    var r := Run(model, tools, Agent, history, fuel);
    var m := AssistantMessage(model(history).value);
    var next := history + [m];
    if m.toolCalls == [] {
      assert r.history[..|r.history| - 1] == history;
    } else {
      var after := next + ToolsNode(tools, next);
      DoneComesFromModel(model, tools, after, fuel - 1);
    }
  }

  /**
   * A run fails only at an agent step whose model call threw: the error is the
   * one the model gave for the history the run had reached.
   */
  lemma {:induction false} FailedComesFromModel(model: Model, tools: ToolRunner, history: seq<Message>, fuel: nat)
    requires Run(model, tools, Start, history, fuel).Failed?
    ensures var r := Run(model, tools, Start, history, fuel);
            model(r.history) == Err(r.error)
    decreases fuel
  {
    if fuel > 0 && model(history).Ok? {
      var m := AssistantMessage(model(history).value);
      var next := history + [m];
      if m.toolCalls != [] {
        var after := next + ToolsNode(tools, next);
        assert Run(model, tools, Agent, history, fuel) == Run(model, tools, Agent, after, fuel - 1);
        FailedComesFromModel(model, tools, after, fuel - 1);
      }
    }
  }

  /** Every assistant message of `h` from index `from` on is the model's reply to the messages before it. */
  predicate ModelWrote(model: Model, h: seq<Message>, from: nat)
  {
    forall k :: from <= k < |h| && h[k].role == Assistant ==> model(h[..k]) == Ok(Reply(h[k].content, h[k].toolCalls))
  }

  /** Every tool request of `h` from index `from` on is followed at once by the tools' results for its calls. */
  predicate ToolsAnswered(tools: ToolRunner, h: seq<Message>, from: nat)
  {
    forall k :: from <= k < |h| && RequestsTools(h[k]) ==>
      k + |h[k].toolCalls| < |h| && h[k + 1..k + 1 + |h[k].toolCalls|] == ToolResults(tools, h[k].toolCalls)
  }

  /**
   * One tool round: when the model asks for tools, the run from the agent node
   * goes on from the agent node with the request and its results appended.
   */
  lemma ToolRoundStep(model: Model, tools: ToolRunner, history: seq<Message>, fuel: nat)
    requires fuel > 0 && model(history).Ok? && |model(history).value.toolCalls| > 0
    ensures var m := AssistantMessage(model(history).value);
            Run(model, tools, Agent, history, fuel)
            == Run(model, tools, Agent, history + [m] + ToolResults(tools, m.toolCalls), fuel - 1)
  {
    var m := AssistantMessage(model(history).value);
    var next := history + [m];
    assert CallModel(model, history) == Ok([m]);
    assert Run(model, tools, Agent, history, fuel) == Run(model, tools, Tools, next, fuel - 1);
  }

  /**
   * Every assistant message a run appends is the model's reply to the history
   * before it: the model's answers are stored as given.
   */
  lemma {:induction false} RunFollowsModel(model: Model, tools: ToolRunner, history: seq<Message>, fuel: nat)
    ensures ModelWrote(model, Run(model, tools, Start, history, fuel).history, |history|)
    decreases fuel
  {
    var h := Run(model, tools, Agent, history, fuel).history;
    if fuel == 0 || model(history).Err? {
      assert h == history;
    } else {
      var reply := model(history).value;
      var m := AssistantMessage(reply);
      assert reply == Reply(m.content, m.toolCalls);
      if m.toolCalls == [] {
        DirectAnswer(model, tools, history, fuel, m.content);
        AnswerFollowsModel(model, history, m);
      } else {
        var results := ToolResults(tools, m.toolCalls);
        ToolRoundStep(model, tools, history, fuel);
        RunFollowsModel(model, tools, history + [m] + results, fuel - 1);
        RoundFollowsModel(model, history, m, results, h);
      }
    }
  }

  /** A final answer the model gave for `history` is the one reply appended to it. */
  lemma AnswerFollowsModel(model: Model, history: seq<Message>, m: Message)
    requires model(history) == Ok(Reply(m.content, m.toolCalls))
    ensures ModelWrote(model, history + [m], |history|)
  {
    assert (history + [m])[..|history|] == history;
  }

  /** A tool round the model asked for, followed by replies the model gave, was all written by the model. */
  lemma RoundFollowsModel(model: Model, history: seq<Message>, m: Message, results: seq<Message>, h: seq<Message>)
    requires model(history) == Ok(Reply(m.content, m.toolCalls))
    requires Answers(results, m.toolCalls)
    requires history + [m] + results <= h
    requires ModelWrote(model, h, |history + [m] + results|)
    ensures ModelWrote(model, h, |history|)
  {
    var n := |history|;
    assert h[..n] == history;
    assert h[n] == m;
    forall k | n < k < n + 1 + |results|
      ensures h[k].role == Tool
    {
      assert h[k] == results[k - n - 1];
    }
  }

  /**
   * Every tool request a run appends is followed at once by the tools'
   * outputs for exactly its calls, in request order.
   */
  lemma {:induction false} RunFollowsTools(model: Model, tools: ToolRunner, history: seq<Message>, fuel: nat)
    ensures ToolsAnswered(tools, Run(model, tools, Start, history, fuel).history, |history|)
    decreases fuel
  {
    var h := Run(model, tools, Agent, history, fuel).history;
    if fuel == 0 || model(history).Err? {
      assert h == history;
    } else {
      var m := AssistantMessage(model(history).value);
      if m.toolCalls == [] {
        DirectAnswer(model, tools, history, fuel, m.content);
        assert h == history + [m];
      } else {
        var results := ToolResults(tools, m.toolCalls);
        var after := history + [m] + results;
        ToolRoundStep(model, tools, history, fuel);
        RunFollowsTools(model, tools, after, fuel - 1);
        RoundFollowsTools(tools, history, m, results, h);
      }
    }
  }

  /** A tool round followed by answered requests leaves every request answered. */
  lemma RoundFollowsTools(tools: ToolRunner, history: seq<Message>, m: Message, results: seq<Message>, h: seq<Message>)
    requires results == ToolResults(tools, m.toolCalls)
    requires history + [m] + results <= h
    requires ToolsAnswered(tools, h, |history + [m] + results|)
    ensures ToolsAnswered(tools, h, |history|)
  {
    var n := |history|;
    assert h[n] == m;
    assert h[n + 1..n + 1 + |m.toolCalls|] == results;
    forall k | n < k < n + 1 + |results|
      ensures h[k].role == Tool
    {
      assert h[k] == results[k - n - 1];
    }
  }

  /** A model that answers at once ends the run after one agent step with exactly that answer appended. */
  lemma DirectAnswer(model: Model, tools: ToolRunner, history: seq<Message>, fuel: nat, answer: string)
    requires fuel > 0
    requires model(history) == Ok(Reply(answer, []))
    ensures Run(model, tools, Start, history, fuel) == Done(history + [Message(Assistant, answer, [], None)])
  {
  }

  /**
   * One tool round: the model asks for `call`, the tools node answers it, and
   * the model's next reply is final; the run adds exactly those three messages.
   */
  lemma OneToolRound(model: Model, tools: ToolRunner, history: seq<Message>, fuel: nat, call: ToolCall, ask: string, answer: string)
    requires fuel > 1
    requires model(history) == Ok(Reply(ask, [call]))
    requires model(history + [Message(Assistant, ask, [call], None)] + [ToolMessage(call, tools(call))]) == Ok(Reply(answer, []))
    ensures Run(model, tools, Start, history, fuel)
         == Done(history + [Message(Assistant, ask, [call], None), ToolMessage(call, tools(call)), Message(Assistant, answer, [], None)])
  {
    var next := history + [Message(Assistant, ask, [call], None)];
    var results := ToolsNode(tools, next);
    assert results == [ToolMessage(call, tools(call))] + ToolResults(tools, []);
    var after := next + results;
    assert after == history + [Message(Assistant, ask, [call], None)] + [ToolMessage(call, tools(call))];
    assert CallModel(model, after) == Ok([Message(Assistant, answer, [], None)]);
    var final := after + [Message(Assistant, answer, [], None)];
    assert Run(model, tools, Agent, history, fuel) == Run(model, tools, Tools, next, fuel - 1);
    assert Run(model, tools, Tools, next, fuel - 1) == Run(model, tools, Agent, after, fuel - 1);
    assert Run(model, tools, Agent, after, fuel - 1) == Run(model, tools, End, final, fuel - 2);
    assert final == history + [Message(Assistant, ask, [call], None), ToolMessage(call, tools(call)), Message(Assistant, answer, [], None)];
  }
}
