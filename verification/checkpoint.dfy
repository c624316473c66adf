/**
 * The compiled graph with its in-memory checkpointer: one message history per
 * thread id, extended by every invocation on that thread.
 */
module Checkpoint {
  import opened Messages
  import opened AgentGraph

  /** The stored history of thread `id`; a thread not seen before starts empty. */
  function Stored(threads: map<string, seq<Message>>, id: string): seq<Message>
  {
    if id in threads then threads[id] else []
  }

  /** A run on a thread whose stored history is `prior`, for the user text `text`. */
  function TurnRun(model: Model, tools: ToolRunner, prior: seq<Message>, text: string, fuel: nat): RunResult
  {
    Run(model, tools, Start, prior + [UserMessage(text)], fuel)
  }

  /**
   * What one invocation adds to a thread is a turn: the user's message first,
   * then complete tool rounds and, if the run finished, the final answer.
   */
  lemma TurnOfRun(model: Model, tools: ToolRunner, prior: seq<Message>, text: string, fuel: nat)
    ensures var r := TurnRun(model, tools, prior, text, fuel);
            prior <= r.history && Turn(r.history[|prior|..])
  {
    var input := prior + [UserMessage(text)];
    var r := Run(model, tools, Start, input, fuel);
    RunShape(model, tools, input, fuel);
    var t := r.history[|prior|..];
    assert t[0] == UserMessage(text);
    assert t[1..] == r.history[|input|..];
    if r.Done? {
      assert Settled(t[1..], true);
    } else {
      assert Settled(t[1..], false);
    }
  }

  /** An invocation keeps the thread's history a consistent conversation. */
  lemma RunKeepsConversation(model: Model, tools: ToolRunner, prior: seq<Message>, text: string, fuel: nat)
    requires Conversation(prior)
    ensures Conversation(TurnRun(model, tools, prior, text, fuel).history)
  {
    var h := TurnRun(model, tools, prior, text, fuel).history;
    TurnOfRun(model, tools, prior, text, fuel);
    ConversationExtends(prior, h[|prior|..]);
    assert prior + h[|prior|..] == h;
  }

  /**
   * One step of the graph runtime: runs `node` on `history`. Either the run
   * stops here (a model error, or no fuel left for a model call) with the
   * history unchanged, or control moves on to `next` with `after`, and the
   * rest of the run is the same either way.
   */
  method ExecuteNode(model: Model, tools: ToolRunner, node: Node, history: seq<Message>, fuel: nat)
    returns (next: Node, after: seq<Message>, left: nat, stop: Option<RunResult>)
    requires node != End && AtNode(node, history)
    ensures stop.Some? ==> stop.value == Run(model, tools, node, history, fuel)
    ensures stop.Some? ==> !stop.value.Done? && stop.value.history == history
    ensures stop.None? ==> AtNode(next, after) && history < after
    ensures stop.None? ==> Run(model, tools, next, after, left) == Run(model, tools, node, history, fuel)
    ensures stop.None? ==> left < fuel || (left == fuel && NodeRank(next) < NodeRank(node))
    // The tools node appends the results of the last message's calls and hands back to the agent.
    ensures node == Tools ==>
              stop.None? && next == Agent && left == fuel && after == history + ToolsNode(tools, history)
    // The agent node stops without fuel or on a model error; otherwise it appends the reply and follows the edge.
    ensures node == Agent && fuel == 0 ==> stop == Some(OutOfFuel(history))
    ensures node == Agent && fuel > 0 && model(history).Err? ==> stop == Some(Failed(history, model(history).message))
    ensures node == Agent && fuel > 0 && model(history).Ok? ==>
              && stop.None? && left == fuel - 1
              && after == history + [AssistantMessage(model(history).value)]
              && next == ShouldContinue(after)
  {
    next, after, left, stop := node, history, fuel, None;
    if node == Tools {
      after := history + ToolsNode(tools, history);
      next := Agent;
    } else if fuel == 0 {
      stop := Some(OutOfFuel(history));
    } else {
      var update := CallModel(model, history);
      if update.Err? {
        stop := Some(Failed(history, update.message));
      } else {
        after := history + update.value;
        next := ShouldContinue(after);
        left := fuel - 1;
      }
    }
  }

  /** Every stored history is a consistent conversation. */
  ghost predicate AllConversations(threads: map<string, seq<Message>>)
  {
    forall id :: id in threads ==> Conversation(threads[id])
  }

  /** An invocation on one thread keeps every thread a consistent conversation. */
  lemma InvokeKeepsConversations(threads: map<string, seq<Message>>, model: Model, tools: ToolRunner, id: string, text: string, fuel: nat)
    requires AllConversations(threads)
    ensures AllConversations(threads[id := TurnRun(model, tools, Stored(threads, id), text, fuel).history])
  {
    RunKeepsConversation(model, tools, Stored(threads, id), text, fuel);
  }

  /** The compiled app's checkpointer: the message history of every thread seen so far. */
  class Checkpointer {
    var threads: map<string, seq<Message>>

    ghost predicate Valid()
      reads this
    {
      AllConversations(threads)
    }

    constructor ()
      ensures Valid()
      ensures threads == map[]
    {
      threads := map[];
    }

    /**
     * Invokes the graph on thread `id` with the user's `text`: the graph runs
     * on the thread's stored history with the user message appended.
     */
    method Invoke(model: Model, tools: ToolRunner, id: string, text: string, fuel: nat) returns (r: RunResult)
      requires Valid()
      modifies this
      ensures Valid()
      ensures r == TurnRun(model, tools, Stored(old(threads), id), text, fuel)
      ensures threads == old(threads)[id := r.history]
    {
      InvokeKeepsConversations(threads, model, tools, id, text, fuel);
      r := RunLoop(model, tools, id, Stored(threads, id) + [UserMessage(text)], fuel);
    }

    /**
     * The graph runtime: checkpoints `input` under thread `id`, then from the
     * agent node executes one node after the other until the conditional edge
     * ends the run, checkpointing the thread after every node, so a model
     * error keeps the completed steps. It is called only by `Invoke`, with the
     * stored history plus the user's message as `input`; `Invoke` is the
     * method that keeps the checkpointer `Valid()`.
     */
    method RunLoop(model: Model, tools: ToolRunner, id: string, input: seq<Message>, fuel: nat) returns (r: RunResult)
      modifies this
      ensures r == Run(model, tools, Start, input, fuel)
      ensures threads == old(threads)[id := r.history]
    {
      var base := threads;
      var history := input;
      ghost var target := Run(model, tools, Start, input, fuel);
      threads := base[id := history];
      var node := Start;
      var left := fuel;
      r := Done(history);
      while node != End
        invariant AtNode(node, history)
        invariant Run(model, tools, node, history, left) == target
        invariant threads == base[id := history]
        decreases left, NodeRank(node)
      {
        var next, after, rest, stop := ExecuteNode(model, tools, node, history, left);
        if stop.Some? {
          r := stop.value;
          break;
        }
        node, history, left := next, after, rest;
        threads := base[id := history];
      }
      if node == End {
        r := Done(history);
      }
    }
  }
}
