/**
 * The messages of one conversation thread, as the chat route's graph state
 * holds them: user turns, assistant turns (possibly requesting tools) and
 * tool results.
 */
module Messages {

  datatype Option<T> = None | Some(value: T)

  /** A value, or the message of the error that was thrown instead. */
  datatype Result<T> = Ok(value: T) | Err(message: string)

  /** Who wrote a message. */
  datatype Role = User | Assistant | Tool

  /** A tool invocation requested by the model: its call id, the tool's name and its arguments as text. */
  datatype ToolCall = ToolCall(id: string, name: string, args: string)

  /**
   * One entry of a thread's history. `toolCalls` is empty unless an assistant
   * asks for tools; `toolCallId` is set on a tool result and names the call it answers.
   */
  datatype Message = Message(role: Role, content: string, toolCalls: seq<ToolCall>, toolCallId: Option<string>)

  /** What the model backend answers for a history: text, and the tools it wants called. */
  datatype Reply = Reply(content: string, toolCalls: seq<ToolCall>)

  function UserMessage(text: string): Message
  {
    Message(User, text, [], None)
  }

  function AssistantMessage(reply: Reply): Message
  {
    Message(Assistant, reply.content, reply.toolCalls, None)
  }

  /** The result of running `call`, linked back to it by its id. */
  function ToolMessage(call: ToolCall, output: string): Message
  {
    Message(Tool, output, [], Some(call.id))
  }

  function Last(history: seq<Message>): Message
    requires |history| > 0
  {
    history[|history| - 1]
  }

  /** A final answer: an assistant message that requests no tool. */
  predicate IsFinal(m: Message)
  {
    m.role == Assistant && m.toolCalls == []
  }

  /** An assistant message that requests at least one tool. */
  predicate RequestsTools(m: Message)
  {
    m.role == Assistant && |m.toolCalls| > 0
  }

  /** `results` answer `calls`: one tool message per call, in request order, each naming its call's id. */
  predicate Answers(results: seq<Message>, calls: seq<ToolCall>)
  {
    && |results| == |calls|
    && forall i :: 0 <= i < |calls| ==>
         results[i].role == Tool && results[i].toolCalls == [] && results[i].toolCallId == Some(calls[i].id)
  }

  /**
   * `s` is a sequence of complete tool rounds: each an assistant message that
   * requests tools, followed at once by the answers to exactly those calls.
   */
  ghost predicate CompleteRounds(s: seq<Message>)
    decreases |s|
  {
    s == [] ||
    (var n := |s[0].toolCalls|;
     && RequestsTools(s[0])
     && 1 + n <= |s|
     && Answers(s[1..1 + n], s[0].toolCalls)
     && CompleteRounds(s[1 + n..]))
  }

  /**
   * What one run of the agent loop leaves behind after its starting history:
   * complete tool rounds, followed by a final answer when the run finished.
   */
  ghost predicate Settled(added: seq<Message>, finished: bool)
  {
    if finished then |added| > 0 && CompleteRounds(added[..|added| - 1]) && IsFinal(Last(added))
    else CompleteRounds(added)
  }

  /** One request's contribution to a thread: the user's message, then what the run added. */
  ghost predicate Turn(t: seq<Message>)
  {
    |t| > 0 && t[0].role == User && (Settled(t[1..], true) || Settled(t[1..], false))
  }

  /**
   * A causally consistent thread history: a sequence of turns, so every tool
   * message directly follows the assistant request (and its earlier answers)
   * that it answers.
   */
  ghost predicate Conversation(s: seq<Message>)
    decreases |s|
  {
    s == [] || exists k :: 0 <= k < |s| && Conversation(s[..k]) && Turn(s[k..])
  }

  /** Appending a turn to a consistent history keeps it consistent. */
  lemma ConversationExtends(s: seq<Message>, t: seq<Message>)
    requires Conversation(s)
    requires Turn(t)
    ensures Conversation(s + t)
  {
    var st := s + t;
    assert st[..|s|] == s;
    assert st[|s|..] == t;
  }

  /** A complete tool round in front of what a run settled on is still settled. */
  lemma RoundThenSettled(a: Message, results: seq<Message>, rest: seq<Message>, finished: bool)
    requires RequestsTools(a)
    requires Answers(results, a.toolCalls)
    requires Settled(rest, finished)
    ensures Settled([a] + results + rest, finished)
  {
    var n := |a.toolCalls|;
    var s := [a] + results + rest;
    assert s[0] == a;
    assert s[1..1 + n] == results;
    assert s[1 + n..] == rest;
    if finished {
      var front := s[..|s| - 1];
      assert front == [a] + results + rest[..|rest| - 1];
      assert front[1..1 + n] == results;
      assert front[1 + n..] == rest[..|rest| - 1];
    }
  }
}
