/**
 * The chat endpoint's POST handler: it checks the request, picks the thread,
 * invokes the graph and turns the final state (or the error) into a response.
 */
module ChatRoute {
  import opened Messages
  import opened AgentGraph
  import opened Checkpoint

  /** The thread used when a request names none. */
  const DefaultThread: string := "default-thread"
  const MessageRequired: string := "Message is required"
  const ProcessingFailed: string := "Failed to process message"

  /** A field of the request body: absent, or a string. */
  datatype Field = Missing | Text(text: string)

  /** Whether the field counts as false in a condition: absent or the empty string. */
  predicate Falsy(f: Field)
  {
    f == Missing || f == Text("")
  }

  /** The request as the handler sees it: a body that could not be read, or its two fields. */
  datatype Request = Unparsable(reason: string) | Json(message: Field, threadId: Field)

  /** The JSON body of a response: the answer, or an error with optional details. */
  datatype Payload = Answer(response: string, success: bool) | Problem(error: string, details: Option<string>)

  datatype Response = Response(status: nat, payload: Payload)

  /**
   * What the handler does: send a response, or nothing yet when the run used
   * up the model's fuel. The route sets no such bound; there the library's
   * recursion limit, which is not modelled, ends a long run with an error.
   */
  datatype Outcome = Sent(response: Response) | Unfinished

  /** The thread a request is filed under: its own id, or the shared default when it gives none. */
  function ThreadKey(threadId: Field): (id: string)
    ensures Falsy(threadId) ==> id == DefaultThread
    ensures !Falsy(threadId) ==> id == threadId.text
  {
    if Falsy(threadId) then DefaultThread else threadId.text
  }

  /** The response for the graph's final state, or for the error it threw. */
  function Finish(r: RunResult): Outcome
    requires r.Done? ==> |r.history| > 0
  {
    match r
    case Done(history) => Sent(Response(200, Answer(Last(history).content, true)))
    case Failed(_, error) => Sent(Response(500, Problem(ProcessingFailed, Some(error))))
    case OutOfFuel(_) => Unfinished
  }

  /**
   * The handler as a function of the checkpointer's threads: the outcome and
   * the threads afterwards.
   */
  function Handle(threads: map<string, seq<Message>>, model: Model, tools: ToolRunner, req: Request, fuel: nat)
    : (res: (Outcome, map<string, seq<Message>>))
    // An unreadable body is a server error carrying the reason; nothing is stored.
    ensures req.Unparsable? ==> res == (Sent(Response(500, Problem(ProcessingFailed, Some(req.reason)))), threads)
    // A missing or empty message is refused before the graph runs; nothing is stored.
    ensures req.Json? && Falsy(req.message) ==> res == (Sent(Response(400, Problem(MessageRequired, None))), threads)
    // Otherwise the request's thread gains the user's message and the run's output; no other thread changes.
    ensures req.Json? && !Falsy(req.message) ==>
              var id := ThreadKey(req.threadId);
              && res.1.Keys == threads.Keys + {id}
              && Stored(threads, id) + [UserMessage(req.message.text)] <= res.1[id]
              && forall k :: k != id ==> Stored(res.1, k) == Stored(threads, k)
    // ... and that thread then holds exactly what the run ended with; the reply is the run's outcome.
    ensures req.Json? && !Falsy(req.message) ==>
              var r := TurnRun(model, tools, Stored(threads, ThreadKey(req.threadId)), req.message.text, fuel);
              && res.1[ThreadKey(req.threadId)] == r.history
              && (r.Done? ==> res.0 == Sent(Response(200, Answer(Last(r.history).content, true))))
              && (r.Failed? ==> res.0 == Sent(Response(500, Problem(ProcessingFailed, Some(r.error)))))
              && (r.OutOfFuel? ==> res.0 == Unfinished)
    // A 200 reply is the content of the thread's last message, a final answer.
    ensures res.0.Sent? && res.0.response.status == 200 ==>
              && req.Json?
              && var h := Stored(res.1, ThreadKey(req.threadId));
              && |h| > 0 && IsFinal(Last(h))
              && res.0.response.payload == Answer(Last(h).content, true)
    // Every other reply is an error: 400 for a refused request, 500 with the error's message otherwise.
    ensures res.0.Sent? ==> res.0.response.status in {200, 400, 500}
    ensures res.0.Sent? && res.0.response.status == 500 ==>
              res.0.response.payload.Problem? && res.0.response.payload.error == ProcessingFailed
  {
    match req
    case Unparsable(reason) => (Sent(Response(500, Problem(ProcessingFailed, Some(reason)))), threads)
    case Json(message, threadId) =>
      if Falsy(message) then (Sent(Response(400, Problem(MessageRequired, None))), threads)
      else
        var id := ThreadKey(threadId);
        var r := TurnRun(model, tools, Stored(threads, id), message.text, fuel);
        (Finish(r), threads[id := r.history])
  }

  /**
   * A request that the handler answers with 200 left its thread holding the
   * previous history, the user's message, complete tool rounds and the final
   * answer whose content was returned. Every assistant message the turn added
   * is the model's reply, the returned text is the model's tool-free reply to
   * everything before it, and every tool request is followed by the tools'
   * outputs.
   */
  lemma AnsweredTurn(threads: map<string, seq<Message>>, model: Model, tools: ToolRunner, req: Request, fuel: nat)
    requires var res := Handle(threads, model, tools, req, fuel); res.0.Sent? && res.0.response.status == 200
    ensures req.Json? && !Falsy(req.message)
    ensures var id := ThreadKey(req.threadId);
            var prior := Stored(threads, id);
            var res := Handle(threads, model, tools, req, fuel);
            var h := res.1[id];
            && prior <= h
            && Turn(h[|prior|..])
            && Settled(h[|prior| + 1..], true)
            && ModelWrote(model, h, |prior| + 1)
            && ToolsAnswered(tools, h, |prior| + 1)
            && model(h[..|h| - 1]) == Ok(Reply(res.0.response.payload.response, []))
  {
    var id := ThreadKey(req.threadId);
    var prior := Stored(threads, id);
    var input := prior + [UserMessage(req.message.text)];
    TurnOfRun(model, tools, prior, req.message.text, fuel);
    RunShape(model, tools, input, fuel);
    RunFollowsModel(model, tools, input, fuel);
    RunFollowsTools(model, tools, input, fuel);
    DoneComesFromModel(model, tools, input, fuel);
    var h := Handle(threads, model, tools, req, fuel).1[id];
    assert h[|prior| + 1..] == h[|prior|..][1..];
  }

  /**
   * A readable request answered with 500 carries in its details the error the
   * model threw, for the history the thread then holds.
   */
  lemma ServerErrorFromModel(threads: map<string, seq<Message>>, model: Model, tools: ToolRunner, req: Request, fuel: nat)
    requires req.Json?
    requires var res := Handle(threads, model, tools, req, fuel); res.0.Sent? && res.0.response.status == 500
    ensures !Falsy(req.message)
    ensures var res := Handle(threads, model, tools, req, fuel);
            var p := res.0.response.payload;
            && p.Problem? && p.error == ProcessingFailed && p.details.Some?
            && model(res.1[ThreadKey(req.threadId)]) == Err(p.details.value)
  {
    var id := ThreadKey(req.threadId);
    FailedComesFromModel(model, tools, Stored(threads, id) + [UserMessage(req.message.text)], fuel);
  }

  /**
   * A first message on a new thread that the model answers at once: the reply
   * is that answer and the thread then holds exactly two messages.
   */
  lemma FirstDirectAnswer(threads: map<string, seq<Message>>, model: Model, tools: ToolRunner, id: string, text: string, answer: string, fuel: nat)
    requires id != "" && id !in threads
    requires text != ""
    requires fuel > 0
    requires model([UserMessage(text)]) == Ok(Reply(answer, []))
    ensures Handle(threads, model, tools, Json(Text(text), Text(id)), fuel)
         == (Sent(Response(200, Answer(answer, true))),
             threads[id := [UserMessage(text), Message(Assistant, answer, [], None)]])
  {
    assert ThreadKey(Text(id)) == id;
    assert Stored(threads, id) + [UserMessage(text)] == [UserMessage(text)];
    DirectAnswer(model, tools, [UserMessage(text)], fuel, answer);
    var h := [UserMessage(text), Message(Assistant, answer, [], None)];
    assert [UserMessage(text)] + [Message(Assistant, answer, [], None)] == h;
    assert TurnRun(model, tools, Stored(threads, id), text, fuel) == Done(h);
  }

  /**
   * The POST handler. The graph runs on the app's checkpointer, which is
   * shared by every request.
   */
  method Post(app: Checkpointer, model: Model, tools: ToolRunner, req: Request, fuel: nat) returns (o: Outcome)
    requires app.Valid()
    modifies app
    ensures app.Valid()
    ensures (o, app.threads) == Handle(old(app.threads), model, tools, req, fuel)
  {
    match req
    case Unparsable(reason) =>
      o := Sent(Response(500, Problem(ProcessingFailed, Some(reason))));
    case Json(message, threadId) =>
      if Falsy(message) {
        o := Sent(Response(400, Problem(MessageRequired, None)));
      } else {
        var r := app.Invoke(model, tools, ThreadKey(threadId), message.text, fuel);
        o := Finish(r);
      }
  }
}
