# Agent loop of the chat route, modelled in Dafny

The chat endpoint (`app/api/chat/route.ts`) answers a user's message by
running a two-node graph. The **agent** node asks a language model for the
next assistant message. When that message requests tools, the **tools** node
runs them and hands control back to the agent. When it requests none, the run
ends. An in-memory checkpointer keeps one message history per thread id.
Every request appends the user's message to its thread and then runs the
loop on the whole history. The POST handler validates the body and picks the
thread, defaulting to `"default-thread"`. It replies with the content of the
final message, or with a 400 or 500 error.

The project has four modules:

- `Messages` (`messages.dfy`): roles, tool calls, messages and model replies.
  It also defines the shape of a consistent history: every batch of tool
  results directly follows the assistant message whose calls it answers, in
  call order (`CompleteRounds`, `Settled`, `Turn`, `Conversation`).
- `AgentGraph` (`graph.dfy`): the nodes, the conditional edge
  `ShouldContinue`, and the run of the graph as the function `Run`.
- `Checkpoint` (`checkpoint.dfy`): the class `Checkpointer`, which holds a
  `map<string, seq<Message>>` of threads. Its method `RunLoop` drives the
  agent/tools loop step by step (`ExecuteNode` runs one node) and checkpoints
  after every node. `Invoke` runs it on a thread's history plus the user's
  message. Both are proved equal to `Run`, and `Invoke` keeps every thread a
  consistent conversation.
- `ChatRoute` (`route.dfy`): the request and response datatypes, thread
  defaulting, the handler as the function `Handle`, and the method `Post`
  that runs it on the shared checkpointer.

The model backend and the tools are parameters: `Model` maps a history to a
reply or to an error message, and `ToolRunner` maps a call to its output
text. `Run` takes a `fuel` bound on the number of model calls, because Dafny
needs every function to terminate. The route sets no bound of its own: the
library's recursion limit (not modelled) ends an overly long run with an
error, which the route turns into a 500. In the model, a run that uses up its
fuel ends as `OutOfFuel`, and the handler then reports `Unfinished`. Fuel is
spent only when a run enters the agent node, so such a run has already
appended the results of every tool request it made.

## Model

| member | source | states |
|---|---|---|
| `AgentGraph.CallModel` | app/api/chat/route.ts:73-76 | When the model answers, the agent node's update is exactly one message: the model's reply (its content and tool calls) as an assistant message. A model error is passed on with its message. |
| `AgentGraph.ShouldContinue` | app/api/chat/route.ts:79-86 | The edge goes to `Tools` if and only if the last message carries a non-empty list of tool calls. Otherwise it goes to `End`. It never goes back to the agent. |
| `AgentGraph.RouteIgnoresEarlier` | app/api/chat/route.ts:80 | The routing decision depends only on the last message. Any two histories ending in the same message route the same way. |
| `AgentGraph.ToolResults` | app/api/chat/route.ts:61-62 | The tools node (`ToolsNode`, on the last message's calls) returns one tool message per requested call, in request order. Each message carries its call's id and that tool's output. |
| `AgentGraph.Run` | app/api/chat/route.ts:89-97 | A run never alters or drops the history it started from. A run that finishes ends with an assistant message that has no tool calls. |
| `AgentGraph.RunShape` | app/api/chat/route.ts:89-97 | Starting at the agent node, a run appends only complete tool rounds: an assistant request followed by the answers to exactly its calls. When the run finishes, one final answer follows. No tool call is ever left unanswered. |
| `AgentGraph.DoneComesFromModel` | app/api/chat/route.ts:92-97 | A run ends only after an agent step: a finished run appended at least one message, and its last message is the tool-free reply the model gave for all the messages before it. |
| `AgentGraph.FailedComesFromModel` | app/api/chat/route.ts:73-75 | A run fails only when a model call throws: the run's error is the model's error for the history the run had reached, and that history is what the run returns. |
| `AgentGraph.ToolRoundStep` | app/api/chat/route.ts:89-97 | When the model asks for tools, the run from the agent node continues at the agent node with the request and the tools' results for its calls appended, one model call fewer. |
| `AgentGraph.RunFollowsModel` | app/api/chat/route.ts:73-75 | Every assistant message a run appends, at any position, is the model's reply (content and tool calls) to the history before that position. |
| `AgentGraph.RunFollowsTools` | app/api/chat/route.ts:61-62 | Every tool request a run appends is followed at once by the tool runner's outputs for exactly its calls, in request order. |
| `AgentGraph.DirectAnswer` | app/api/chat/route.ts:73-97 | If the model answers without tools, the run ends after one agent step and appends exactly that answer. |
| `AgentGraph.OneToolRound` | app/api/chat/route.ts:89-97 | If the model asks for one tool and then answers, the run appends exactly three messages: the request, the tool result and the answer. |
| `Checkpoint.TurnOfRun` | app/api/chat/route.ts:116-118 | An invocation keeps the thread's previous history as a prefix. It adds the user's message, then what the run produced, and the added part is a well-formed turn. |
| `Checkpoint.RunKeepsConversation` | app/api/chat/route.ts:116-119 | If a thread's history is a consistent conversation, it is still one after any invocation on that thread. |
| `Checkpoint.InvokeKeepsConversations` | app/api/chat/route.ts:116-119 | If every stored thread is a consistent conversation, every thread still is after an invocation on any one thread. |
| `Checkpoint.ExecuteNode` | app/api/chat/route.ts:89-97 | One node of the graph. The tools node appends the results of the last message's calls and hands control to the agent. The agent node stops the run with the history unchanged when no fuel is left (`OutOfFuel`) or the model throws (`Failed` with its message); otherwise it appends the model's reply as one assistant message and moves along the conditional edge. The rest of the run from there equals the run from before the step. |
| `Checkpoint.Checkpointer.constructor` | app/api/chat/route.ts:12 | The checkpointer starts with no threads. |
| `Checkpoint.Checkpointer.Invoke` | app/api/chat/route.ts:116-119 | An invocation returns exactly what `Run` gives for the thread's stored history plus the user's message. It stores the resulting history under that thread id, leaves every other thread unchanged, and keeps every thread consistent. |
| `Checkpoint.Checkpointer.RunLoop` | app/api/chat/route.ts:89-99 | The step-by-step agent/tools loop returns exactly what `Run` gives. It checkpoints the input and then every step under the thread id, so the thread ends up holding the run's history, and no other thread changes. |
| `ChatRoute.ThreadKey` | app/api/chat/route.ts:118 | A missing or empty thread id selects `"default-thread"`, so all such requests share one history. Any other id is used as given, so an explicit `"default-thread"` shares that history too. |
| `ChatRoute.Handle` | app/api/chat/route.ts:101-140 | An unreadable body gives 500 `'Failed to process message'` with the reason as details. A missing or empty message gives 400 `'Message is required'`. Neither changes any thread. Otherwise the chosen thread then holds exactly the history the run ended with: its old history, the user's message and the run's output. No other thread changes. A finished run gives 200 with `success: true` and the content of its last message, a final answer. A run that failed gives 500 `'Failed to process message'` with the model's error message as details. Only 200, 400 and 500 are sent. |
| `ChatRoute.AnsweredTurn` | app/api/chat/route.ts:116-128 | A 200 reply comes only from a valid message. Its thread then holds the old history, the user's message, complete tool rounds and the final answer. Every assistant message of the turn is the model's reply, every tool request is followed by the tools' outputs, and the returned text is the model's tool-free reply to everything before it. |
| `ChatRoute.ServerErrorFromModel` | app/api/chat/route.ts:116-138 | A readable request answered with 500 had a non-empty message, and its details are the error the model threw for the history the thread then holds. |
| `ChatRoute.FirstDirectAnswer` | app/api/chat/route.ts:116-128 | A first message on a new thread that the model answers without tools gets that answer as the reply. The thread then holds exactly two messages. |
| `ChatRoute.Post` | app/api/chat/route.ts:101-140 | The handler run on the shared checkpointer returns exactly what `Handle` gives and stores exactly the threads `Handle` gives. It keeps every thread consistent. |

## Left out

- The ChatGroq model call (route.ts:64-70) and the Tavily and Wikipedia tools (route.ts:14-58) are external network services. They are the function parameters `Model` and `ToolRunner`. Their configuration (result counts, topic, depth, temperature, `maxRetries: 2`) is not modelled.
- `Run` and `Invoke` take a `fuel` bound on model calls so that the loop is seen to terminate. The route sets no cap of its own; the library's recursion limit ends an overly long run with an error, which the route reports as a 500. That limit is not modelled: runs that exhaust the fuel (`OutOfFuel`, `Unfinished`) stand in for it and are not source behaviour.
- Tool failures: the library's tool node turns a failing or unknown tool into a tool message carrying the error text. The model covers this only because `ToolRunner` is total and returns text; the wording of such errors is not modelled.
- Tool calls run concurrently inside the tool node. The model computes their results in request order, which is the order in which they are appended.
- The messages reducer's replacement of a message that has the same id as an existing one is not modelled. Every new message is appended.
- Message content is plain text; structured content parts are not modelled.
- Request parsing: a body that cannot be parsed, or one that parses to JSON `null` so that reading its fields throws (route.ts:103-104), is a single `Unparsable` case carrying the error message. `message` and `threadId` are modelled as absent or a string. Other JSON values (null, numbers, booleans, objects) and their truthiness are not modelled.
- Logging (`console.log`, `console.error`) and the construction of the HTTP response object are not modelled. The response is a status plus a payload datatype.
- Concurrent requests on one checkpointer, cancellation, and retention or eviction of threads are not modelled. Each request runs to completion before the next one starts.
- `app/page.tsx`, `app/chat/page.tsx` (user interface) and `next.config.ts` (build configuration) are not part of this model.
