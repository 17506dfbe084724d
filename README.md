# MCP tool-calling client and example server, modelled in Dafny

The repository is a small Model Context Protocol (MCP) demo. A client connects to a
tool-providing peer over stdio. It lists the peer's tools and hands them to an
OpenAI-compatible completion API as `"function"` tools. Then it runs a two-phase cycle:

1. one completion request with `tool_choice="auto"`;
2. every tool call the model proposes is executed in order through the MCP session;
3. one finalization request with `tool_choice="none"`.

The peer (`server.py`) exposes two tools: a greeting generator and a knowledge-base
formatter.

The model has three modules:

- `Options` (options.dfy): the optional value used for Python's `None`.
- `Client` (client.dfy): the catalogue adapter `Adapt`, and the cycle of `process_query`.
  The cycle is a reference function `Run` and the imperative method `ProcessQuery`, with
  its tool loop `ExecuteToolCalls`. The completion backend, the MCP session and
  `json.loads` are oracles: the fields of an `Env` value. `listing` is the answer of
  `tools/list`. `complete`, `callTool` and `loads` return `None` where the real call
  raises. A ghost trace of `Event`s records every call to the session (`ListTools`,
  `CallTool(name, arguments)`) and to the backend (`Complete(messages, tools, choice)`);
  `json.loads` is not recorded. An exception that
  escapes `process_query` is the outcome `Raised(failure)`. A returned string, possibly
  `None`, is `Returned(text)`.
- `Server` (server.dfy): `GenerateWelcomeMessage`, and `GetKnowledgeBase` with its
  `enumerate` loop `AppendEntries`. The file load is an input `KbLoad`: the file is
  missing (`FileNotFound`), its JSON is invalid (`InvalidJson`), or it loaded. A loaded
  value is a list of items (`KbList`) or any other JSON value, carried as its
  `json.dumps(indent=2)` text (`KbValue`). A list item is a dict with optional `question`
  and `answer` entries (`DictItem`), or any other value, carried as its `str()`
  rendering (`OtherItem`).

Behaviour of the code a reader might not expect; the model follows the code:

- A failed first completion request returns the ordinary string `"Error occurred while
  calling API"`. It is not a distinguishable error, so `Returned(Some(API_ERROR_TEXT))`.
- Arguments are parsed one call at a time, just before that call executes. Calls before a
  malformed one have already been executed (`AbortOnStop`, `ArgumentErrorAborts`).
- Tool calls in the finalization response are ignored, not rejected. Only its `content` is read.
- Tool descriptions are copied unchanged: a missing description stays missing. No default is substituted.
- `process_query` itself closes nothing. Session teardown lives in `cleanup`, which is not part of this model.
- The tool result's `isError` flag is not looked at. The first content block's text is
  forwarded either way.

## Model

| member | source | states |
|---|---|---|
| `Client.Adapt` | client.py:80-91 | one tool per descriptor, same length and order; entry i has type `"function"` and copies tool i's name, description and inputSchema unchanged |
| `Client.AdaptTool` | client.py:82-89 | no contract of its own: the dict built for one tool; its facts are stated by `Adapt` and `AdaptRoundTrip` |
| `Client.AdaptRoundTrip` | client.py:81-91 | adapting loses nothing: reading the descriptors back out of the adapted list gives the catalogue |
| `Client.AdaptOnto` | client.py:81-91 | every list of `"function"` tools is the adaptation of the catalogue read back from it (with `AdaptRoundTrip`, a bijection) |
| `Client.AdaptConcat` | client.py:81-91 | adapting works element by element: it commutes with concatenation, so order is preserved |
| `Client.FirstText` | client.py:136 | `result.content[0].text` exists exactly when the first content block exists and is text, and it is then that block's text |
| `Client.ResultText` | client.py:128-136 | no contract of its own: the text a call yields, `None` where parsing, the tool call or `content[0].text` raises; `Step` and `StepStopped` relate it to the loop |
| `Client.Step` | client.py:126-138 | one loop iteration succeeds exactly when parsing, the tool call and the first text block all succeed; it then issues a `CallTool` with the call's name and parsed arguments and appends a tool message with the call's id and that text |
| `Client.StepStopped` | client.py:128-136 | an iteration that raises tags the exception with the call's index; it is `ArgumentError` exactly when parsing failed and `ToolCallFailed` exactly when parsing succeeded and the tool call raised; the peer was contacted (once, with the parsed arguments) exactly when parsing succeeded |
| `Client.ExecuteCalls` | client.py:126-138 | no contract of its own: the reference definition of the `for tool_call` loop, on prefixes; its facts are `ExecuteCallsReplies`, `ExecuteCallsEventCount`, `ExecuteCallsEvents`, `ExecuteCallsStop` and `FailureSticks` |
| `Client.ExecuteCallsReplies` | client.py:126-138 | the loop raises nothing iff every call succeeds, and then appends one tool message per call; message j is call j's reply |
| `Client.ExecuteCallsEventCount` | client.py:126-138 | the loop makes one tool call per appended message, plus at most one for the call that raised |
| `Client.ExecuteCallsEvents` | client.py:126-131 | the j-th tool call the loop makes is that of call j, with its own name and parsed arguments |
| `Client.ExecuteCallsStop` | client.py:126-138 | on an exception, the call that raised is the first one without a message, and its own events close the run |
| `Client.AllAnswered` | client.py:126-138 | when every call yields a text, the loop runs through without an exception |
| `Client.FailureSticks` | client.py:126-131 | once the loop has raised, the later calls make no difference |
| `Client.ExecuteToolCalls` | client.py:126-138 | the imperative loop appends exactly the tool messages of `ExecuteCalls`, issues exactly its calls and raises its exception |
| `Client.ToolLog` | client.py:119-138 | no contract of its own: the `messages` list after the loop, user message, assistant message, then the tool messages; `FinalRequestShape` states its contents |
| `Client.Run` | client.py:94-150 | every cycle starts with the `tools/list` call |
| `Client.Opening` | client.py:98-108 | no contract of its own: the first two calls of a cycle, `tools/list` then the user-message request; `Propose` and `FirstRequestShape` fix them at the head of the trace |
| `Client.Propose` | client.py:102-125 | from the first completion on, the trace begins with `ListTools`, then the user-message request |
| `Client.ToolPhase` | client.py:126-148 | the tool phase keeps `ListTools` and the user-message request at the head of the trace |
| `Client.AbortedTrace` | client.py:126-138 | when the loop raises, the cycle raises the same exception and its trace ends with the loop's calls: no finalization request |
| `Client.FinishedTrace` | client.py:126-146 | when the loop runs through, the trace is the opening, the loop's calls, then the finalization request over the replayed log |
| `Client.ProcessQuery` | client.py:94-150 | the imperative `process_query` returns, or raises, the outcome `Run` prescribes, and makes the same oracle calls in the same order |
| `Client.FirstRequestShape` | client.py:98-108 | the first request carries exactly `[user(query)]`, the adapted catalogue and `tool_choice="auto"` |
| `Client.ListToolsFailurePath` | client.py:80 | an exception from `tools/list` escapes before any completion request |
| `Client.ApiFailurePath` | client.py:102-112 | a failed first request yields exactly `"Error occurred while calling API"`, with no tool call and no second request |
| `Client.NoChoicesPath` | client.py:115 | a first response without choices raises at `choices[0]`, with no tool call and no second request |
| `Client.NoToolCallPath` | client.py:125-150 | without tool calls, the assistant's content is returned, after one request and no tool call |
| `Client.CallsInOrder` | client.py:126-131 | the k-th `CallTool` in the trace is the k-th proposed call, with its own name and its parsed arguments |
| `Client.AbortOnStop` | client.py:126-138 | when call k is the first to raise, the cycle raises that exception; k calls (k+1 if k's arguments parsed) reached the peer, and no finalization request is sent |
| `Client.ArgumentErrorAborts` | client.py:126-131 | unparseable arguments of call k (0-based) raise `ArgumentError(k)` after exactly k tool calls, with no finalization request |
| `Client.FinalRequestShape` | client.py:119-146 | when all N calls succeed, the finalization request is the last event; it replays a log of length 2+N: user message, assistant message, then tool message k with call k's id and first result text; it reuses the adapted catalogue with `tool_choice="none"` |
| `Client.FinalRequestCounts` | client.py:126-146 | when all N calls succeed, the cycle makes N tool calls and two completion requests |
| `Client.FinalAnswer` | client.py:141-148 | after the tool turn, the result is the finalization response's content, or the exception that request or its `choices[0]` raises |
| `Server.Lower` | server.py:74 | lower-casing keeps the length, turns each ASCII upper-case letter into its lower-case counterpart, leaves no upper-case letter and changes nothing else |
| `Server.LowerChar` | server.py:74 | no contract of its own: one character of `.lower()` on ASCII; `Lower` states its effect |
| `Server.LowerIdempotent` | server.py:74 | lower-casing twice is lower-casing once |
| `Server.GenerateWelcomeMessage` | server.py:54-82 | an empty name gives `"Hello! Please provide a name for a personalized greeting."` whatever the context; otherwise the greeting contains the name |
| `Server.LoginGreeting` | server.py:76 | no contract of its own: the login template; `WelcomeDispatch` and `TemplatesDistinct` state when it is chosen and that it differs from the others |
| `Server.EventGreeting` | server.py:78 | no contract of its own: the event template; see `WelcomeDispatch` and `TemplatesDistinct` |
| `Server.SupportGreeting` | server.py:80 | no contract of its own: the support template; see `WelcomeDispatch` and `TemplatesDistinct` |
| `Server.DefaultGreeting` | server.py:82 | no contract of its own: the `"Greetings, …"` template; see `WelcomeDispatch` and `WelcomeDefaultContext` |
| `Server.WelcomeIgnoresCase` | server.py:74 | `context` and `lower(context)` give the same greeting |
| `Server.TemplatesDistinct` | server.py:75-82 | the four templates never coincide, whatever the names |
| `Server.WelcomeDispatch` | server.py:74-82 | for a non-empty name, the login, event and support templates are produced exactly for lower-cased `"login"`, `"event"`, `"support"`, and the `"Greetings, …"` template for every other context |
| `Server.WelcomeDefaultContext` | server.py:54-82 | the default context `"general"` gets the `"Greetings, {user_name}! Welcome to the MCP server!"` template |
| `Server.WelcomeExamples` | server.py:65-69 | the documented examples for Alice (login, also spelled `"LOGIN"`) and Bob (event) |
| `Server.Decimal` | server.py:36-40 | no contract of its own: the decimal text `f"{i}"` of an item number; `DecimalDigits`, `DecimalRoundTrip` and `DecimalInjective` state its properties |
| `Server.DecimalDigits` | server.py:39-40 | the item number is rendered as a non-empty string of digits without a leading zero |
| `Server.DecimalRoundTrip` | server.py:39-40 | reading the rendered item number back gives the number |
| `Server.DecimalInjective` | server.py:39-40 | distinct item numbers are rendered differently |
| `Server.QuestionOf` | server.py:32-36 | no contract of its own: an item's question, `item.get("question", "Unknown question")` or `Item {i}`; `ItemDefaults` states the cases |
| `Server.AnswerOf` | server.py:32-37 | no contract of its own: an item's answer, `item.get("answer", "Unknown answer")` or `str(item)`; `ItemDefaults` states the cases |
| `Server.Entry` | server.py:39-40 | no contract of its own: the two lines appended for item i; `EntryInPlace` places it in the result |
| `Server.QuestionLine` | server.py:39 | no contract of its own: the question line of item i; `Entry` and `AppendEntries` place it |
| `Server.AnswerLine` | server.py:40 | no contract of its own: the answer line of item i with its blank line; `Entry` and `AppendEntries` place it |
| `Server.Formatted` | server.py:31-40 | no contract of its own: what the loop has appended after a prefix of the items; `FormattedIsEntries` equates it with `Entries` |
| `Server.Entries` | server.py:31-40 | no contract of its own: entries numbered from `first`, item by item; `EntriesConcat` and `EntryInPlace` state its structure |
| `Server.ItemDefaults` | server.py:32-37 | a dict item without `question`/`answer` gets `"Unknown question"`/`"Unknown answer"`; present fields are used; any other item gets question `"Item {i}"` and its rendering as answer |
| `Server.EntriesConcat` | server.py:31-40 | the entries of a concatenated list are those of the first part, then those of the second, numbered on |
| `Server.FormattedIsEntries` | server.py:31-40 | the text the loop builds on prefixes is entry 1, then entry 2, …, then entry n |
| `Server.EntryInPlace` | server.py:31-40 | item k's `Q{k+1}`/`A{k+1}` entry sits right after the entries of the items before it |
| `Server.AppendEntries` | server.py:31-40 | the `enumerate` loop appends `"Q{i}: {q}\nA{i}: {a}\n\n"` for i = 1..n in order |
| `Server.GetKnowledgeBase` | server.py:22-48 | a missing file gives `"Error: Knowledge base file not found"`, invalid JSON `"Error: Invalid JSON in knowledge base file"`; a list gives the header `"Here is the retrieved knowledge base:\n\n"` then its entries; another value gives the header then one `"Knowledge base content: …\n\n"` block |

## Left out

- `connect_to_server`, `cleanup` and `main` (client.py:43-69, 153-175): subprocess launch, stdio transport, handshake and teardown are I/O. `tools/list` is an oracle value.
- asyncio, `nest_asyncio`, the global session and client handles, `load_dotenv`, the model-name constant (`model=` is not recorded in `Complete`) and every `print`.
- The OpenAI client, the MCP `ClientSession`, `json.loads`, `json.dumps` and `str()` are foreign code: oracles or given renderings, not re-implemented.
- The oracles are total functions of their inputs. Two identical requests in one cycle therefore get the same answer; a real backend need not answer alike.
- Identical proposed tool calls (same name and same arguments, different ids) are sent as two identical `CallTool` requests and receive the same answer in this model: `callTool` depends on name and arguments only, so a repeated call that succeeds once and then fails (a timeout, say) is not expressible.
- `tool_calls` being `None` and being `[]` are both falsy in Python; the model has only the empty sequence.
- `response.choices[0]` on an empty list, `result.content[0]` on an empty list and `.text` on a non-text block all raise in Python. They are `NoChoices` and `NoTextContent`; the exact Python exception class is not modelled.
- Server.Lower: models `str.lower()` on ASCII letters only; Unicode case mapping is not modelled.
- A dict entry present with a non-string value is given as its rendering, so the model cannot tell `None` stored under `question` apart from any other rendered value.
- File reading in `get_knowledge_base` (server.py:23-25) is an input, and the catch-all `Exception` branch (server.py:49-50) is not modelled.
- The FastMCP object, tool registration and `mcp.run` (server.py:6-13, 53, 85-88).
- `use-file-path/agent.py`: a wrapper around third-party agent libraries with no logic of its own.
