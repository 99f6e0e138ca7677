# Realtime voice relay: a Dafny model

This project models the Node.js back end of a voice assistant. The browser
talks to a realtime speech model through a middle tier that rewrites the
frames going each way and runs server-side tools. Running the tools means
searching a knowledge base for passages and reporting the cited sources
back to the client. A separate conversation graph routes a user utterance
to a domain agent by intent.

The model has five modules:

- `JsValue` (jsvalue.dfy) covers the parts of JavaScript semantics that
  the relay depends on:
  - parsed JSON values, whose objects are ordered lists of members in
    insertion order (JavaScript's placing of array-index keys first is
    left out);
  - property read and property assignment;
  - truthiness;
  - `String(x)`;
  - `JSON.stringify`, with its string escaping proved reversible.
- `RealtimeRelay` (relay.dfy) models backend-node/rtmt.js in two layers:
  - Pure functions for `ToolResult.toText` and the outbound rewriter
    (`_processMessageToServer`). The scripted greeting request
    (`_processGettingMessageInstruction`) and the client `message`
    dispatch are also pure functions. So is the inbound rewriter
    (`_processMessageToClient`), written as a function of the
    pending-call table.
  - The class `RTMiddleTier`, which holds the tool table, the pending-call
    table and the frames sent on each socket. Its methods update that
    state in place and are proved to agree with the functions.
  - Its main invariant (`ClientSafe`): whatever the model sends, the
    client never receives function-call plumbing (an `output_item` or
    argument event, or a `conversation.item.created`, whose item is a
    `function_call`), a `conversation.item.created` carrying a
    `function_call_output`, a `session.created` whose session is not
    redacted, or a `response.done` whose output holds a `function_call`.
    A `function_call_output` item inside other kinds, and the
    `session.updated` echo, are forwarded as the code forwards them (see
    the `session.updated` bullet below).
- `RagTools` (ragtools.dfy) models backend-node/ragtools.js:
  - the search options;
  - the search-text loop;
  - the `safe` source filter;
  - the grounding query and the grounding-result loop;
  - the registration of the two tools.
- `IntentRouter` (router.dfy) models backend-node/agents/router.js: the
  schema check on the model's reply and the keyword fallback.
- `ChatGraph` (graph.dfy) models backend-node/graph/graph.js:
  - the nodes;
  - the `messages` reducer;
  - the conditional router edge and the topology;
  - a whole run.

Conventions:

- A JSON text frame is either `Parsed(value)` or `Unparsed(text)`.
  `JSON.parse` is a parameter of type `string -> Option<Json>`.
- Re-serialising a message the relay did not change is treated as
  identity: the frame is forwarded as it arrived.
- `Option.None` stands for `undefined`, or for a call that throws. Each
  function's comment says which.
- The search service, the language model and the domain agents are
  function parameters.
- Throws (`Abort`, `None`) are modelled wherever the JavaScript
  evaluation would throw a `TypeError`:
  - a `null` argument object;
  - a property assignment on a primitive session (ES modules run in
    strict mode);
  - `String` of an object that has its own `toString` member;
  - a `null` entry in `response.output`.

Behaviour of the code worth knowing:

- A client frame that is not JSON makes the unguarded `JSON.parse` in the
  client `message` handler (backend-node/rtmt.js:112) throw, so nothing is
  sent upstream (`ClientDispatch` returns `None`). The branch of
  `_processMessageToServer` that passes non-JSON text on is never reached
  from that handler.
- `attachTool` on a name that is already registered replaces the tool in
  its existing position (`RTMiddleTier.AttachTool`).
- A `session.created` whose session is a string, number or boolean makes
  the first property assignment throw (`SessionCreatedRedacted`, `Abort`).
  One whose session is an array is forwarded unchanged, because
  `JSON.stringify` does not write the named properties of an array.
- An unknown tool name is suppressed silently, except a name inherited
  from `Object.prototype` (such as `toString`): looking it up finds a
  value with no `target`, and the call throws (`ToolCallStep`).
- A tool handler that rejects, or a reply holding arguments that do not
  parse, is not caught. The handler's promise rejects and nothing is sent
  for that frame (`ToolCallSends`).
- The upstream `session.updated` echo reaches the client with the
  server's instructions and tool list, unredacted. `ClientSafe`
  therefore constrains `session.created` only.
- `safe` converts its argument to text before matching. A `null` entry in
  `sources` passes as "null", and `join` writes it as ""
  (`NullSourceJoinsEmpty`). Numbers pass as their decimal text.

## Model

| member | source | states |
|---|---|---|
| RealtimeRelay.ToText | backend-node/rtmt.js:18-23 | null gives "", a string gives itself, anything else gives its JSON text; the text is "" exactly when the payload is null or "" |
| JsValue.Stringify | backend-node/rtmt.js:22 | the JSON text of any value is non-empty, and its first character is `"`, `[` or `{` exactly for strings, arrays and objects |
| JsValue.UnescapeEscape | backend-node/rtmt.js:228-238 | the string escaping `JSON.stringify` applies can be undone exactly: decoding the escaped body of any string gives the string back |
| JsValue.KeysPut | backend-node/rtmt.js:78 | assigning a property keeps the existing key order; a new key is appended at the end |
| JsValue.PutKeepsDistinct | backend-node/rtmt.js:78 | assigning a property never creates a duplicate key |
| JsValue.LookupPutSame | backend-node/rtmt.js:182-186 | reading a property just assigned gives the assigned value |
| JsValue.LookupPutOther | backend-node/rtmt.js:182-186 | assigning one property leaves every other property's value unchanged |
| RealtimeRelay.Schemas | backend-node/rtmt.js:303 | the advertised tool list is the attached tools' schemas, one per tool, in insertion order |
| RealtimeRelay.SchemasOfValues | backend-node/rtmt.js:303 | the advertised list is `Object.values(this.tools)` mapped to each tool's schema: same length, entry by entry |
| RealtimeRelay.ProcessMessageToServer | backend-node/rtmt.js:286-313 | text that is not JSON, and every kind other than `session.update`, is passed on unchanged; it throws exactly for a `session.update` whose session is a primitive |
| RealtimeRelay.SessionUpdateEnforcesPolicy | backend-node/rtmt.js:297-309 | the outbound session carries the system message, the tool schemas, `tool_choice` "auto" iff a tool is attached ("none" iff none), both modalities, whisper-1; the voice changes only when one is configured; no other session or message field changes, and existing fields keep their order |
| RealtimeRelay.Greeting | backend-node/rtmt.js:323-330 | the greeting is the fixed Japanese text with the customer's name and the intent inserted at their two places |
| RealtimeRelay.GettingInstruction | backend-node/rtmt.js:314-337 | a missing or null `user_info` gives back the original message; for any other `user_info`, the name and intent are converted as template literals convert them (a missing name gives "undefined", also for a primitive or array `user_info`), the result is a `response.create` whose instructions are the greeting when both conversions succeed, and the original message when one throws |
| RealtimeRelay.PlayGettingMessage | backend-node/rtmt.js:338-356 | a missing or null `user_info`, or a conversion that throws, gives back the original message; otherwise a `response.create` whose instructions are the `customer_name:` and `intent:` lines and whose modalities are audio and text |
| RealtimeRelay.PlayInstructionsReadBack | backend-node/rtmt.js:346-348 | when the name and the intent hold no newline, the first line of the instructions is `customer_name: ` and the name, the second `intent: ` and the intent, and nothing follows |
| RealtimeRelay.ClientDispatch | backend-node/rtmt.js:109-125 | a client frame that is not JSON sends nothing; `session.getting` sends the greeting request; every other kind sends what the outbound rewriter gives (nothing when it throws), and a kind other than `session.update` is sent unchanged |
| RealtimeRelay.ClientSessionUpdateSendsPolicy | backend-node/rtmt.js:121-123 | a client `session.update` with an object, null or missing session reaches the model with the system message, the tool schemas, `tool_choice` "auto" iff a tool is attached, both modalities, whisper-1, the configured voice, and every other message field as sent |
| RealtimeRelay.RedactSessionFields | backend-node/rtmt.js:181-186 | redaction sets instructions "", tools [], tool_choice "none" and an uncapped output, overwrites the voice only when one is configured, and keeps every other field and the field order |
| RealtimeRelay.SessionCreatedRedacted | backend-node/rtmt.js:179-189 | an object (or missing) session is forwarded redacted, with all other message fields kept; an array session is forwarded unchanged; a primitive session throws; nothing is sent and the pending table is unchanged |
| RealtimeRelay.CallPlumbingSuppressedIff | backend-node/rtmt.js:190-196 | the three call-plumbing kinds are suppressed iff their item is a function call, and are otherwise forwarded unchanged |
| RealtimeRelay.ItemCreatedTracksCall | backend-node/rtmt.js:197-213 | `conversation.item.created` is suppressed iff its item is a function call or a function-call output; a call records its preceding item id only when the call id is new; other entries are untouched; nothing is sent |
| RealtimeRelay.RepeatedCallKeepsFirst | backend-node/rtmt.js:199-206 | a second event for the same call id never overwrites the first stored preceding item id |
| RealtimeRelay.ToolCallSends | backend-node/rtmt.js:215-254 | a completed function call is never forwarded. An unknown tool sends nothing. A known tool sends one `function_call_output` with the same call id, carrying the text iff it is for the server. It sends one client notification (the tool name, the text and the recorded preceding id) iff it is for the client |
| RealtimeRelay.WithoutFunctionCallsSpec | backend-node/rtmt.js:266-268 | the filter throws iff an entry is null; it otherwise keeps exactly the non-function-call entries, in order; the list is unchanged iff it held no function call |
| RealtimeRelay.ResponseDoneResumes | backend-node/rtmt.js:258-276 | `response.done` empties the pending table and sends one `response.create` iff calls were pending; a truthy output that is not a list, or holds null, throws; otherwise the forwarded output is the list without its function calls, in order, every other message and response field is kept in its place, and the message is unchanged when nothing was removed |
| RealtimeRelay.OtherFramesPassThrough | backend-node/rtmt.js:166-172 | text that is not JSON, and every other kind, is forwarded as it arrived, with no sends and no table change |
| RealtimeRelay.InboundStepClientSafe | backend-node/rtmt.js:178-283 | every frame one upstream frame makes reach the client is client-safe |
| RealtimeRelay.RunUpstreamKeepsClientSafe | backend-node/rtmt.js:134-142 | over any sequence of upstream frames, everything sent to the client stays client-safe, and neither socket's log is ever rewritten |
| RealtimeRelay.RunEndingInResponseDoneClears | backend-node/rtmt.js:258-261 | after a run that ends with `response.done`, no call is pending |
| RealtimeRelay.RTMiddleTier.constructor | backend-node/rtmt.js:45-60 | the voice is kept only when non-empty, the API version and system message default to "2024-10-01-preview" and "You are a helpful assistant.", and there are no tools and no pending calls |
| RealtimeRelay.RTMiddleTier.AttachTool | backend-node/rtmt.js:77-79 | the name maps to the new tool; a new name is appended, a repeated name keeps its place; every other tool and all other state is unchanged; names stay unique |
| RealtimeRelay.RTMiddleTier.OnClientMessage | backend-node/rtmt.js:109-125 | sends upstream exactly what `ClientDispatch` gives, and changes nothing else |
| RealtimeRelay.RTMiddleTier.CallTool | backend-node/rtmt.js:218-254 | runs the named tool and sends on each socket exactly what `ToolCallStep` describes, leaving the pending table alone |
| RealtimeRelay.RTMiddleTier.ProcessMessageToClient | backend-node/rtmt.js:166-284 | updates the pending table and sends on each socket exactly as `InboundStep` describes |
| RealtimeRelay.RTMiddleTier.OnServerMessage | backend-node/rtmt.js:134-142 | the new state is `OnServerFrame` of the old one, and the client has still only been sent client-safe frames |
| RagTools.SearchOptionsFor | backend-node/ragtools.js:81-103 | top 5, identifier and content fields; one k=50 vector query over the embedding field iff vector queries are on (otherwise none); "semantic" with the configuration name iff one is set, else "simple" |
| RagTools.Passage | backend-node/ragtools.js:111 | a hit's text exists iff both fields convert; it is ` [`, the identifier, `]: `, the content and the separator line, 12 characters more than the two fields |
| RagTools.SearchText | backend-node/ragtools.js:107-112 | the text is "" exactly when there are no hits |
| RagTools.SearchTextAppend | backend-node/ragtools.js:107-112 | the text of two runs of hits is the first's text followed by the second's: passages appear in hit order |
| RagTools.SearchToolImpl | backend-node/ragtools.js:70-115 | the accumulation loop computes `SearchTool`: a TO_SERVER result of the passages' text, or a throw |
| RagTools.SearchToolDirection | backend-node/ragtools.js:107-114 | a search result always goes to the server, and its text is empty iff the search found nothing |
| RagTools.SafePatternIff | backend-node/ragtools.js:126 | the pattern accepts exactly the non-empty strings over `[A-Za-z0-9_=-]` |
| RagTools.FilterSafeSpec | backend-node/ragtools.js:127 | the filter throws iff some entry's text conversion throws; otherwise it keeps exactly the safe entries, in order, repeated entries included (its length is the number of safe entries) |
| RagTools.GroundingDocs | backend-node/ragtools.js:141-149 | one `{chunk_id, title, chunk}` entry per hit, in hit order |
| RagTools.ReportGroundingTool | backend-node/ragtools.js:121-152 | no accepted source gives `{sources: []}` for the client; args that cannot be read throw; every result goes to the client |
| RagTools.ReportGroundingToolImpl | backend-node/ragtools.js:121-152 | the push loop computes `ReportGroundingTool` |
| RagTools.NoSourceNoSearch | backend-node/ragtools.js:128-130 | with no accepted source the result does not depend on the search service |
| RagTools.GroundingUsesSearch | backend-node/ragtools.js:132-151 | with accepted sources, the service is asked for the sources joined by " OR " with `GroundingOptions`, and each hit becomes one entry |
| RagTools.SplitJoinedIds | backend-node/ragtools.js:126-132 | safe ids contain no space, so splitting the joined query on spaces gives back every id, in order, separated by "OR" |
| RagTools.AcceptedStringsReadBack | backend-node/ragtools.js:127-132 | for accepted string sources, the grounding query splits back into exactly those sources |
| RagTools.NullSourceJoinsEmpty | backend-node/ragtools.js:126-132 | a `null` source is accepted (as "null") but contributes "" to the query |
| RagTools.SchemaNames | backend-node/ragtools.js:29-63 | each schema's name is the name it is registered under |
| RagTools.AttachRagTools | backend-node/ragtools.js:157-179 | attaches "search" and then "report_grounding" over the same service, leaving other tools and the rest of the state alone; from an empty table the names are in that order |
| IntentRouter.ValidateReply | backend-node/agents/router.js:5-13 | a reply is accepted iff it is an object whose intent is one of the four enum strings and whose rationale is absent or a string; the accepted value is that intent |
| IntentRouter.ContainsIff | backend-node/agents/router.js:41-56 | `includes` holds iff the keyword occurs at some index |
| IntentRouter.RenameContainsName | backend-node/agents/router.js:41 | anything containing "rename" contains "name" |
| IntentRouter.LowerIdempotent | backend-node/agents/router.js:40 | lowering twice is lowering once |
| IntentRouter.LowerAsciiUpper | backend-node/agents/router.js:40 | raising ASCII letters does not change the lower case |
| IntentRouter.KeywordFallback | backend-node/agents/router.js:40-57 | the result is one of the four intents; name words decide first, then bank words, then insurance words, and "unknown" iff none occurs (each case stated as an iff) |
| IntentRouter.ClassifyIntent | backend-node/agents/router.js:28-59 | always one of the four intents; a reply that parses and passes the schema decides; otherwise the keyword fallback decides |
| IntentRouter.FallbackIgnoresCase | backend-node/agents/router.js:40 | an utterance, its lower case and its ASCII upper case route alike |
| ChatGraph.AddMessage | backend-node/graph/graph.js:11-13 | the message is appended at the end and no other field changes |
| ChatGraph.Reduce | backend-node/graph/graph.js:53 | the reducer concatenates, reading null/undefined as [] |
| ChatGraph.ReduceMonoid | backend-node/graph/graph.js:53 | the reducer is associative with null as identity |
| ChatGraph.Apply | backend-node/graph/graph.js:51-57 | a node's messages are appended through the reducer; the other channels are overwritten only when the node sets them |
| ChatGraph.RouterNode | backend-node/graph/graph.js:15-20 | sets only the intent, to the classification of the last message |
| ChatGraph.History | backend-node/graph/graph.js:23 | one line per message, in order |
| ChatGraph.DomainNode | backend-node/graph/graph.js:22-41 | with no messages it throws; otherwise it asks the agent with the last message and the history and sets exactly the answer and citations |
| ChatGraph.RespondNode | backend-node/graph/graph.js:43-48 | returns the whole list with exactly one AI message appended, and sets nothing else |
| ChatGraph.RespondMergeDuplicates | backend-node/graph/graph.js:43-53 | merging respond's update gives old ++ old ++ [answer], of length 2n+1 |
| ChatGraph.Route | backend-node/graph/graph.js:68-79 | each of the three intents goes to its domain node, and every other value goes to respond |
| ChatGraph.RunVisits | backend-node/graph/graph.js:66-84 | every run goes START, router, at most one domain node (the routed one), respond, END |
| ChatGraph.InvokeResult | backend-node/graph/graph.js:50-86 | a completed run holds the input twice and then one AI answer: the routed agent's answer, or the clarification when nothing is routed; the intent is one of the four |

## Left out

- The WebSocket wiring in `connect` is I/O and is not modelled. That covers the URL and headers, close and error propagation, and opening the upstream socket (backend-node/rtmt.js:85-107, 127-163). The model is exactly one sequence of frames per direction.
- The two directions and concurrent tool handlers are not interleaved. An awaited tool call is handled to completion before the next frame. In the source the `message` listeners are async and nobody awaits them (backend-node/rtmt.js:134-142), so a `response.done` can be handled while a tool call is still awaiting its search, clear the table and send `response.create` before that call's `function_call_output` goes out; that ordering is what the model does not capture.
- Sharing one relay object across sessions is not modelled: server.js uses one object for every connection. The model is one session.
- Credentials, the bearer-token provider and `createSearchClient` are foreign library calls (backend-node/rtmt.js:61-74, backend-node/ragtools.js:10-27). The search service is a function parameter; so is the language model, which returns an arbitrary reply.
- `JSON.parse` is a parameter. No text parser is modelled, and re-serialising an unchanged message is identity.
- JSON numbers are integers; fractional and very large numbers are left out.
- `console.log` calls are left out.
- JsValue.Put: object keys keep insertion order, including keys that look like array indices ("0", "42"). JavaScript lists those first, in ascending numeric order, in `Object.keys`, `Object.values`, spread and `JSON.stringify`. The order claims of JsValue.KeysPut, RealtimeRelay.Schemas and RealtimeRelay.RTMiddleTier.AttachTool therefore hold for names that are not array indices. For instance, attaching "search" and then "1" advertises "1" first in JavaScript but last in the model.
- A frame whose handling throws (`None` from `ClientDispatch`, `Abort` from the inbound rewriter) is modelled as dropped, and the relay goes on with the next frame. In the source both socket `message` handlers are async listeners whose rejected promises nobody catches (backend-node/rtmt.js:109-125, 134-142). The `catch` at backend-node/rtmt.js:158 covers only opening the socket. The process-level effect of such an unhandled rejection is not modelled; on current Node it ends the process.
- Tool targets are total functions that return a `ToolResult` or throw. A value without `toText` is not modelled.
- ToolFor: a tool name that is not a string is treated as unknown. JavaScript would convert it to a property key.
- RTMiddleTier.AttachTool: names inherited from `Object.prototype` (such as `__proto__`) are stored like any other name.
- Pending: call ids are compared by value. A JavaScript `Map` compares parsed objects by identity, so an object call id could never be found there.
- IntentRouter.Lower: this is not full Unicode `toLowerCase`. It lowers ASCII letters, U+212A and U+0130, the only characters whose lower case contains ASCII. Every other character is kept. The fallback's ASCII keyword matches come out the same either way.
- ChatGraph: message content is a string, and the roles are human and ai only. Structured content lists and other message types are left out.
- ChatGraph.Apply: LangGraph's channel machinery (`StateGraph`, `compile`) is not modelled. A node's update overwrites a last-value channel whenever the node returns that key.
- The search results' asynchronous paging is a sequence of documents; `for await` is the loop over it.
- `_processPlayGettingMessage` is modelled, but its call is commented out in the source, and no dispatch uses it.
- The other agents, the prompts, server.js and the frontend are not part of this model.
