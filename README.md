# Tool-calling turn of the worldbuilding chat backend, in Dafny

This project models the one piece of real logic in the backend of the
worldbuilding chat interface: a chat turn that may call tools. It has three
parts.

- **The tool dispatcher** (`MCPClient`, module `Mcp`, `mcp_client.dfy`). It
  builds a registry as the union of five handler groups (world, taxonomy,
  entry, image, site). It rejects calls when the tool package is unavailable
  or the tool name is unknown, and routes each call to the first group that
  holds the name. It turns the handler's answer into a result record and
  scrapes file paths out of the result text.
- **The turn orchestrator** (`ClaudeService`, module `Claude`,
  `claude_service.dfy`). It advertises the tool schemas, makes one model
  call, and folds the reply's content blocks into text, thinking, pending
  tool calls and recorded blocks. It then runs each requested tool through
  the dispatcher, makes at most one follow-up call, and falls back to a fixed
  summary when that call fails.
- **The chat route** (module `Chat`, `chat.dfy`). It splits the turn's
  content on single spaces and buffers the pieces. A chunk is emitted when
  the buffer holds four or more whitespace-separated tokens, or at the last
  piece, so the last chunk may hold fewer. The chunks are followed by an
  optional tools event and an end event. Any exception turns into a single error event. Each event is
  framed as a server-sent event. Without streaming, the route returns a plain
  reply.

`strings.dfy` holds the Python string built-ins these parts rely on (module
`Strings`), plus an `Option` type (module `Wrappers`):
`str.isspace`, `str.split()`, `str.split(' ')`, `str.strip`, `str.join`,
substring `in`, `list(set(...))` and `str(n)`.

Two parts of the system are outside the model and are supplied as oracles
that keep a log:

- **The tool handlers.** `Mcp.ToolPackage` holds the key lists of the five
  handler tables. It answers the n-th handler call through
  `answer(n, group, name, input)` and logs every invocation, so "no handler
  ran" can be stated.
- **The Anthropic client.** `Claude.ModelClient` answers the n-th
  `messages.create` call through `answer(n, request)`, either with content
  blocks or by raising. It logs every request, so "at most one follow-up
  call" can be stated.

The caller's `conversation_history` list is a `Claude.MessageList` object.
The follow-up reuses that same object when it is non-empty, as the code
does, so the caller sees the follow-up messages appended to its list.

A few facts about the code shape the contracts:

- `files_created` concatenates every tool's files. Only the scraper
  de-duplicates, and only its own output.
- The scraper has three passes: "created ..." phrases, "saved to" phrases,
  and, inside each whitespace-free word, the part up to a '.' and 2 to 4
  ASCII letters, kept when it contains one of `.md`, `.png`, `.jpg`,
  `.json` or `.html`. So "notes.md)." yields "notes.md", and
  "file.json5" yields "file.json".
- A tool call fails when the tools are unavailable, when its name is not
  registered (no handler runs in either case), when the handler returns an
  empty or non-list answer, and when the handler raises.
- Tool results are sent back to the model as plain user messages.

## Model

| member | source | states |
|---|---|---|
| Mcp.Merge | backend/app/core/mcp_client.py:42-48 | dict.update with one more table keeps the keys distinct, keeps the existing keys in place as a prefix, and holds exactly the old keys and the new ones |
| Mcp.Registry | backend/app/core/mcp_client.py:41-48 | the registry has no duplicate names and holds a name exactly when one of the five handler tables holds it |
| Mcp.McpClient.constructor | backend/app/core/mcp_client.py:37-48 | an available client registers the union of the five tables, an unavailable one registers nothing |
| Mcp.Route | backend/app/core/mcp_client.py:60-71 | the chosen group holds the name and no group earlier in the order world, taxonomy, entry, image, site does; there is no group exactly when no table holds the name |
| Mcp.ToolPackage.Handle | backend/app/core/mcp_client.py:60-69 | a handler call is logged, and its answer is the package's answer for that call number, group, name and input |
| Mcp.ToolRecord | backend/app/core/mcp_client.py:73-102 | success exactly when the handler returned a non-empty list; then the result is the first item's text, the files are what the scraper finds in that text, and there is no error; otherwise an error is set and there are no files; an empty or non-list answer gives "Empty result from MCP tool"; a raised exception gives its message as the error and "Tool execution failed: " plus the message as the result |
| Mcp.McpClient.ExecuteTool | backend/app/core/mcp_client.py:50-102 | the outcome is `Mcp.McpClient.Dispatch` for the current call count and the log grows by exactly `Invoked`: unavailable raises RuntimeError "MCP tools are not available" and runs no handler; an unknown name raises ValueError "Unknown tool: <name>" and runs no handler; otherwise exactly one handler call in the routed group, and the record above built from its answer (the "No handler found" branch is kept as written) |
| Mcp.DispatchRaises | backend/app/core/mcp_client.py:52-56 | an unavailable client raises RuntimeError "MCP tools are not available", and an unregistered name raises ValueError "Unknown tool: <name>"; neither runs a handler |
| Mcp.RegisteredNamesRoute | backend/app/core/mcp_client.py:55-71 | on a client built by the constructor, every registered name has a group, so the "No handler found" branch never runs |
| Mcp.HeadLength | backend/app/core/mcp_client.py:112-116 | the matched head never runs past the text |
| Mcp.HeadLengthFacts | backend/app/core/mcp_client.py:112-116 | a head of the pattern starts the text exactly when the length is positive, and the length is that of a matching head |
| Mcp.SeparatorRun | backend/app/core/mcp_client.py:112-116 | the greedy run of ':' and whitespace characters, ending at the first other character |
| Mcp.CaptureStart | backend/app/core/mcp_client.py:112-116 | a capture starts past the first character of the text, inside it, on a non-whitespace character |
| Mcp.CaptureStartSpec | backend/app/core/mcp_client.py:112-116 | "[:\s]+([^\s\n]+)" after the head captures from the last position that has only separators before it, at least one of them, and a non-whitespace character at it; no capture exactly when no such position exists |
| Mcp.PhraseCaptures | backend/app/core/mcp_client.py:111-117 | re.findall over every start position, resuming after each capture; every capture is non-empty and holds no whitespace |
| Mcp.BlankHasNoPhrase | backend/app/core/mcp_client.py:111-117 | blank text yields no phrase capture |
| Mcp.GluedCapture | backend/app/core/mcp_client.py:112-113 | "Created file:" glued to a path captures the whole path |
| Mcp.SpacedColonCapture | backend/app/core/mcp_client.py:112-113 | "Created file : " followed by a path captures the path, not the colon |
| Mcp.BackedOffColon | backend/app/core/mcp_client.py:112-113 | "Created file::" with nothing after it captures ":", as the engine backs off the greedy separator run |
| Mcp.FirstMatchEnd | backend/app/core/mcp_client.py:119-121 | the first catch-all match inside a token is a prefix of it that ends in '.' and 2 to 4 ASCII letters |
| Mcp.FirstMatchEndSpec | backend/app/core/mcp_client.py:119-121 | a match is found exactly when some '.' has a character before it and two ASCII letters after it, and the greedy match runs past the letters of the last such '.' |
| Mcp.ExtensionMatches | backend/app/core/mcp_client.py:119-121 | every catch-all match inside a token ends in '.' and 2 to 4 ASCII letters |
| Mcp.ExtensionMatchesNoSpace | backend/app/core/mcp_client.py:119-121 | a match found inside a whitespace-free token holds no whitespace |
| Mcp.CandidatesOf | backend/app/core/mcp_client.py:119-121 | every catch-all candidate of the text ends in '.' and 2 to 4 ASCII letters |
| Mcp.KeepAllowedMembers | backend/app/core/mcp_client.py:123-126 | a candidate is kept exactly when it contains (`Strings.Contains`, substring `in`) .md, .png, .jpg, .json or .html |
| Mcp.ExtractFilesFromResult | backend/app/core/mcp_client.py:104-128 | the loop computes the scraper's result; the list has no duplicates; a path is in it exactly when one of the three passes found it (the catch-all only with an allowed extension) |
| Mcp.ExtractedFilesMembers | backend/app/core/mcp_client.py:104-128 | a path is scraped exactly when the "created ..." pass or the "saved to" pass captured it, or the catch-all matched it with an allowed extension |
| Mcp.CandidatesAreTokenPieces | backend/app/core/mcp_client.py:119-121 | a catch-all candidate is non-empty and holds no whitespace |
| Mcp.ExtractedFilesShape | backend/app/core/mcp_client.py:104-128 | every scraped path is non-empty, holds no whitespace and occurs once; one found only by the catch-all ends in a 2-4 letter extension and names an allowed one; empty or blank text yields no path |
| Mcp.DefinedToolsFacts | backend/app/core/mcp_client.py:186-191 | one record per registered name that has a definition, carrying that name, category and description; every such name is listed; distinct names give distinct records |
| Mcp.McpClient.GetAvailableTools | backend/app/core/mcp_client.py:130-193 | unavailable: the empty list; otherwise the records above, in registry order |
| Mcp.AvailableToolsAreRegisteredAndDefined | backend/app/core/mcp_client.py:186-191 | the listed names are unique, and a name is listed exactly when it has a definition and a handler table holds it |
| Claude.ModelClient.Create | backend/app/services/claude_service.py:273-291 | each model call is logged, and its reply is the client's answer for that call number and request |
| Claude.AdvertisedSchemasFacts | backend/app/services/claude_service.py:218-224 | each advertised schema is the table's schema for an available tool; every available tool that has a schema is advertised; distinct tools give distinct schemas |
| Claude.SharedToolName | backend/app/services/claude_service.py:86-216 | a name that is both in the schema table and in the definitions is never "create_taxonomy" and never a taxonomy tool |
| Claude.NoTaxonomyToolAdvertised | backend/app/services/claude_service.py:219-222 | whatever the registry holds, no taxonomy tool is ever advertised, because the schema table's "create_taxonomy" matches no definition (the definitions say "create_taxonomy_folders") |
| Claude.ClaudeService.GetClaudeTools | backend/app/services/claude_service.py:77-224 | the empty list when the dispatcher is unavailable; otherwise the schemas of the available tools that have one, in availability order |
| Claude.PrepareMessages | backend/app/services/claude_service.py:248-266 | the outgoing messages are the history's roles and contents in order, then exactly one user message holding the new message |
| Claude.RecognisedBlocksMembers | backend/app/services/claude_service.py:299-326 | the recorded blocks are exactly the text, thinking and tool_use blocks of the reply |
| Claude.ToolUses | backend/app/services/claude_service.py:314-326 | only tool_use blocks are picked |
| Claude.ToolUsesMembers | backend/app/services/claude_service.py:314-326 | a block is picked exactly when it is a tool_use block of the reply |
| Claude.ToolUsesAppend | backend/app/services/claude_service.py:314-326 | the tool_use blocks of two runs of blocks are those of the first, then those of the second, so the reply's order is kept |
| Claude.PendingCalls | backend/app/services/claude_service.py:314-320 | one pending call per tool_use block, in order, carrying its id, name and input |
| Claude.ParseBlocks | backend/app/services/claude_service.py:294-326 | the loop concatenates the text blocks into the content and the thinking blocks into the thinking, adds one pending call per tool_use block, and records every recognised block in order |
| Claude.TextOfAppend | backend/app/services/claude_service.py:300-302 | the text of two runs of blocks is the text of the first, then the text of the second |
| Claude.TurnResponse | backend/app/services/claude_service.py:328-350 | a raised call gives "I encountered an error while processing your request: " plus the message, the message as error, and no tool calls; a reply gives its text as content, its pending calls, and no error; files_created is always empty |
| Claude.ClaudeService.GenerateResponse | backend/app/services/claude_service.py:226-350 | unavailable: the fixed message, the error "Claude service unavailable", and no model call; otherwise exactly one call with the prepared messages and the advertised tools, answered as above; it never raises, and an error means no tool calls and no files |
| Claude.ExecutedCalls | backend/app/services/claude_service.py:372-426 | one executed entry per requested call, in request order, keeping its id and name; completed exactly when the dispatcher reported success, failed otherwise (a raise included), and a failed entry carries an error |
| Claude.AnsweredIndices | backend/app/services/claude_service.py:396-417 | the indices of the calls whose dispatch did not raise, all of them, in increasing order |
| Claude.ToolResultsEmpty | backend/app/services/claude_service.py:396-433 | no tool result is collected, so no follow-up is attempted, exactly when every dispatch raised |
| Claude.ToolResultsMatchAnswered | backend/app/services/claude_service.py:396-417 | exactly one tool result per dispatch that did not raise, in call order; a success sends its result, a failure sends "Error: " plus its error flagged is_error |
| Claude.FilesAcrossToolsNotDeduplicated | backend/app/services/claude_service.py:392-394 | for any two runs of calls, files_created is the files of the first run then those of the second, and as a multiset their sum, so a path reported by several tools is listed once per report |
| Claude.CompletedNames | backend/app/services/claude_service.py:473 | each listed name is the name of a completed tool; the list is empty exactly when no tool completed |
| Claude.CompletedNamesMembers | backend/app/services/claude_service.py:473 | the name of every completed tool is listed |
| Claude.CompletedNamesAppend | backend/app/services/claude_service.py:473 | the completed names of two runs of entries are those of the first, then those of the second, so the order of executed_tools is kept |
| Claude.SummaryFacts | backend/app/services/claude_service.py:472-477 | `Claude.Summary`, the fallback summary, is written exactly when some tool succeeded, and ends with "Created N files" for the N created files when there are any; with no files it is only the head and the completed tools' names |
| Claude.ResultMessages | backend/app/services/claude_service.py:443-448 | one user message per tool result, holding its content, in order |
| Claude.ClaudeService.RecordOutcome | backend/app/services/claude_service.py:383-426 | one dispatched call adds its executed entry, its files and its tool result entries to the three lists |
| Claude.ClaudeService.ExecuteCalls | backend/app/services/claude_service.py:372-426 | each call is dispatched in order, the outcomes are `DispatchAll` of the calls from the current handler-call count, the log grows by exactly `InvokedAll` of the calls, and executed_tools, files_created and tool_results are built from those outcomes |
| Claude.CollectText | backend/app/services/claude_service.py:461-465 | the follow-up text concatenates the reply's text blocks |
| Claude.ClaudeService.ComposeEpilogue | backend/app/services/claude_service.py:460-477 | the addition is `Claude.Epilogue`: after a follow-up reply, "\n\n" and its text are added only when the text is not blank; after a failed follow-up, the summary of the completed tools is added |
| Claude.ClaudeService.SendFollowUp | backend/app/services/claude_service.py:434-458 | exactly one follow-up call, with no tools, on the history, then the user message, the first reply's content and one message per tool result; a non-empty caller list is extended in place with those messages, otherwise the caller's list is left alone |
| Claude.ClaudeService.FollowUp | backend/app/services/claude_service.py:432-477 | a follow-up call exactly when some tool result was collected, with the request and the history update of SendFollowUp, and the content addition of ComposeEpilogue; no call and no history change otherwise |
| Claude.ClaudeService.ToolPhase | backend/app/services/claude_service.py:367-477 | once tools were requested: the outcomes are `DispatchAll` of the calls and the handler log grows by `InvokedAll`; one executed entry per call, the concatenated files, a follow-up call exactly when some tool result was collected, carrying the history, the message, the first content and the results, and the content extended by the follow-up text or the fallback summary |
| Claude.ClaudeService.ProcessWithTools | backend/app/services/claude_service.py:352-479 | the first response is the answer to the first request; without tool calls, or with the dispatcher unavailable, it is returned unchanged and no handler runs; otherwise the outcomes are `DispatchAll` of the calls, the handler log grows by `InvokedAll`, one executed entry per call, the concatenated files, a follow-up exactly when some dispatch did not raise, at most two model calls, and the first response's content always a prefix of the final content |
| Chat.Groups | backend/app/api/routes/chat.py:45-59 | the words always form at least one group |
| Chat.ChunkContent | backend/app/api/routes/chat.py:44-60 | the word loop emits the content events of the grouping: one event per group, the stripped buffer as content, only the last marked final |
| Chat.GroupsFlatten | backend/app/api/routes/chat.py:48-59 | every word of content.split(' ') lands in exactly one chunk, in order |
| Chat.GroupsFull | backend/app/api/routes/chat.py:52-59 | every chunk is non-empty and every chunk but the last reaches 4 tokens |
| Chat.GroupsNotEarly | backend/app/api/routes/chat.py:49-59 | no chunk reaches 4 tokens before its last word, since the buffer is emptied at each emission |
| Chat.ContentEventsFacts | backend/app/api/routes/chat.py:45-58 | at least one content event, even for empty content; exactly one is final, the last; every other holds at least 4 tokens |
| Chat.ContentEventsPartition | backend/app/api/routes/chat.py:45-59 | the content events are the chunks of a partition of the words, in order, with no chunk full before its last word |
| Chat.BufferTokens | backend/app/api/routes/chat.py:49-52 | a buffer of words without whitespace splits back into those words |
| Chat.StripBuffer | backend/app/api/routes/chat.py:49-55 | `Strings.Strip` of a buffer of such words is the words joined by single spaces |
| Chat.GroupsCount | backend/app/api/routes/chat.py:49-59 | on words without whitespace the chunk count is the ceiling of the word count over 4, every chunk but the last holds exactly 4 words, and the last holds 1 to 4 |
| Chat.ContentTexts | backend/app/api/routes/chat.py:49-55 | each content event of a group of plain words carries the group's words joined by single spaces |
| Chat.ChunkingRoundTrip | backend/app/api/routes/chat.py:45-59 | text of N >= 1 words separated by single spaces, with no other whitespace, streams as ceil(N/4) content events whose contents, joined by single spaces, give the text back |
| Chat.CompletedStream | backend/app/api/routes/chat.py:62-72 | `Chat.StreamEvents` of a completed stream is the content events, then a tools event carrying tool_calls and files_created unchanged exactly when there are tool calls, then one end event, and no end or error before it |
| Chat.InterruptedStream | backend/app/api/routes/chat.py:74-79 | `Chat.StreamEvents` of an interrupted stream is the frames yielded before the exception, then one error event with its message, and no end event |
| Chat.EncodeStream | backend/app/api/routes/chat.py:44-79 | after the turn returned, the frames are its content events, a tools event when it has tool calls, and the end event, cut short by one error event when an exception strikes first |
| Chat.StreamResponse | backend/app/api/routes/chat.py:33-79 | the frames are the stream of the turn's response, completed or interrupted by the given exception; the response extends the first model call's answer to the message (it is that answer when no tool ran); the request log gains that first request and at most one more, and the handler log gains exactly the requested tools' handler calls |
| Chat.ParseFramed | backend/app/api/routes/chat.py:58-79 | each frame is "data: ", the payload and a blank line, and a stream of single-line payloads is read back into the same payloads |
| Chat.SendMessage | backend/app/api/routes/chat.py:82-109 | streaming returns the event stream; otherwise content, role, tool_calls and files_created are copied from the turn; the same ties to the first model call and to the two logs as StreamResponse |
| Strings.Tokens | backend/app/api/routes/chat.py:52 | str.split() yields non-empty tokens without whitespace |
| Strings.TokensAppend | backend/app/api/routes/chat.py:49-52 | text whose first part ends in whitespace splits as its two parts do |
| Strings.TokensRStrip | backend/app/api/routes/chat.py:52-55 | dropping trailing whitespace never changes the tokens |
| Strings.TokensStrip | backend/app/api/routes/chat.py:52-55 | stripping a chunk never changes its tokens, so the token count compared with 4 at line 52 is that of the emitted content |
| Strings.SplitOnSpace | backend/app/api/routes/chat.py:45 | split(' ') yields at least one piece, and no piece holds a space |
| Strings.JoinSplitOnSpace | backend/app/api/routes/chat.py:45 | `Strings.JoinWith` of the pieces of split(' ') with a single space gives the text back |
| Strings.SplitOnSpaceJoin | backend/app/api/routes/chat.py:45 | split(' ') of words joined with single spaces gives the words back |
| Strings.Dedup | backend/app/core/mcp_client.py:128 | the result has no duplicates and holds exactly the elements of the input |
| Strings.NatToString | backend/app/services/claude_service.py:477 | str(n) is a non-empty run of decimal digits |
| Strings.NatToStringValue | backend/app/services/claude_service.py:477 | str(n) read back as decimal is n, and it starts with '0' exactly when n is 0 |

## Left out

- Anthropic client construction, model name, token budgets, temperature, thinking budget and the system-prompt text are left out. The client is an oracle, and a request carries only the messages and the advertised tools.
- The MCP handler implementations and the import fallback for the tool package are left out. The handler tables are key lists and the handlers are an oracle.
- Tool schemas keep their names, descriptions, property names and required names, but not the JSON types, per-property descriptions, defaults or enums.
- `json.dumps` is not modelled. Events are values, and only the framing around a payload is modelled as text. `asyncio.sleep` pacing, the `StreamingResponse` headers and media type, and loguru logging are not modelled.
- The `HTTPException` path of `send_message` is not modelled. In the model, `process_with_tools` never raises: every exception it can meet is caught inside it.
- The `usage` and `model` fields of the response are not modelled.
- The `.get(..., [])` defaults in the chat route are not modelled. The turn's response always carries `tool_calls` and `files_created`, so they never apply.
- The `/tools` stub route, the websocket route, the file watcher, settings, app wiring and the other stub routes are not part of this model.
- Strings.Dedup: `list(set(...))` gives an arbitrary order, while the model keeps each path at its first occurrence. Membership and the absence of duplicates are the same.
- Chat.StreamResponse: the generator is run eagerly and returns the whole frame sequence. Where an exception strikes is a parameter, the number of frames yielded before it. The contract ties the response to the first model call's answer and to the two logs, but does not restate how the tool outcomes and the follow-up shape it; that is the contract of Claude.ClaudeService.ProcessWithTools.
- Chat.SendMessage: the same holds for the turn's response.
