// The turn orchestrator of backend/app/services/claude_service.py: the tool
// schemas advertised to the model, one model turn (message preparation, the
// call, and the fold of the reply's content blocks), and the tool phase that
// runs every requested tool through the dispatcher, makes at most one
// follow-up model call, and falls back to a fixed summary when that call fails.
//
// The Anthropic client is outside the model: `ModelClient` answers each
// messages.create call through an oracle and records every request it gets.

module Claude {
  import opened Wrappers
  import opened Strings
  import opened Mcp

  datatype Role = User | Assistant

  /** A content block of a model reply; `OtherBlock` stands for every kind the
      service does not recognise (redacted thinking, server tool use, ...). */
  datatype Block =
    | TextBlock(text: string)
    | ThinkingBlock(thinking: string)
    | ToolUseBlock(id: string, name: string, input: ToolInput)
    | OtherBlock(kind: string)

  datatype MessageContent = PlainText(text: string) | Blocks(blocks: seq<Block>)

  datatype Message = Message(role: Role, content: MessageContent)

  /** A tool as advertised to the model: name, description, and the names of
      the input properties and of the required ones. */
  datatype ToolSchema = ToolSchema(name: string, description: string, properties: seq<string>, required: seq<string>)

  /** One messages.create call: the conversation and the advertised tools
      (none for the follow-up call). */
  datatype Request = Request(messages: seq<Message>, tools: seq<ToolSchema>)

  /** What a messages.create call does: return content blocks, or raise. */
  datatype Reply = Replied(blocks: seq<Block>) | CallRaised(message: string)

  /** The Anthropic client. */
  class ModelClient {
    /** What the model answers to the n-th call of the process. */
    const answer: (nat, Request) -> Reply
    /** Every request sent so far. */
    var requests: seq<Request>

    constructor (answer: (nat, Request) -> Reply)
      ensures this.answer == answer && requests == []
    {
      this.answer := answer;
      requests := [];
    }

    /** client.messages.create */
    method Create(request: Request) returns (reply: Reply)
      modifies this
      ensures requests == old(requests) + [request]
      ensures reply == answer(|old(requests)|, request)
    {
      reply := answer(|requests|, request);
      requests := requests + [request];
    }
  }

  /** A caller's conversation_history list, which the follow-up extends in place. */
  class MessageList {
    var items: seq<Message>

    constructor (items: seq<Message>)
      ensures this.items == items
    {
      this.items := items;
    }
  }

  // ---------------------------------------------------------------------------
  // Tool schemas, _get_claude_tools

  const ToolSchemas: map<string, ToolSchema> := map[
    "instantiate_world" := ToolSchema("instantiate_world",
      "Create a new world project with foundation content and directory structure",
      ["world_name", "world_content", "taxonomies", "base_directory"], ["world_name", "world_content"]),
    "create_taxonomy" := ToolSchema("create_taxonomy",
      "Create organized category folders for your world",
      ["world_directory", "taxonomy_name", "taxonomy_description"],
      ["world_directory", "taxonomy_name", "taxonomy_description"]),
    "create_world_entry" := ToolSchema("create_world_entry",
      "Add detailed entries to your world with automatic stub generation for referenced entities",
      ["world_directory", "taxonomy", "entry_name", "entry_content"],
      ["world_directory", "taxonomy", "entry_name", "entry_content"]),
    "generate_image_from_markdown_file" := ToolSchema("generate_image_from_markdown_file",
      "Create visual representations of your content from markdown files",
      ["filepath", "style", "aspect_ratio"], ["filepath"]),
    "build_static_site" := ToolSchema("build_static_site",
      "Generate a navigable website from your world content",
      ["world_directory", "action"], ["world_directory"])
  ]

  function SchemaNames(schemas: seq<ToolSchema>): seq<string> {
    Mapped(schemas, (s: ToolSchema) => s.name)
  }


  /** The schemas of the available tools that have one, in availability order. */
  function AdvertisedSchemas(available: seq<ToolInfo>): seq<ToolSchema>
    decreases |available|
  {
    if available == [] then []
    else
      var last := available[|available| - 1];
      AdvertisedSchemas(available[..|available| - 1])
      + (if last.name in ToolSchemas then [ToolSchemas[last.name]] else [])
  }

  /** Every schema in the table is published under its own key. */
  lemma SchemaTableNamed()
    ensures forall n :: n in ToolSchemas ==> ToolSchemas[n].name == n
  {
  }

  lemma {:induction false} AdvertisedSchemasSound(available: seq<ToolInfo>)
    ensures forall k :: 0 <= k < |AdvertisedSchemas(available)| ==>
      AdvertisedSchemas(available)[k].name in ToolSchemas
      && AdvertisedSchemas(available)[k] == ToolSchemas[AdvertisedSchemas(available)[k].name]
      && AdvertisedSchemas(available)[k].name in ToolNames(available)
    decreases |available|
  {
    if available != [] {
      var init := available[..|available| - 1];
      var last := available[|available| - 1];
      AdvertisedSchemasSound(init);
      SchemaTableNamed();
      assert ToolNames(available) == ToolNames(init) + [last.name];
    }
  }

  lemma {:induction false} AdvertisedSchemasComplete(available: seq<ToolInfo>)
    ensures forall n :: n in ToolNames(available) && n in ToolSchemas ==> n in SchemaNames(AdvertisedSchemas(available))
    decreases |available|
  {
    if available != [] {
      var init := available[..|available| - 1];
      var last := available[|available| - 1];
      AdvertisedSchemasComplete(init);
      assert ToolNames(available) == ToolNames(init) + [last.name];
      var schemas := AdvertisedSchemas(init);
      if last.name in ToolSchemas {
        var s := ToolSchemas[last.name];
        SchemaTableNamed();
        assert AdvertisedSchemas(available) == schemas + [s];
        assert SchemaNames(schemas + [s]) == SchemaNames(schemas) + [last.name];
      } else {
        assert AdvertisedSchemas(available) == schemas;
      }
    }
  }

  lemma {:induction false} AdvertisedSchemasDistinct(available: seq<ToolInfo>)
    requires Distinct(ToolNames(available))
    ensures Distinct(SchemaNames(AdvertisedSchemas(available)))
    decreases |available|
  {
    if available != [] {
      var init := available[..|available| - 1];
      var last := available[|available| - 1];
      assert ToolNames(available) == ToolNames(init) + [last.name];
      AdvertisedSchemasDistinct(init);
      AdvertisedSchemasSound(init);
      var schemas := AdvertisedSchemas(init);
      if last.name in ToolSchemas {
        var s := ToolSchemas[last.name];
        SchemaTableNamed();
        assert SchemaNames(schemas + [s]) == SchemaNames(schemas) + [last.name];
        assert last.name !in ToolNames(init);
        forall k | 0 <= k < |schemas| ensures SchemaNames(schemas)[k] != last.name {
          assert schemas[k].name in ToolNames(init);
        }
      }
    }
  }

  /** Each advertised schema is the table's schema of an available tool, every
      available tool with a schema is advertised, and no tool twice. */
  lemma AdvertisedSchemasFacts(available: seq<ToolInfo>)
    ensures forall k :: 0 <= k < |AdvertisedSchemas(available)| ==>
      AdvertisedSchemas(available)[k].name in ToolSchemas
      && AdvertisedSchemas(available)[k] == ToolSchemas[AdvertisedSchemas(available)[k].name]
      && AdvertisedSchemas(available)[k].name in ToolNames(available)
    ensures forall n :: n in ToolNames(available) && n in ToolSchemas ==> n in SchemaNames(AdvertisedSchemas(available))
    ensures Distinct(ToolNames(available)) ==> Distinct(SchemaNames(AdvertisedSchemas(available)))
  {
    AdvertisedSchemasSound(available);
    AdvertisedSchemasComplete(available);
    if Distinct(ToolNames(available)) {
      AdvertisedSchemasDistinct(available);
    }
  }

  /** The tools a turn advertises for a given dispatcher. */
  function AdvertisedTools(mcp: McpClient): seq<ToolSchema> {
    if mcp.available then AdvertisedSchemas(DefinedTools(mcp.toolHandlers)) else []
  }

  /** The tools that have both a definition and a schema: the taxonomy
      schema is published under a name no definition carries. */
  lemma SharedToolName(n: string)
    requires n in ToolDefinitions && n in ToolSchemas
    ensures n != "create_taxonomy" && ToolDefinitions[n].0 != Taxonomy
  {
  }

  /** The schema table names "create_taxonomy" while the definitions of
      get_available_tools name "create_taxonomy_folders": whatever the
      registry holds, no taxonomy tool is ever advertised to the model. */
  lemma NoTaxonomyToolAdvertised(names: seq<string>)
    ensures forall s :: s in AdvertisedSchemas(DefinedTools(names)) ==>
      s.name in ToolDefinitions && ToolDefinitions[s.name].0 != Taxonomy && s.name != "create_taxonomy"
  {
    var tools := DefinedTools(names);
    var schemas := AdvertisedSchemas(tools);
    DefinedToolsFacts(names);
    AdvertisedSchemasFacts(tools);
    forall s | s in schemas
      ensures s.name in ToolDefinitions && ToolDefinitions[s.name].0 != Taxonomy && s.name != "create_taxonomy"
    {
      var k :| 0 <= k < |schemas| && schemas[k] == s;
      assert s.name in ToolNames(tools);
      SharedToolName(s.name);
    }
  }

  // ---------------------------------------------------------------------------
  // Folding the reply's content blocks

  datatype Status = Pending | Completed | Failed

  /** An entry of `tool_calls`: a pending request, or an executed one;
      `toolInput` is absent when the dispatcher raised. */
  datatype ToolCall = ToolCall(
    toolId: string,
    toolName: string,
    toolInput: Option<ToolInput>,
    status: Status,
    result: Option<string>,
    error: Option<string>)

  predicate Recognised(b: Block) {
    !b.OtherBlock?
  }

  /** The blocks the service records in content_blocks, in order. */
  function RecognisedBlocks(blocks: seq<Block>): seq<Block>
    decreases |blocks|
  {
    if blocks == [] then []
    else
      var last := blocks[|blocks| - 1];
      RecognisedBlocks(blocks[..|blocks| - 1]) + (if Recognised(last) then [last] else [])
  }

  /** The recorded blocks are exactly the text, thinking and tool_use
      blocks of the reply. */
  lemma {:induction false} RecognisedBlocksMembers(blocks: seq<Block>)
    ensures forall b :: b in RecognisedBlocks(blocks) <==> b in blocks && Recognised(b)
    decreases |blocks|
  {
    if blocks != [] {
      var last := blocks[|blocks| - 1];
      assert forall b :: b in blocks <==> b in blocks[..|blocks| - 1] || b == last;
      RecognisedBlocksMembers(blocks[..|blocks| - 1]);
    }
  }

  /** The concatenated texts of the text blocks. */
  function TextOf(blocks: seq<Block>): string
    decreases |blocks|
  {
    if blocks == [] then ""
    else
      var last := blocks[|blocks| - 1];
      TextOf(blocks[..|blocks| - 1]) + (if last.TextBlock? then last.text else "")
  }

  /** The concatenated texts of the thinking blocks. */
  function ThinkingOf(blocks: seq<Block>): string
    decreases |blocks|
  {
    if blocks == [] then ""
    else
      var last := blocks[|blocks| - 1];
      ThinkingOf(blocks[..|blocks| - 1]) + (if last.ThinkingBlock? then last.thinking else "")
  }

  /** The tool_use blocks, in order. */
  function ToolUses(blocks: seq<Block>): (uses: seq<Block>)
    ensures forall k :: 0 <= k < |uses| ==> uses[k].ToolUseBlock?
    decreases |blocks|
  {
    if blocks == [] then []
    else
      var last := blocks[|blocks| - 1];
      ToolUses(blocks[..|blocks| - 1]) + (if last.ToolUseBlock? then [last] else [])
  }

  /** The picked blocks are exactly the tool_use blocks. */
  lemma {:induction false} ToolUsesMembers(blocks: seq<Block>)
    ensures forall b :: b in ToolUses(blocks) <==> b in blocks && b.ToolUseBlock?
    decreases |blocks|
  {
    if blocks != [] {
      var init := blocks[..|blocks| - 1];
      ToolUsesMembers(init);
      assert blocks == init + [blocks[|blocks| - 1]];
    }
  }

  /** The tool_use blocks of two runs of blocks are those of the first, then
      those of the second: the pending calls keep the reply's order. */
  lemma {:induction false} ToolUsesAppend(a: seq<Block>, b: seq<Block>)
    ensures ToolUses(a + b) == ToolUses(a) + ToolUses(b)
    decreases |b|
  {
    if b == [] {
      assert a + b == a;
    } else {
      assert (a + b)[..|a + b| - 1] == a + b[..|b| - 1];
      ToolUsesAppend(a, b[..|b| - 1]);
    }
  }

  /** One pending tool call per tool_use block, in order. */
  function PendingCalls(blocks: seq<Block>): (calls: seq<ToolCall>)
    ensures |calls| == |ToolUses(blocks)|
    ensures forall k :: 0 <= k < |calls| ==>
      var u := ToolUses(blocks)[k];
      calls[k] == ToolCall(u.id, u.name, Some(u.input), Pending, None, None)
  {
    var uses := ToolUses(blocks);
    seq(|uses|, k requires 0 <= k < |uses| => ToolCall(uses[k].id, uses[k].name, Some(uses[k].input), Pending, None, None))
  }

  lemma BlocksStep(blocks: seq<Block>, i: nat)
    requires i < |blocks|
    ensures var b := blocks[i];
      TextOf(blocks[..i + 1]) == TextOf(blocks[..i]) + (if b.TextBlock? then b.text else "")
      && ThinkingOf(blocks[..i + 1]) == ThinkingOf(blocks[..i]) + (if b.ThinkingBlock? then b.thinking else "")
      && RecognisedBlocks(blocks[..i + 1]) == RecognisedBlocks(blocks[..i]) + (if Recognised(b) then [b] else [])
      && PendingCalls(blocks[..i + 1]) == PendingCalls(blocks[..i])
           + (if b.ToolUseBlock? then [ToolCall(b.id, b.name, Some(b.input), Pending, None, None)] else [])
  {
    assert blocks[..i + 1][..i] == blocks[..i];
    assert blocks[..i + 1][i] == blocks[i];
    var b := blocks[i];
    assert ToolUses(blocks[..i + 1]) == ToolUses(blocks[..i]) + (if b.ToolUseBlock? then [b] else []);
  }

  /** The block loop of generate_response. */
  method ParseBlocks(blocks: seq<Block>) returns (content: string, thinking: string, toolCalls: seq<ToolCall>, contentBlocks: seq<Block>)
    ensures content == TextOf(blocks) && thinking == ThinkingOf(blocks)
    ensures toolCalls == PendingCalls(blocks)
    ensures contentBlocks == RecognisedBlocks(blocks)
  {
    content, thinking, toolCalls, contentBlocks := "", "", [], [];
    var i := 0;
    while i < |blocks|
      invariant 0 <= i <= |blocks|
      invariant content == TextOf(blocks[..i]) && thinking == ThinkingOf(blocks[..i])
      invariant toolCalls == PendingCalls(blocks[..i])
      invariant contentBlocks == RecognisedBlocks(blocks[..i])
    {
      var block := blocks[i];
      BlocksStep(blocks, i);
      match block {
        case TextBlock(t) =>
          content := content + t;
          contentBlocks := contentBlocks + [block];
        case ThinkingBlock(t) =>
          thinking := thinking + t;
          contentBlocks := contentBlocks + [block];
        case ToolUseBlock(id, name, input) =>
          toolCalls := toolCalls + [ToolCall(id, name, Some(input), Pending, None, None)];
          contentBlocks := contentBlocks + [block];
        case OtherBlock(_) =>
      }
      i := i + 1;
    }
    assert blocks[..i] == blocks;
  }

  /** The text-block loop of the follow-up. */
  method CollectText(blocks: seq<Block>) returns (text: string)
    ensures text == TextOf(blocks)
  {
    text := "";
    var i := 0;
    while i < |blocks|
      invariant 0 <= i <= |blocks|
      invariant text == TextOf(blocks[..i])
    {
      assert blocks[..i + 1][..i] == blocks[..i];
      if blocks[i].TextBlock? {
        text := text + blocks[i].text;
      }
      i := i + 1;
    }
    assert blocks[..i] == blocks;
  }

  /** The texts of a reply, in order: the text of a prefix of the blocks is a prefix of the text. */
  lemma {:induction false} TextOfAppend(a: seq<Block>, b: seq<Block>)
    ensures TextOf(a + b) == TextOf(a) + TextOf(b)
    decreases |b|
  {
    if b == [] {
      assert a + b == a;
    } else {
      assert (a + b)[..|a + b| - 1] == a + b[..|b| - 1];
      TextOfAppend(a, b[..|b| - 1]);
    }
  }

  // ---------------------------------------------------------------------------
  // The response of one model turn

  datatype Response = Response(
    content: string,
    thinking: Option<string>,
    contentBlocks: Option<seq<Block>>,
    role: Role,
    toolCalls: seq<ToolCall>,
    filesCreated: seq<string>,
    error: Option<string>)

  const UnavailableContent := "Claude AI service is not available. Please check the API key configuration."
  const ErrorContentPrefix := "I encountered an error while processing your request: "

  function UnavailableResponse(): Response {
    Response(UnavailableContent, None, None, Assistant, [], [], Some("Claude service unavailable"))
  }

  /** What generate_response returns for the model's reply. */
  function TurnResponse(reply: Reply): (r: Response)
    ensures r.role == Assistant && r.filesCreated == []
    ensures reply.CallRaised? ==> r.error == Some(reply.message) && r.toolCalls == []
                                  && r.content == ErrorContentPrefix + reply.message
    ensures reply.Replied? ==> r.error.None? && r.content == TextOf(reply.blocks)
                               && r.toolCalls == PendingCalls(reply.blocks)
  {
    match reply
    case Replied(blocks) =>
      Response(TextOf(blocks), Some(ThinkingOf(blocks)), Some(RecognisedBlocks(blocks)), Assistant,
               PendingCalls(blocks), [], None)
    case CallRaised(m) =>
      Response(ErrorContentPrefix + m, None, None, Assistant, [], [], Some(m))
  }

  /** The conversation of the first call: the history, then the user's message. */
  method PrepareMessages(history: seq<Message>, message: string) returns (messages: seq<Message>)
    ensures |messages| == |history| + 1
    ensures forall k :: 0 <= k < |history| ==> messages[k].role == history[k].role && messages[k].content == history[k].content
    ensures messages[|history|] == Message(User, PlainText(message))
  {
    messages := [];
    var i := 0;
    while i < |history|
      invariant 0 <= i <= |history|
      invariant messages == history[..i]
    {
      messages := messages + [Message(history[i].role, history[i].content)];
      i := i + 1;
    }
    messages := messages + [Message(User, PlainText(message))];
  }

  // ---------------------------------------------------------------------------
  // The tool phase, as a fold over the requested calls

  /** An entry of the tool results sent back to the model. */
  datatype ToolResultEntry = ToolResultEntry(toolUseId: string, content: string, isError: bool)

  /** The executed_tools entry for a call, given what the dispatcher did. */
  function ExecutedCall(call: ToolCall, d: Dispatched): ToolCall {
    match d
    case Answered(rec) =>
      if rec.success then ToolCall(call.toolId, call.toolName, call.toolInput, Completed, Some(rec.result), None)
      else ToolCall(call.toolId, call.toolName, call.toolInput, Failed, None, Some(rec.error.GetOr("Unknown error")))
    case Raised(e) =>
      ToolCall(call.toolId, call.toolName, None, Failed, None, Some(e.Str()))
  }

  predicate Succeeded(d: Dispatched) {
    d.Answered? && d.record.success
  }

  /** executed_tools: one entry per requested call, in request order, completed
      exactly when the dispatcher reported success. */
  function ExecutedCalls(calls: seq<ToolCall>, outcomes: seq<Dispatched>): (executed: seq<ToolCall>)
    requires |calls| == |outcomes|
    ensures |executed| == |calls|
    ensures forall k :: 0 <= k < |calls| ==>
      executed[k].toolId == calls[k].toolId && executed[k].toolName == calls[k].toolName
      && (executed[k].status == Completed <==> Succeeded(outcomes[k]))
      && (executed[k].status == Failed <==> !Succeeded(outcomes[k]))
      && (executed[k].status == Failed ==> executed[k].error.Some?)
  {
    seq(|calls|, k requires 0 <= k < |calls| => ExecutedCall(calls[k], outcomes[k]))
  }

  /** The handler calls the dispatcher makes for the calls, in order. */
  function InvokedAll(mcp: McpClient, calls: seq<ToolCall>): seq<Invocation>
    requires forall k :: 0 <= k < |calls| ==> calls[k].toolInput.Some?
    decreases |calls|
  {
    if calls == [] then []
    else
      var last := calls[|calls| - 1];
      InvokedAll(mcp, calls[..|calls| - 1]) + mcp.Invoked(last.toolName, last.toolInput.value)
  }

  /** What the dispatcher returns or raises for each call in turn, when `n`
      handler calls were made before the first. */
  function DispatchAll(mcp: McpClient, n: nat, calls: seq<ToolCall>): (outcomes: seq<Dispatched>)
    requires forall k :: 0 <= k < |calls| ==> calls[k].toolInput.Some?
    ensures |outcomes| == |calls|
    decreases |calls|
  {
    if calls == [] then []
    else
      var init := calls[..|calls| - 1];
      var last := calls[|calls| - 1];
      DispatchAll(mcp, n, init) + [mcp.Dispatch(n + |InvokedAll(mcp, init)|, last.toolName, last.toolInput.value)]
  }

  /** The files a call adds to files_created. */
  function NewFiles(d: Dispatched): seq<string> {
    if Succeeded(d) && d.record.filesCreated.Some? then d.record.filesCreated.value else []
  }

  /** files_created: the files of the successful calls, concatenated in order. */
  function FilesOf(outcomes: seq<Dispatched>): seq<string>
    decreases |outcomes|
  {
    if outcomes == [] then []
    else FilesOf(outcomes[..|outcomes| - 1]) + NewFiles(outcomes[|outcomes| - 1])
  }

  /** The tool result a call contributes: none when the dispatcher raised. */
  function ResultEntries(call: ToolCall, d: Dispatched): seq<ToolResultEntry> {
    match d
    case Answered(rec) =>
      if rec.success then [ToolResultEntry(call.toolId, rec.result, false)]
      else [ToolResultEntry(call.toolId, "Error: " + rec.error.GetOr("Unknown error"), true)]
    case Raised(_) => []
  }

  function ToolResultsOf(calls: seq<ToolCall>, outcomes: seq<Dispatched>): seq<ToolResultEntry>
    requires |calls| == |outcomes|
    decreases |calls|
  {
    if calls == [] then []
    else
      ToolResultsOf(calls[..|calls| - 1], outcomes[..|outcomes| - 1])
      + ResultEntries(calls[|calls| - 1], outcomes[|outcomes| - 1])
  }

  /** The indices whose dispatch did not raise, in increasing order. */
  function AnsweredIndices(outcomes: seq<Dispatched>): (ix: seq<nat>)
    ensures forall k :: 0 <= k < |ix| ==> ix[k] < |outcomes| && outcomes[ix[k]].Answered?
    ensures forall i :: 0 <= i < |outcomes| && outcomes[i].Answered? ==> i in ix
    ensures forall a, b :: 0 <= a < b < |ix| ==> ix[a] < ix[b]
    decreases |outcomes|
  {
    if outcomes == [] then []
    else
      var n := |outcomes| - 1;
      AnsweredIndices(outcomes[..n]) + (if outcomes[n].Answered? then [n] else [])
  }

  /** No tool result is sent back exactly when every dispatch raised. */
  lemma {:induction false} ToolResultsEmpty(calls: seq<ToolCall>, outcomes: seq<Dispatched>)
    requires |calls| == |outcomes|
    ensures ToolResultsOf(calls, outcomes) == [] <==> forall k :: 0 <= k < |outcomes| ==> outcomes[k].Raised?
    decreases |calls|
  {
    if calls != [] {
      var n := |calls| - 1;
      ToolResultsEmpty(calls[..n], outcomes[..n]);
      assert forall k :: 0 <= k < n ==> outcomes[..n][k] == outcomes[k];
    }
  }

  /** Exactly the calls whose dispatch did not raise yield a tool result, in
      call order: the k-th result belongs to the k-th such call. */
  lemma {:induction false} ToolResultsMatchAnswered(calls: seq<ToolCall>, outcomes: seq<Dispatched>)
    requires |calls| == |outcomes|
    ensures |ToolResultsOf(calls, outcomes)| == |AnsweredIndices(outcomes)|
    ensures forall k :: 0 <= k < |AnsweredIndices(outcomes)| ==>
      var i := AnsweredIndices(outcomes)[k];
      ToolResultsOf(calls, outcomes)[k] == ResultEntries(calls[i], outcomes[i])[0]
    decreases |calls|
  {
    if calls != [] {
      var n := |calls| - 1;
      ToolResultsMatchAnswered(calls[..n], outcomes[..n]);
      var prev := ToolResultsOf(calls[..n], outcomes[..n]);
      var ix := AnsweredIndices(outcomes[..n]);
      var last := ResultEntries(calls[n], outcomes[n]);
      var results := ToolResultsOf(calls, outcomes);
      var all := AnsweredIndices(outcomes);
      assert results == prev + last;
      assert all == ix + (if outcomes[n].Answered? then [n] else []);
      assert |last| == (if outcomes[n].Answered? then 1 else 0);
      forall k | 0 <= k < |all|
        ensures results[k] == ResultEntries(calls[all[k]], outcomes[all[k]])[0]
      {
        if k < |ix| {
          var i := ix[k];
          assert all[k] == i && results[k] == prev[k];
          assert calls[..n][i] == calls[i] && outcomes[..n][i] == outcomes[i];
        } else {
          assert all[k] == n && results[k] == last[0];
        }
      }
    }
  }

  /** files_created is not de-duplicated across tools: the files of two runs
      of calls are those of the first, then those of the second, so a path
      reported by several tools is listed once per report. */
  lemma {:induction false} FilesAcrossToolsNotDeduplicated(a: seq<Dispatched>, b: seq<Dispatched>)
    ensures FilesOf(a + b) == FilesOf(a) + FilesOf(b)
    ensures multiset(FilesOf(a + b)) == multiset(FilesOf(a)) + multiset(FilesOf(b))
    decreases |b|
  {
    if b == [] {
      assert a + b == a;
    } else {
      assert (a + b)[..|a + b| - 1] == a + b[..|b| - 1];
      FilesAcrossToolsNotDeduplicated(a, b[..|b| - 1]);
    }
  }

  // ---------------------------------------------------------------------------
  // After the tool phase: the follow-up and its fallback

  const SummaryHead := "\n\n\U{2705} Successfully executed: "

  /** The names of the completed tools, in order. */
  function CompletedNames(executed: seq<ToolCall>): (names: seq<string>)
    ensures forall n :: n in names ==> exists k :: 0 <= k < |executed| && executed[k].status == Completed && executed[k].toolName == n
    ensures names == [] <==> forall k :: 0 <= k < |executed| ==> executed[k].status != Completed
    decreases |executed|
  {
    if executed == [] then []
    else
      var init := executed[..|executed| - 1];
      var last := executed[|executed| - 1];
      assert forall k :: 0 <= k < |init| ==> init[k] == executed[k];
      CompletedNames(init) + (if last.status == Completed then [last.toolName] else [])
  }

  /** Every completed entry is listed, and nothing else. */
  lemma {:induction false} CompletedNamesMembers(executed: seq<ToolCall>)
    ensures forall k :: 0 <= k < |executed| && executed[k].status == Completed ==> executed[k].toolName in CompletedNames(executed)
    decreases |executed|
  {
    if executed != [] {
      var init := executed[..|executed| - 1];
      CompletedNamesMembers(init);
      assert forall k :: 0 <= k < |init| ==> init[k] == executed[k];
    }
  }

  /** The names of two runs of entries are those of the first, then those of
      the second: the summary lists the completed tools in call order. */
  lemma {:induction false} CompletedNamesAppend(a: seq<ToolCall>, b: seq<ToolCall>)
    ensures CompletedNames(a + b) == CompletedNames(a) + CompletedNames(b)
    decreases |b|
  {
    if b == [] {
      assert a + b == a;
    } else {
      assert (a + b)[..|a + b| - 1] == a + b[..|b| - 1];
      CompletedNamesAppend(a, b[..|b| - 1]);
    }
  }

  /** The summary appended when the follow-up call fails. */
  function Summary(executed: seq<ToolCall>, files: seq<string>): string {
    var names := CompletedNames(executed);
    if names == [] then ""
    else SummaryHead + JoinWith(names, ", ")
         + (if files == [] then "" else "\n\U{1F4C1} Created " + NatToString(|files|) + " files")
  }

  /** What the tool phase appends to the first turn's content. */
  function Epilogue(followUp: Option<Reply>, executed: seq<ToolCall>, files: seq<string>): string {
    match followUp
    case None => ""
    case Some(Replied(blocks)) =>
      var text := TextOf(blocks);
      if Strip(text) != "" then "\n\n" + text else ""
    case Some(CallRaised(_)) => Summary(executed, files)
  }

  /** The summary line is written exactly when some tool completed. It ends
      with the number of created files when there are some, and is only the
      list of completed tools when there are none. */
  lemma SummaryFacts(calls: seq<ToolCall>, outcomes: seq<Dispatched>)
    requires |calls| == |outcomes|
    ensures var s := Summary(ExecutedCalls(calls, outcomes), FilesOf(outcomes));
      (s != "" <==> exists k :: 0 <= k < |outcomes| && Succeeded(outcomes[k]))
      && (s != "" && FilesOf(outcomes) != [] ==>
            HasSuffix(s, "\n\U{1F4C1} Created " + NatToString(|FilesOf(outcomes)|) + " files"))
      && (FilesOf(outcomes) == [] ==>
            s == "" || s == SummaryHead + JoinWith(CompletedNames(ExecutedCalls(calls, outcomes)), ", "))
  {
    var executed := ExecutedCalls(calls, outcomes);
    if exists k :: 0 <= k < |outcomes| && Succeeded(outcomes[k]) {
      var k :| 0 <= k < |outcomes| && Succeeded(outcomes[k]);
      assert executed[k].status == Completed;
    }
  }

  /** The messages sent with the follow-up call after the conversation so far. */
  function FollowUpTail(message: string, content: string, results: seq<ToolResultEntry>): seq<Message> {
    [Message(User, PlainText(message)), Message(Assistant, PlainText(content))] + ResultMessages(results)
  }

  function ResultMessages(results: seq<ToolResultEntry>): (ms: seq<Message>)
    ensures |ms| == |results|
    ensures forall k :: 0 <= k < |results| ==> ms[k] == Message(User, PlainText(results[k].content))
  {
    Mapped(results, (r: ToolResultEntry) => Message(User, PlainText(r.content)))
  }


  /** The request of the follow-up call: the conversation so far, then the
      follow-up messages; no tools are advertised. */
  function FollowUpRequest(base: seq<Message>, message: string, content: string, results: seq<ToolResultEntry>): Request {
    Request(base + FollowUpTail(message, content, results), [])
  }

  /** The messages of a caller's history list; none when there is no list. */
  function Items(history: MessageList?): seq<Message>
    reads history
  {
    if history == null then [] else history.items
  }

  lemma AdvertisedStep(available: seq<ToolInfo>, i: nat)
    requires i < |available|
    ensures AdvertisedSchemas(available[..i + 1]) == AdvertisedSchemas(available[..i])
      + (if available[i].name in ToolSchemas then [ToolSchemas[available[i].name]] else [])
  {
    assert available[..i + 1][..i] == available[..i];
    assert available[..i + 1][i] == available[i];
  }

  lemma ExecutedStep(calls: seq<ToolCall>, outcomes: seq<Dispatched>, d: Dispatched, i: nat)
    requires i < |calls| && |outcomes| == i
    ensures ExecutedCalls(calls[..i + 1], outcomes + [d]) == ExecutedCalls(calls[..i], outcomes) + [ExecutedCall(calls[i], d)]
  {
    var a := ExecutedCalls(calls[..i + 1], outcomes + [d]);
    var b := ExecutedCalls(calls[..i], outcomes) + [ExecutedCall(calls[i], d)];
    forall k | 0 <= k < |a|
      ensures a[k] == b[k]
    {
      assert calls[..i + 1][k] == calls[k] && (outcomes + [d])[k] == (if k < i then outcomes[k] else d);
    }
  }

  lemma FilesStep(outcomes: seq<Dispatched>, d: Dispatched)
    ensures FilesOf(outcomes + [d]) == FilesOf(outcomes) + NewFiles(d)
  {
    var os := outcomes + [d];
    assert os[..|os| - 1] == outcomes && os[|os| - 1] == d;
  }

  lemma DispatchStep(mcp: McpClient, n: nat, calls: seq<ToolCall>, i: nat, m: nat)
    requires i < |calls| && forall k :: 0 <= k < |calls| ==> calls[k].toolInput.Some?
    requires m == n + |InvokedAll(mcp, calls[..i])|
    ensures DispatchAll(mcp, n, calls[..i + 1])
      == DispatchAll(mcp, n, calls[..i]) + [mcp.Dispatch(m, calls[i].toolName, calls[i].toolInput.value)]
  {
    assert calls[..i + 1][..i] == calls[..i];
    assert calls[..i + 1][i] == calls[i];
  }

  lemma InvokedStep(mcp: McpClient, calls: seq<ToolCall>, i: nat)
    requires i < |calls| && forall k :: 0 <= k < |calls| ==> calls[k].toolInput.Some?
    ensures InvokedAll(mcp, calls[..i + 1]) == InvokedAll(mcp, calls[..i]) + mcp.Invoked(calls[i].toolName, calls[i].toolInput.value)
  {
    assert calls[..i + 1][..i] == calls[..i];
    assert calls[..i + 1][i] == calls[i];
  }

  lemma AppendAssociates<T>(a: seq<T>, b: seq<T>, c: seq<T>)
    ensures (a + b) + c == a + (b + c)
  {
  }

  lemma ToolResultsStep(calls: seq<ToolCall>, outcomes: seq<Dispatched>, d: Dispatched, i: nat)
    requires i < |calls| && |outcomes| == i
    ensures ToolResultsOf(calls[..i + 1], outcomes + [d]) == ToolResultsOf(calls[..i], outcomes) + ResultEntries(calls[i], d)
  {
    assert calls[..i + 1][..i] == calls[..i];
    assert (outcomes + [d])[..i] == outcomes;
  }

  // ---------------------------------------------------------------------------
  // The service

  class ClaudeService {
    /** Whether an API key was configured and the client could be built. */
    const available: bool
    const client: ModelClient
    const mcp: McpClient

    constructor (available: bool, client: ModelClient, mcp: McpClient)
      ensures this.available == available && this.client == client && this.mcp == mcp
    {
      this.available := available;
      this.client := client;
      this.mcp := mcp;
    }

    /** _get_claude_tools */
    method GetClaudeTools() returns (claudeTools: seq<ToolSchema>)
      ensures claudeTools == AdvertisedTools(mcp)
      ensures !mcp.available ==> claudeTools == []
    {
      if !mcp.available {
        return [];
      }
      claudeTools := [];
      var availableTools := mcp.GetAvailableTools();
      var i := 0;
      while i < |availableTools|
        invariant 0 <= i <= |availableTools|
        invariant claudeTools == AdvertisedSchemas(availableTools[..i])
      {
        var toolName := availableTools[i].name;
        AdvertisedStep(availableTools, i);
        if toolName in ToolSchemas {
          claudeTools := claudeTools + [ToolSchemas[toolName]];
        }
        i := i + 1;
      }
      assert availableTools[..i] == availableTools;
    }

    /** The request of the first call of a turn. */
    function FirstRequest(history: seq<Message>, message: string): Request {
      Request(history + [Message(User, PlainText(message))], AdvertisedTools(mcp))
    }

    /** generate_response: never raises; degrades to a fixed message when the
        service is unavailable and to an explanation when the call raises. */
    method GenerateResponse(message: string, history: seq<Message>) returns (r: Response)
      modifies client
      ensures !available ==> r == UnavailableResponse() && client.requests == old(client.requests)
      ensures available ==>
        client.requests == old(client.requests) + [FirstRequest(history, message)]
        && r == TurnResponse(client.answer(|old(client.requests)|, FirstRequest(history, message)))
      ensures r.error.Some? ==> r.toolCalls == [] && r.filesCreated == []
      ensures forall k :: 0 <= k < |r.toolCalls| ==> r.toolCalls[k].status == Pending && r.toolCalls[k].toolInput.Some?
    {
      if !available {
        return UnavailableResponse();
      }
      var messages := PrepareMessages(history, message);
      assert messages == history + [Message(User, PlainText(message))];
      var tools := GetClaudeTools();
      var reply := client.Create(Request(messages, tools));
      match reply {
        case CallRaised(e) =>
          r := Response(ErrorContentPrefix + e, None, None, Assistant, [], [], Some(e));
        case Replied(blocks) =>
          var responseContent, thinkingContent, toolCalls, contentBlocks := ParseBlocks(blocks);
          r := Response(responseContent, Some(thinkingContent), Some(contentBlocks), Assistant, toolCalls, [], None);
      }
    }

    /** The body of the tool loop: what one dispatched call adds to
        executed_tools, files_created and tool_results. */
    static method RecordOutcome(toolCall: ToolCall, toolResult: Dispatched,
                                executed: seq<ToolCall>, files: seq<string>, results: seq<ToolResultEntry>)
      returns (executedTools: seq<ToolCall>, filesCreated: seq<string>, toolResults: seq<ToolResultEntry>)
      ensures executedTools == executed + [ExecutedCall(toolCall, toolResult)]
      ensures filesCreated == files + NewFiles(toolResult)
      ensures toolResults == results + ResultEntries(toolCall, toolResult)
    {
      executedTools, filesCreated, toolResults := executed, files, results;
      match toolResult {
        case Answered(rec) =>
          if rec.success {
            executedTools := executedTools + [ToolCall(toolCall.toolId, toolCall.toolName, toolCall.toolInput, Completed, Some(rec.result), None)];
            if rec.filesCreated.Some? && rec.filesCreated.value != [] {
              filesCreated := filesCreated + rec.filesCreated.value;
            }
            toolResults := toolResults + [ToolResultEntry(toolCall.toolId, rec.result, false)];
          } else {
            var err := rec.error.GetOr("Unknown error");
            executedTools := executedTools + [ToolCall(toolCall.toolId, toolCall.toolName, toolCall.toolInput, Failed, None, Some(err))];
            toolResults := toolResults + [ToolResultEntry(toolCall.toolId, "Error: " + err, true)];
          }
        case Raised(e) =>
          executedTools := executedTools + [ToolCall(toolCall.toolId, toolCall.toolName, None, Failed, None, Some(e.Str()))];
      }
    }

    /** The tool loop of process_with_tools: every requested call goes
        through the dispatcher, in request order, whatever the earlier ones did. */
    method ExecuteCalls(calls: seq<ToolCall>)
      returns (executedTools: seq<ToolCall>, filesCreated: seq<string>, toolResults: seq<ToolResultEntry>, ghost outcomes: seq<Dispatched>)
      requires forall k :: 0 <= k < |calls| ==> calls[k].toolInput.Some?
      modifies mcp.package
      ensures |outcomes| == |calls|
      ensures outcomes == DispatchAll(mcp, |old(mcp.package.invocations)|, calls)
      ensures mcp.package.invocations == old(mcp.package.invocations) + InvokedAll(mcp, calls)
      ensures executedTools == ExecutedCalls(calls, outcomes)
      ensures filesCreated == FilesOf(outcomes)
      ensures toolResults == ToolResultsOf(calls, outcomes)
    {
      executedTools, filesCreated, toolResults, outcomes := [], [], [], [];
      ghost var log, n := mcp.package.invocations, |mcp.package.invocations|;
      var i := 0;
      while i < |calls|
        invariant 0 <= i <= |calls| && |outcomes| == i
        invariant executedTools == ExecutedCalls(calls[..i], outcomes)
        invariant filesCreated == FilesOf(outcomes)
        invariant toolResults == ToolResultsOf(calls[..i], outcomes)
        invariant outcomes == DispatchAll(mcp, n, calls[..i])
        invariant mcp.package.invocations == log + InvokedAll(mcp, calls[..i])
      {
        var toolCall := calls[i];
        ghost var invoked, m := InvokedAll(mcp, calls[..i]), |mcp.package.invocations|;
        DispatchStep(mcp, n, calls, i, m);
        InvokedStep(mcp, calls, i);
        var toolResult := mcp.ExecuteTool(toolCall.toolName, toolCall.toolInput.value);
        AppendAssociates(log, invoked, mcp.Invoked(toolCall.toolName, toolCall.toolInput.value));
        ExecutedStep(calls, outcomes, toolResult, i);
        FilesStep(outcomes, toolResult);
        ToolResultsStep(calls, outcomes, toolResult, i);
        executedTools, filesCreated, toolResults := RecordOutcome(toolCall, toolResult, executedTools, filesCreated, toolResults);
        outcomes := outcomes + [toolResult];
        i := i + 1;
      }
      assert calls[..i] == calls;
    }

    /** What the follow-up adds to the content: its text when that is not
        blank, or the summary of the completed tools when the call raised. */
    static method ComposeEpilogue(reply: Reply, executedTools: seq<ToolCall>, filesCreated: seq<string>) returns (epilogue: string)
      ensures epilogue == Epilogue(Some(reply), executedTools, filesCreated)
    {
      epilogue := "";
      match reply {
        case Replied(blocks) =>
          var followUpText := CollectText(blocks);
          if Strip(followUpText) != "" {
            epilogue := "\n\n" + followUpText;
          }
        case CallRaised(_) =>
          var completedTools := CompletedNames(executedTools);
          if completedTools != [] {
            epilogue := SummaryHead + JoinWith(completedTools, ", ");
            if filesCreated != [] {
              epilogue := epilogue + "\n\U{1F4C1} Created " + NatToString(|filesCreated|) + " files";
            }
          }
      }
    }

    /** The follow-up call of process_with_tools. Its conversation is the
        caller's history list itself when that list is non-empty, so the
        caller sees the follow-up messages appended to it; otherwise a new list. */
    method SendFollowUp(message: string, history: MessageList?, content: string, toolResults: seq<ToolResultEntry>) returns (reply: Reply)
      modifies client, history
      ensures var request := FollowUpRequest(old(Items(history)), message, content, toolResults);
        client.requests == old(client.requests) + [request]
        && reply == client.answer(|old(client.requests)|, request)
      ensures history != null ==>
        history.items == old(history.items) + (if old(history.items) != [] then FollowUpTail(message, content, toolResults) else [])
    {
      var followUpMessages: MessageList;
      if history == null || history.items == [] {
        followUpMessages := new MessageList([]);
      } else {
        followUpMessages := history;
      }
      followUpMessages.items := followUpMessages.items + [Message(User, PlainText(message))];
      followUpMessages.items := followUpMessages.items + [Message(Assistant, PlainText(content))];
      var j := 0;
      while j < |toolResults|
        invariant 0 <= j <= |toolResults|
        invariant followUpMessages == history || fresh(followUpMessages)
        invariant followUpMessages.items == old(Items(history)) + FollowUpTail(message, content, toolResults[..j])
        invariant history != null && followUpMessages != history ==> history.items == old(history.items)
        invariant client.requests == old(client.requests)
      {
        assert ResultMessages(toolResults[..j + 1]) == ResultMessages(toolResults[..j]) + [Message(User, PlainText(toolResults[j].content))];
        followUpMessages.items := followUpMessages.items + [Message(User, PlainText(toolResults[j].content))];
        j := j + 1;
      }
      assert toolResults[..j] == toolResults;
      reply := client.Create(Request(followUpMessages.items, []));
    }

    /** The end of the tool phase: when some tool result was collected, one
        follow-up call and what it adds to the content; otherwise nothing. */
    method FollowUp(message: string, history: MessageList?, content: string,
                    executedTools: seq<ToolCall>, filesCreated: seq<string>, toolResults: seq<ToolResultEntry>)
      returns (epilogue: string, ghost followUp: Option<Reply>)
      modifies client, history
      ensures followUp.Some? <==> toolResults != []
      ensures epilogue == Epilogue(followUp, executedTools, filesCreated)
      ensures followUp.None? ==>
        client.requests == old(client.requests) && (history != null ==> history.items == old(history.items))
      ensures followUp.Some? ==>
        var request := FollowUpRequest(old(Items(history)), message, content, toolResults);
        client.requests == old(client.requests) + [request]
        && followUp.value == client.answer(|old(client.requests)|, request)
      ensures followUp.Some? && history != null ==>
        history.items == old(history.items)
          + (if old(history.items) != [] then FollowUpTail(message, content, toolResults) else [])
    {
      epilogue, followUp := "", None;
      if toolResults != [] {
        var reply := SendFollowUp(message, history, content, toolResults);
        followUp := Some(reply);
        epilogue := ComposeEpilogue(reply, executedTools, filesCreated);
      }
    }

    /** The tool phase of process_with_tools, once the first turn asked for
        tools and the dispatcher is available: run every call, then make the
        follow-up call when some tool result was collected, and extend the
        content with the follow-up text or the fallback summary. */
    method ToolPhase(message: string, history: MessageList?, first: Response)
      returns (response: Response, ghost outcomes: seq<Dispatched>, ghost followUp: Option<Reply>)
      requires forall k :: 0 <= k < |first.toolCalls| ==> first.toolCalls[k].toolInput.Some?
      modifies client, mcp.package, history
      ensures |outcomes| == |first.toolCalls|
      ensures outcomes == DispatchAll(mcp, |old(mcp.package.invocations)|, first.toolCalls)
      ensures mcp.package.invocations == old(mcp.package.invocations) + InvokedAll(mcp, first.toolCalls)
      ensures response == first.(toolCalls := ExecutedCalls(first.toolCalls, outcomes),
                                 filesCreated := FilesOf(outcomes),
                                 content := first.content + Epilogue(followUp, ExecutedCalls(first.toolCalls, outcomes), FilesOf(outcomes)))
      ensures followUp.Some? <==> ToolResultsOf(first.toolCalls, outcomes) != []
      ensures followUp.None? ==>
        client.requests == old(client.requests) && (history != null ==> history.items == old(history.items))
      ensures followUp.Some? ==>
        var request := FollowUpRequest(old(Items(history)), message, first.content, ToolResultsOf(first.toolCalls, outcomes));
        client.requests == old(client.requests) + [request]
        && followUp.value == client.answer(|old(client.requests)|, request)
      ensures followUp.Some? && history != null ==>
        history.items == old(history.items)
          + (if old(history.items) != [] then FollowUpTail(message, first.content, ToolResultsOf(first.toolCalls, outcomes)) else [])
    {
      var executedTools, filesCreated, toolResults;
      executedTools, filesCreated, toolResults, outcomes := ExecuteCalls(first.toolCalls);
      var epilogue;
      epilogue, followUp := FollowUp(message, history, first.content, executedTools, filesCreated, toolResults);
      response := first.(toolCalls := executedTools, filesCreated := filesCreated, content := first.content + epilogue);
    }

    /** process_with_tools. The ghost results name what happened along the way:
        the first turn's response, what the dispatcher did for each requested
        call, and the follow-up reply if a follow-up call was made. */
    method ProcessWithTools(message: string, history: MessageList?)
      returns (response: Response, ghost first: Response, ghost outcomes: seq<Dispatched>, ghost followUp: Option<Reply>)
      modifies client, mcp.package, history
      ensures first == (if !available then UnavailableResponse()
                        else TurnResponse(client.answer(|old(client.requests)|, FirstRequest(old(Items(history)), message))))
      ensures first.toolCalls == [] || !mcp.available ==>
        response == first && outcomes == [] && followUp.None?
        && mcp.package.invocations == old(mcp.package.invocations)
      ensures first.toolCalls != [] && mcp.available ==>
        |outcomes| == |first.toolCalls|
        && (forall k :: 0 <= k < |first.toolCalls| ==> first.toolCalls[k].toolInput.Some?)
        && outcomes == DispatchAll(mcp, |old(mcp.package.invocations)|, first.toolCalls)
        && mcp.package.invocations == old(mcp.package.invocations) + InvokedAll(mcp, first.toolCalls)
        && response == first.(toolCalls := ExecutedCalls(first.toolCalls, outcomes),
                              filesCreated := FilesOf(outcomes),
                              content := first.content + Epilogue(followUp, ExecutedCalls(first.toolCalls, outcomes), FilesOf(outcomes)))
        && (followUp.Some? <==> ToolResultsOf(first.toolCalls, outcomes) != [])
      ensures |response.content| >= |first.content| && response.content[..|first.content|] == first.content
      ensures response.role == Assistant
      ensures followUp.None? ==>
        client.requests == old(client.requests) + (if available then [FirstRequest(old(Items(history)), message)] else [])
        && (history != null ==> history.items == old(history.items))
      ensures followUp.Some? ==> available && |outcomes| == |first.toolCalls|
      ensures followUp.Some? && |outcomes| == |first.toolCalls| ==>
        var request := FollowUpRequest(old(Items(history)), message, first.content, ToolResultsOf(first.toolCalls, outcomes));
        client.requests == old(client.requests) + [FirstRequest(old(Items(history)), message)] + [request]
        && followUp.value == client.answer(|old(client.requests)| + 1, request)
      ensures followUp.Some? && |outcomes| == |first.toolCalls| && history != null ==>
        history.items == old(history.items)
          + (if old(history.items) != [] then FollowUpTail(message, first.content, ToolResultsOf(first.toolCalls, outcomes)) else [])
    {
      ghost var before := Items(history);
      response := GenerateResponse(message, Items(history));
      first, outcomes, followUp := response, [], None;
      if response.toolCalls != [] && mcp.available {
        assert client.requests == old(client.requests) + [FirstRequest(before, message)];
        assert Items(history) == before;
        response, outcomes, followUp := ToolPhase(message, history, response);
      }
    }
  }
}
