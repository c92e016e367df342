// The chat route of backend/app/api/routes/chat.py: the streaming encoder
// that cuts a turn's content into word chunks and frames it as server-sent
// events, and the non-streaming reply.
//
// Event payloads are kept as values: the JSON text json.dumps writes for them
// is not part of this model. The framing around each payload is, together with
// a parser that recovers the payloads from the framed stream.

module Chat {
  import opened Wrappers
  import opened Strings
  import opened Claude

  /** The payload of one server-sent event. */
  datatype Event =
    | ContentEvent(content: string, isFinal: bool)
    | ToolsEvent(toolCalls: seq<ToolCall>, filesCreated: seq<string>)
    | EndEvent
    | ErrorEvent(error: string)

  // ---------------------------------------------------------------------------
  // Chunking

  /** The chunk buffer once the words of a group were added: each word
      followed by one space. */
  function Buffer(group: seq<string>): string
    decreases |group|
  {
    if group == [] then ""
    else Buffer(group[..|group| - 1]) + group[|group| - 1] + " "
  }

  /** How stream_response groups the remaining words, given the words already
      in the buffer: a word joins the buffer, and the buffer is emitted and
      emptied once it holds 4 or more tokens, or at the last word. */
  function Groups(rest: seq<string>, pending: seq<string>): (groups: seq<seq<string>>)
    requires rest != []
    ensures groups != []
    decreases |rest|
  {
    var g := pending + [rest[0]];
    if |rest| == 1 then [g]
    else if |Tokens(Buffer(g))| >= 4 then [g] + Groups(rest[1..], [])
    else Groups(rest[1..], g)
  }

  /** The text a group is emitted as: its buffer, stripped. */
  function ChunkText(group: seq<string>): string {
    Strip(Buffer(group))
  }

  /** One content event per text; when `final`, the last one is final. */
  function EventsOf(texts: seq<string>, final: bool): (events: seq<Event>)
    ensures |events| == |texts|
  {
    seq(|texts|, k requires 0 <= k < |texts| => ContentEvent(texts[k], final && k == |texts| - 1))
  }

  /** One content event per group; only the last is final. */
  function ContentEventsOf(groups: seq<seq<string>>): seq<Event> {
    EventsOf(Mapped(groups, ChunkText), true)
  }

  /** The content events for a turn's content. */
  function ContentEvents(content: string): seq<Event> {
    ContentEventsOf(Groups(SplitOnSpace(content), []))
  }

  function Flatten(groups: seq<seq<string>>): seq<string>
    decreases |groups|
  {
    if groups == [] then [] else groups[0] + Flatten(groups[1..])
  }

  /** The texts of the content events. */
  function Contents(events: seq<Event>): (texts: seq<string>)
    ensures |texts| == |events|
  {
    seq(|events|, k requires 0 <= k < |events| => if events[k].ContentEvent? then events[k].content else "")
  }

  function NonFinalEvents(groups: seq<seq<string>>): seq<Event> {
    EventsOf(Mapped(groups, ChunkText), false)
  }

  lemma EventsSnoc(texts: seq<string>, t: string, final: bool)
    ensures EventsOf(texts + [t], final) == EventsOf(texts, false) + [ContentEvent(t, final)]
  {
    var a := EventsOf(texts + [t], final);
    var b := EventsOf(texts, false) + [ContentEvent(t, final)];
    forall k | 0 <= k < |a|
      ensures a[k] == b[k]
    {
      if k < |texts| {
        assert (texts + [t])[k] == texts[k];
      }
    }
  }

  /** Emitting group g after the groups `done`, as the last one or not. */
  lemma EmitGroup(done: seq<seq<string>>, g: seq<string>, final: bool)
    ensures EventsOf(Mapped(done + [g], ChunkText), final)
            == NonFinalEvents(done) + [ContentEvent(ChunkText(g), final)]
  {
    MappedSnoc(done, g, ChunkText);
    EventsSnoc(Mapped(done, ChunkText), ChunkText(g), final);
  }

  lemma BufferSnoc(pending: seq<string>, word: string)
    ensures Buffer(pending + [word]) == Buffer(pending) + word + " "
  {
    assert (pending + [word])[..|pending|] == pending;
  }

  /** One step of the grouping: word i joins the pending words, and the
      group is closed at the last word or once it holds 4 tokens. */
  lemma GroupsStep(words: seq<string>, i: nat, pending: seq<string>)
    requires i < |words|
    ensures i == |words| - 1 ==> Groups(words[i..], pending) == [pending + [words[i]]]
    ensures i < |words| - 1 && |Tokens(Buffer(pending + [words[i]]))| >= 4 ==>
      Groups(words[i..], pending) == [pending + [words[i]]] + Groups(words[i + 1..], [])
    ensures i < |words| - 1 && |Tokens(Buffer(pending + [words[i]]))| < 4 ==>
      Groups(words[i..], pending) == Groups(words[i + 1..], pending + [words[i]])
  {
    assert words[i..][0] == words[i];
    assert words[i..][1..] == words[i + 1..];
  }

  /** The loop of ChunkContent after word i joined the pending words, making
      `g`: at the last word, g is the final group. */
  lemma ChunkLast(words: seq<string>, i: nat, done: seq<seq<string>>, pending: seq<string>, g: seq<string>)
    requires i < |words| && g == pending + [words[i]]
    requires Groups(words, []) == done + Groups(words[i..], pending)
    ensures i == |words| - 1 ==>
      ContentEventsOf(Groups(words, [])) == NonFinalEvents(done) + [ContentEvent(ChunkText(g), true)]
  {
    if i == |words| - 1 {
      GroupsStep(words, i, pending);
      assert Groups(words, []) == done + [g];
      EmitGroup(done, g, true);
    }
  }

  /** Before the last word, a group holding 4 tokens is closed. */
  lemma ChunkClose(words: seq<string>, i: nat, done: seq<seq<string>>, pending: seq<string>, g: seq<string>)
    requires i < |words| && g == pending + [words[i]]
    requires Groups(words, []) == done + Groups(words[i..], pending)
    ensures i < |words| - 1 && |Tokens(Buffer(g))| >= 4 ==>
      Groups(words, []) == (done + [g]) + Groups(words[i + 1..], [])
      && NonFinalEvents(done + [g]) == NonFinalEvents(done) + [ContentEvent(ChunkText(g), false)]
  {
    if i < |words| - 1 && |Tokens(Buffer(g))| >= 4 {
      GroupsStep(words, i, pending);
      assert done + ([g] + Groups(words[i + 1..], [])) == (done + [g]) + Groups(words[i + 1..], []);
      EmitGroup(done, g, false);
    }
  }

  /** Before the last word, a group holding fewer than 4 tokens stays open. */
  lemma ChunkKeep(words: seq<string>, i: nat, done: seq<seq<string>>, pending: seq<string>, g: seq<string>)
    requires i < |words| && g == pending + [words[i]]
    requires Groups(words, []) == done + Groups(words[i..], pending)
    ensures i < |words| - 1 && |Tokens(Buffer(g))| < 4 ==>
      Groups(words, []) == done + Groups(words[i + 1..], g)
  {
    GroupsStep(words, i, pending);
  }

  /** The word loop of stream_response. */
  method ChunkContent(content: string) returns (events: seq<Event>)
    ensures events == ContentEvents(content)
  {
    var words := SplitOnSpace(content);
    events := [];
    var currentChunk := "";
    ghost var pending: seq<string> := [];
    ghost var done: seq<seq<string>> := [];
    var i := 0;
    while i < |words|
      invariant 0 <= i <= |words|
      invariant currentChunk == Buffer(pending)
      invariant i < |words| ==> Groups(words, []) == done + Groups(words[i..], pending)
      invariant i < |words| ==> events == NonFinalEvents(done)
      invariant i == |words| ==> events == ContentEventsOf(Groups(words, []))
    {
      var word := words[i];
      BufferSnoc(pending, word);
      ChunkLast(words, i, done, pending, pending + [word]);
      ChunkClose(words, i, done, pending, pending + [word]);
      ChunkKeep(words, i, done, pending, pending + [word]);
      currentChunk := currentChunk + word + " ";
      pending := pending + [word];
      if |Tokens(currentChunk)| >= 4 || i == |words| - 1 {
        events := events + [ContentEvent(Strip(currentChunk), i == |words| - 1)];
        currentChunk := "";
        done, pending := done + [pending], [];
      }
      i := i + 1;
    }
  }

  /** Every word lands in exactly one group, in order. */
  lemma {:induction false} GroupsFlatten(rest: seq<string>, pending: seq<string>)
    requires rest != []
    ensures Flatten(Groups(rest, pending)) == pending + rest
    decreases |rest|
  {
    var g := pending + [rest[0]];
    assert rest == [rest[0]] + rest[1..];
    assert g + rest[1..] == pending + rest;
    if |rest| == 1 {
      assert Flatten([g]) == g + Flatten([]);
    } else if |Tokens(Buffer(g))| >= 4 {
      var tail := Groups(rest[1..], []);
      assert Groups(rest, pending) == [g] + tail;
      GroupsFlatten(rest[1..], []);
      assert ([g] + tail)[1..] == tail;
      assert Flatten([g] + tail) == g + Flatten(tail);
      assert [] + rest[1..] == rest[1..];
    } else {
      assert Groups(rest, pending) == Groups(rest[1..], g);
      GroupsFlatten(rest[1..], g);
    }
  }

  /** Every group is non-empty, and every group but the last reaches 4 tokens. */
  lemma {:induction false} GroupsFull(rest: seq<string>, pending: seq<string>)
    requires rest != []
    ensures forall k :: 0 <= k < |Groups(rest, pending)| ==> Groups(rest, pending)[k] != []
    ensures forall k :: 0 <= k < |Groups(rest, pending)| - 1 ==> |Tokens(Buffer(Groups(rest, pending)[k]))| >= 4
    decreases |rest|
  {
    var g := pending + [rest[0]];
    if |rest| > 1 {
      if |Tokens(Buffer(g))| >= 4 {
        var tail := Groups(rest[1..], []);
        GroupsFull(rest[1..], []);
        var groups := [g] + tail;
        assert Groups(rest, pending) == groups;
        forall k | 0 <= k < |groups|
          ensures groups[k] != [] && (k < |groups| - 1 ==> |Tokens(Buffer(groups[k]))| >= 4)
        {
          if k > 0 {
            assert groups[k] == tail[k - 1];
            assert tail[k - 1] != [];
            assert k - 1 < |tail| - 1 ==> |Tokens(Buffer(tail[k - 1]))| >= 4;
          } else {
            assert groups[0] == g;
          }
        }
      } else {
        assert Groups(rest, pending) == Groups(rest[1..], g);
        GroupsFull(rest[1..], g);
      }
    }
  }

  /** No group reaches 4 tokens before its last word: the buffer is emptied
      at each emission. */
  lemma {:induction false} GroupsNotEarly(rest: seq<string>, pending: seq<string>)
    requires rest != []
    requires forall j :: 1 <= j <= |pending| ==> |Tokens(Buffer(pending[..j]))| < 4
    ensures forall k, j :: 0 <= k < |Groups(rest, pending)| && 1 <= j < |Groups(rest, pending)[k]| ==>
      |Tokens(Buffer(Groups(rest, pending)[k][..j]))| < 4
    decreases |rest|
  {
    var g := pending + [rest[0]];
    assert forall j :: 1 <= j <= |pending| ==> g[..j] == pending[..j];
    if |rest| > 1 {
      if |Tokens(Buffer(g))| >= 4 {
        var tail := Groups(rest[1..], []);
        GroupsNotEarly(rest[1..], []);
        var groups := [g] + tail;
        assert Groups(rest, pending) == groups;
        forall k, j | 0 <= k < |groups| && 1 <= j < |groups[k]|
          ensures |Tokens(Buffer(groups[k][..j]))| < 4
        {
          if k > 0 {
            assert groups[k] == tail[k - 1];
          } else {
            assert groups[k] == g && j <= |pending|;
            assert g[..j] == pending[..j];
          }
        }
      } else {
        assert g[..|g|] == g;
        GroupsNotEarly(rest[1..], g);
      }
    }
  }

  /** What stream_response promises about the content events: at least one
      (split(' ') never yields an empty list), exactly one final and it is the
      last, and at least 4 tokens in every chunk but the last. */
  lemma ContentEventsFacts(content: string)
    ensures |ContentEvents(content)| >= 1
    ensures forall k :: 0 <= k < |ContentEvents(content)| ==>
      ContentEvents(content)[k].ContentEvent?
      && (ContentEvents(content)[k].isFinal <==> k == |ContentEvents(content)| - 1)
    ensures forall k :: 0 <= k < |ContentEvents(content)| - 1 ==> |Tokens(ContentEvents(content)[k].content)| >= 4
  {
    var words := SplitOnSpace(content);
    var groups := Groups(words, []);
    var events := ContentEvents(content);
    GroupsFull(words, []);
    forall k | 0 <= k < |events| - 1
      ensures |Tokens(events[k].content)| >= 4
    {
      assert events[k].content == Strip(Buffer(groups[k]));
      TokensStrip(Buffer(groups[k]));
    }
  }

  /** Every word of content.split(' ') lands in exactly one chunk, in order;
      the chunks are the groups' buffers, stripped; and no chunk reaches 4
      tokens before its last word, since the buffer is emptied at each emission. */
  lemma ContentEventsPartition(content: string)
    ensures |ContentEvents(content)| == |Groups(SplitOnSpace(content), [])|
    ensures Flatten(Groups(SplitOnSpace(content), [])) == SplitOnSpace(content)
    ensures forall k :: 0 <= k < |ContentEvents(content)| ==>
      ContentEvents(content)[k].content == Strip(Buffer(Groups(SplitOnSpace(content), [])[k]))
    ensures forall k, j :: 0 <= k < |Groups(SplitOnSpace(content), [])| && 1 <= j < |Groups(SplitOnSpace(content), [])[k]| ==>
      |Tokens(Buffer(Groups(SplitOnSpace(content), [])[k][..j]))| < 4
  {
    var words := SplitOnSpace(content);
    GroupsFlatten(words, []);
    GroupsNotEarly(words, []);
    assert [] + words == words;
  }

  // Words without whitespace, joined by single spaces

  predicate PlainWords(ws: seq<string>) {
    forall k :: 0 <= k < |ws| ==> ws[k] != [] && NoSpace(ws[k])
  }

  /** A buffer of plain words splits back into those words. */
  lemma {:induction false} BufferTokens(g: seq<string>)
    requires PlainWords(g)
    ensures Tokens(Buffer(g)) == g
    decreases |g|
  {
    if g != [] {
      var init := g[..|g| - 1];
      var w := g[|g| - 1];
      BufferTokens(init);
      var b := Buffer(init);
      assert b == [] || IsSpace(b[|b| - 1]);
      assert Buffer(g) == b + (w + " ");
      TokensAppend(b, w + " ");
      WordThenSpace(w, ' ');
      assert w + " " == w + [' '];
      assert init + [w] == g;
    }
  }

  lemma {:induction false} JoinWithSnoc(g: seq<string>, w: string)
    requires g != []
    ensures JoinWith(g + [w], " ") == JoinWith(g, " ") + " " + w
    decreases |g|
  {
    if |g| == 1 {
      assert (g + [w])[1..] == [w];
    } else {
      assert (g + [w])[1..] == g[1..] + [w];
      JoinWithSnoc(g[1..], w);
    }
  }

  lemma {:induction false} BufferJoin(g: seq<string>)
    requires g != []
    ensures Buffer(g) == JoinWith(g, " ") + " "
    decreases |g|
  {
    var init := g[..|g| - 1];
    if |g| > 1 {
      BufferJoin(init);
      JoinWithSnoc(init, g[|g| - 1]);
      assert init + [g[|g| - 1]] == g;
    }
  }

  lemma {:induction false} JoinEnds(g: seq<string>)
    requires g != [] && PlainWords(g)
    ensures var s := JoinWith(g, " ");
      s != [] && s[0] == g[0][0] && s[|s| - 1] == g[|g| - 1][|g[|g| - 1]| - 1]
    decreases |g|
  {
    if |g| > 1 {
      var init := g[..|g| - 1];
      JoinEnds(init);
      JoinWithSnoc(init, g[|g| - 1]);
      assert init + [g[|g| - 1]] == g;
    }
  }

  /** The chunk text of a group of plain words is the words joined by single spaces. */
  lemma StripBuffer(g: seq<string>)
    requires g != [] && PlainWords(g)
    ensures Strip(Buffer(g)) == JoinWith(g, " ")
  {
    BufferJoin(g);
    JoinEnds(g);
    StripTrailingSpace(JoinWith(g, " "));
  }

  lemma {:induction false} JoinWithConcat(a: seq<string>, b: seq<string>)
    requires a != [] && b != []
    ensures JoinWith(a + b, " ") == JoinWith(a, " ") + " " + JoinWith(b, " ")
    decreases |a|
  {
    if |a| == 1 {
      assert (a + b)[1..] == b;
    } else {
      assert (a + b)[1..] == a[1..] + b;
      JoinWithConcat(a[1..], b);
    }
  }

  /** The groups' words, each joined by single spaces. */
  function GroupTexts(groups: seq<seq<string>>): seq<string> {
    Mapped(groups, (g: seq<string>) => JoinWith(g, " "))
  }


  lemma {:induction false} JoinFlatten(groups: seq<seq<string>>)
    requires groups != []
    requires forall k :: 0 <= k < |groups| ==> groups[k] != []
    ensures JoinWith(GroupTexts(groups), " ") == JoinWith(Flatten(groups), " ")
    decreases |groups|
  {
    if |groups| == 1 {
      assert Flatten(groups) == groups[0] + Flatten([]);
      assert groups[0] + [] == groups[0];
    } else {
      JoinFlatten(groups[1..]);
      assert GroupTexts(groups)[1..] == GroupTexts(groups[1..]);
      assert Flatten(groups[1..]) != [] by {
        assert Flatten(groups[1..]) == groups[1] + Flatten(groups[2..]);
      }
      JoinWithConcat(groups[0], Flatten(groups[1..]));
    }
  }

  /** On plain words every group but the last holds exactly 4 words. */
  lemma {:induction false} GroupsCount(rest: seq<string>, pending: seq<string>)
    requires rest != [] && |pending| <= 3 && PlainWords(rest) && PlainWords(pending)
    ensures |Groups(rest, pending)| == (|pending| + |rest| + 3) / 4
    ensures forall k :: 0 <= k < |Groups(rest, pending)| - 1 ==> |Groups(rest, pending)[k]| == 4
    ensures 1 <= |Groups(rest, pending)[|Groups(rest, pending)| - 1]| <= 4
    decreases |rest|
  {
    var g := pending + [rest[0]];
    BufferTokens(g);
    if |rest| > 1 {
      assert PlainWords(rest[1..]);
      if |g| >= 4 {
        GroupsCount(rest[1..], []);
        var tail := Groups(rest[1..], []);
        assert Groups(rest, pending) == [g] + tail;
        assert forall k :: 1 <= k < |tail| + 1 ==> ([g] + tail)[k] == tail[k - 1];
      } else {
        GroupsCount(rest[1..], g);
      }
    }
  }


  lemma {:induction false} GroupWordsArePlain(rest: seq<string>, pending: seq<string>)
    requires rest != [] && PlainWords(rest) && PlainWords(pending)
    ensures forall k :: 0 <= k < |Groups(rest, pending)| ==> PlainWords(Groups(rest, pending)[k])
    decreases |rest|
  {
    var g := pending + [rest[0]];
    if |rest| > 1 {
      if |Tokens(Buffer(g))| >= 4 {
        GroupWordsArePlain(rest[1..], []);
        assert Groups(rest, pending)[1..] == Groups(rest[1..], []);
      } else {
        GroupWordsArePlain(rest[1..], g);
      }
    }
  }

  lemma SplitJoinedWords(ws: seq<string>)
    requires ws != [] && PlainWords(ws)
    ensures SplitOnSpace(JoinWith(ws, " ")) == ws
  {
    forall k | 0 <= k < |ws|
      ensures ' ' !in ws[k]
    {
      assert IsSpace(' ');
    }
    SplitOnSpaceJoin(ws);
  }

  /** The content events of groups of plain words carry the groups' words
      joined by single spaces. */
  lemma ContentTexts(groups: seq<seq<string>>)
    requires forall k :: 0 <= k < |groups| ==> groups[k] != [] && PlainWords(groups[k])
    ensures Contents(ContentEventsOf(groups)) == GroupTexts(groups)
  {
    var events := ContentEventsOf(groups);
    forall k | 0 <= k < |groups|
      ensures Contents(events)[k] == GroupTexts(groups)[k]
    {
      assert events[k].content == ChunkText(groups[k]);
      StripBuffer(groups[k]);
    }
  }

  /** Text of N >= 1 words separated by single spaces, with no other
      whitespace, streams as ceil(N/4) content events whose texts, joined by
      single spaces, give the text back. */
  lemma ChunkingRoundTrip(ws: seq<string>)
    requires ws != [] && PlainWords(ws)
    ensures |ContentEvents(JoinWith(ws, " "))| == (|ws| + 3) / 4
    ensures JoinWith(Contents(ContentEvents(JoinWith(ws, " "))), " ") == JoinWith(ws, " ")
  {
    SplitJoinedWords(ws);
    var groups := Groups(ws, []);
    assert ContentEvents(JoinWith(ws, " ")) == ContentEventsOf(groups);
    GroupsCount(ws, []);
    GroupWordsArePlain(ws, []);
    GroupsFull(ws, []);
    GroupsFlatten(ws, []);
    assert [] + ws == ws;
    ContentTexts(groups);
    JoinFlatten(groups);
  }

  // ---------------------------------------------------------------------------
  // The event stream

  /** The first exception raised inside the try block of stream_response:
      raised once `before` frames were yielded (0 when process_with_tools
      itself raised), with its message. */
  datatype Fault = Fault(before: nat, message: string)

  /** The frames of a turn that completes: content, an optional tools event, end. */
  function NormalEvents(r: Response): seq<Event> {
    ContentEvents(r.content)
    + (if r.toolCalls != [] then [ToolsEvent(r.toolCalls, r.filesCreated)] else [])
    + [EndEvent]
  }

  predicate Interrupts(r: Response, fault: Option<Fault>) {
    fault.Some? && fault.value.before < |NormalEvents(r)|
  }

  /** The frames stream_response yields. */
  function StreamEvents(r: Response, fault: Option<Fault>): seq<Event> {
    var normal := NormalEvents(r);
    if Interrupts(r, fault) then normal[..fault.value.before] + [ErrorEvent(fault.value.message)]
    else normal
  }

  /** A completed stream is the content events, then a tools event carrying
      tool_calls and files_created unchanged exactly when there are tool
      calls, then one end event, and nothing else. */
  lemma CompletedStream(r: Response, fault: Option<Fault>)
    requires !Interrupts(r, fault)
    ensures |StreamEvents(r, fault)| == |ContentEvents(r.content)| + (if r.toolCalls != [] then 1 else 0) + 1
    ensures StreamEvents(r, fault)[..|ContentEvents(r.content)|] == ContentEvents(r.content)
    ensures StreamEvents(r, fault)[|StreamEvents(r, fault)| - 1] == EndEvent
    ensures r.toolCalls != [] <==> StreamEvents(r, fault)[|StreamEvents(r, fault)| - 2].ToolsEvent?
    ensures r.toolCalls != [] ==>
      StreamEvents(r, fault)[|StreamEvents(r, fault)| - 2] == ToolsEvent(r.toolCalls, r.filesCreated)
    ensures forall k :: 0 <= k < |StreamEvents(r, fault)| - 1 ==>
      !StreamEvents(r, fault)[k].EndEvent? && !StreamEvents(r, fault)[k].ErrorEvent?
  {
    ContentEventsFacts(r.content);
    var contents := ContentEvents(r.content);
    var events := StreamEvents(r, fault);
    assert events == NormalEvents(r);
    assert events[..|contents|] == contents;
    forall k | 0 <= k < |events| - 1
      ensures !events[k].EndEvent? && !events[k].ErrorEvent?
    {
      if k < |contents| {
        assert events[k] == contents[k];
      }
    }
  }

  /** An interrupted stream is the frames yielded before the exception, then
      one error event with its message, and no end event. */
  lemma InterruptedStream(r: Response, fault: Option<Fault>)
    requires Interrupts(r, fault)
    ensures |StreamEvents(r, fault)| == fault.value.before + 1
    ensures StreamEvents(r, fault)[fault.value.before] == ErrorEvent(fault.value.message)
    ensures forall k :: 0 <= k < fault.value.before ==>
      StreamEvents(r, fault)[k] == NormalEvents(r)[k]
      && !StreamEvents(r, fault)[k].EndEvent? && !StreamEvents(r, fault)[k].ErrorEvent?
  {
    ContentEventsFacts(r.content);
    var contents := ContentEvents(r.content);
    var normal := NormalEvents(r);
    forall k | 0 <= k < |normal| - 1
      ensures !normal[k].EndEvent? && !normal[k].ErrorEvent?
    {
      if k < |contents| {
        assert normal[k] == contents[k];
      }
    }
  }

  /** The part of stream_response after process_with_tools returned: the
      content chunks, the optional tools event and the end event, cut short by
      `fault` when it strikes before the end. */
  method EncodeStream(response: Response, fault: Option<Fault>) returns (events: seq<Event>)
    ensures events == StreamEvents(response, fault)
  {
    var normal := ChunkContent(response.content);
    if response.toolCalls != [] {
      normal := normal + [ToolsEvent(response.toolCalls, response.filesCreated)];
    }
    normal := normal + [EndEvent];
    if fault.Some? && fault.value.before < |normal| {
      events := normal[..fault.value.before] + [ErrorEvent(fault.value.message)];
    } else {
      events := normal;
    }
  }

  /** stream_response. `fault` stands for an exception raised inside its try
      block; the events stand for the frames, in order. `first` is the first
      model call's response inside process_with_tools, which is called
      without a history list. */
  method StreamResponse(service: ClaudeService, messageContent: string, fault: Option<Fault>)
    returns (events: seq<Event>, ghost response: Response, ghost first: Response)
    modifies service.client, service.mcp.package
    ensures events == StreamEvents(response, fault)
    ensures response.role == Assistant
    ensures first == (if !service.available then UnavailableResponse()
                      else TurnResponse(service.client.answer(|old(service.client.requests)|, service.FirstRequest([], messageContent))))
    ensures |response.content| >= |first.content| && response.content[..|first.content|] == first.content
    ensures first.toolCalls == [] || !service.mcp.available ==> response == first
    ensures TurnLogs(service, messageContent, first, old(service.client.requests), old(service.mcp.package.invocations))
  {
    ghost var outcomes, followUp;
    var result;
    result, first, outcomes, followUp := service.ProcessWithTools(messageContent, null);
    response := result;
    events := EncodeStream(result, fault);
  }

  /** What a turn without a history list leaves in the request log and in the
      handler log: the first request when the service is available, at most
      one follow-up request after it, and the handler calls of the requested
      tools when there were some and the tools were available. */
  ghost predicate TurnLogs(service: ClaudeService, message: string, first: Response, requests: seq<Request>, invocations: seq<Mcp.Invocation>)
    reads service, service.client, service.mcp, service.mcp.package
  {
    var now := service.client.requests;
    |requests| <= |now| <= |requests| + 2
    && now[..|requests|] == requests
    && (service.available ==> |now| > |requests| && now[|requests|] == service.FirstRequest([], message))
    && (!service.available ==> now == requests)
    && (first.toolCalls == [] || !service.mcp.available ==> service.mcp.package.invocations == invocations)
    && (first.toolCalls != [] && service.mcp.available ==>
          (forall k :: 0 <= k < |first.toolCalls| ==> first.toolCalls[k].toolInput.Some?)
          && service.mcp.package.invocations == invocations + InvokedAll(service.mcp, first.toolCalls))
  }

  // ---------------------------------------------------------------------------
  // Server-sent event framing

  /** One frame: "data: ", the payload, and a blank line. */
  function Frame(payload: string): string {
    "data: " + payload + "\n\n"
  }

  function Framed(payloads: seq<string>): string
    decreases |payloads|
  {
    if payloads == [] then "" else Frame(payloads[0]) + Framed(payloads[1..])
  }

  /** The index of the first line feed, or the length when there is none. */
  function LineEnd(s: string): (n: nat)
    ensures n <= |s|
    ensures forall i :: 0 <= i < n ==> s[i] != '\n'
    ensures n < |s| ==> s[n] == '\n'
  {
    if s == [] || s[0] == '\n' then 0 else 1 + LineEnd(s[1..])
  }

  /** The payloads of a stream of frames, or None when it is not one. */
  function ParseFrames(s: string): Option<seq<string>>
    decreases |s|
  {
    if s == [] then Some([])
    else if |s| < 6 || s[..6] != "data: " then None
    else
      var body := s[6..];
      var n := LineEnd(body);
      if n + 1 < |body| && body[n + 1] == '\n' then
        match ParseFrames(body[n + 2..])
        case Some(rest) => Some([body[..n]] + rest)
        case None => None
      else None
  }

  /** A single-line payload (json.dumps writes no raw line feed) is found
      again by reading the framed stream. */
  lemma {:induction false} ParseFramed(payloads: seq<string>)
    requires forall k :: 0 <= k < |payloads| ==> '\n' !in payloads[k]
    ensures ParseFrames(Framed(payloads)) == Some(payloads)
    decreases |payloads|
  {
    if payloads != [] {
      var p := payloads[0];
      var s := Framed(payloads);
      var rest := Framed(payloads[1..]);
      assert s == "data: " + (p + "\n\n" + rest);
      assert s[..6] == "data: ";
      var body := s[6..];
      assert body == p + "\n\n" + rest;
      assert body == p + ("\n" + ("\n" + rest));
      LineEndOfWord(p, "\n" + ("\n" + rest));
      var n := LineEnd(body);
      assert n == |p| && n + 1 < |body| && body[n + 1] == '\n';
      assert body[..n] == p;
      assert body[n + 2..] == rest;
      ParseFramed(payloads[1..]);
      assert ParseFrames(s) == Some([p] + payloads[1..]);
      assert [p] + payloads[1..] == payloads;
    }
  }

  lemma {:induction false} LineEndOfWord(p: string, tail: string)
    requires '\n' !in p && tail != [] && tail[0] == '\n'
    ensures LineEnd(p + tail) == |p|
    decreases |p|
  {
    if p != [] {
      assert (p + tail)[1..] == p[1..] + tail;
      LineEndOfWord(p[1..], tail);
    } else {
      assert p + tail == tail;
    }
  }

  // ---------------------------------------------------------------------------
  // send_message

  /** The non-streaming reply. */
  datatype ChatResponse = ChatResponse(content: string, role: Role, toolCalls: seq<ToolCall>, filesCreated: seq<string>)

  datatype ChatReply = StreamReply(events: seq<Event>) | PlainReply(response: ChatResponse)

  /** send_message: the event stream when streaming is asked for, otherwise
      the turn's content, role, tool calls and created files. */
  method SendMessage(service: ClaudeService, content: string, stream: bool, fault: Option<Fault>)
    returns (reply: ChatReply, ghost response: Response, ghost first: Response)
    modifies service.client, service.mcp.package
    ensures stream ==> reply == StreamReply(StreamEvents(response, fault))
    ensures !stream ==>
      reply == PlainReply(ChatResponse(response.content, Assistant, response.toolCalls, response.filesCreated))
    ensures first == (if !service.available then UnavailableResponse()
                      else TurnResponse(service.client.answer(|old(service.client.requests)|, service.FirstRequest([], content))))
    ensures |response.content| >= |first.content| && response.content[..|first.content|] == first.content
    ensures first.toolCalls == [] || !service.mcp.available ==> response == first
    ensures TurnLogs(service, content, first, old(service.client.requests), old(service.mcp.package.invocations))
  {
    if stream {
      var events;
      events, response, first := StreamResponse(service, content, fault);
      reply := StreamReply(events);
    } else {
      ghost var outcomes, followUp;
      var result;
      result, first, outcomes, followUp := service.ProcessWithTools(content, null);
      response := result;
      reply := PlainReply(ChatResponse(result.content, result.role, result.toolCalls, result.filesCreated));
    }
  }
}
