// The tool dispatcher of backend/app/core/mcp_client.py: the registry built
// from the five handler tables of the worldbuilding tool package, routing of
// a tool call to its group, normalisation of the handler's answer into a
// result record, and the scraping of file paths out of the result text.
//
// The tool package itself is outside the model: `ToolPackage` holds the key
// sets of its five handler tables and answers every handler call through an
// oracle, recording each call so that "no handler ran" can be stated.

module Mcp {
  import opened Wrappers
  import opened Strings

  /** A JSON value, as the model sends tool arguments. */
  datatype Json =
    | JNull
    | JBool(b: bool)
    | JNumber(n: int)
    | JString(s: string)
    | JArray(items: seq<Json>)
    | JObject(fields: map<string, Json>)

  /** The arguments of one tool call; the core passes them through untouched. */
  type ToolInput = map<string, Json>

  /** The five handler groups, which are also the tool categories. */
  datatype Group = World | Taxonomy | Entry | Image | Site

  /** Position of a group in the routing chain of execute_tool. */
  function Rank(g: Group): nat {
    match g
    case World => 0
    case Taxonomy => 1
    case Entry => 2
    case Image => 3
    case Site => 4
  }

  /** The keys of WORLD_HANDLERS, TAXONOMY_HANDLERS, ENTRY_HANDLERS,
      IMAGE_HANDLERS and SITE_HANDLERS, each in its dict order. */
  datatype HandlerGroups = HandlerGroups(
    world: seq<string>, taxonomy: seq<string>, entry: seq<string>,
    image: seq<string>, site: seq<string>)
  {
    function Keys(g: Group): seq<string> {
      match g
      case World => world
      case Taxonomy => taxonomy
      case Entry => entry
      case Image => image
      case Site => site
    }
  }

  // ---------------------------------------------------------------------------
  // Registry and routing

  /** dict.update with the keys of one more table: keys already present keep
      their place, new keys are appended in order. */
  function Merge(acc: seq<string>, keys: seq<string>): (r: seq<string>)
    ensures Distinct(acc) ==> Distinct(r)
    ensures forall x :: x in r <==> x in acc || x in keys
    ensures |acc| <= |r| && r[..|acc|] == acc
    decreases |keys|
  {
    if keys == [] then acc
    else Merge(if keys[0] in acc then acc else acc + [keys[0]], keys[1..])
  }

  /** The name is a key of one of the five tables. */
  predicate InSomeGroup(groups: HandlerGroups, name: string) {
    name in groups.world || name in groups.taxonomy || name in groups.entry
    || name in groups.image || name in groups.site
  }

  /** The keys of {**WORLD_HANDLERS, **TAXONOMY_HANDLERS, **ENTRY_HANDLERS,
      **IMAGE_HANDLERS, **SITE_HANDLERS}, in dict order. */
  function Registry(groups: HandlerGroups): (r: seq<string>)
    ensures Distinct(r)
    ensures forall x :: x in r <==> InSomeGroup(groups, x)
  {
    Merge(Merge(Merge(Merge(Merge([], groups.world), groups.taxonomy), groups.entry), groups.image), groups.site)
  }

  /** The group execute_tool hands a tool to: the first, in the order world,
      taxonomy, entry, image, site, whose table holds the name. */
  function Route(groups: HandlerGroups, name: string): (g: Option<Group>)
    ensures g.Some? ==> name in groups.Keys(g.value)
    ensures g.Some? ==> forall h :: Rank(h) < Rank(g.value) ==> name !in groups.Keys(h)
    ensures g.None? <==> !InSomeGroup(groups, name)
  {
    if name in groups.world then Some(World)
    else if name in groups.taxonomy then Some(Taxonomy)
    else if name in groups.entry then Some(Entry)
    else if name in groups.image then Some(Image)
    else if name in groups.site then Some(Site)
    else None
  }

  // ---------------------------------------------------------------------------
  // What a handler answers, and the record execute_tool makes of it

  /** One element of a handler's list answer: an object with a `text`
      attribute, or anything else, which is turned into text with str(). */
  datatype ContentItem = TextItem(text: string) | OtherItem(repr: string)

  function ItemText(item: ContentItem): string {
    match item
    case TextItem(t) => t
    case OtherItem(r) => r
  }

  datatype RawValue = ContentList(items: seq<ContentItem>) | NotAList

  /** A handler call either returns a value or raises an exception with a message. */
  datatype RawResult = Returned(value: RawValue) | HandlerRaised(message: string)

  datatype PyException = RuntimeError(message: string) | ValueError(message: string) {
    /** str(e) */
    function Str(): string {
      message
    }
  }

  /** The dict execute_tool returns; `filesCreated` is absent on failure. */
  datatype ToolResult = ToolResult(
    success: bool,
    result: string,
    filesCreated: Option<seq<string>>,
    error: Option<string>,
    toolName: string,
    parameters: ToolInput)

  /** execute_tool either returns a record or raises. */
  datatype Dispatched = Answered(record: ToolResult) | Raised(exception: PyException)

  const NoResultText := "Tool execution failed - no result returned"
  const EmptyResultError := "Empty result from MCP tool"
  const FailedPrefix := "Tool execution failed: "

  /** The record execute_tool builds from a handler's answer. */
  function ToolRecord(toolName: string, parameters: ToolInput, raw: RawResult): (r: ToolResult)
    ensures r.toolName == toolName && r.parameters == parameters
    ensures r.success <==> raw.Returned? && raw.value.ContentList? && |raw.value.items| > 0
    ensures r.success ==> r.result == ItemText(raw.value.items[0])
                          && r.filesCreated == Some(ExtractedFiles(r.result)) && r.error.None?
    ensures !r.success ==> r.error.Some? && r.filesCreated.None?
    ensures raw.HandlerRaised? ==> r.error == Some(raw.message) && r.result == FailedPrefix + raw.message
    ensures raw.Returned? && !r.success ==> r.error == Some(EmptyResultError)
  {
    match raw
    case Returned(ContentList(items)) =>
      if |items| > 0 then
        var text := ItemText(items[0]);
        ToolResult(true, text, Some(ExtractedFiles(text)), None, toolName, parameters)
      else
        ToolResult(false, NoResultText, None, Some(EmptyResultError), toolName, parameters)
    case Returned(NotAList) =>
      ToolResult(false, NoResultText, None, Some(EmptyResultError), toolName, parameters)
    case HandlerRaised(m) =>
      ToolResult(false, FailedPrefix + m, None, Some(m), toolName, parameters)
  }

  // ---------------------------------------------------------------------------
  // File scraping, _extract_files_from_result

  /** The literal heads of the two phrase patterns,
      "[Cc]reated (?:file|entry|taxonomy|world)" and "[Ss]aved to". */
  const CreatedHeads: seq<string> := [
    "Created file", "Created entry", "Created taxonomy", "Created world",
    "created file", "created entry", "created taxonomy", "created world"]
  const SavedHeads: seq<string> := ["Saved to", "saved to"]
  const AllowedExtensions: seq<string> := [".md", ".png", ".jpg", ".json", ".html"]

  predicate HasPrefix(s: string, prefix: string) {
    |prefix| <= |s| && s[..|prefix|] == prefix
  }

  /** The length of the head that starts s, or 0 when none does. */
  function HeadLength(s: string, heads: seq<string>): (n: nat)
    ensures n <= |s|
    decreases |heads|
  {
    if heads == [] then 0
    else if heads[0] != [] && HasPrefix(s, heads[0]) then |heads[0]|
    else HeadLength(s, heads[1..])
  }

  /** A non-empty head starts the text exactly when the length is positive,
      and the length is that of such a head. */
  lemma {:induction false} HeadLengthFacts(s: string, heads: seq<string>)
    ensures HeadLength(s, heads) > 0 <==> exists h :: h in heads && h != [] && HasPrefix(s, h)
    ensures HeadLength(s, heads) > 0 ==> exists h :: h in heads && |h| == HeadLength(s, heads) && HasPrefix(s, h)
    decreases |heads|
  {
    if heads != [] {
      HeadLengthFacts(s, heads[1..]);
      assert forall h :: h in heads <==> h == heads[0] || h in heads[1..];
    }
  }

  /** The class [:\s]. */
  predicate IsSeparator(c: char) {
    c == ':' || IsSpace(c)
  }

  /** Length of the leading run of separators. */
  function SeparatorRun(s: string): (n: nat)
    ensures n <= |s|
    ensures forall i :: 0 <= i < n ==> IsSeparator(s[i])
    ensures n < |s| ==> !IsSeparator(s[n])
  {
    if s == [] || !IsSeparator(s[0]) then 0 else 1 + SeparatorRun(s[1..])
  }

  /** "[:\s]+([^\s]+)" can put the start of its capture at q: at least one
      separator before it, nothing but separators before it, and a
      non-whitespace character at it. */
  predicate SplitAt(t: string, q: int) {
    1 <= q < |t| && !IsSpace(t[q]) && forall i :: 0 <= i < q ==> IsSeparator(t[i])
  }

  /** The largest c <= hi with t[c] == ':' and c >= 1, or 0 when there is none. */
  function LastColon(t: string, hi: int): (c: nat)
    requires hi < |t|
    ensures c == 0 || (c <= hi && t[c] == ':')
    ensures forall q :: c < q <= hi ==> t[q] != ':'
    decreases if hi < 0 then 0 else hi
  {
    if hi < 1 then 0
    else if t[hi] == ':' then hi
    else LastColon(t, hi - 1)
  }

  /** Where "[:\s]+([^\s]+)" starts its capture at the head of t: after the
      greedy separator run when a non-whitespace character follows it, else
      at the last colon the engine can give back. */
  function CaptureStart(t: string): (p: Option<nat>)
    ensures p.Some? ==> 1 <= p.value < |t| && !IsSpace(t[p.value])
  {
    var k := SeparatorRun(t);
    if k == 0 then None
    else if k < |t| then Some(k)
    else
      var c := LastColon(t, k - 1);
      if c == 0 then None else Some(c)
  }

  /** The capture starts at the last admissible position, as the
      backtracking engine finds it, and there is none exactly when no
      position is admissible. */
  lemma CaptureStartSpec(t: string)
    ensures CaptureStart(t).Some? ==>
      SplitAt(t, CaptureStart(t).value) && forall q :: CaptureStart(t).value < q ==> !SplitAt(t, q)
    ensures CaptureStart(t).None? ==> forall q :: !SplitAt(t, q)
  {
    var k := SeparatorRun(t);
    if 0 < k < |t| {
      forall q | k < q ensures !SplitAt(t, q) {
        assert !IsSeparator(t[k]);
      }
    }
  }

  /** re.findall of a head followed by "[:\s]+([^\s]+)": try each start
      position in turn; after a match, scanning resumes where the capture
      ends. */
  function PhraseCaptures(s: string, heads: seq<string>): (caps: seq<string>)
    ensures forall c :: c in caps ==> c != [] && NoSpace(c)
    decreases |s|
  {
    if s == [] then []
    else
      var h := HeadLength(s, heads);
      if h == 0 then PhraseCaptures(s[1..], heads)
      else
        match CaptureStart(s[h..])
        case None => PhraseCaptures(s[1..], heads)
        case Some(p) =>
          var start := h + p;
          var rest := s[start..];
          var n := WordLength(rest);
          assert rest[0] == s[h..][p];
          assert NoSpace(rest[..n]);
          [rest[..n]] + PhraseCaptures(rest[n..], heads)
  }

  /** A phrase capture needs a non-whitespace character, so blank text has none. */
  lemma {:induction false} BlankHasNoPhrase(s: string, heads: seq<string>)
    requires AllSpace(s)
    ensures PhraseCaptures(s, heads) == []
    decreases |s|
  {
    if s != [] {
      var h := HeadLength(s, heads);
      if h != 0 && CaptureStart(s[h..]).Some? {
        assert false;
      }
      BlankHasNoPhrase(s[1..], heads);
    }
  }

  /** A path glued to the colon is captured whole. */
  lemma GluedCapture(w: string)
    requires w != [] && NoSpace(w) && w[0] != ':'
    ensures CreatedCaptures("Created file:" + w) == [w]
  {
    var s := "Created file:" + w;
    assert s[..12] == CreatedHeads[0];
    assert HeadLength(s, CreatedHeads) == 12;
    var t := s[12..];
    assert t[1..] == w;
    assert SeparatorRun(t[1..]) == 0;
    assert CaptureStart(t) == Some(1);
    assert s[13..] == w;
    assert WordLength(w) == |w|;
    assert w[..|w|] == w && w[|w|..] == [];
    assert PhraseCaptures(s, CreatedHeads) == [w[..|w|]] + PhraseCaptures(w[|w|..], CreatedHeads);
  }

  /** Whitespace before the colon belongs to the separator run too. */
  lemma SpacedColonCapture(w: string)
    requires w != [] && NoSpace(w) && w[0] != ':'
    ensures CreatedCaptures("Created file : " + w) == [w]
  {
    var s := "Created file : " + w;
    assert s[..12] == CreatedHeads[0];
    assert HeadLength(s, CreatedHeads) == 12;
    var t := s[12..];
    assert t[3..] == w;
    assert SeparatorRun(t[3..]) == 0;
    assert SeparatorRun(t) == 3;
    assert CaptureStart(t) == Some(3);
    assert s[15..] == w;
    assert WordLength(w) == |w|;
    assert w[..|w|] == w && w[|w|..] == [];
    assert PhraseCaptures(s, CreatedHeads) == [w[..|w|]] + PhraseCaptures(w[|w|..], CreatedHeads);
  }

  /** When only colons follow the head, the engine backs off and captures the last colon. */
  lemma BackedOffColon()
    ensures CreatedCaptures("Created file::") == [":"]
  {
    var s := "Created file::";
    assert s[..12] == CreatedHeads[0];
    assert HeadLength(s, CreatedHeads) == 12;
    var t := s[12..];
    assert t == "::";
    assert SeparatorRun(t[2..]) == 0;
    assert SeparatorRun(t) == 2;
    assert LastColon(t, 1) == 1;
    assert CaptureStart(t) == Some(1);
    var rest := s[13..];
    assert rest == ":";
    assert WordLength(rest[1..]) == 0;
    assert rest[..1] == ":" && rest[1..] == [];
    assert PhraseCaptures(s, CreatedHeads) == [rest[..1]] + PhraseCaptures(rest[1..], CreatedHeads);
  }

  function CreatedCaptures(text: string): seq<string> {
    PhraseCaptures(text, CreatedHeads)
  }

  function SavedCaptures(text: string): seq<string> {
    PhraseCaptures(text, SavedHeads)
  }

  /** t[j] is a '.' with at least one character before it and two ASCII letters after it. */
  predicate ExtensionDotAt(t: string, j: int) {
    1 <= j && j + 2 < |t| && t[j] == '.' && IsAsciiLetter(t[j + 1]) && IsAsciiLetter(t[j + 2])
  }

  /** The largest j <= hi with ExtensionDotAt(t, j), or 0 if there is none. */
  function LastExtensionDot(t: string, hi: int): (j: nat)
    ensures j == 0 || (j <= hi && ExtensionDotAt(t, j))
    ensures forall k :: j < k <= hi ==> !ExtensionDotAt(t, k)
    decreases if hi < 0 then 0 else hi
  {
    if hi < 1 then 0
    else if ExtensionDotAt(t, hi) then hi
    else LastExtensionDot(t, hi - 1)
  }

  /** The number of leading ASCII letters of s, at most `limit`. */
  function LetterRun(s: string, limit: nat): (n: nat)
    ensures n <= limit && n <= |s|
    ensures forall i :: 0 <= i < n ==> IsAsciiLetter(s[i])
    ensures n == limit || n == |s| || !IsAsciiLetter(s[n])
  {
    if limit == 0 || s == [] || !IsAsciiLetter(s[0]) then 0 else 1 + LetterRun(s[1..], limit - 1)
  }

  /** The candidate ends in '.' and 2 to 4 ASCII letters, with something before the dot. */
  predicate EndsInExtension(c: string) {
    exists n :: 2 <= n <= 4 && ExtensionTail(c, n)
  }

  predicate ExtensionTail(c: string, n: nat) {
    n + 2 <= |c| && c[|c| - n - 1] == '.' && forall i :: |c| - n <= i < |c| ==> IsAsciiLetter(c[i])
  }

  /** Where the first match of "([^\s]+\.[a-zA-Z]{2,4})" inside one whitespace-free
      token ends, or 0 when there is none: the greedy [^\s]+ backs off to the last '.'
      followed by two letters, and the letters run on to at most four. */
  function FirstMatchEnd(t: string): (e: nat)
    ensures e <= |t|
    ensures e != 0 ==> EndsInExtension(t[..e])
  {
    if |t| < 4 then 0
    else
      var j := LastExtensionDot(t, |t| - 3);
      if j == 0 then 0
      else
        var n := LetterRun(t[j + 1..], 4);
        assert ExtensionTail(t[..j + 1 + n], n);
        j + 1 + n
  }

  /** The engine's choice: there is a match exactly when some '.' has a character
      before it and two ASCII letters after it, and the match runs past the
      letters of the last such '.'. */
  lemma FirstMatchEndSpec(t: string)
    ensures FirstMatchEnd(t) == 0 <==> forall j :: !ExtensionDotAt(t, j)
    ensures forall j :: ExtensionDotAt(t, j) ==> FirstMatchEnd(t) > j + 2
  {
  }

  /** The matches inside one whitespace-free token; the scan resumes after each match. */
  function ExtensionMatches(t: string): (ms: seq<string>)
    ensures forall k :: 0 <= k < |ms| ==> EndsInExtension(ms[k])
    decreases |t|
  {
    var e := FirstMatchEnd(t);
    if e == 0 then [] else [t[..e]] + ExtensionMatches(t[e..])
  }

  lemma NoSpaceSlice(t: string, a: nat, b: nat)
    requires NoSpace(t) && a <= b <= |t|
    ensures NoSpace(t[a..b])
  {
    forall i | 0 <= i < b - a ensures !IsSpace(t[a..b][i]) {
      assert t[a..b][i] == t[a + i];
    }
  }

  /** A match inside a whitespace-free token holds no whitespace. */
  lemma {:induction false} ExtensionMatchesNoSpace(t: string)
    requires NoSpace(t)
    ensures forall k :: 0 <= k < |ExtensionMatches(t)| ==> NoSpace(ExtensionMatches(t)[k])
    decreases |t|
  {
    var ms := ExtensionMatches(t);
    var e := FirstMatchEnd(t);
    if e != 0 {
      var rest := ExtensionMatches(t[e..]);
      NoSpaceSlice(t, 0, e);
      NoSpaceSlice(t, e, |t|);
      assert t[e..|t|] == t[e..];
      ExtensionMatchesNoSpace(t[e..]);
      forall k | 0 <= k < |ms| ensures NoSpace(ms[k]) {
        if k == 0 {
          assert ms[k] == t[..e];
        } else {
          assert ms[k] == rest[k - 1];
        }
      }
    }
  }

  /** Every match of the catch-all pattern in the text, token by token. */
  function CandidatesOf(ts: seq<string>): (cs: seq<string>)
    ensures forall c :: c in cs ==> EndsInExtension(c)
    decreases |ts|
  {
    if ts == [] then [] else ExtensionMatches(ts[0]) + CandidatesOf(ts[1..])
  }

  function Candidates(text: string): seq<string> {
    CandidatesOf(Tokens(text))
  }

  /** any(ext in file for ext in ['.md', '.png', '.jpg', '.json', '.html']) */
  predicate HasAllowedExtension(f: string) {
    Contains(f, ".md") || Contains(f, ".png") || Contains(f, ".jpg")
    || Contains(f, ".json") || Contains(f, ".html")
  }

  /** The candidates the filter loop keeps, in order. */
  function KeepAllowed(cs: seq<string>): seq<string>
    decreases |cs|
  {
    if cs == [] then []
    else
      var last := cs[|cs| - 1];
      KeepAllowed(cs[..|cs| - 1]) + (if HasAllowedExtension(last) then [last] else [])
  }

  /** A candidate is kept exactly when it names an allowed extension. */
  lemma {:induction false} KeepAllowedMembers(cs: seq<string>)
    ensures forall f :: f in KeepAllowed(cs) <==> f in cs && HasAllowedExtension(f)
    decreases |cs|
  {
    if cs != [] {
      var init := cs[..|cs| - 1];
      var last := cs[|cs| - 1];
      KeepAllowedMembers(init);
      assert cs == init + [last];
      assert forall f :: f in cs <==> f in init || f == last;
    }
  }

  /** What _extract_files_from_result returns for a text. */
  function ExtractedFiles(text: string): seq<string> {
    Dedup(CreatedCaptures(text) + SavedCaptures(text) + KeepAllowed(Candidates(text)))
  }

  /** A path is scraped exactly when one of the three passes found it. */
  lemma ExtractedFilesMembers(text: string)
    ensures forall f :: f in ExtractedFiles(text) <==>
      f in CreatedCaptures(text) || f in SavedCaptures(text)
      || (f in Candidates(text) && HasAllowedExtension(f))
  {
    var phrases := CreatedCaptures(text) + SavedCaptures(text);
    var kept := KeepAllowed(Candidates(text));
    KeepAllowedMembers(Candidates(text));
    assert forall f :: f in phrases + kept <==> f in phrases || f in kept;
  }

  lemma KeepAllowedStep(cs: seq<string>, i: nat)
    requires i < |cs|
    ensures KeepAllowed(cs[..i + 1]) == KeepAllowed(cs[..i]) + (if HasAllowedExtension(cs[i]) then [cs[i]] else [])
  {
    assert cs[..i + 1][..i] == cs[..i];
    assert cs[..i + 1][i] == cs[i];
  }

  /** _extract_files_from_result: extend with the two phrase passes, append each
      allowed catch-all candidate, then drop duplicates. */
  method ExtractFilesFromResult(resultText: string) returns (files: seq<string>)
    ensures files == ExtractedFiles(resultText)
    ensures Distinct(files)
    ensures forall f :: f in files <==>
      f in CreatedCaptures(resultText) || f in SavedCaptures(resultText)
      || (f in Candidates(resultText) && HasAllowedExtension(f))
  {
    var created := CreatedCaptures(resultText);
    var saved := SavedCaptures(resultText);
    files := [];
    files := files + created;
    assert files == created;
    files := files + saved;
    ghost var phrases := files;
    var potentialFiles := Candidates(resultText);
    var i := 0;
    while i < |potentialFiles|
      invariant 0 <= i <= |potentialFiles|
      invariant files == phrases + KeepAllowed(potentialFiles[..i])
    {
      var file := potentialFiles[i];
      KeepAllowedStep(potentialFiles, i);
      if HasAllowedExtension(file) {
        assert phrases + KeepAllowed(potentialFiles[..i]) + [file] == phrases + (KeepAllowed(potentialFiles[..i]) + [file]);
        files := files + [file];
      }
      i := i + 1;
    }
    assert potentialFiles[..i] == potentialFiles;
    files := Dedup(files);
    ExtractedFilesMembers(resultText);
  }

  /** Every scraped path is non-empty, holds no whitespace, and appears at most once;
      a catch-all hit also ends in a 2-4 letter extension and names an allowed one;
      a blank text yields no path. */
  lemma ExtractedFilesShape(text: string)
    ensures Distinct(ExtractedFiles(text))
    ensures forall f :: f in ExtractedFiles(text) ==> f != [] && NoSpace(f)
    ensures forall f :: f in ExtractedFiles(text) && f !in CreatedCaptures(text) && f !in SavedCaptures(text)
                        ==> EndsInExtension(f) && HasAllowedExtension(f)
    ensures AllSpace(text) ==> ExtractedFiles(text) == []
  {
    var ts := Tokens(text);
    ExtractedFilesMembers(text);
    if AllSpace(text) {
      AllSpaceHasNoTokens(text);
      BlankHasNoPhrase(text, CreatedHeads);
      BlankHasNoPhrase(text, SavedHeads);
    }
    forall f | f in ExtractedFiles(text) ensures f != [] && NoSpace(f) {
      if !(f in CreatedCaptures(text) || f in SavedCaptures(text)) {
        assert f in Candidates(text);
        CandidatesAreTokenPieces(ts, f);
      }
    }
  }

  lemma {:induction false} CandidatesAreTokenPieces(ts: seq<string>, f: string)
    requires forall k :: 0 <= k < |ts| ==> ts[k] != [] && NoSpace(ts[k])
    requires f in CandidatesOf(ts)
    ensures f != [] && NoSpace(f)
    decreases |ts|
  {
    if f in ExtensionMatches(ts[0]) {
      var ms := ExtensionMatches(ts[0]);
      var k :| 0 <= k < |ms| && ms[k] == f;
      ExtensionMatchesNoSpace(ts[0]);
      assert EndsInExtension(f);
    } else {
      CandidatesAreTokenPieces(ts[1..], f);
    }
  }

  // ---------------------------------------------------------------------------
  // The tool package and the client

  /** Categories and descriptions get_available_tools knows about. */
  datatype ToolInfo = ToolInfo(name: string, category: Group, description: string)

  const ToolDefinitions: map<string, (Group, string)> := map[
    "instantiate_world" := (World, "Create a new world project with foundation content"),
    "list_world_files" := (World, "List all files in a world directory"),
    "generate_taxonomy_guidelines" := (Taxonomy, "Generate custom guidelines for a taxonomy type"),
    "create_taxonomy_folders" := (Taxonomy, "Create organized categories for your world"),
    "create_world_entry" := (Entry, "Add detailed entries to your world"),
    "identify_stub_candidates" := (Entry, "Find entities that need their own entries"),
    "create_stub_entries" := (Entry, "Automatically create placeholder entries"),
    "generate_image_from_markdown_file" := (Image, "Create visual representations of your content"),
    "build_static_site" := (Site, "Generate a navigable website from your world")
  ]

  /** One record per name that has a definition, in the order of `names`. */
  function DefinedTools(names: seq<string>): seq<ToolInfo>
    decreases |names|
  {
    if names == [] then []
    else
      var last := names[|names| - 1];
      var tools := DefinedTools(names[..|names| - 1]);
      if last in ToolDefinitions then
        var d := ToolDefinitions[last];
        tools + [ToolInfo(last, d.0, d.1)]
      else tools
  }

  /** get_available_tools keeps one record per registered name that has a
      definition, with that definition; every such name is listed, and
      distinct names give distinct records. */
  lemma {:induction false} DefinedToolsFacts(names: seq<string>)
    ensures forall k :: 0 <= k < |DefinedTools(names)| ==>
      var t := DefinedTools(names)[k];
      t.name in names && t.name in ToolDefinitions && (t.category, t.description) == ToolDefinitions[t.name]
    ensures forall n :: n in names && n in ToolDefinitions ==> n in ToolNames(DefinedTools(names))
    ensures Distinct(names) ==> Distinct(ToolNames(DefinedTools(names)))
    decreases |names|
  {
    if names != [] {
      var init := names[..|names| - 1];
      var last := names[|names| - 1];
      assert forall n :: n in names <==> n in init || n == last;
      DefinedToolsFacts(init);
      var tools := DefinedTools(init);
      if last in ToolDefinitions {
        var d := ToolDefinitions[last];
        var r := tools + [ToolInfo(last, d.0, d.1)];
        assert ToolNames(r) == ToolNames(tools) + [last];
        assert Distinct(names) ==> last !in init;
      }
    }
  }

  function ToolNames(tools: seq<ToolInfo>): (names: seq<string>)
    ensures |names| == |tools|
    ensures forall k :: 0 <= k < |tools| ==> names[k] == tools[k].name
  {
    seq(|tools|, k requires 0 <= k < |tools| => tools[k].name)
  }


  datatype Invocation = Invocation(group: Group, toolName: string, parameters: ToolInput)

  /** The worldbuilding tool package: its five handler tables and their handlers. */
  class ToolPackage {
    const groups: HandlerGroups
    /** What the handler of a group answers on the n-th handler call of the process. */
    const answer: (nat, Group, string, ToolInput) -> RawResult
    /** Every handler call made so far. */
    var invocations: seq<Invocation>

    constructor (groups: HandlerGroups, answer: (nat, Group, string, ToolInput) -> RawResult)
      ensures this.groups == groups && this.answer == answer && invocations == []
    {
      this.groups := groups;
      this.answer := answer;
      invocations := [];
    }

    /** handle_world_tool, handle_taxonomy_tool, ... for the given group. */
    method Handle(group: Group, toolName: string, parameters: ToolInput) returns (raw: RawResult)
      modifies this
      ensures invocations == old(invocations) + [Invocation(group, toolName, parameters)]
      ensures raw == answer(|old(invocations)|, group, toolName, parameters)
    {
      raw := answer(|invocations|, group, toolName, parameters);
      invocations := invocations + [Invocation(group, toolName, parameters)];
    }
  }

  class McpClient {
    /** MCP_AVAILABLE: whether the tool package could be imported. */
    const available: bool
    const package: ToolPackage
    /** The keys of self.tool_handlers, in dict order. */
    const toolHandlers: seq<string>

    /** The registry is the union of the five tables when the package is there, empty otherwise. */
    predicate Valid() {
      toolHandlers == if available then Registry(package.groups) else []
    }

    constructor (available: bool, package: ToolPackage)
      ensures this.available == available && this.package == package
      ensures toolHandlers == if available then Registry(package.groups) else []
      ensures Valid()
    {
      this.available := available;
      this.package := package;
      toolHandlers := if available then Registry(package.groups) else [];
    }

    /** What execute_tool returns or raises when `n` handler calls were made before it. */
    function Dispatch(n: nat, toolName: string, parameters: ToolInput): Dispatched {
      if !available then Raised(RuntimeError("MCP tools are not available"))
      else if toolName !in toolHandlers then Raised(ValueError("Unknown tool: " + toolName))
      else
        match Route(package.groups, toolName)
        case Some(g) => Answered(ToolRecord(toolName, parameters, package.answer(n, g, toolName, parameters)))
        case None => Answered(ToolRecord(toolName, parameters, HandlerRaised("No handler found for tool: " + toolName)))
    }

    /** The handler calls execute_tool makes: one in the routed group, or none. */
    function Invoked(toolName: string, parameters: ToolInput): seq<Invocation> {
      if available && toolName in toolHandlers && Route(package.groups, toolName).Some? then
        [Invocation(Route(package.groups, toolName).value, toolName, parameters)]
      else []
    }

    method ExecuteTool(toolName: string, parameters: ToolInput) returns (r: Dispatched)
      modifies package
      ensures r == Dispatch(|old(package.invocations)|, toolName, parameters)
      ensures package.invocations == old(package.invocations) + Invoked(toolName, parameters)
    {
      if !available {
        return Raised(RuntimeError("MCP tools are not available"));
      }
      if toolName !in toolHandlers {
        return Raised(ValueError("Unknown tool: " + toolName));
      }
      var raw: RawResult;
      match Route(package.groups, toolName) {
        case Some(g) =>
          raw := package.Handle(g, toolName, parameters);
        case None =>
          raw := HandlerRaised("No handler found for tool: " + toolName);
      }
      if raw.Returned? && raw.value.ContentList? && |raw.value.items| > 0 {
        var textResult := ItemText(raw.value.items[0]);
        var files := ExtractFilesFromResult(textResult);
        r := Answered(ToolResult(true, textResult, Some(files), None, toolName, parameters));
      } else if raw.Returned? {
        r := Answered(ToolResult(false, NoResultText, None, Some(EmptyResultError), toolName, parameters));
      } else {
        r := Answered(ToolResult(false, FailedPrefix + raw.message, None, Some(raw.message), toolName, parameters));
      }
    }

    method GetAvailableTools() returns (tools: seq<ToolInfo>)
      ensures !available ==> tools == []
      ensures available ==> tools == DefinedTools(toolHandlers)
    {
      if !available {
        return [];
      }
      tools := [];
      var i := 0;
      while i < |toolHandlers|
        invariant 0 <= i <= |toolHandlers|
        invariant tools == DefinedTools(toolHandlers[..i])
      {
        var toolName := toolHandlers[i];
        assert toolHandlers[..i + 1][..i] == toolHandlers[..i];
        if toolName in ToolDefinitions {
          var d := ToolDefinitions[toolName];
          tools := tools + [ToolInfo(toolName, d.0, d.1)];
        }
        i := i + 1;
      }
      assert toolHandlers[..i] == toolHandlers;
    }
  }

  /** execute_tool raises without running a handler when the tools are
      unavailable, and when the name is not registered. */
  lemma DispatchRaises(c: McpClient, n: nat, name: string, input: ToolInput)
    ensures !c.available ==>
      c.Dispatch(n, name, input) == Raised(RuntimeError("MCP tools are not available"))
      && c.Invoked(name, input) == []
    ensures c.available && name !in c.toolHandlers ==>
      c.Dispatch(n, name, input) == Raised(ValueError("Unknown tool: " + name))
      && c.Invoked(name, input) == []
  {
  }

  /** For a client built by the constructor, a registered name always has a
      group, so the "No handler found" branch of execute_tool never runs. */
  lemma RegisteredNamesRoute(c: McpClient, name: string)
    requires c.Valid() && c.available && name in c.toolHandlers
    ensures Route(c.package.groups, name).Some?
  {
  }

  /** On a valid client, get_available_tools lists each name that is both
      registered and defined, exactly once, with its definition. */
  lemma AvailableToolsAreRegisteredAndDefined(c: McpClient)
    requires c.Valid() && c.available
    ensures Distinct(ToolNames(DefinedTools(c.toolHandlers)))
    ensures forall n :: n in ToolNames(DefinedTools(c.toolHandlers)) <==>
                        n in ToolDefinitions && InSomeGroup(c.package.groups, n)
  {
    var tools := DefinedTools(c.toolHandlers);
    DefinedToolsFacts(c.toolHandlers);
    forall n | n in ToolNames(tools)
      ensures n in ToolDefinitions && InSomeGroup(c.package.groups, n)
    {
      var k :| 0 <= k < |tools| && ToolNames(tools)[k] == n;
    }
  }
}
