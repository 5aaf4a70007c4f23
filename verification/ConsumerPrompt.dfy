// Compaction of one prompt into the text budget of the consumer channel
// (consumer_prompt.py).
module ConsumerPrompt {
  import opened Prelude

  const SEPARATOR := "\n\n---\n\n"
  const OMISSION := "\n\n[... omitted for Consumer Copilot prompt budget ...]\n\n"
  const CONTRACT_PREFIX := "Consumer tool contract:"
  const SYSTEM_PREFIX := "System instructions:"
  const TRANSCRIPT_PREFIX := "Prior conversation transcript:"
  const PARAGRAPH := "\n\n"

  datatype Result = Ok(text: string) | ValueError | AssertionError

  // ------------------------------------------------------------ pieces

  // Head and tail of a text that is too long, around a note; or all of one that
  // is not.
  function Cut(text: string, limit: int, note: string): (r: string)
    ensures |text| <= limit ==> r == text
    ensures |text| > limit ==> |r| == if limit > 0 then limit else 0
  {
    if limit <= 0 then ""
    else if |text| <= limit then text
    else if limit <= |note| + 2 then text[..limit]
    else
      var available := limit - |note|;
      var head := available / 2;
      text[..head] + note + text[|text| - (available - head)..]
  }

  function HeadTail(text: string, limit: int): (r: string)
    ensures |text| <= limit ==> r == text
    ensures |text| > limit ==> |r| == if limit > 0 then limit else 0
  {
    Cut(text, limit, OMISSION)
  }

  ghost predicate BothEnds(text: string, note: string, r: string, head: string, tail: string) {
    r == head + note + tail && IsPrefix(head, text) && IsSuffix(tail, text) && 0 < |head| <= |tail| <= |head| + 1
  }

  // A text that is cut keeps its beginning and its end, about as much of either,
  // around the note of what is missing; a limit too small for the note keeps the
  // beginning alone.
  lemma CutKeepsBothEnds(text: string, limit: nat, note: string)
    requires 0 < limit < |text|
    ensures limit <= |note| + 2 ==> Cut(text, limit, note) == text[..limit]
    ensures limit > |note| + 2 ==> exists head, tail :: BothEnds(text, note, Cut(text, limit, note), head, tail)
  {
    if limit > |note| + 2 {
      var available := limit - |note|;
      var head, tail := text[..available / 2], text[|text| - (available - available / 2)..];
      assert BothEnds(text, note, Cut(text, limit, note), head, tail);
    }
  }

  // Python's `rfind`: the last position of `part`, or -1.
  function LastPosition(whole: string, part: string, upTo: nat): (at: int)
    requires upTo <= |whole|
    ensures at == -1 || (0 <= at < upTo && OccursAt(part, whole, at))
    ensures forall i :: at < i < upTo ==> !OccursAt(part, whole, i)
  {
    if upTo == 0 then -1
    else if upTo - 1 + |part| <= |whole| && whole[upTo - 1..upTo - 1 + |part|] == part then upTo - 1
    else LastPosition(whole, part, upTo - 1)
  }

  const MARKERS := ["\nTool: Tool result", "\nTool: Tool error", "\nTool result"]

  ghost predicate MarkerAt(markers: seq<string>, text: string, at: int) {
    exists marker :: marker in markers && OccursAt(marker, text, at)
  }

  lemma MarkerSplit(markers: seq<string>, text: string)
    requires markers != []
    ensures forall at :: MarkerAt(markers, text, at) <==> OccursAt(markers[0], text, at) || MarkerAt(markers[1..], text, at)
  {
    assert markers == [markers[0]] + markers[1..];
    forall at | OccursAt(markers[0], text, at) ensures MarkerAt(markers, text, at) {
      assert markers[0] in markers;
    }
  }

  // The last position of any marker, or -1.
  function LastMarker(markers: seq<string>, text: string): (at: int)
    ensures at == -1 || (0 <= at < |text| && MarkerAt(markers, text, at))
    ensures forall i :: at < i < |text| ==> !MarkerAt(markers, text, i)
  {
    if markers == [] then -1
    else
      var first, later := LastPosition(text, markers[0], |text|), LastMarker(markers[1..], text);
      MarkerSplit(markers, text);
      if first < later then later else first
  }

  function SuffixAfter(markers: seq<string>, text: string): string {
    var position := LastMarker(markers, text);
    if position >= 0 then text[position + 1..] else ""
  }

  function LatestToolResult(transcript: string): string {
    SuffixAfter(MARKERS, transcript)
  }

  lemma MarkerInside(markers: seq<string>, text: string, at: int)
    requires (forall marker :: marker in markers ==> |marker| > 1) && MarkerAt(markers, text, at)
    ensures 0 <= at < |text| - 1
  {
    var marker :| marker in markers && OccursAt(marker, text, at);
  }

  lemma SuffixMeaning(markers: seq<string>, text: string)
    requires forall marker :: marker in markers ==> |marker| > 1
    ensures var r := SuffixAfter(markers, text);
      var start := |text| - |r| - 1;
      && IsSuffix(r, text)
      && (forall at :: MarkerAt(markers, text, at) ==> r != "" && at <= start && MarkerAt(markers, text, start))
      && (r != "" ==> MarkerAt(markers, text, start))
  {
    var r, position := SuffixAfter(markers, text), LastMarker(markers, text);
    if position >= 0 {
      MarkerInside(markers, text, position);
      assert |text| - |r| - 1 == position;
    }
    forall at | MarkerAt(markers, text, at) ensures position >= 0 && at <= position {
      MarkerInside(markers, text, at);
    }
  }

  // The latest tool result starts after the line break of the last marker, and
  // is missing exactly when there is no marker.
  lemma LatestToolResultMeaning(transcript: string)
    ensures var r := LatestToolResult(transcript);
      var start := |transcript| - |r| - 1;
      && IsSuffix(r, transcript)
      && (forall at :: MarkerAt(MARKERS, transcript, at) ==> r != "" && at <= start && MarkerAt(MARKERS, transcript, start))
      && (r != "" ==> MarkerAt(MARKERS, transcript, start))
  {
    LongMarkers();
    SuffixMeaning(MARKERS, transcript);
  }

  lemma LongMarkers()
    ensures forall marker :: marker in MARKERS ==> |marker| > 1
  {
  }

  function JoinContext(context: seq<string>, prompt: string): string {
    if context == [] then prompt else Join(PARAGRAPH, context) + SEPARATOR + prompt
  }

  function StartsWith(text: string, prefix: string): bool {
    |prefix| <= |text| && text[..|prefix|] == prefix
  }

  function Starting(context: seq<string>, prefix: string): seq<string> {
    if context == [] then []
    else (if StartsWith(context[0], prefix) then [context[0]] else []) + Starting(context[1..], prefix)
  }

  // The parts of no known kind.
  function Others(context: seq<string>): seq<string> {
    if context == [] then []
    else
      var part := context[0];
      (if StartsWith(part, CONTRACT_PREFIX) || StartsWith(part, TRANSCRIPT_PREFIX) || StartsWith(part, SYSTEM_PREFIX)
       then [] else [part]) + Others(context[1..])
  }

  // ------------------------------------------------------------ compaction

  function Validated(prompt: string, contract: string, max: int): bool {
    var required := |JoinContext([contract], prompt)|;
    var overhead := |JoinContext([contract], "")|;
    !(overhead >= max || (|prompt| <= max && required > max))
  }

  // Room for one more part.
  function Capacity(selected: seq<string>, prompt: string, max: int): int {
    max - |JoinContext(selected, prompt)| - (if selected != [] then 2 else |SEPARATOR|)
  }

  function Contract(context: seq<string>): string {
    Join(PARAGRAPH, Starting(context, CONTRACT_PREFIX))
  }

  function Mandatory(context: seq<string>): seq<string> {
    if Contract(context) != "" then [Contract(context)] else []
  }

  function PromptLimit(context: seq<string>, max: int): int {
    max - if Mandatory(context) != [] then |JoinContext(Mandatory(context), "")| else 0
  }

  function Transcript(context: seq<string>): string {
    Join("\n", Starting(context, TRANSCRIPT_PREFIX))
  }

  function Background(context: seq<string>): string {
    Join(PARAGRAPH, Starting(context, SYSTEM_PREFIX) + Others(context))
  }

  // The transcript before its latest tool result.
  function Earlier(transcript: string): string {
    transcript[..|transcript| - |LatestToolResult(transcript)|]
  }

  function WithTool(selected: seq<string>, prompt: string, tool: string, max: int): seq<string> {
    var room := Capacity(selected, prompt, max);
    if tool != "" && room > 0 then selected + [HeadTail(tool, room)] else selected
  }

  function Inserted(selected: seq<string>, at: nat, part: string): seq<string>
    requires at <= |selected|
  {
    selected[..at] + [part] + selected[at..]
  }

  function WithRecent(selected: seq<string>, at: nat, prompt: string, source: string, max: int): seq<string>
    requires at <= |selected|
  {
    var room := Capacity(selected, prompt, max);
    if source != "" && room > 0 && Last(source, room) !in selected
    then Inserted(selected, at, Last(source, room)) else selected
  }

  function WithBackground(selected: seq<string>, at: nat, prompt: string, low: string, max: int): seq<string>
    requires at <= |selected|
  {
    var room := Capacity(selected, prompt, max);
    if low != "" && room > 0 then Inserted(selected, at, HeadTail(low, room)) else selected
  }

  // Whatever room the mandatory parts and the prompt leave goes first to the
  // latest tool result, then to the earlier transcript, then to the background.
  function Filled(mandatory: seq<string>, compact: string, tool: string, earlier: string, low: string, max: int): seq<string> {
    var withTool := WithTool(mandatory, compact, tool, max);
    var withRecent := WithRecent(withTool, |mandatory|, compact, earlier, max);
    WithBackground(withRecent, |mandatory|, compact, low, max)
  }

  // The parts kept beside the compacted prompt.
  function Selected(prompt: string, context: seq<string>, max: int): seq<string> {
    var transcript := Transcript(context);
    Filled(Mandatory(context), HeadTail(prompt, PromptLimit(context, max)),
           LatestToolResult(transcript), Earlier(transcript), Background(context), max)
  }

  function Compacted(prompt: string, context: seq<string>, max: int): Result {
    if max <= 0 then ValueError
    else if |JoinContext(context, prompt)| <= max then Ok(JoinContext(context, prompt))
    else if Contract(context) != "" && !Validated(prompt, Contract(context), max) then ValueError
    else if PromptLimit(context, max) < 0 then ValueError
    else
      var result := JoinContext(Selected(prompt, context, max), HeadTail(prompt, PromptLimit(context, max)));
      if |result| > max then AssertionError else Ok(result)
  }

  method AddRecent(parts: seq<string>, at: nat, compact: string, source: string, max: int) returns (selected: seq<string>)
    requires at <= |parts|
    ensures selected == WithRecent(parts, at, compact, source, max)
  {
    selected := parts;
    var room := Capacity(selected, compact, max);
    if source != "" && room > 0 {
      var recent := Last(source, room);
      if recent != "" && recent !in selected {
        selected := Inserted(selected, at, recent);
      }
    }
  }

  method Fill(mandatory: seq<string>, compact: string, tool: string, earlier: string, low: string, max: int)
    returns (selected: seq<string>)
    ensures selected == Filled(mandatory, compact, tool, earlier, low, max)
  {
    selected := mandatory;
    var room := Capacity(selected, compact, max);
    if tool != "" && room > 0 {
      selected := selected + [HeadTail(tool, room)];
    }
    selected := AddRecent(selected, |mandatory|, compact, earlier, max);
    room := Capacity(selected, compact, max);
    if low != "" && room > 0 {
      selected := Inserted(selected, |mandatory|, HeadTail(low, room));
    }
  }

  method Shorten(mandatory: seq<string>, prompt: string, promptLimit: int, transcript: string, low: string, max: int)
    returns (text: string)
    ensures var compact := HeadTail(prompt, promptLimit);
      text == JoinContext(Filled(mandatory, compact, LatestToolResult(transcript), Earlier(transcript), low, max), compact)
  {
    var compact := HeadTail(prompt, promptLimit);
    var tool := LatestToolResult(transcript);
    var earlier := if tool != "" then transcript[..|transcript| - |tool|] else transcript;
    assert earlier == Earlier(transcript);
    var selected := Fill(mandatory, compact, tool, earlier, low, max);
    text := JoinContext(selected, compact);
  }

  // What the contracts leave of the budget.
  method Budget(contract: string, max: int) returns (mandatory: seq<string>, promptLimit: int)
    ensures mandatory == if contract != "" then [contract] else []
    ensures promptLimit == max - if contract != "" then |JoinContext([contract], "")| else 0
  {
    mandatory := if contract != "" then [contract] else [];
    var overhead := if mandatory != [] then |JoinContext(mandatory, "")| else 0;
    promptLimit := max - overhead;
  }

  method CompactConsumerPrompt(prompt: string, context: seq<string>, max: int) returns (result: Result)
    ensures result == Compacted(prompt, context, max)
  {
    if max <= 0 { return ValueError; }
    var original := JoinContext(context, prompt);
    if |original| <= max { return Ok(original); }
    var contract := Contract(context);
    if contract != "" && !Validated(prompt, contract, max) { return ValueError; }
    var mandatory, promptLimit := Budget(contract, max);
    assert mandatory == Mandatory(context) && promptLimit == PromptLimit(context, max);
    if promptLimit < 0 { return ValueError; }
    var text := Shorten(mandatory, prompt, promptLimit, Transcript(context), Background(context), max);
    assert text == JoinContext(Selected(prompt, context, max), HeadTail(prompt, promptLimit));
    if |text| > max { return AssertionError; }
    return Ok(text);
  }

  // ------------------------------------------------------------ joins

  lemma {:induction false} JoinContains(separator: string, parts: seq<string>, part: string)
    requires part in parts
    ensures Contains(Join(separator, parts), part)
  {
    if |parts| == 1 {
      assert OccursAt(part, Join(separator, parts), 0);
    } else if part == parts[0] {
      assert OccursAt(part, Join(separator, parts), 0);
    } else {
      JoinContains(separator, parts[1..], part);
      Later(parts[0] + separator, Join(separator, parts[1..]), part);
    }
  }

  lemma Later(before: string, whole: string, part: string)
    requires Contains(whole, part)
    ensures Contains(before + whole, part)
  {
    var at :| OccursAt(part, whole, at);
    assert (before + whole)[|before| + at..|before| + at + |part|] == part;
    assert OccursAt(part, before + whole, |before| + at);
  }

  lemma Sooner(whole: string, after: string, part: string)
    requires Contains(whole, part)
    ensures Contains(whole + after, part)
  {
    var at :| OccursAt(part, whole, at);
    assert (whole + after)[at..at + |part|] == part;
    assert OccursAt(part, whole + after, at);
  }

  lemma SliceOfSlice<T>(s: seq<T>, a: nat, b: nat, c: nat, d: nat)
    requires a <= b <= |s| && c <= d <= b - a
    ensures s[a..b][c..d] == s[a + c..a + d]
  {
    var t := s[a..b];
    assert |t[c..d]| == |s[a + c..a + d]|;
    forall k | 0 <= k < d - c ensures t[c..d][k] == s[a + c..a + d][k] {
      assert t[c..d][k] == t[c + k] == s[a + c + k];
    }
  }

  lemma ContainsTrans(whole: string, part: string, inner: string)
    requires Contains(whole, part) && Contains(part, inner)
    ensures Contains(whole, inner)
  {
    var at :| OccursAt(part, whole, at);
    var k :| OccursAt(inner, part, k);
    SliceOfSlice(whole, at, at + |part|, k, k + |inner|);
    assert OccursAt(inner, whole, at + k);
  }

  lemma ContextContains(context: seq<string>, prompt: string, part: string)
    requires part in context
    ensures Contains(JoinContext(context, prompt), part)
  {
    var joined := Join(PARAGRAPH, context);
    assert Contains(joined, part) by { JoinContains(PARAGRAPH, context, part); }
    Sooner(joined, SEPARATOR + prompt, part);
    assert joined + (SEPARATOR + prompt) == joined + SEPARATOR + prompt;
  }

  // A part takes its own length and one separator, wherever it goes.
  lemma InsertedLength(selected: seq<string>, at: nat, part: string, prompt: string, max: int)
    requires at <= |selected|
    ensures |JoinContext(Inserted(selected, at, part), prompt)| == max - Capacity(selected, prompt, max) + |part|
  {
    var all := Inserted(selected, at, part);
    TotalAppend(selected[..at] + [part], selected[at..]);
    TotalAppend(selected[..at], [part]);
    TotalAppend(selected[..at], selected[at..]);
    assert selected[..at] + selected[at..] == selected;
    assert Total([part]) == |part| + Total([part][1..]);
    JoinLength(PARAGRAPH, all);
    if selected != [] {
      JoinLength(PARAGRAPH, selected);
    }
  }

  // ------------------------------------------------------------ what holds

  // The cases in which a request is refused.
  ghost predicate Refused(prompt: string, context: seq<string>, max: int) {
    || max <= 0
    || (&& |JoinContext(context, prompt)| > max
        && Starting(context, CONTRACT_PREFIX) != []
        && (|| |Contract(context)| + |SEPARATOR| >= max
            || (|prompt| <= max && |Contract(context)| + |SEPARATOR| + |prompt| > max)))
  }

  lemma {:induction false} StartingMeaning(context: seq<string>, prefix: string)
    ensures forall part :: part in Starting(context, prefix) <==> part in context && StartsWith(part, prefix)
  {
    if context != [] {
      StartingMeaning(context[1..], prefix);
      assert context == [context[0]] + context[1..];
    }
  }

  lemma ContractPresent(context: seq<string>)
    ensures Contract(context) != "" <==> Starting(context, CONTRACT_PREFIX) != []
  {
    var contracts := Starting(context, CONTRACT_PREFIX);
    if contracts != [] {
      StartingMeaning(context, CONTRACT_PREFIX);
      assert contracts[0] in contracts;
      JoinLength(PARAGRAPH, contracts);
    }
  }

  lemma PromptFits(prompt: string, context: seq<string>, max: int)
    requires max > 0 && (Contract(context) != "" ==> Validated(prompt, Contract(context), max))
    ensures PromptLimit(context, max) > 0
    ensures |JoinContext(Mandatory(context), HeadTail(prompt, PromptLimit(context, max)))| <= max
    ensures |prompt| <= max ==> HeadTail(prompt, PromptLimit(context, max)) == prompt
  {
  }

  lemma ToolFits(selected: seq<string>, prompt: string, tool: string, max: int)
    requires |JoinContext(selected, prompt)| <= max
    ensures var kept := WithTool(selected, prompt, tool, max);
      |JoinContext(kept, prompt)| <= max && |kept| >= |selected| && kept[..|selected|] == selected
    ensures tool != "" && |tool| <= Capacity(selected, prompt, max) ==> tool in WithTool(selected, prompt, tool, max)
  {
    var room := Capacity(selected, prompt, max);
    if tool != "" && room > 0 {
      var piece := HeadTail(tool, room);
      assert Inserted(selected, |selected|, piece) == selected + [piece];
      InsertedLength(selected, |selected|, piece, prompt, max);
    }
  }

  lemma RecentFits(selected: seq<string>, at: nat, prompt: string, source: string, max: int)
    requires at <= |selected| && |JoinContext(selected, prompt)| <= max
    ensures var kept := WithRecent(selected, at, prompt, source, max);
      |JoinContext(kept, prompt)| <= max && |kept| >= |selected| && kept[..at] == selected[..at]
      && forall part :: part in selected ==> part in kept
  {
    var room := Capacity(selected, prompt, max);
    InsertedKeeps(selected, at, Last(source, if room > 0 then room else 0));
    if room > 0 {
      InsertedLength(selected, at, Last(source, room), prompt, max);
    }
  }

  lemma BackgroundFits(selected: seq<string>, at: nat, prompt: string, low: string, max: int)
    requires at <= |selected| && |JoinContext(selected, prompt)| <= max
    ensures var kept := WithBackground(selected, at, prompt, low, max);
      |JoinContext(kept, prompt)| <= max && kept[..at] == selected[..at]
      && |kept| >= |selected| && forall part :: part in selected ==> part in kept
  {
    var room := Capacity(selected, prompt, max);
    var piece := HeadTail(low, room);
    InsertedKeeps(selected, at, piece);
    InsertedLength(selected, at, piece, prompt, max);
  }

  lemma InsertedKeeps(selected: seq<string>, at: nat, part: string)
    requires at <= |selected|
    ensures var all := Inserted(selected, at, part);
      |all| == |selected| + 1 && all[..at] == selected[..at] && part in all && forall p :: p in selected ==> p in all
  {
    var all := Inserted(selected, at, part);
    assert all[at] == part;
    forall p | p in selected ensures p in all {
      var i :| 0 <= i < |selected| && selected[i] == p;
      assert p == all[if i < at then i else i + 1];
    }
  }

  // What every successful compaction below the plain join's size keeps.
  lemma SelectedMeaning(prompt: string, context: seq<string>, max: int)
    requires max > 0 && (Contract(context) != "" ==> Validated(prompt, Contract(context), max))
    ensures var compact := HeadTail(prompt, PromptLimit(context, max));
      var selected := Selected(prompt, context, max);
      var tool := LatestToolResult(Transcript(context));
      && |JoinContext(selected, compact)| <= max
      && |Mandatory(context)| <= |selected| && selected[..|Mandatory(context)|] == Mandatory(context)
      && (tool != "" && |tool| <= Capacity(Mandatory(context), compact, max) ==> tool in selected)
  {
    PromptFits(prompt, context, max);
    var compact := HeadTail(prompt, PromptLimit(context, max));
    var mandatory := Mandatory(context);
    var tool := LatestToolResult(Transcript(context));
    ToolFits(mandatory, compact, tool, max);
    var withTool := WithTool(mandatory, compact, tool, max);
    RecentFits(withTool, |mandatory|, compact, Earlier(Transcript(context)), max);
    var withRecent := WithRecent(withTool, |mandatory|, compact, Earlier(Transcript(context)), max);
    BackgroundFits(withRecent, |mandatory|, compact, Background(context), max);
  }

  // The call is refused exactly in those cases, and otherwise returns a text
  // within the budget: the internal assertion cannot fail.
  lemma RefusedOrWithinBudget(prompt: string, context: seq<string>, max: int)
    ensures Compacted(prompt, context, max) == ValueError <==> Refused(prompt, context, max)
    ensures !Refused(prompt, context, max) ==>
              Compacted(prompt, context, max).Ok? && |Compacted(prompt, context, max).text| <= max
  {
    ContractPresent(context);
    if max > 0 && |JoinContext(context, prompt)| > max && (Contract(context) != "" ==> Validated(prompt, Contract(context), max)) {
      PromptFits(prompt, context, max);
      SelectedMeaning(prompt, context, max);
    }
  }

  lemma UnchangedWhenItFits(prompt: string, context: seq<string>, max: int)
    requires max > 0 && |JoinContext(context, prompt)| <= max
    ensures Compacted(prompt, context, max) == Ok(JoinContext(context, prompt))
  {
  }

  // No tool contract is ever lost or cut.
  lemma ContractsSurvive(prompt: string, context: seq<string>, max: int, part: string)
    requires Compacted(prompt, context, max).Ok? && part in context && StartsWith(part, CONTRACT_PREFIX)
    ensures Contains(Compacted(prompt, context, max).text, part)
  {
    if |JoinContext(context, prompt)| <= max {
      ContextContains(context, prompt, part);
    } else {
      StartingMeaning(context, CONTRACT_PREFIX);
      ContractPresent(context);
      SelectedMeaning(prompt, context, max);
      var selected := Selected(prompt, context, max);
      assert selected[0] == Contract(context);
      JoinContains(PARAGRAPH, Starting(context, CONTRACT_PREFIX), part);
      ContextContains(selected, HeadTail(prompt, PromptLimit(context, max)), selected[0]);
      ContainsTrans(Compacted(prompt, context, max).text, Contract(context), part);
    }
  }

  // A prompt that fits by itself is sent whole, at the end.
  lemma PromptSurvives(prompt: string, context: seq<string>, max: int)
    requires Compacted(prompt, context, max).Ok? && |prompt| <= max
    ensures IsSuffix(prompt, Compacted(prompt, context, max).text)
  {
    if |JoinContext(context, prompt)| > max {
      PromptFits(prompt, context, max);
    }
  }

  // A longer one ends the text too, cut to what the contracts leave of the budget.
  lemma CutPromptSurvives(prompt: string, context: seq<string>, max: int)
    requires Compacted(prompt, context, max).Ok? && |JoinContext(context, prompt)| > max
    ensures var limit := max - if Contract(context) != "" then |Contract(context)| + |SEPARATOR| else 0;
      limit >= 0 && IsSuffix(HeadTail(prompt, limit), Compacted(prompt, context, max).text)
  {
  }

  // The latest tool result is kept whole when there is room for it beside the
  // contracts and the prompt.
  lemma LatestToolResultSurvives(prompt: string, context: seq<string>, max: int)
    requires Compacted(prompt, context, max).Ok? && |JoinContext(context, prompt)| > max
    requires |LatestToolResult(Transcript(context))|
             <= Capacity(Mandatory(context), HeadTail(prompt, PromptLimit(context, max)), max)
    ensures Contains(Compacted(prompt, context, max).text, LatestToolResult(Transcript(context)))
  {
    var tool := LatestToolResult(Transcript(context));
    var text := Compacted(prompt, context, max).text;
    if tool == "" {
      assert OccursAt(tool, text, 0);
    } else {
      SelectedMeaning(prompt, context, max);
      ContextContains(Selected(prompt, context, max), HeadTail(prompt, PromptLimit(context, max)), tool);
    }
  }

  // ------------------------------------------------------------ priorities

  lemma ToolCutLeavesNoRoom(selected: seq<string>, prompt: string, tool: string, max: int)
    requires tool != "" && tool !in WithTool(selected, prompt, tool, max)
    ensures Capacity(WithTool(selected, prompt, tool, max), prompt, max) <= 0
  {
    var room := Capacity(selected, prompt, max);
    if room > 0 {
      var piece := HeadTail(tool, room);
      assert Inserted(selected, |selected|, piece) == selected + [piece];
      InsertedLength(selected, |selected|, piece, prompt, max);
      assert (selected + [piece])[|selected|] == piece;
    }
  }

  lemma RecentCutLeavesNoRoom(selected: seq<string>, at: nat, prompt: string, source: string, max: int)
    requires at <= |selected| && source != "" && source !in WithRecent(selected, at, prompt, source, max)
    ensures var kept := WithRecent(selected, at, prompt, source, max);
      Capacity(kept, prompt, max) <= 0 || (kept == selected && Last(source, Capacity(selected, prompt, max)) in selected)
  {
    var room := Capacity(selected, prompt, max);
    if room > 0 && Last(source, room) !in selected {
      var recent := Last(source, room);
      InsertedLength(selected, at, recent, prompt, max);
      InsertedKeeps(selected, at, recent);
    }
  }

  // System instructions and other background are sent only after the latest
  // tool result went in whole, and the earlier transcript did too or its newest
  // part is already there.
  lemma BackgroundComesLast(mandatory: seq<string>, compact: string, tool: string, earlier: string, low: string, max: int)
    requires |JoinContext(mandatory, compact)| <= max
    requires Filled(mandatory, compact, tool, earlier, low, max) != Filled(mandatory, compact, tool, earlier, "", max)
    ensures var selected := Filled(mandatory, compact, tool, earlier, low, max);
      && (tool != "" ==> tool in selected)
      && (earlier != "" ==> exists part :: part in selected && part != "" && IsSuffix(part, earlier) &&
                                           (part == earlier || part in WithTool(mandatory, compact, tool, max)))
  {
    var withTool := WithTool(mandatory, compact, tool, max);
    var withRecent := WithRecent(withTool, |mandatory|, compact, earlier, max);
    assert Capacity(withRecent, compact, max) > 0;
    ToolFits(mandatory, compact, tool, max);
    RecentFits(withTool, |mandatory|, compact, earlier, max);
    BackgroundFits(withRecent, |mandatory|, compact, low, max);
    if tool != "" && tool !in withTool {
      ToolCutLeavesNoRoom(mandatory, compact, tool, max);
      assert false;
    }
    if earlier != "" && earlier !in withRecent {
      RecentCutLeavesNoRoom(withTool, |mandatory|, compact, earlier, max);
      var part := Last(earlier, Capacity(withTool, compact, max));
      assert part in withTool && part in withRecent;
      assert IsSuffix(part, earlier);
    }
  }

  // ------------------------------------------------------------ the other parts

  lemma RecentHolds(selected: seq<string>, at: nat, prompt: string, source: string, max: int)
    requires at <= |selected| && source != "" && Capacity(selected, prompt, max) > 0
    ensures Last(source, Capacity(selected, prompt, max)) in WithRecent(selected, at, prompt, source, max)
  {
    InsertedKeeps(selected, at, Last(source, Capacity(selected, prompt, max)));
  }

  lemma BackgroundHolds(selected: seq<string>, at: nat, prompt: string, low: string, max: int)
    requires at <= |selected| && low != "" && Capacity(selected, prompt, max) > 0
    ensures HeadTail(low, Capacity(selected, prompt, max)) in WithBackground(selected, at, prompt, low, max)
  {
    InsertedKeeps(selected, at, HeadTail(low, Capacity(selected, prompt, max)));
  }

  // As much of the end of the earlier transcript as there is room for, beside the
  // contracts, the prompt and the tool result, is in the text: all of it if it
  // fits.
  lemma EarlierTranscriptSurvives(mandatory: seq<string>, compact: string, tool: string, earlier: string, low: string, max: int)
    requires |JoinContext(mandatory, compact)| <= max && earlier != ""
    requires Capacity(WithTool(mandatory, compact, tool, max), compact, max) > 0
    ensures var room := Capacity(WithTool(mandatory, compact, tool, max), compact, max);
      Contains(JoinContext(Filled(mandatory, compact, tool, earlier, low, max), compact), Last(earlier, room))
  {
    var withTool := WithTool(mandatory, compact, tool, max);
    var part := Last(earlier, Capacity(withTool, compact, max));
    ToolFits(mandatory, compact, tool, max);
    RecentFits(withTool, |mandatory|, compact, earlier, max);
    RecentHolds(withTool, |mandatory|, compact, earlier, max);
    var withRecent := WithRecent(withTool, |mandatory|, compact, earlier, max);
    BackgroundFits(withRecent, |mandatory|, compact, low, max);
    ContextContains(Filled(mandatory, compact, tool, earlier, low, max), compact, part);
  }

  // And so is the background, cut to what room is left then.
  lemma BackgroundSurvives(mandatory: seq<string>, compact: string, tool: string, earlier: string, low: string, max: int)
    requires |JoinContext(mandatory, compact)| <= max && low != ""
    requires Capacity(Filled(mandatory, compact, tool, earlier, "", max), compact, max) > 0
    ensures var room := Capacity(Filled(mandatory, compact, tool, earlier, "", max), compact, max);
      Contains(JoinContext(Filled(mandatory, compact, tool, earlier, low, max), compact), HeadTail(low, room))
  {
    var withTool := WithTool(mandatory, compact, tool, max);
    ToolFits(mandatory, compact, tool, max);
    RecentFits(withTool, |mandatory|, compact, earlier, max);
    var withRecent := WithRecent(withTool, |mandatory|, compact, earlier, max);
    BackgroundHolds(withRecent, |mandatory|, compact, low, max);
    ContextContains(Filled(mandatory, compact, tool, earlier, low, max), compact, HeadTail(low, Capacity(withRecent, compact, max)));
  }

  ghost predicate AtMost(parts: seq<string>, part: string) {
    parts == [] || parts == [part]
  }

  lemma ToolLast(mandatory: seq<string>, compact: string, tool: string, max: int) returns (c: seq<string>)
    ensures WithTool(mandatory, compact, tool, max) == mandatory + c
    ensures AtMost(c, HeadTail(tool, Capacity(mandatory, compact, max)))
  {
    var room := Capacity(mandatory, compact, max);
    c := if tool != "" && room > 0 then [HeadTail(tool, room)] else [];
  }

  lemma RecentNext(mandatory: seq<string>, c: seq<string>, compact: string, earlier: string, max: int)
    returns (b: seq<string>, size: nat)
    ensures WithRecent(mandatory + c, |mandatory|, compact, earlier, max) == mandatory + b + c
    ensures AtMost(b, Last(earlier, size))
  {
    var room := Capacity(mandatory + c, compact, max);
    size := if room > 0 then room else 0;
    b := if earlier != "" && room > 0 && Last(earlier, room) !in mandatory + c then [Last(earlier, room)] else [];
    assert (mandatory + c)[..|mandatory|] == mandatory && (mandatory + c)[|mandatory|..] == c;
  }

  lemma BackgroundFirst(mandatory: seq<string>, rest: seq<string>, compact: string, low: string, max: int)
    returns (a: seq<string>)
    ensures WithBackground(mandatory + rest, |mandatory|, compact, low, max) == mandatory + a + rest
    ensures AtMost(a, HeadTail(low, Capacity(mandatory + rest, compact, max)))
  {
    var room := Capacity(mandatory + rest, compact, max);
    a := if low != "" && room > 0 then [HeadTail(low, room)] else [];
    assert (mandatory + rest)[..|mandatory|] == mandatory && (mandatory + rest)[|mandatory|..] == rest;
  }

  // The parts stand in this order: contracts, background, earlier transcript,
  // latest tool result.
  lemma PartsInOrder(mandatory: seq<string>, compact: string, tool: string, earlier: string, low: string, max: int)
    returns (a: seq<string>, b: seq<string>, c: seq<string>, background: int, recent: nat)
    ensures Filled(mandatory, compact, tool, earlier, low, max) == mandatory + a + b + c
    ensures AtMost(a, HeadTail(low, background)) && AtMost(b, Last(earlier, recent))
    ensures AtMost(c, HeadTail(tool, Capacity(mandatory, compact, max)))
  {
    c := ToolLast(mandatory, compact, tool, max);
    b, recent := RecentNext(mandatory, c, compact, earlier, max);
    assert mandatory + b + c == mandatory + (b + c);
    a := BackgroundFirst(mandatory, b + c, compact, low, max);
    background := Capacity(mandatory + (b + c), compact, max);
    assert mandatory + a + (b + c) == mandatory + a + b + c;
  }

  // ------------------------------------------------------------ where the parts come from

  lemma {:induction false} OthersMeaning(context: seq<string>)
    ensures forall part :: part in Others(context) <==>
              && part in context && !StartsWith(part, CONTRACT_PREFIX) && !StartsWith(part, TRANSCRIPT_PREFIX)
              && !StartsWith(part, SYSTEM_PREFIX)
  {
    if context != [] {
      OthersMeaning(context[1..]);
      assert context == [context[0]] + context[1..];
    }
  }

  // Each transcript is in the transcript, and whatever is neither contract nor
  // transcript is in the background.
  lemma NothingIsForgotten(context: seq<string>, part: string)
    requires part in context
    ensures StartsWith(part, TRANSCRIPT_PREFIX) ==> Contains(Transcript(context), part)
    ensures !StartsWith(part, CONTRACT_PREFIX) && !StartsWith(part, TRANSCRIPT_PREFIX) ==> Contains(Background(context), part)
  {
    if StartsWith(part, TRANSCRIPT_PREFIX) {
      StartingMeaning(context, TRANSCRIPT_PREFIX);
      JoinContains("\n", Starting(context, TRANSCRIPT_PREFIX), part);
    } else if !StartsWith(part, CONTRACT_PREFIX) {
      StartingMeaning(context, SYSTEM_PREFIX);
      OthersMeaning(context);
      JoinContains(PARAGRAPH, Starting(context, SYSTEM_PREFIX) + Others(context), part);
    }
  }
}
