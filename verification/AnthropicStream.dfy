// The block lifecycle of an Anthropic reply (reasoning_stream.py): one open
// block at a time, checked against an automaton that only sees the events.
module AnthropicStream {
  import opened Prelude
  import opened Reasoning

  datatype Kind = Thinking | Text | ToolUse(id: string, name: string)

  datatype Event =
    | Start(index: nat, kind: Kind)
    | ThinkingDelta(index: nat, thinking: string)
    | SignatureDelta(index: nat)
    | TextDelta(index: nat, text: string)
    | InputDelta(index: nat, json: string)
    | Stop(index: nat)

  // ------------------------------------------------------------ the protocol

  // What a client knows: the next index, the open block, and how many signature
  // or input deltas it has had.
  datatype Client = Client(next: nat, open: Option<(nat, Kind)>, seals: nat)

  function Received(c: Client, e: Event): Option<Client> {
    match e
    case Start(i, kind) =>
      if c.open.None? && i == c.next then Some(Client(c.next + 1, Some((i, kind)), 0)) else None
    case ThinkingDelta(i, _) =>
      if c.open == Some((i, Thinking)) && c.seals == 0 then Some(c) else None
    case SignatureDelta(i) =>
      if c.open == Some((i, Thinking)) then Some(c.(seals := c.seals + 1)) else None
    case TextDelta(i, _) =>
      if c.open == Some((i, Text)) then Some(c) else None
    case InputDelta(i, _) =>
      if c.open.Some? && c.open.value.0 == i && c.open.value.1.ToolUse? then Some(c.(seals := c.seals + 1)) else None
    case Stop(i) =>
      if c.open.Some? && c.open.value.0 == i && c.seals == (if c.open.value.1 == Text then 0 else 1)
      then Some(c.(open := None)) else None
  }

  // Reads a whole stream; nothing if it breaks the protocol anywhere.
  function ReceivedAll(c: Client, events: seq<Event>): Option<Client>
    decreases |events|
  {
    if events == [] then Some(c)
    else match Received(c, events[0])
      case None => None
      case Some(n) => ReceivedAll(n, events[1..])
  }

  const NEW_CLIENT := Client(0, None, 0)

  lemma {:induction false} ReceivedAppend(c: Client, a: seq<Event>, b: seq<Event>)
    requires ReceivedAll(c, a).Some?
    ensures ReceivedAll(c, a + b) == ReceivedAll(ReceivedAll(c, a).value, b)
    decreases |a|
  {
    if a == [] {
      assert a + b == b;
    } else {
      assert (a + b)[1..] == a[1..] + b;
      ReceivedAppend(Received(c, a[0]).value, a[1..], b);
    }
  }

  // ------------------------------------------------------------ the stream

  datatype Tool = Tool(id: string, name: string, input: string)

  datatype Call = Reason(delta: Delta) | Say(text: string) | Use(tool: Tool) | Close

  datatype Stream = Stream(nextIndex: nat, index: nat, kind: Option<Kind>, collected: Collected)

  const NEW_STREAM := Stream(0, 0, None, NOTHING_COLLECTED)

  function Closed(s: Stream): (Stream, seq<Event>) {
    if s.kind.None? then (s, [])
    else (s.(kind := None), (if s.kind == Some(Thinking) then [SignatureDelta(s.index)] else []) + [Stop(s.index)])
  }

  function Started(s: Stream, kind: Kind): (Stream, seq<Event>) {
    if s.kind == Some(kind) then (s, [])
    else
      var (c, events) := Closed(s);
      (c.(kind := Some(kind), index := s.nextIndex, nextIndex := s.nextIndex + 1), events + [Start(s.nextIndex, kind)])
  }

  function Called(s: Stream, call: Call): (Stream, seq<Event>) {
    match call
    case Reason(d) =>
      var (n, events) := Started(s, Thinking);
      var (collected, thinking) := Added(s.collected, d);
      (n.(collected := collected), events + [ThinkingDelta(n.index, thinking)])
    case Say(text) =>
      var (n, events) := Started(s, Text);
      (n, events + if text != "" then [TextDelta(n.index, text)] else [])
    case Use(tool) =>
      var (c, events) := Closed(s);
      (c.(nextIndex := s.nextIndex + 1),
       events + [Start(s.nextIndex, ToolUse(tool.id, tool.name)), InputDelta(s.nextIndex, tool.input), Stop(s.nextIndex)])
    case Close => Closed(s)
  }

  function CalledAll(calls: seq<Call>): (Stream, seq<Event>) {
    if calls == [] then (NEW_STREAM, [])
    else
      var (s, events) := CalledAll(calls[..|calls| - 1]);
      var (n, more) := Called(s, calls[|calls| - 1]);
      (n, events + more)
  }

  class AnthropicContentStream {
    var nextIndex: nat
    var index: nat
    var kind: Option<Kind>
    var reasoning: ReasoningCollector
    var events: seq<Event>          // everything yielded

    ghost function View(): Stream
      reads this, reasoning
    {
      Stream(nextIndex, index, kind, reasoning.View())
    }

    constructor ()
      ensures View() == NEW_STREAM && events == [] && fresh(reasoning)
    {
      nextIndex, index, kind, events := 0, 0, None, [];
      reasoning := new ReasoningCollector();
    }

    method CloseBlock()
      modifies this`kind, this`events
      ensures View() == Closed(old(View())).0
      ensures events == old(events) + Closed(old(View())).1
    {
      if kind.None? { return; }
      if kind == Some(Thinking) {
        events := events + [SignatureDelta(index)];
      }
      events := events + [Stop(index)];
      kind := None;
    }

    method StartBlock(block: Kind)
      modifies this`kind, this`index, this`nextIndex, this`events
      ensures View() == Started(old(View()), block).0
      ensures events == old(events) + Started(old(View()), block).1
    {
      if kind == Some(block) { return; }
      CloseBlock();
      kind := Some(block);
      index := nextIndex;
      nextIndex := nextIndex + 1;
      events := events + [Start(index, block)];
    }

    method Reasoned(d: Delta)
      modifies this`kind, this`index, this`nextIndex, this`events, reasoning
      ensures reasoning == old(reasoning)
      ensures View() == Called(old(View()), Reason(d)).0
      ensures events == old(events) + Called(old(View()), Reason(d)).1
    {
      StartBlock(Thinking);
      var thinking := reasoning.Add(d);
      events := events + [ThinkingDelta(index, thinking)];
    }

    method Said(text: string)
      modifies this`kind, this`index, this`nextIndex, this`events
      ensures View() == Called(old(View()), Say(text)).0
      ensures events == old(events) + Called(old(View()), Say(text)).1
    {
      StartBlock(Text);
      if text != "" {
        events := events + [TextDelta(index, text)];
      }
    }

    method Used(tool: Tool)
      modifies this`kind, this`nextIndex, this`events
      ensures View() == Called(old(View()), Use(tool)).0
      ensures events == old(events) + Called(old(View()), Use(tool)).1
    {
      CloseBlock();
      var at := nextIndex;
      nextIndex := nextIndex + 1;
      events := events + [Start(at, ToolUse(tool.id, tool.name))];
      events := events + [InputDelta(at, tool.input)];
      events := events + [Stop(at)];
    }
  }

  // ------------------------------------------------------------ what holds

  // What the client knows when the stream is in this state.
  function Expected(s: Stream): Client {
    Client(s.nextIndex, if s.kind.Some? then Some((s.index, s.kind.value)) else None, 0)
  }

  predicate Sane(s: Stream) {
    s.kind.Some? ==> !s.kind.value.ToolUse?
  }

  ghost predicate Follows(c: Client, events: seq<Event>, s: Stream) {
    && ReceivedAll(c, events).Some?
    && ReceivedAll(c, events).value.next == s.nextIndex
    && ReceivedAll(c, events).value.open == Expected(s).open
    && (s.kind.Some? ==> ReceivedAll(c, events).value.seals == 0)
  }

  lemma OneEvent(c: Client, e: Event)
    ensures ReceivedAll(c, [e]) == Received(c, e)
  {
    assert [e][1..] == [];
    if Received(c, e).Some? {
      assert ReceivedAll(Received(c, e).value, [e][1..]) == Received(c, e);
    }
  }

  lemma ClosedFollows(c: Client, s: Stream)
    requires Sane(s) && Follows(c, [], s)
    ensures Follows(c, Closed(s).1, Closed(s).0)
  {
    if s.kind.Some? {
      var i := s.index;
      OneEvent(c, Stop(i));
      if s.kind == Some(Thinking) {
        OneEvent(c, SignatureDelta(i));
        OneEvent(c.(seals := c.seals + 1), Stop(i));
        ReceivedAppend(c, [SignatureDelta(i)], [Stop(i)]);
      } else {
        assert Closed(s).1 == [Stop(i)];
      }
    }
  }

  lemma ThenEvent(c: Client, events: seq<Event>, e: Event)
    requires ReceivedAll(c, events).Some?
    ensures ReceivedAll(c, events + [e]) == Received(ReceivedAll(c, events).value, e)
  {
    ReceivedAppend(c, events, [e]);
    OneEvent(ReceivedAll(c, events).value, e);
  }

  lemma StartedFollows(c: Client, s: Stream, kind: Kind)
    requires Sane(s) && Follows(c, [], s) && !kind.ToolUse?
    ensures Follows(c, Started(s, kind).1, Started(s, kind).0)
  {
    if s.kind != Some(kind) {
      ClosedFollows(c, s);
      ThenEvent(c, Closed(s).1, Start(s.nextIndex, kind));
    }
  }

  lemma CalledFollows(c: Client, s: Stream, call: Call)
    requires Sane(s) && Follows(c, [], s)
    ensures Sane(Called(s, call).0) && Follows(c, Called(s, call).1, Called(s, call).0)
  {
    match call {
      case Reason(d) =>
        StartedFollows(c, s, Thinking);
        var (n, events) := Started(s, Thinking);
        ThenEvent(c, events, ThinkingDelta(n.index, Added(s.collected, d).1));
      case Say(text) =>
        StartedFollows(c, s, Text);
        var (n, events) := Started(s, Text);
        if text != "" {
          ThenEvent(c, events, TextDelta(n.index, text));
        } else {
          assert events + [] == events;
        }
      case Use(tool) =>
        ClosedFollows(c, s);
        var events, i := Closed(s).1, s.nextIndex;
        ThenEvent(c, events, Start(i, ToolUse(tool.id, tool.name)));
        ThenEvent(c, events + [Start(i, ToolUse(tool.id, tool.name))], InputDelta(i, tool.input));
        ThenEvent(c, events + [Start(i, ToolUse(tool.id, tool.name))] + [InputDelta(i, tool.input)], Stop(i));
        assert Called(s, call).1 == events + [Start(i, ToolUse(tool.id, tool.name))] + [InputDelta(i, tool.input)] + [Stop(i)];
      case Close =>
        ClosedFollows(c, s);
    }
  }

  // Whatever the calls, a client can read the whole stream: blocks open and
  // close one at a time with indices 0, 1, 2, ..., every delta names the open
  // block and fits its kind, and each thinking block has one signature.
  lemma {:induction false} AlwaysReadable(calls: seq<Call>)
    ensures var (s, events) := CalledAll(calls); Sane(s) && Follows(NEW_CLIENT, events, s)
  {
    if calls != [] {
      var front, call := calls[..|calls| - 1], calls[|calls| - 1];
      AlwaysReadable(front);
      var (s, events) := CalledAll(front);
      var c := ReceivedAll(NEW_CLIENT, events).value;
      CalledFollows(c, s, call);
      ReceivedAppend(NEW_CLIENT, events, Called(s, call).1);
    }
  }

  // After a final close nothing stays open.
  lemma ClosedAtTheEnd(calls: seq<Call>)
    requires calls != [] && calls[|calls| - 1].Close?
    ensures ReceivedAll(NEW_CLIENT, CalledAll(calls).1).Some?
    ensures ReceivedAll(NEW_CLIENT, CalledAll(calls).1).value.open.None?
  {
    AlwaysReadable(calls);
  }

  // ------------------------------------------------------------ conservation

  function TextIn(events: seq<Event>): string {
    if events == [] then ""
    else
      var e := events[|events| - 1];
      TextIn(events[..|events| - 1]) + if e.TextDelta? then e.text else ""
  }

  function ThinkingIn(events: seq<Event>): string {
    if events == [] then ""
    else
      var e := events[|events| - 1];
      ThinkingIn(events[..|events| - 1]) + if e.ThinkingDelta? then e.thinking else ""
  }

  function ToolsIn(events: seq<Event>): seq<(string, string)> {
    if events == [] then []
    else
      var e := events[|events| - 1];
      ToolsIn(events[..|events| - 1]) + if e.Start? && e.kind.ToolUse? then [(e.kind.id, e.kind.name)] else []
  }

  function InputsIn(events: seq<Event>): seq<string> {
    if events == [] then []
    else
      var e := events[|events| - 1];
      InputsIn(events[..|events| - 1]) + if e.InputDelta? then [e.json] else []
  }

  lemma {:induction false} InAppend(a: seq<Event>, b: seq<Event>)
    ensures TextIn(a + b) == TextIn(a) + TextIn(b)
    ensures ThinkingIn(a + b) == ThinkingIn(a) + ThinkingIn(b)
    ensures ToolsIn(a + b) == ToolsIn(a) + ToolsIn(b)
    ensures InputsIn(a + b) == InputsIn(a) + InputsIn(b)
  {
    if b == [] {
      assert a + b == a;
    } else {
      var front, e, all := b[..|b| - 1], b[|b| - 1], a + b;
      assert all[..|all| - 1] == a + front && all[|all| - 1] == e;
      InAppend(a, front);
      assert TextIn(all) == TextIn(a) + (TextIn(front) + if e.TextDelta? then e.text else "");
      assert ThinkingIn(all) == ThinkingIn(a) + (ThinkingIn(front) + if e.ThinkingDelta? then e.thinking else "");
      assert ToolsIn(all) == ToolsIn(a) + (ToolsIn(front) + if e.Start? && e.kind.ToolUse? then [(e.kind.id, e.kind.name)] else []);
      assert InputsIn(all) == InputsIn(a) + (InputsIn(front) + if e.InputDelta? then [e.json] else []);
    }
  }

  // What the calls asked for.
  function TextGiven(calls: seq<Call>): string {
    if calls == [] then ""
    else
      var c := calls[|calls| - 1];
      TextGiven(calls[..|calls| - 1]) + if c.Say? then c.text else ""
  }

  function DeltasGiven(calls: seq<Call>): seq<Delta> {
    if calls == [] then []
    else
      var c := calls[|calls| - 1];
      DeltasGiven(calls[..|calls| - 1]) + if c.Reason? then [c.delta] else []
  }

  function ToolsGiven(calls: seq<Call>): seq<(string, string)> {
    if calls == [] then []
    else
      var c := calls[|calls| - 1];
      ToolsGiven(calls[..|calls| - 1]) + if c.Use? then [(c.tool.id, c.tool.name)] else []
  }

  function InputsGiven(calls: seq<Call>): seq<string> {
    if calls == [] then []
    else
      var c := calls[|calls| - 1];
      InputsGiven(calls[..|calls| - 1]) + if c.Use? then [c.tool.input] else []
  }

  lemma OneIn(e: Event)
    ensures InputsIn([e]) == if e.InputDelta? then [e.json] else []
    ensures TextIn([e]) == if e.TextDelta? then e.text else ""
    ensures ThinkingIn([e]) == if e.ThinkingDelta? then e.thinking else ""
    ensures ToolsIn([e]) == if e.Start? && e.kind.ToolUse? then [(e.kind.id, e.kind.name)] else []
  {
    assert [e][..0] == [];
  }

  lemma ClosedSaysNothing(s: Stream)
    ensures var events := Closed(s).1;
      TextIn(events) == "" && ThinkingIn(events) == "" && ToolsIn(events) == [] && InputsIn(events) == []
  {
    if s.kind.Some? {
      OneIn(Stop(s.index));
      if s.kind == Some(Thinking) {
        OneIn(SignatureDelta(s.index));
        InAppend([SignatureDelta(s.index)], [Stop(s.index)]);
      } else {
        assert Closed(s).1 == [Stop(s.index)];
      }
    }
  }

  lemma StartedSaysNothing(s: Stream, kind: Kind)
    requires !kind.ToolUse?
    ensures var events := Started(s, kind).1;
      TextIn(events) == "" && ThinkingIn(events) == "" && ToolsIn(events) == [] && InputsIn(events) == []
  {
    if s.kind != Some(kind) {
      ClosedSaysNothing(s);
      OneIn(Start(s.nextIndex, kind));
      InAppend(Closed(s).1, [Start(s.nextIndex, kind)]);
    }
  }

  lemma OneMoreIn(before: seq<Event>, e: Event)
    ensures TextIn(before + [e]) == TextIn(before) + if e.TextDelta? then e.text else ""
    ensures ThinkingIn(before + [e]) == ThinkingIn(before) + if e.ThinkingDelta? then e.thinking else ""
    ensures InputsIn(before + [e]) == InputsIn(before) + if e.InputDelta? then [e.json] else []
    ensures ToolsIn(before + [e]) == ToolsIn(before) + if e.Start? && e.kind.ToolUse? then [(e.kind.id, e.kind.name)] else []
  {
    assert (before + [e])[..|before|] == before;
  }

  lemma ToolBlockSays(before: seq<Event>, at: nat, tool: Tool)
    ensures var events := before + [Start(at, ToolUse(tool.id, tool.name)), InputDelta(at, tool.input), Stop(at)];
      && TextIn(events) == TextIn(before) && ThinkingIn(events) == ThinkingIn(before)
      && ToolsIn(events) == ToolsIn(before) + [(tool.id, tool.name)]
      && InputsIn(events) == InputsIn(before) + [tool.input]
  {
    var a, b, c := Start(at, ToolUse(tool.id, tool.name)), InputDelta(at, tool.input), Stop(at);
    var one := before + [a];
    OneMoreIn(before, a);
    var two := one + [b];
    OneMoreIn(one, b);
    OneMoreIn(two, c);
    assert before + [a, b, c] == two + [c];
  }

  lemma UsedSays(s: Stream, tool: Tool)
    ensures var events := Called(s, Use(tool)).1;
      TextIn(events) == "" && ThinkingIn(events) == "" && ToolsIn(events) == [(tool.id, tool.name)] && InputsIn(events) == [tool.input]
  {
    ClosedSaysNothing(s);
    ToolBlockSays(Closed(s).1, s.nextIndex, tool);
  }

  lemma ReasonedSays(s: Stream, d: Delta)
    ensures var (n, events) := Called(s, Reason(d));
      && TextIn(events) == "" && ToolsIn(events) == [] && InputsIn(events) == [] && ThinkingIn(events) == Added(s.collected, d).1
      && n.collected == Added(s.collected, d).0
  {
    StartedSaysNothing(s, Thinking);
    var (n, events) := Started(s, Thinking);
    var e := ThinkingDelta(n.index, Added(s.collected, d).1);
    OneIn(e);
    InAppend(events, [e]);
  }

  lemma SaidSays(s: Stream, text: string)
    ensures var events := Called(s, Say(text)).1;
      TextIn(events) == text && ThinkingIn(events) == "" && ToolsIn(events) == [] && InputsIn(events) == []
  {
    StartedSaysNothing(s, Text);
    var (n, events) := Started(s, Text);
    if text == "" {
      assert events + [] == events;
    } else {
      var e := TextDelta(n.index, text);
      OneIn(e);
      InAppend(events, [e]);
    }
  }

  lemma CalledSays(s: Stream, call: Call)
    ensures var (n, events) := Called(s, call);
      && TextIn(events) == (if call.Say? then call.text else "")
      && ToolsIn(events) == (if call.Use? then [(call.tool.id, call.tool.name)] else [])
      && InputsIn(events) == (if call.Use? then [call.tool.input] else [])
      && ThinkingIn(events) == (if call.Reason? then Added(s.collected, call.delta).1 else "")
      && n.collected == (if call.Reason? then Added(s.collected, call.delta).0 else s.collected)
  {
    match call {
      case Reason(d) => ReasonedSays(s, d);
      case Say(text) => SaidSays(s, text);
      case Use(tool) => UsedSays(s, tool);
      case Close => ClosedSaysNothing(s);
    }
  }

  // The text, the summaries and the tools given come out in order, and nothing
  // else does; the summaries exactly as the collector streams them.
  lemma {:induction false} NothingLostOrAdded(calls: seq<Call>)
    ensures var (s, events) := CalledAll(calls);
      && TextIn(events) == TextGiven(calls)
      && ToolsIn(events) == ToolsGiven(calls) && InputsIn(events) == InputsGiven(calls)
      && AddedAll(DeltasGiven(calls)).0 == s.collected
      && AddedAll(DeltasGiven(calls)).1 == ThinkingIn(events)
  {
    if calls != [] {
      var front, call := calls[..|calls| - 1], calls[|calls| - 1];
      NothingLostOrAdded(front);
      var (s, events) := CalledAll(front);
      var more := Called(s, call).1;
      CalledSays(s, call);
      InAppend(events, more);
      assert CalledAll(calls) == (Called(s, call).0, events + more);
      var given := DeltasGiven(calls);
      if call.Reason? {
        assert given[..|given| - 1] == DeltasGiven(front) && given[|given| - 1] == call.delta;
      } else {
        assert given == DeltasGiven(front);
        assert ThinkingIn(events + more) == ThinkingIn(events);
      }
    }
  }

  // So the streamed thinking is the field of the reply that is not streamed,
  // exactly when no item is resumed after another one.
  lemma ThinkingMatchesTheReply(calls: seq<Call>)
    ensures Indexed(AddedAll(DeltasGiven(calls)).0)
    ensures ThinkingIn(CalledAll(calls).1) == Joined(DeltasGiven(calls)) <==> Contiguous(DeltasGiven(calls))
  {
    NothingLostOrAdded(calls);
    StreamedIsJoinedExactly(DeltasGiven(calls));
  }

  // ------------------------------------------------------------ blocks

  datatype Block = Block(kind: Kind, content: string)

  function Extended(blocks: seq<Block>, i: int, more: string): seq<Block> {
    if 0 <= i < |blocks| then blocks[i := blocks[i].(content := blocks[i].content + more)] else blocks
  }

  // What a client assembles: a start adds a block, a delta extends the block it
  // names.
  function Assemble(blocks: seq<Block>, e: Event): seq<Block> {
    match e
    case Start(_, kind) => blocks + [Block(kind, "")]
    case ThinkingDelta(i, thinking) => Extended(blocks, i, thinking)
    case TextDelta(i, text) => Extended(blocks, i, text)
    case InputDelta(i, json) => Extended(blocks, i, json)
    case SignatureDelta(_) => blocks
    case Stop(_) => blocks
  }

  function Assembled(events: seq<Event>): seq<Block> {
    if events == [] then [] else Assemble(Assembled(events[..|events| - 1]), events[|events| - 1])
  }

  // What the calls ask for: summaries that directly follow one another share a
  // block, so do texts, and a tool call is a block of its own.
  function Grouped(calls: seq<Call>): seq<Block> {
    if calls == [] then []
    else
      var front, call := calls[..|calls| - 1], calls[|calls| - 1];
      var before := Grouped(front);
      match call
      case Reason(d) =>
        var piece := Added(AddedAll(DeltasGiven(front)).0, d).1;
        if front != [] && front[|front| - 1].Reason? then Extended(before, |before| - 1, piece)
        else before + [Block(Thinking, piece)]
      case Say(text) =>
        if front != [] && front[|front| - 1].Say? then Extended(before, |before| - 1, text)
        else before + [Block(Text, text)]
      case Use(tool) => before + [Block(ToolUse(tool.id, tool.name), tool.input)]
      case Close => before
  }

  lemma AssembledMore(before: seq<Event>, e: Event)
    ensures Assembled(before + [e]) == Assemble(Assembled(before), e)
  {
    assert (before + [e])[..|before|] == before;
  }

  lemma NewBlockFilled(blocks: seq<Block>, kind: Kind, piece: string)
    ensures Extended(blocks + [Block(kind, "")], |blocks|, piece) == blocks + [Block(kind, piece)]
  {
    assert "" + piece == piece;
  }

  // What the last call leaves open.
  ghost predicate Stands(calls: seq<Call>, s: Stream, blocks: seq<Block>) {
    && |blocks| == s.nextIndex
    && (s.kind == Some(Thinking) <==> calls != [] && calls[|calls| - 1].Reason?)
    && (s.kind == Some(Text) <==> calls != [] && calls[|calls| - 1].Say?)
    && (s.kind.Some? ==> s.index + 1 == s.nextIndex && !s.kind.value.ToolUse?)
  }

  lemma ClosedAssembles(before: seq<Event>, s: Stream)
    ensures Assembled(before + Closed(s).1) == Assembled(before)
  {
    if s.kind.None? {
      assert before + [] == before;
    } else if s.kind == Some(Thinking) {
      AssembledMore(before, SignatureDelta(s.index));
      AssembledMore(before + [SignatureDelta(s.index)], Stop(s.index));
      assert before + Closed(s).1 == before + [SignatureDelta(s.index)] + [Stop(s.index)];
    } else {
      assert Closed(s).1 == [Stop(s.index)];
      AssembledMore(before, Stop(s.index));
    }
  }

  lemma StartedAssembles(before: seq<Event>, s: Stream, kind: Kind)
    ensures Assembled(before + Started(s, kind).1)
         == if s.kind == Some(kind) then Assembled(before) else Assembled(before) + [Block(kind, "")]
  {
    if s.kind == Some(kind) {
      assert before + [] == before;
    } else {
      ClosedAssembles(before, s);
      AssembledMore(before + Closed(s).1, Start(s.nextIndex, kind));
      assert before + Started(s, kind).1 == before + Closed(s).1 + [Start(s.nextIndex, kind)];
    }
  }

  // One piece of the kind goes to the open block if that has the kind, and to a
  // new one otherwise.
  lemma PieceAssembles(before: seq<Event>, s: Stream, kind: Kind, e: Event, piece: string)
    requires |Assembled(before)| == s.nextIndex && (s.kind == Some(kind) ==> s.index + 1 == s.nextIndex)
    requires e == ThinkingDelta(Started(s, kind).0.index, piece) || e == TextDelta(Started(s, kind).0.index, piece)
    ensures Assembled(before + (Started(s, kind).1 + [e]))
         == if s.kind == Some(kind) then Extended(Assembled(before), s.nextIndex - 1, piece)
            else Assembled(before) + [Block(kind, piece)]
  {
    var begun := before + Started(s, kind).1;
    StartedAssembles(before, s, kind);
    AssembledMore(begun, e);
    assert before + (Started(s, kind).1 + [e]) == begun + [e];
    if s.kind != Some(kind) {
      NewBlockFilled(Assembled(before), kind, piece);
    }
  }

  lemma ToolAssembles(before: seq<Event>, s: Stream, tool: Tool)
    requires |Assembled(before)| == s.nextIndex
    ensures Assembled(before + Called(s, Use(tool)).1)
         == Assembled(before) + [Block(ToolUse(tool.id, tool.name), tool.input)]
  {
    var i, kind := s.nextIndex, ToolUse(tool.id, tool.name);
    var closed := before + Closed(s).1;
    ClosedAssembles(before, s);
    AssembledMore(closed, Start(i, kind));
    AssembledMore(closed + [Start(i, kind)], InputDelta(i, tool.input));
    AssembledMore(closed + [Start(i, kind)] + [InputDelta(i, tool.input)], Stop(i));
    assert before + Called(s, Use(tool)).1 == closed + [Start(i, kind)] + [InputDelta(i, tool.input)] + [Stop(i)];
    NewBlockFilled(Assembled(before), kind, tool.input);
  }

  // Whatever the calls, the client assembles exactly the blocks they ask for.
  lemma {:induction false} BlocksAsCalled(calls: seq<Call>)
    ensures var (s, events) := CalledAll(calls);
      Assembled(events) == Grouped(calls) && Stands(calls, s, Grouped(calls))
  {
    if calls != [] {
      var front, call := calls[..|calls| - 1], calls[|calls| - 1];
      BlocksAsCalled(front);
      NothingLostOrAdded(front);
      var (s, events) := CalledAll(front);
      match call {
        case Reason(d) =>
          var piece := Added(s.collected, d).1;
          PieceAssembles(events, s, Thinking, ThinkingDelta(Started(s, Thinking).0.index, piece), piece);
        case Say(text) => SayAssembles(events, s, text);
        case Use(tool) => ToolAssembles(events, s, tool);
        case Close => ClosedAssembles(events, s);
      }
    }
  }

  lemma SayAssembles(before: seq<Event>, s: Stream, text: string)
    requires |Assembled(before)| == s.nextIndex && (s.kind.Some? ==> s.index + 1 == s.nextIndex)
    ensures Assembled(before + Called(s, Say(text)).1)
         == if s.kind == Some(Text) then Extended(Assembled(before), s.nextIndex - 1, text)
            else Assembled(before) + [Block(Text, text)]
  {
    if text != "" {
      PieceAssembles(before, s, Text, TextDelta(Started(s, Text).0.index, text), text);
    } else {
      StartedAssembles(before, s, Text);
      assert Started(s, Text).1 + [] == Started(s, Text).1;
      if s.kind == Some(Text) && s.nextIndex > 0 {
        var b := Assembled(before)[s.nextIndex - 1];
        assert b.content + "" == b.content;
      }
    }
  }
}
