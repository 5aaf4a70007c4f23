// Reasoning summaries (reasoning.py): citation controls are stripped from each
// snapshot, and successive snapshots of a message become deltas.
module Reasoning {
  import opened Prelude

  // ------------------------------------------------------------ citations

  const OPEN: char := '\U{E200}'
  const CLOSE: char := '\U{E201}'
  const MIDDLE: char := '\U{E202}'

  function Marker(): string {
    [OPEN, 'c', 'i', 't', 'e', MIDDLE]
  }

  predicate Begins(text: string, part: string) {
    |part| <= |text| && text[..|part|] == part
  }

  // The start of a marker that the text breaks off in, at least one character.
  predicate IsPartial(text: string) {
    1 <= |text| <= 5 && Begins(Marker(), text)
  }

  // A partial marker that ends the text, or stands right before its final line
  // break: an end-of-text anchor accepts both.
  predicate EndsInPartial(text: string) {
    IsPartial(text) || BreaksBeforeNewline(text)
  }

  predicate BreaksBeforeNewline(text: string) {
    |text| >= 2 && text[|text| - 1] == '\n' && IsPartial(text[..|text| - 1])
  }

  // What follows the first closing character, if there is one.
  function AfterClose(text: string): (rest: Option<string>)
    ensures rest.None? <==> CLOSE !in text
    ensures rest.Some? ==> |rest.value| < |text|
  {
    if text == "" then None
    else if text[0] == CLOSE then Some(text[1..])
    else AfterClose(text[1..])
  }

  function Strip(text: string): string
    decreases |text|
  {
    if text == "" then ""
    else if Begins(text, Marker()) then
      var rest := AfterClose(text);
      if rest.Some? then Strip(rest.value) else ""
    else if EndsInPartial(text) then if IsPartial(text) then "" else "\n"
    else [text[0]] + Strip(text[1..])
  }

  // The stripping ended in that last branch: a partial marker was removed and
  // the line break after it kept.
  predicate CutBeforeNewline(text: string)
    decreases |text|
  {
    if text == "" then false
    else if Begins(text, Marker()) then
      var rest := AfterClose(text);
      rest.Some? && CutBeforeNewline(rest.value)
    else if EndsInPartial(text) then !IsPartial(text)
    else CutBeforeNewline(text[1..])
  }

  lemma {:induction false} AfterCloseExtends(text: string, more: string)
    requires CLOSE in text
    ensures AfterClose(text + more) == Some(AfterClose(text).value + more)
  {
    assert (text + more)[0] == text[0] && (text + more)[1..] == text[1..] + more;
    if text[0] != CLOSE {
      AfterCloseExtends(text[1..], more);
    }
  }

  lemma ShorterPartial(text: string, more: string)
    requires text != "" && (IsPartial(text + more) || (|text| <= 5 && Begins(text + more, Marker())))
    ensures IsPartial(text)
  {
    assert text == (text + more)[..|text|];
  }

  // While a text grows, what it starts with is decided once it is not a partial
  // marker any more.
  lemma HeadDecided(text: string, more: string)
    requires text != "" && more != "" && !IsPartial(text)
    ensures Begins(text + more, Marker()) <==> Begins(text, Marker())
    ensures !EndsInPartial(text + more)
  {
    if Begins(text + more, Marker()) && |text| <= 5 {
      ShorterPartial(text, more);
    }
    if IsPartial(text + more) {
      ShorterPartial(text, more);
    }
    var less := more[..|more| - 1];
    assert text + less == (text + more)[..|text + more| - 1];
    if IsPartial(text + less) {
      ShorterPartial(text, less);
    }
  }

  // Citation stripping is prefix-monotone, for every extension, exactly unless
  // the text was cut before its final line break.
  lemma {:induction false} StripMonotone(text: string, more: string)
    requires more != ""
    ensures IsPrefix(Strip(text), Strip(text + more)) <==> !CutBeforeNewline(text)
    decreases |text|
  {
    var all := text + more;
    if text == "" {
    } else if Begins(text, Marker()) {
      assert all[..6] == text[..6];
      if CLOSE in text {
        AfterCloseExtends(text, more);
        StripMonotone(AfterClose(text).value, more);
      }
    } else if IsPartial(text) {
      assert Strip(text) == "";
    } else {
      HeadDecided(text, more);
      assert all[0] == text[0] && all[1..] == text[1..] + more;
      if EndsInPartial(text) {
        assert Strip(text) == "\n" && Strip(all)[0] == text[0] == text[..|text| - 1][0] == OPEN;
      } else {
        StripMonotone(text[1..], more);
        PrefixCons(text[0], Strip(text[1..]), Strip(all[1..]));
      }
    }
  }

  lemma PrefixCons(c: char, p: string, s: string)
    ensures IsPrefix([c] + p, [c] + s) <==> IsPrefix(p, s)
  {
    if |p| <= |s| {
      assert ([c] + s)[..|p| + 1] == [c] + s[..|p|];
      assert ([c] + p)[1..] == p && ([c] + s[..|p|])[1..] == s[..|p|];
    }
  }

  lemma ProseHead(text: string)
    requires text != "" && text[0] != OPEN
    ensures !Begins(text, Marker()) && !EndsInPartial(text)
  {
    assert Marker()[0] == OPEN;
  }

  // Text without the control character is left alone, whatever follows it.
  lemma {:induction false} StripLeavesProse(before: string, rest: string)
    requires OPEN !in before
    ensures Strip(before + rest) == before + Strip(rest)
  {
    var all := before + rest;
    if before == "" {
      assert all == rest;
    } else {
      assert all[0] == before[0] && all[1..] == before[1..] + rest;
      ProseHead(all);
      StripLeavesProse(before[1..], rest);
      assert Strip(all) == [before[0]] + Strip(before[1..] + rest);
      assert before == [before[0]] + before[1..];
    }
  }

  // A whole citation disappears.
  lemma StripRemovesCitation(note: string, after: string)
    requires CLOSE !in note
    ensures Strip(Marker() + note + ([CLOSE] + after)) == Strip(after)
  {
    var all := Marker() + note + ([CLOSE] + after);
    assert all[..6] == Marker();
    FirstClose(Marker() + note, after);
  }

  lemma {:induction false} FirstClose(before: string, after: string)
    requires CLOSE !in before
    ensures AfterClose(before + ([CLOSE] + after)) == Some(after)
  {
    var all := before + ([CLOSE] + after);
    if before == "" {
      assert all[1..] == after;
    } else {
      assert all[1..] == before[1..] + ([CLOSE] + after);
      FirstClose(before[1..], after);
    }
  }

  // ------------------------------------------------------------ snapshots

  // One upstream entry: who wrote it, how it is marked, its text if that is
  // text, and the two spellings of its id.
  datatype Entry = Entry(author: string, inChain: bool, origin: string, text: Option<string>,
                         messageId: Option<string>, altMessageId: Option<string>)

  datatype Delta = Delta(item: nat, text: string)

  // Per message, its local id and the text delivered so far; local ids are
  // handed out in order.
  datatype Snapshots = Snapshots(seen: map<Option<string>, (nat, string)>, nextItem: nat)

  const NOTHING_SEEN := Snapshots(map[], 0)

  predicate IsReasoning(e: Entry) {
    e.author != "user" && (e.inChain || e.origin == "ChainOfThoughtSummary")
  }

  predicate IsBlank(text: string) {
    forall i :: 0 <= i < |text| ==> IsSpace(text[i])
  }

  function MessageId(e: Entry): Option<string> {
    if e.messageId.Some? && e.messageId.value != "" then e.messageId else e.altMessageId
  }

  // An entry that can be delivered at all.
  predicate Readable(e: Entry) {
    IsReasoning(e) && e.text.Some? && !IsBlank(Strip(e.text.value))
  }

  function Item(s: Snapshots, id: Option<string>): nat {
    if id in s.seen then s.seen[id].0 else s.nextItem
  }

  function Delivered(s: Snapshots, id: Option<string>): string {
    if id in s.seen then s.seen[id].1 else ""
  }

  // The text of an entry that will be taken as the next snapshot of its message.
  predicate Accepts(s: Snapshots, e: Entry) {
    && Readable(e)
    && Begins(Strip(e.text.value), Delivered(s, MessageId(e)))
    && Strip(e.text.value) != Delivered(s, MessageId(e))
  }

  function Taken(s: Snapshots, e: Entry): (Snapshots, seq<Delta>) {
    if !Accepts(s, e) then (s, [])
    else
      var id, text := MessageId(e), Strip(e.text.value);
      var item := Item(s, id);
      (Snapshots(s.seen[id := (item, text)], if id in s.seen then s.nextItem else s.nextItem + 1),
       [Delta(item, text[|Delivered(s, id)|..])])
  }

  function TakenAll(s: Snapshots, entries: seq<Entry>): (Snapshots, seq<Delta>) {
    if entries == [] then (s, [])
    else
      var (before, deltas) := TakenAll(s, entries[..|entries| - 1]);
      var (now, more) := Taken(before, entries[|entries| - 1]);
      (now, deltas + more)
  }

  class ReasoningSnapshots {
    var seen: map<Option<string>, (nat, string)>
    var nextItem: nat

    ghost function View(): Snapshots
      reads this
    {
      Snapshots(seen, nextItem)
    }

    constructor ()
      ensures View() == NOTHING_SEEN
    {
      seen, nextItem := map[], 0;
    }

    method Take(e: Entry) returns (more: seq<Delta>)
      modifies this
      ensures (View(), more) == Taken(old(View()), e)
    {
      if !IsReasoning(e) { return []; }
      if e.text.None? { return []; }
      var text := Strip(e.text.value);
      if IsBlank(text) { return []; }
      var id := MessageId(e);
      var item, delivered := nextItem, "";
      if id in seen {
        item, delivered := seen[id].0, seen[id].1;
        if !Begins(text, delivered) { return []; }
      }
      var delta := text[|delivered|..];
      if delta == "" {
        assert text == delivered;
        return [];
      }
      if id !in seen { nextItem := nextItem + 1; }
      seen := seen[id := (item, text)];
      return [Delta(item, delta)];
    }

    method Extract(entries: seq<Entry>) returns (deltas: seq<Delta>)
      modifies this
      ensures (View(), deltas) == TakenAll(old(View()), entries)
    {
      deltas := [];
      for i := 0 to |entries|
        invariant (View(), deltas) == TakenAll(old(View()), entries[..i])
      {
        assert entries[..i + 1][..i] == entries[..i];
        var more := Take(entries[i]);
        deltas := deltas + more;
      }
      assert entries[..|entries|] == entries;
    }
  }

  // All text delivered under one local id.
  function TextOf(deltas: seq<Delta>, item: nat): string {
    if deltas == [] then ""
    else
      var d := deltas[|deltas| - 1];
      TextOf(deltas[..|deltas| - 1], item) + if d.item == item then d.text else ""
  }

  ghost predicate Numbered(s: Snapshots) {
    && (forall id :: id in s.seen ==> s.seen[id].0 < s.nextItem)
    && (forall a, b :: a in s.seen && b in s.seen && s.seen[a].0 == s.seen[b].0 ==> a == b)
  }

  ghost predicate Known(s: Snapshots, item: nat) {
    exists id :: id in s.seen && s.seen[id].0 == item
  }

  // Every delta belongs to a recorded message and carries some text.
  ghost predicate Owned(s: Snapshots, deltas: seq<Delta>) {
    forall i :: 0 <= i < |deltas| ==> deltas[i].text != "" && Known(s, deltas[i].item)
  }

  // What was delivered is what has been recorded, message by message.
  ghost predicate Consistent(s: Snapshots, deltas: seq<Delta>) {
    && Numbered(s) && Owned(s, deltas)
    && forall id :: id in s.seen ==> TextOf(deltas, s.seen[id].0) == s.seen[id].1 && s.seen[id].1 != ""
  }

  lemma {:induction false} NoTextYet(deltas: seq<Delta>, item: nat)
    requires forall i :: 0 <= i < |deltas| ==> deltas[i].item != item
    ensures TextOf(deltas, item) == ""
  {
    if deltas != [] {
      NoTextYet(deltas[..|deltas| - 1], item);
    }
  }

  lemma OneMoreDelta(deltas: seq<Delta>, d: Delta, item: nat)
    ensures TextOf(deltas + [d], item) == TextOf(deltas, item) + if d.item == item then d.text else ""
  {
    assert (deltas + [d])[..|deltas|] == deltas;
  }

  lemma TakenOwned(s: Snapshots, deltas: seq<Delta>, e: Entry)
    requires Owned(s, deltas)
    ensures var (n, more) := Taken(s, e); Owned(n, deltas + more)
  {
    var (n, more) := Taken(s, e);
    var all := deltas + more;
    forall i | 0 <= i < |all| ensures all[i].text != "" && Known(n, all[i].item) {
      if i < |deltas| {
        assert Known(s, deltas[i].item);
        var k :| k in s.seen && s.seen[k].0 == deltas[i].item;
        assert n.seen[k].0 == all[i].item;
      } else {
        assert n.seen[MessageId(e)].0 == all[i].item;
      }
    }
  }

  lemma TakenConsistent(s: Snapshots, deltas: seq<Delta>, e: Entry)
    requires Consistent(s, deltas)
    ensures var (n, more) := Taken(s, e); Consistent(n, deltas + more)
  {
    var (n, more) := Taken(s, e);
    TakenOwned(s, deltas, e);
    if !Accepts(s, e) {
      assert deltas + more == deltas;
    } else {
      var id, item := MessageId(e), Item(s, MessageId(e));
      if id !in s.seen {
        NoTextYet(deltas, item);
      }
      assert Delivered(s, id) + more[0].text == Strip(e.text.value);
      assert Numbered(n);
      forall k | k in n.seen ensures TextOf(deltas + more, n.seen[k].0) == n.seen[k].1 && n.seen[k].1 != "" {
        OneMoreDelta(deltas, more[0], n.seen[k].0);
      }
    }
  }

  // For every message, the deltas emitted so far add up to its last accepted
  // text, no two messages share a local id, and no delta is empty.
  lemma {:induction false} DeltasAddUp(entries: seq<Entry>)
    ensures var (s, deltas) := TakenAll(NOTHING_SEEN, entries); Consistent(s, deltas)
  {
    if entries != [] {
      DeltasAddUp(entries[..|entries| - 1]);
      var (s, deltas) := TakenAll(NOTHING_SEEN, entries[..|entries| - 1]);
      TakenConsistent(s, deltas, entries[|entries| - 1]);
    }
  }

  // The user's own words, entries that are not marked as reasoning, and blank
  // ones are never delivered.
  lemma OtherEntriesAreSilent(s: Snapshots, e: Entry)
    requires
      || e.author == "user"
      || (!e.inChain && e.origin != "ChainOfThoughtSummary")
      || e.text.None?
      || (forall i :: 0 <= i < |Strip(e.text.value)| ==> IsSpace(Strip(e.text.value)[i]))
    ensures Taken(s, e) == (s, [])
  {
    if IsReasoning(e) && e.text.Some? {
      assert IsBlank(Strip(e.text.value));
    }
  }

  lemma {:induction false} SeenWereSent(entries: seq<Entry>, id: Option<string>)
    requires forall i :: 0 <= i < |entries| ==> MessageId(entries[i]) != id
    ensures id !in TakenAll(NOTHING_SEEN, entries).0.seen
  {
    if entries != [] {
      SeenWereSent(entries[..|entries| - 1], id);
    }
  }

  // The first snapshot of a message, marked either way and named by either
  // spelling of its id, is delivered whole and under a local id of its own.
  lemma FirstSnapshotIsDelivered(entries: seq<Entry>, e: Entry, text: string, k: nat)
    requires e.author != "user" && (e.inChain || e.origin == "ChainOfThoughtSummary")
    requires e.text == Some(text) && k < |Strip(text)| && !IsSpace(Strip(text)[k])
    requires forall i :: 0 <= i < |entries| ==>
      MessageId(entries[i]) != if e.messageId.Some? && e.messageId.value != "" then e.messageId else e.altMessageId
    ensures var deltas, all := TakenAll(NOTHING_SEEN, entries).1, TakenAll(NOTHING_SEEN, entries + [e]).1;
      && |all| == |deltas| + 1 && all[..|deltas|] == deltas
      && all[|deltas|].text == Strip(text)
      && forall i :: 0 <= i < |deltas| ==> deltas[i].item != all[|deltas|].item
  {
    var all := entries + [e];
    assert all[..|all| - 1] == entries && all[|all| - 1] == e;
    SeenWereSent(entries, MessageId(e));
    DeltasAddUp(entries);
    var (s, deltas) := TakenAll(NOTHING_SEEN, entries);
    assert Accepts(s, e);
    forall i | 0 <= i < |deltas| ensures deltas[i].item != s.nextItem {
      assert Known(s, deltas[i].item);
    }
  }

  // ------------------------------------------------------------ append-only

  // The latest readable text of a message.
  function LatestText(entries: seq<Entry>, id: Option<string>): Option<string> {
    if entries == [] then None
    else
      var e := entries[|entries| - 1];
      if IsReasoning(e) && e.text.Some? && MessageId(e) == id then e.text
      else LatestText(entries[..|entries| - 1], id)
  }

  // Upstream only ever appends to the message, and no snapshot that is followed
  // by a longer one was cut before a final line break.
  ghost predicate AppendOnly(entries: seq<Entry>, id: Option<string>) {
    entries == [] ||
    (&& AppendOnly(entries[..|entries| - 1], id)
     && var e := entries[|entries| - 1];
        var before := LatestText(entries[..|entries| - 1], id);
        IsReasoning(e) && e.text.Some? && MessageId(e) == id && before.Some? ==>
          IsPrefix(before.value, e.text.value) && (before == e.text || !CutBeforeNewline(before.value)))
  }

  // Then no snapshot is dropped: what has been delivered is always the whole
  // latest text, stripped.
  lemma {:induction false} NoSnapshotDropped(entries: seq<Entry>, id: Option<string>)
    requires AppendOnly(entries, id)
    ensures var latest := LatestText(entries, id);
      Delivered(TakenAll(NOTHING_SEEN, entries).0, id)
      == if latest.None? || IsBlank(Strip(latest.value)) then "" else Strip(latest.value)
  {
    if entries != [] {
      var front, e := entries[..|entries| - 1], entries[|entries| - 1];
      NoSnapshotDropped(front, id);
      DeltasAddUp(front);
      var s, before := TakenAll(NOTHING_SEEN, front).0, LatestText(front, id);
      if IsReasoning(e) && e.text.Some? && MessageId(e) == id && before.Some? && before != e.text {
        GrowsTo(before.value, e.text.value);
      }
    }
  }

  lemma GrowsTo(before: string, after: string)
    requires IsPrefix(before, after) && before != after && !CutBeforeNewline(before)
    ensures Begins(Strip(after), Strip(before))
    ensures IsBlank(Strip(after)) ==> IsBlank(Strip(before))
  {
    var more := after[|before|..];
    assert after == before + more;
    StripMonotone(before, more);
    assert forall i :: 0 <= i < |Strip(before)| ==> Strip(before)[i] == Strip(after)[..|Strip(before)|][i];
  }

  // After a delivered snapshot, a longer one is dropped exactly if that snapshot
  // was cut before its final line break.
  lemma DroppedExactly(s: Snapshots, e: Entry, before: string, more: string)
    requires IsReasoning(e) && e.text == Some(before + more) && more != ""
    requires Delivered(s, MessageId(e)) == Strip(before) && !IsBlank(Strip(before))
    ensures CutBeforeNewline(before) ==> Taken(s, e) == (s, [])
    ensures !CutBeforeNewline(before) ==> Delivered(Taken(s, e).0, MessageId(e)) == Strip(before + more)
  {
    StripMonotone(before, more);
    if !CutBeforeNewline(before) {
      GrowsTo(before, before + more);
    }
  }

  // ------------------------------------------------------------ the collector

  // An ordered dictionary of summaries, and the item written last.
  datatype Collected = Collected(order: seq<nat>, items: map<nat, string>, last: Option<nat>)

  const NOTHING_COLLECTED := Collected([], map[], None)
  const GAP := "\n\n"

  function Added(c: Collected, d: Delta): (Collected, string) {
    var known := if d.item in c.items then c.items[d.item] else "";
    (Collected(if d.item in c.items then c.order else c.order + [d.item], c.items[d.item := known + d.text], Some(d.item)),
     (if c.last.Some? && d.item != c.last.value then GAP else "") + d.text)
  }

  // The collector after a sequence of deltas, and all it returned for them.
  function AddedAll(deltas: seq<Delta>): (Collected, string) {
    if deltas == [] then (NOTHING_COLLECTED, "")
    else
      var (before, streamed) := AddedAll(deltas[..|deltas| - 1]);
      var (now, more) := Added(before, deltas[|deltas| - 1]);
      (now, streamed + more)
  }

  ghost predicate Indexed(c: Collected) {
    && (forall i, j :: 0 <= i < j < |c.order| ==> c.order[i] != c.order[j])
    && (forall i :: i in c.order <==> i in c.items)
  }

  // The summaries in the order their items first appeared.
  function Values(c: Collected): seq<string>
    requires forall i :: i in c.order ==> i in c.items
  {
    seq(|c.order|, i requires 0 <= i < |c.order| => c.items[c.order[i]])
  }

  class ReasoningCollector {
    var order: seq<nat>
    var items: map<nat, string>
    var last: Option<nat>

    ghost function View(): Collected
      reads this
    {
      Collected(order, items, last)
    }

    constructor ()
      ensures View() == NOTHING_COLLECTED
    {
      order, items, last := [], map[], None;
    }

    method Add(d: Delta) returns (chat: string)
      modifies this
      ensures (View(), chat) == Added(old(View()), d)
    {
      var separator := if last.Some? && d.item != last.value then GAP else "";
      if d.item !in items { order := order + [d.item]; }
      items := items[d.item := (if d.item in items then items[d.item] else "") + d.text];
      last := Some(d.item);
      return separator + d.text;
    }

    // The field of a reply that is not streamed.
    method ChatField() returns (field: Option<string>)
      requires Indexed(View())
      ensures field == if order == [] then None else Some(Join(GAP, Values(View())))
    {
      if order == [] { return None; }
      var texts := [];
      for i := 0 to |order|
        invariant texts == Values(View())[..i]
      {
        assert Values(View())[i] == items[order[i]];
        texts := texts + [items[order[i]]];
      }
      assert Values(View())[..|order|] == Values(View());
      return Some(Join(GAP, texts));
    }
  }

  ghost predicate Occurs(deltas: seq<Delta>, item: nat) {
    exists i :: 0 <= i < |deltas| && deltas[i].item == item
  }

  lemma OccursAppend(front: seq<Delta>, d: Delta, item: nat)
    ensures Occurs(front + [d], item) <==> Occurs(front, item) || d.item == item
  {
    var all := front + [d];
    assert all[|front|] == d;
    assert forall i :: 0 <= i < |front| ==> all[i] == front[i];
  }

  // The collector holds exactly the text of each item.
  lemma {:induction false} CollectorHoldsTheText(deltas: seq<Delta>, item: nat)
    ensures var items := AddedAll(deltas).0.items;
      && (item in items <==> Occurs(deltas, item))
      && (item in items ==> items[item] == TextOf(deltas, item))
      && (item !in items ==> TextOf(deltas, item) == "")
  {
    if deltas != [] {
      var front, d := deltas[..|deltas| - 1], deltas[|deltas| - 1];
      CollectorHoldsTheText(front, item);
      assert deltas == front + [d];
      OccursAppend(front, d, item);
      assert AddedAll(deltas).0 == Added(AddedAll(front).0, d).0;
    }
  }

  // Fed with what the snapshots emit, it holds the last accepted text of every
  // message and nothing else.
  lemma CollectorHoldsTheSnapshots(entries: seq<Entry>, id: Option<string>)
    ensures var (s, deltas) := TakenAll(NOTHING_SEEN, entries);
      var c := AddedAll(deltas).0;
      && (id in s.seen ==> s.seen[id].0 in c.items && c.items[s.seen[id].0] == s.seen[id].1)
      && (forall item :: item in c.items ==> Known(s, item))
  {
    var (s, deltas) := TakenAll(NOTHING_SEEN, entries);
    DeltasAddUp(entries);
    if id in s.seen {
      CollectorHoldsTheText(deltas, s.seen[id].0);
    }
    forall item | item in AddedAll(deltas).0.items ensures Known(s, item) {
      CollectorHoldsTheText(deltas, item);
    }
  }

  // ------------------------------------------------------------ streamed text

  // No item is resumed after another one.
  ghost predicate Contiguous(deltas: seq<Delta>) {
    deltas == [] ||
    (&& Contiguous(deltas[..|deltas| - 1])
     && var (before, d) := (AddedAll(deltas[..|deltas| - 1]).0, deltas[|deltas| - 1]);
        before.last == Some(d.item) || d.item !in before.items)
  }

  function Joined(deltas: seq<Delta>): string
    requires Indexed(AddedAll(deltas).0)
  {
    Join(GAP, Values(AddedAll(deltas).0))
  }

  function TextTotal(deltas: seq<Delta>): nat {
    if deltas == [] then 0 else TextTotal(deltas[..|deltas| - 1]) + |deltas[|deltas| - 1].text|
  }

  lemma {:induction false} TotalUpdate(values: seq<string>, k: nat, more: string)
    requires k < |values|
    ensures Total(values[k := values[k] + more]) == Total(values) + |more|
  {
    if k == 0 {
      assert values[0 := values[0] + more][1..] == values[1..];
    } else {
      assert values[k := values[k] + more][1..] == values[1..][k - 1 := values[1..][k - 1] + more];
      TotalUpdate(values[1..], k - 1, more);
    }
  }

  lemma AddedIndexed(c: Collected, d: Delta)
    requires Indexed(c)
    ensures Indexed(Added(c, d).0)
  {
    var n := Added(c, d).0;
    if d.item !in c.items {
      assert forall i :: i in n.order <==> i in c.order || i == d.item;
    }
  }

  lemma NewValue(c: Collected, d: Delta)
    requires Indexed(c) && d.item !in c.items
    ensures Indexed(Added(c, d).0) && Values(Added(c, d).0) == Values(c) + [d.text]
  {
    AddedIndexed(c, d);
    var n := Added(c, d).0;
    assert n.items[d.item] == "" + d.text == d.text;
    forall i | 0 <= i < |c.order| ensures Values(n)[i] == Values(c)[i] {
      assert c.order[i] in c.order && n.order[i] == c.order[i];
    }
  }

  lemma MoreValue(c: Collected, d: Delta, k: nat)
    requires Indexed(c) && k < |c.order| && c.order[k] == d.item && d.item in c.items
    ensures Indexed(Added(c, d).0) && Values(Added(c, d).0) == Values(c)[k := Values(c)[k] + d.text]
  {
    AddedIndexed(c, d);
  }

  lemma {:induction false} AlwaysIndexed(deltas: seq<Delta>)
    ensures Indexed(AddedAll(deltas).0)
    ensures Total(Values(AddedAll(deltas).0)) == TextTotal(deltas)
  {
    if deltas != [] {
      var front, d := deltas[..|deltas| - 1], deltas[|deltas| - 1];
      AlwaysIndexed(front);
      var c := AddedAll(front).0;
      if d.item in c.items {
        var k :| 0 <= k < |c.order| && c.order[k] == d.item;
        MoreValue(c, d, k);
        TotalUpdate(Values(c), k, d.text);
      } else {
        NewValue(c, d);
        TotalAppend(Values(c), [d.text]);
        assert Total([d.text]) == |d.text| + Total([d.text][1..]);
      }
    }
  }

  lemma {:induction false} JoinAppend(separator: string, values: seq<string>, more: string)
    requires values != []
    ensures Join(separator, values + [more]) == Join(separator, values) + separator + more
  {
    var all := values + [more];
    if |values| > 1 {
      var rest := values[1..];
      assert all[1..] == rest + [more] && all[0] == values[0];
      JoinAppend(separator, rest, more);
      assert Join(separator, all) == values[0] + separator + Join(separator, rest + [more]);
    } else {
      assert all[1..] == [more] && all[0] == values[0];
      assert Join(separator, all) == values[0] + separator + Join(separator, [more]);
    }
  }

  lemma {:induction false} JoinExtend(separator: string, values: seq<string>, more: string)
    requires values != []
    ensures Join(separator, values[|values| - 1 := values[|values| - 1] + more]) == Join(separator, values) + more
  {
    var n := |values| - 1;
    var longer := values[n := values[n] + more];
    if n > 0 {
      var rest := values[1..];
      assert longer[1..] == rest[n - 1 := rest[n - 1] + more] && longer[0] == values[0];
      JoinExtend(separator, rest, more);
      assert Join(separator, longer) == values[0] + separator + Join(separator, longer[1..]);
    }
  }

  ghost predicate LastIsWritten(c: Collected) {
    c.order != [] ==> c.last == Some(c.order[|c.order| - 1])
  }

  lemma StreamsOneMore(c: Collected, d: Delta)
    requires Indexed(c) && LastIsWritten(c) && (c.order == [] ==> c.last.None?)
    requires c.last == Some(d.item) || d.item !in c.items
    ensures var (n, more) := Added(c, d);
      && Indexed(n) && LastIsWritten(n) && n.order != []
      && Join(GAP, Values(n)) == Join(GAP, Values(c)) + more
  {
    if d.item !in c.items {
      NewValue(c, d);
      if c.order != [] {
        JoinAppend(GAP, Values(c), d.text);
      }
    } else {
      MoreValue(c, d, |c.order| - 1);
      JoinExtend(GAP, Values(c), d.text);
    }
  }

  lemma {:induction false} ContiguousStreams(deltas: seq<Delta>)
    requires Contiguous(deltas)
    ensures var (c, streamed) := AddedAll(deltas);
      && Indexed(c) && LastIsWritten(c) && (c.order == [] ==> c.last.None?)
      && streamed == Join(GAP, Values(c))
  {
    if deltas != [] {
      var front, d := deltas[..|deltas| - 1], deltas[|deltas| - 1];
      ContiguousStreams(front);
      StreamsOneMore(AddedAll(front).0, d);
    }
  }

  // How much longer the streamed text is than all texts together.
  lemma {:induction false} StreamedLength(deltas: seq<Delta>)
    requires deltas != []
    ensures var (c, streamed) := AddedAll(deltas);
      && c.last == Some(deltas[|deltas| - 1].item) && c.order != []
      && |streamed| >= TextTotal(deltas) + 2 * (|c.order| - 1)
      && (!Contiguous(deltas) ==> |streamed| > TextTotal(deltas) + 2 * (|c.order| - 1))
  {
    var front, d := deltas[..|deltas| - 1], deltas[|deltas| - 1];
    if front != [] {
      StreamedLength(front);
    } else {
      assert AddedAll(front) == (NOTHING_COLLECTED, "") && Contiguous(front);
      assert Contiguous(deltas);
    }
  }

  // The streamed text is the joined field exactly when no item is resumed after
  // another one.
  lemma StreamedIsJoinedExactly(deltas: seq<Delta>)
    ensures Indexed(AddedAll(deltas).0)
    ensures AddedAll(deltas).1 == Joined(deltas) <==> Contiguous(deltas)
  {
    AlwaysIndexed(deltas);
    if Contiguous(deltas) {
      ContiguousStreams(deltas);
    } else {
      StreamedLength(deltas);
      JoinLength(GAP, Values(AddedAll(deltas).0));
    }
  }
}
