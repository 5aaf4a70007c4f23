// Output indices of a Responses reply (reasoning_stream.py): reasoning items and
// everything the caller reserves an index for share one sequence.
module ResponsesStream {
  import opened Prelude
  import opened Reasoning

  datatype Event =
    | ItemAdded(index: nat, item: nat)
    | PartAdded(item: nat, index: nat)
    | SummaryDelta(item: nat, index: nat, text: string)
    | SummaryDone(item: nat, index: nat, text: string)
    | PartDone(item: nat, index: nat, text: string)
    | ItemDone(index: nat, item: nat, text: string)

  datatype OutputItem = Summary(id: nat, text: string) | Other(payload: string)

  datatype Call = Reserve | Reason(delta: Delta)

  datatype Stream = Stream(nextIndex: nat, indices: map<nat, nat>, collected: Collected)

  const NEW_STREAM := Stream(0, map[], NOTHING_COLLECTED)

  function AddedEvents(s: Stream, d: Delta): (Stream, seq<Event>) {
    var known := d.item in s.indices;
    var index := if known then s.indices[d.item] else s.nextIndex;
    (Stream(if known then s.nextIndex else s.nextIndex + 1, s.indices[d.item := index], Added(s.collected, d).0),
     (if known then [] else [ItemAdded(index, d.item), PartAdded(d.item, index)]) + [SummaryDelta(d.item, index, d.text)])
  }

  function Called(s: Stream, call: Call): (Stream, seq<Event>) {
    match call
    case Reserve => (s.(nextIndex := s.nextIndex + 1), [])
    case Reason(d) => AddedEvents(s, d)
  }

  // The stream after all calls, what it emitted, and the indices it gave away.
  function CalledAll(calls: seq<Call>): (Stream, seq<Event>, seq<nat>) {
    if calls == [] then (NEW_STREAM, [], [])
    else
      var (s, events, reserved) := CalledAll(calls[..|calls| - 1]);
      var call := calls[|calls| - 1];
      var (n, more) := Called(s, call);
      (n, events + more, ReservedAfter(s, call, reserved))
  }

  // Each item has an index, and only an item has one.
  ghost predicate Indexes(s: Stream) {
    Indexed(s.collected) && s.indices.Keys == s.collected.items.Keys
  }

  function ClosingEvents(item: nat, index: nat, text: string): seq<Event> {
    [SummaryDone(item, index, text), PartDone(item, index, text), ItemDone(index, item, text)]
  }

  function Finish(s: Stream, count: nat): seq<Event>
    requires Indexes(s) && count <= |s.collected.order|
  {
    if count == 0 then []
    else
      var item := s.collected.order[count - 1];
      Finish(s, count - 1) + ClosingEvents(item, s.indices[item], s.collected.items[item])
  }

  function OwnItems(s: Stream): seq<(nat, OutputItem)>
    requires Indexes(s)
  {
    seq(|s.collected.order|, k requires 0 <= k < |s.collected.order| =>
      var item := s.collected.order[k]; (s.indices[item], Summary(item, s.collected.items[item])))
  }

  // Python's stable `sorted` by index.
  function Insert(pair: (nat, OutputItem), rest: seq<(nat, OutputItem)>): seq<(nat, OutputItem)> {
    if rest == [] || pair.0 <= rest[0].0 then [pair] + rest else [rest[0]] + Insert(pair, rest[1..])
  }

  function Sorted(pairs: seq<(nat, OutputItem)>): seq<(nat, OutputItem)> {
    if pairs == [] then [] else Insert(pairs[0], Sorted(pairs[1..]))
  }

  function Items(pairs: seq<(nat, OutputItem)>): seq<OutputItem> {
    seq(|pairs|, k requires 0 <= k < |pairs| => pairs[k].1)
  }

  function Indices(pairs: seq<(nat, OutputItem)>): seq<nat> {
    seq(|pairs|, k requires 0 <= k < |pairs| => pairs[k].0)
  }

  class ResponsesReasoningStream {
    var nextIndex: nat
    var indices: map<nat, nat>
    var collector: ReasoningCollector
    var events: seq<Event>          // everything yielded

    ghost function View(): Stream
      reads this, collector
    {
      Stream(nextIndex, indices, collector.View())
    }

    constructor ()
      ensures View() == NEW_STREAM && events == [] && fresh(collector)
    {
      nextIndex, indices, events := 0, map[], [];
      collector := new ReasoningCollector();
    }

    method ReserveIndex() returns (index: nat)
      modifies this`nextIndex
      ensures View() == Called(old(View()), Reserve).0 && index == old(nextIndex)
    {
      index := nextIndex;
      nextIndex := nextIndex + 1;
    }

    method Add(d: Delta)
      modifies this`nextIndex, this`indices, this`events, collector
      ensures collector == old(collector)
      ensures View() == AddedEvents(old(View()), d).0
      ensures events == old(events) + AddedEvents(old(View()), d).1
    {
      if d.item !in indices {
        var index := ReserveIndex();
        indices := indices[d.item := index];
        events := events + [ItemAdded(index, d.item)];
        events := events + [PartAdded(d.item, index)];
      }
      var _ := collector.Add(d);
      events := events + [SummaryDelta(d.item, indices[d.item], d.text)];
    }

    method FinishAll()
      requires Indexes(View())
      modifies this`events
      ensures View() == old(View())
      ensures events == old(events) + Finish(View(), |collector.order|)
    {
      for k := 0 to |collector.order|
        invariant View() == old(View())
        invariant events == old(events) + Finish(View(), k)
      {
        var item := collector.order[k];
        var index, text := indices[item], collector.items[item];
        events := events + [SummaryDone(item, index, text), PartDone(item, index, text), ItemDone(index, item, text)];
      }
    }

    method Output(extra: seq<(nat, OutputItem)>) returns (items: seq<OutputItem>)
      requires Indexes(View())
      ensures items == Items(Sorted(OwnItems(View()) + extra))
    {
      var indexed := [];
      for k := 0 to |collector.order|
        invariant indexed == OwnItems(View())[..k]
      {
        var item := collector.order[k];
        assert OwnItems(View())[k] == (indices[item], Summary(item, collector.items[item]));
        indexed := indexed + [(indices[item], Summary(item, collector.items[item]))];
      }
      assert OwnItems(View())[..|collector.order|] == OwnItems(View());
      items := Items(Sorted(indexed + extra));
    }
  }

  // ------------------------------------------------------------ indices

  function Range(a: nat, n: nat): seq<nat>
    requires a <= n
  {
    seq(n - a, k requires 0 <= k < n - a => a + k)
  }

  // The indices of the items in `order`.
  function InOrder(order: seq<nat>, indices: map<nat, nat>): seq<nat>
    requires forall item :: item in order ==> item in indices
  {
    seq(|order|, k requires 0 <= k < |order| => indices[order[k]])
  }

  lemma OwnInOrder(s: Stream)
    requires Indexes(s)
    ensures Indices(OwnItems(s)) == InOrder(s.collected.order, s.indices)
  {
  }

  lemma OneMoreInOrder(order: seq<nat>, indices: map<nat, nat>, item: nat, index: nat)
    requires (forall i :: i in order ==> i in indices) && item !in indices
    ensures InOrder(order + [item], indices[item := index]) == InOrder(order, indices) + [index]
  {
  }

  // The indices of the items, first seen first.
  function OwnIndices(s: Stream): seq<nat>
    requires Indexes(s)
  {
    InOrder(s.collected.order, s.indices)
  }

  lemma CalledIndexes(s: Stream, call: Call)
    requires Indexes(s)
    ensures Indexes(Called(s, call).0)
    ensures OwnIndices(Called(s, call).0)
            == OwnIndices(s) + if call.Reason? && call.delta.item !in s.indices then [s.nextIndex] else []
  {
    if call.Reason? {
      var n, d := Called(s, call).0, call.delta;
      AddedIndexed(s.collected, d);
      if d.item in s.indices {
        assert n.indices == s.indices;
      } else {
        OneMoreInOrder(s.collected.order, s.indices, d.item, s.nextIndex);
      }
    }
  }

  ghost predicate Partition(own: seq<nat>, reserved: seq<nat>, next: nat) {
    multiset(own) + multiset(reserved) == multiset(Range(0, next))
  }

  lemma PartitionGrows(own: seq<nat>, reserved: seq<nat>, next: nat, now: seq<nat>, after: seq<nat>)
    requires Partition(own, reserved, next)
    requires (now == own + [next] && after == reserved) || (now == own && after == reserved + [next])
    ensures Partition(now, after, next + 1)
  {
    assert Range(0, next + 1) == Range(0, next) + [next];
  }

  // The indices given to callers after one more call.
  function ReservedAfter(s: Stream, call: Call, reserved: seq<nat>): seq<nat> {
    if call.Reserve? then reserved + [s.nextIndex] else reserved
  }

  lemma CalledPartitions(s: Stream, call: Call, reserved: seq<nat>)
    requires Indexes(s) && Partition(OwnIndices(s), reserved, s.nextIndex)
    ensures Indexes(Called(s, call).0)
    ensures Partition(OwnIndices(Called(s, call).0), ReservedAfter(s, call, reserved), Called(s, call).0.nextIndex)
  {
    CalledIndexes(s, call);
    var own, now := OwnIndices(s), OwnIndices(Called(s, call).0);
    if call.Reason? && call.delta.item in s.indices {
      assert now == own;
    } else {
      PartitionGrows(own, reserved, s.nextIndex, now, ReservedAfter(s, call, reserved));
    }
  }

  // Between them, the items and the reservations hold each index below the next
  // one exactly once: none is skipped and none is used again.
  lemma {:induction false} IndicesPartition(calls: seq<Call>)
    ensures Indexes(CalledAll(calls).0)
    ensures Partition(OwnIndices(CalledAll(calls).0), CalledAll(calls).2, CalledAll(calls).0.nextIndex)
  {
    if calls == [] {
      assert Range(0, 0) == [];
    } else {
      var front, call := calls[..|calls| - 1], calls[|calls| - 1];
      IndicesPartition(front);
      var (s, _, reserved) := CalledAll(front);
      CalledPartitions(s, call, reserved);
    }
  }

  predicate Ascending(q: seq<nat>) {
    |q| <= 1 || (q[0] <= q[1] && Ascending(q[1..]))
  }

  lemma {:induction false} InsertAscending(pair: (nat, OutputItem), rest: seq<(nat, OutputItem)>)
    requires Ascending(Indices(rest))
    ensures Ascending(Indices(Insert(pair, rest)))
  {
    if rest != [] && pair.0 > rest[0].0 {
      var more := Insert(pair, rest[1..]);
      assert Indices(rest)[1..] == Indices(rest[1..]);
      InsertAscending(pair, rest[1..]);
      assert Indices([rest[0]] + more)[1..] == Indices(more);
    } else {
      assert Indices([pair] + rest)[1..] == Indices(rest);
    }
  }

  lemma {:induction false} InsertHolds(pair: (nat, OutputItem), rest: seq<(nat, OutputItem)>)
    ensures multiset(Insert(pair, rest)) == multiset{pair} + multiset(rest)
  {
    if rest != [] && pair.0 > rest[0].0 {
      InsertHolds(pair, rest[1..]);
      assert rest == [rest[0]] + rest[1..];
    }
  }

  lemma {:induction false} InsertIndices(pair: (nat, OutputItem), rest: seq<(nat, OutputItem)>)
    ensures multiset(Indices(Insert(pair, rest))) == multiset{pair.0} + multiset(Indices(rest))
  {
    if rest != [] && pair.0 > rest[0].0 {
      InsertIndices(pair, rest[1..]);
      IndicesCons(rest[0], rest[1..]);
      IndicesCons(rest[0], Insert(pair, rest[1..]));
      assert rest == [rest[0]] + rest[1..];
    } else {
      IndicesCons(pair, rest);
    }
  }

  lemma IndicesCons(pair: (nat, OutputItem), rest: seq<(nat, OutputItem)>)
    ensures multiset(Indices([pair] + rest)) == multiset{pair.0} + multiset(Indices(rest))
  {
    assert Indices([pair] + rest) == [pair.0] + Indices(rest);
  }

  lemma IndicesAppend(a: seq<(nat, OutputItem)>, b: seq<(nat, OutputItem)>)
    ensures Indices(a + b) == Indices(a) + Indices(b)
  {
  }

  lemma {:induction false} SortedMeaning(pairs: seq<(nat, OutputItem)>)
    ensures Ascending(Indices(Sorted(pairs))) && multiset(Sorted(pairs)) == multiset(pairs)
    ensures multiset(Indices(Sorted(pairs))) == multiset(Indices(pairs))
  {
    if pairs != [] {
      var pair, rest := pairs[0], pairs[1..];
      SortedMeaning(rest);
      InsertAscending(pair, Sorted(rest));
      InsertHolds(pair, Sorted(rest));
      InsertIndices(pair, Sorted(rest));
      IndicesCons(pair, rest);
      assert pairs == [pair] + rest;
    }
  }

  lemma {:induction false} HeadIsLeast(q: seq<nat>, k: nat)
    requires Ascending(q) && k < |q|
    ensures q[0] <= q[k]
  {
    if k > 0 {
      HeadIsLeast(q[1..], k - 1);
    }
  }

  // Ascending indices that take each value from `a` on once stand in place.
  lemma {:induction false} AscendingInPlace(q: seq<nat>, a: nat, n: nat)
    requires a <= n && Ascending(q) && multiset(q) == multiset(Range(a, n))
    ensures q == Range(a, n)
    decreases n - a
  {
    assert |multiset(q)| == |q| && |multiset(Range(a, n))| == |Range(a, n)|;
    if a < n {
      StartsAt(q, a, n);
      var rest, later := q[1..], Range(a + 1, n);
      assert q == [a] + rest && Range(a, n) == [a] + later;
      SameAfterFirst(a, rest, later);
      AscendingInPlace(rest, a + 1, n);
    }
  }

  lemma SameAfterFirst(a: nat, p: seq<nat>, q: seq<nat>)
    requires multiset([a] + p) == multiset([a] + q)
    ensures multiset(p) == multiset(q)
  {
    assert multiset(p) == multiset([a] + p) - multiset{a};
    assert multiset(q) == multiset([a] + q) - multiset{a};
  }

  lemma StartsAt(q: seq<nat>, a: nat, n: nat)
    requires a < n && q != [] && Ascending(q) && multiset(q) == multiset(Range(a, n))
    ensures q[0] == a
  {
    assert Range(a, n)[0] == a;
    assert a in multiset(q);
    var k :| 0 <= k < |q| && q[k] == a;
    HeadIsLeast(q, k);
    assert q[0] in multiset(Range(a, n));
  }

  // When every reserved index is passed once, each item stands in the output at
  // its own index: nothing is lost, doubled or out of place.
  lemma OutputAtItsIndex(calls: seq<Call>, extra: seq<(nat, OutputItem)>)
    requires multiset(Indices(extra)) == multiset(CalledAll(calls).2)
    ensures Indexes(CalledAll(calls).0)
    ensures var s := CalledAll(calls).0;
      var output := Items(Sorted(OwnItems(s) + extra));
      && |output| == s.nextIndex
      && (forall pair :: pair in OwnItems(s) + extra ==> pair.0 < |output| && output[pair.0] == pair.1)
  {
    IndicesPartition(calls);
    OwnInOrder(CalledAll(calls).0);
    var own, next := OwnItems(CalledAll(calls).0), CalledAll(calls).0.nextIndex;
    IndicesAppend(own, extra);
    assert multiset(Indices(own + extra)) == multiset(Indices(own)) + multiset(Indices(extra));
    InPlace(own + extra, next);
  }

  lemma InPlace(pairs: seq<(nat, OutputItem)>, n: nat)
    requires multiset(Indices(pairs)) == multiset(Range(0, n))
    ensures |Sorted(pairs)| == n
    ensures forall pair :: pair in pairs ==> pair.0 < n && Sorted(pairs)[pair.0] == pair
  {
    SortedMeaning(pairs);
    var sorted := Sorted(pairs);
    AscendingInPlace(Indices(sorted), 0, n);
    forall pair | pair in pairs ensures pair.0 < |sorted| && sorted[pair.0] == pair {
      assert pair in multiset(sorted);
      var k :| 0 <= k < |sorted| && sorted[k] == pair;
      assert Indices(sorted)[k] == k;
    }
  }

  // ------------------------------------------------------------ closing

  // `finish` closes each item once, in order, at its own index, with the text of
  // all its deltas together.
  ghost predicate ClosesAt(s: Stream, events: seq<Event>, k: nat)
    requires Indexes(s) && k < |s.collected.order|
  {
    var item := s.collected.order[k];
    OccursAt(ClosingEvents(item, s.indices[item], s.collected.items[item]), events, 3 * k)
  }

  lemma {:induction false} FinishMeaning(s: Stream, count: nat)
    requires Indexes(s) && count <= |s.collected.order|
    ensures |Finish(s, count)| == 3 * count
    ensures forall k :: 0 <= k < count ==> ClosesAt(s, Finish(s, count), k)
  {
    if count > 0 {
      FinishMeaning(s, count - 1);
      var before, item := Finish(s, count - 1), s.collected.order[count - 1];
      var more := ClosingEvents(item, s.indices[item], s.collected.items[item]);
      assert (before + more)[3 * (count - 1)..] == more;
      forall k | 0 <= k < count - 1 ensures ClosesAt(s, before + more, k) {
        assert ClosesAt(s, before, k);
        assert (before + more)[3 * k..3 * k + 3] == before[3 * k..3 * k + 3];
      }
    }
  }

  function DeltasGiven(calls: seq<Call>): seq<Delta> {
    if calls == [] then []
    else
      DeltasGiven(calls[..|calls| - 1]) + if calls[|calls| - 1].Reason? then [calls[|calls| - 1].delta] else []
  }

  lemma {:induction false} CollectedIsGiven(calls: seq<Call>)
    ensures CalledAll(calls).0.collected == AddedAll(DeltasGiven(calls)).0
  {
    if calls != [] {
      var front, call := calls[..|calls| - 1], calls[|calls| - 1];
      CollectedIsGiven(front);
      var given := DeltasGiven(calls);
      if call.Reason? {
        assert given[..|given| - 1] == DeltasGiven(front) && given[|given| - 1] == call.delta;
      } else {
        assert given == DeltasGiven(front);
      }
    }
  }

  // The closing text is the concatenation of the deltas of that item.
  lemma ClosingText(calls: seq<Call>, item: nat)
    ensures var s := CalledAll(calls).0;
      item in s.collected.items ==> s.collected.items[item] == TextOf(DeltasGiven(calls), item)
  {
    CollectedIsGiven(calls);
    CollectorHoldsTheText(DeltasGiven(calls), item);
  }

  // ------------------------------------------------------------ the event stream

  datatype Stage = Announced | Streaming | TextClosed | PartClosed | Completed

  // What a client keeps of an item: its index, how far it has come, its text.
  datatype Seen = Seen(index: nat, stage: Stage, text: string)

  // One event, or nothing if it breaks the protocol: an item is announced once at
  // an index of its own, its part is opened before any text, and it is closed
  // step by step with the very text that was streamed.
  function Received(items: map<nat, Seen>, e: Event): Option<map<nat, Seen>> {
    match e
    case ItemAdded(i, item) =>
      if item !in items && (forall other :: other in items ==> items[other].index != i)
      then Some(items[item := Seen(i, Announced, "")]) else None
    case PartAdded(item, i) =>
      if item in items && items[item] == Seen(i, Announced, "") then Some(items[item := Seen(i, Streaming, "")]) else None
    case SummaryDelta(item, i, text) =>
      if item in items && items[item].index == i && items[item].stage == Streaming
      then Some(items[item := Seen(i, Streaming, items[item].text + text)]) else None
    case SummaryDone(item, i, text) =>
      if item in items && items[item] == Seen(i, Streaming, text) then Some(items[item := Seen(i, TextClosed, text)]) else None
    case PartDone(item, i, text) =>
      if item in items && items[item] == Seen(i, TextClosed, text) then Some(items[item := Seen(i, PartClosed, text)]) else None
    case ItemDone(i, item, text) =>
      if item in items && items[item] == Seen(i, PartClosed, text) then Some(items[item := Seen(i, Completed, text)]) else None
  }

  function ReceivedAll(events: seq<Event>): Option<map<nat, Seen>> {
    if events == [] then Some(map[])
    else match ReceivedAll(events[..|events| - 1])
      case None => None
      case Some(items) => Received(items, events[|events| - 1])
  }

  lemma ThenEvent(events: seq<Event>, e: Event)
    ensures ReceivedAll(events + [e]) == if ReceivedAll(events).None? then None else Received(ReceivedAll(events).value, e)
  {
    assert (events + [e])[..|events|] == events;
  }

  lemma BelowNext(calls: seq<Call>)
    ensures var s := CalledAll(calls).0; Indexes(s) && forall item :: item in s.indices ==> s.indices[item] < s.nextIndex
  {
    IndicesPartition(calls);
    var (s, _, reserved) := CalledAll(calls);
    forall item | item in s.indices ensures s.indices[item] < s.nextIndex {
      assert item in s.collected.order;
      var k :| 0 <= k < |s.collected.order| && s.collected.order[k] == item;
      assert OwnIndices(s)[k] == s.indices[item];
      assert s.indices[item] in multiset(OwnIndices(s));
      assert s.indices[item] in multiset(Range(0, s.nextIndex));
    }
  }

  // What the client has seen when the stream is in this state: every item at its
  // index, open, with its whole text.
  function Expected(s: Stream): map<nat, Seen>
    requires Indexes(s)
  {
    map item | item in s.indices :: Seen(s.indices[item], Streaming, s.collected.items[item])
  }

  lemma KnownItem(events: seq<Event>, s: Stream, d: Delta)
    requires Indexes(s) && d.item in s.indices && ReceivedAll(events) == Some(Expected(s))
    ensures Indexes(AddedEvents(s, d).0)
    ensures ReceivedAll(events + AddedEvents(s, d).1) == Some(Expected(AddedEvents(s, d).0))
  {
    var (n, more) := AddedEvents(s, d);
    var e := SummaryDelta(d.item, s.indices[d.item], d.text);
    assert more == [e];
    AddedIndexed(s.collected, d);
    ThenEvent(events, e);
    assert Expected(n) == Expected(s)[d.item := Seen(s.indices[d.item], Streaming, s.collected.items[d.item] + d.text)];
  }

  lemma OpenOne(events: seq<Event>, items: map<nat, Seen>, item: nat, index: nat, text: string)
    requires ReceivedAll(events) == Some(items) && item !in items && forall other :: other in items ==> items[other].index != index
    ensures ReceivedAll(events + ([ItemAdded(index, item), PartAdded(item, index)] + [SummaryDelta(item, index, text)]))
            == Some(items[item := Seen(index, Streaming, text)])
  {
    var one := events + [ItemAdded(index, item)];
    var two := one + [PartAdded(item, index)];
    ThenEvent(events, ItemAdded(index, item));
    ThenEvent(one, PartAdded(item, index));
    ThenEvent(two, SummaryDelta(item, index, text));
    assert events + ([ItemAdded(index, item), PartAdded(item, index)] + [SummaryDelta(item, index, text)])
           == two + [SummaryDelta(item, index, text)];
    assert "" + text == text;
    assert items[item := Seen(index, Announced, "")][item := Seen(index, Streaming, "")][item := Seen(index, Streaming, text)]
           == items[item := Seen(index, Streaming, text)];
  }

  lemma ExpectedNew(s: Stream, d: Delta)
    requires Indexes(s) && d.item !in s.indices
    ensures Indexes(AddedEvents(s, d).0)
    ensures Expected(AddedEvents(s, d).0) == Expected(s)[d.item := Seen(s.nextIndex, Streaming, d.text)]
  {
    AddedIndexed(s.collected, d);
    assert "" + d.text == d.text;
  }

  lemma NewItem(events: seq<Event>, s: Stream, d: Delta)
    requires Indexes(s) && d.item !in s.indices && ReceivedAll(events) == Some(Expected(s))
    requires forall item :: item in s.indices ==> s.indices[item] < s.nextIndex
    ensures Indexes(AddedEvents(s, d).0)
    ensures ReceivedAll(events + AddedEvents(s, d).1) == Some(Expected(AddedEvents(s, d).0))
  {
    ExpectedNew(s, d);
    OpenOne(events, Expected(s), d.item, s.nextIndex, d.text);
  }

  // Whatever the calls, a client can read the stream, and has then seen every
  // item at its index with all the text given for it.
  lemma {:induction false} AlwaysReadable(calls: seq<Call>)
    ensures var (s, events, _) := CalledAll(calls); Indexes(s) && ReceivedAll(events) == Some(Expected(s))
  {
    BelowNext(calls);
    if calls != [] {
      var front, call := calls[..|calls| - 1], calls[|calls| - 1];
      AlwaysReadable(front);
      BelowNext(front);
      var (s, events, _) := CalledAll(front);
      if call.Reserve? {
        assert events + [] == events;
      } else if call.delta.item in s.indices {
        KnownItem(events, s, call.delta);
      } else {
        NewItem(events, s, call.delta);
      }
    }
  }

  // The first `count` items closed, the others still open.
  function ClosedUpTo(s: Stream, count: nat): map<nat, Seen>
    requires Indexes(s) && count <= |s.collected.order|
  {
    map item | item in s.indices ::
      Seen(s.indices[item], if item in s.collected.order[..count] then Completed else Streaming, s.collected.items[item])
  }

  lemma CloseOne(events: seq<Event>, items: map<nat, Seen>, item: nat, index: nat, text: string)
    requires ReceivedAll(events) == Some(items) && item in items && items[item] == Seen(index, Streaming, text)
    ensures ReceivedAll(events + ClosingEvents(item, index, text)) == Some(items[item := Seen(index, Completed, text)])
  {
    var one := events + [SummaryDone(item, index, text)];
    var two := one + [PartDone(item, index, text)];
    ThenEvent(events, SummaryDone(item, index, text));
    ThenEvent(one, PartDone(item, index, text));
    ThenEvent(two, ItemDone(index, item, text));
    assert events + ClosingEvents(item, index, text) == two + [ItemDone(index, item, text)];
    assert items[item := Seen(index, TextClosed, text)][item := Seen(index, PartClosed, text)][item := Seen(index, Completed, text)]
           == items[item := Seen(index, Completed, text)];
  }

  lemma ClosedOneMore(s: Stream, k: nat)
    requires Indexes(s) && k < |s.collected.order|
    ensures var item := s.collected.order[k];
      && item in s.indices && ClosedUpTo(s, k)[item] == Seen(s.indices[item], Streaming, s.collected.items[item])
      && ClosedUpTo(s, k + 1) == ClosedUpTo(s, k)[item := Seen(s.indices[item], Completed, s.collected.items[item])]
  {
    NotBefore(s.collected, k);
    assert s.collected.order[..k + 1] == s.collected.order[..k] + [s.collected.order[k]];
  }

  function ClosingOf(s: Stream, k: nat): seq<Event>
    requires Indexes(s) && k < |s.collected.order|
  {
    var item := s.collected.order[k];
    ClosingEvents(item, s.indices[item], s.collected.items[item])
  }

  lemma FinishGrows(s: Stream, events: seq<Event>, k: nat)
    requires Indexes(s) && k < |s.collected.order|
    ensures events + Finish(s, k + 1) == events + Finish(s, k) + ClosingOf(s, k)
  {
  }

  lemma CloseStep(before: seq<Event>, s: Stream, k: nat)
    requires Indexes(s) && k < |s.collected.order| && ReceivedAll(before) == Some(ClosedUpTo(s, k))
    ensures ReceivedAll(before + ClosingOf(s, k)) == Some(ClosedUpTo(s, k + 1))
  {
    var item := s.collected.order[k];
    ClosedOneMore(s, k);
    CloseOne(before, ClosedUpTo(s, k), item, s.indices[item], s.collected.items[item]);
  }

  // And `finish` closes every item, once, with that text.
  lemma {:induction false} FinishIsReadable(s: Stream, events: seq<Event>, count: nat)
    requires Indexes(s) && count <= |s.collected.order| && ReceivedAll(events) == Some(Expected(s))
    ensures ReceivedAll(events + Finish(s, count)) == Some(ClosedUpTo(s, count))
  {
    if count == 0 {
      assert events + [] == events;
      assert ClosedUpTo(s, 0) == Expected(s);
    } else {
      FinishIsReadable(s, events, count - 1);
      CloseStep(events + Finish(s, count - 1), s, count - 1);
      FinishGrows(s, events, count - 1);
    }
  }

  lemma NotBefore(c: Collected, k: nat)
    requires Indexed(c) && k < |c.order|
    ensures c.order[k] !in c.order[..k] && c.order[k] in c.items
  {
  }

  // A whole reply, closed: each item completed at its index with the text of its
  // deltas together.
  lemma ClosedReply(calls: seq<Call>, item: nat)
    ensures Indexes(CalledAll(calls).0)
    ensures var (s, events, _) := CalledAll(calls);
      var seen := ReceivedAll(events + Finish(s, |s.collected.order|));
      && seen.Some? && seen.value.Keys == s.indices.Keys
      && (item in s.indices ==> seen.value[item] == Seen(s.indices[item], Completed, TextOf(DeltasGiven(calls), item)))
  {
    var (s, events, _) := CalledAll(calls);
    AlwaysReadable(calls);
    FinishIsReadable(s, events, |s.collected.order|);
    ClosingText(calls, item);
    assert s.collected.order[..|s.collected.order|] == s.collected.order;
  }
}
