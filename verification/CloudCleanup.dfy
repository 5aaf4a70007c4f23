// Deleting old cloud conversations (m365_cloud_client.py): a loop over a history
// of which each listing shows only the newest part.
module CloudCleanup {
  import opened Prelude

  const MAX_ROUNDS := 100

  // A row of a listing; a time that cannot be read is absent.
  datatype Chat = Chat(id: string, updateTime: Option<real>, createTime: Option<real>)

  datatype Rules = Rules(olderThan: real, keepNewest: int, whitelist: set<string>)

  // The outside world: what each listing shows (None when it fails), given the
  // deletions so far; the time of each round; and whether each deletion succeeds.
  datatype Cloud = Cloud(listing: (nat, seq<string>) -> Option<seq<Chat>>, clock: nat -> real, deletes: (nat, string) -> bool)

  datatype Progress = Progress(kept: set<string>, deleted: seq<string>, attempted: seq<string>)

  datatype Outcome = Outcome(progress: Progress, failed: bool, listings: nat)

  // Seconds; the times of a row are milliseconds.
  function UpdatedAt(chat: Chat): real {
    if chat.updateTime.Some? && chat.updateTime.value > 0.0 then chat.updateTime.value / 1000.0
    else if chat.createTime.Some? && chat.createTime.value > 0.0 then chat.createTime.value / 1000.0
    else 0.0
  }

  // Newest first, rows of the same time in the order they came.
  function Placed(chat: Chat, rest: seq<Chat>): seq<Chat> {
    if rest == [] || UpdatedAt(chat) >= UpdatedAt(rest[0]) then [chat] + rest else [rest[0]] + Placed(chat, rest[1..])
  }

  function NewestFirst(chats: seq<Chat>): seq<Chat> {
    if chats == [] then [] else Placed(chats[0], NewestFirst(chats[1..]))
  }

  function Excluding(chats: seq<Chat>, ids: set<string>): seq<Chat> {
    if chats == [] then []
    else (if chats[0].id in ids then [] else [chats[0]]) + Excluding(chats[1..], ids)
  }

  predicate Doomed(rules: Rules, now: real, updated: real, kept: nat) {
    || (rules.olderThan > 0.0 && updated > 0.0 && now - updated > rules.olderThan)
    || (rules.keepNewest > 0 && kept >= rules.keepNewest)
  }

  function Swept(rules: Rules, cloud: Cloud, now: real, p: Progress, chat: Chat): Progress {
    if !Doomed(rules, now, UpdatedAt(chat), |p.kept|) then p.(kept := p.kept + {chat.id})
    else if cloud.deletes(|p.attempted|, chat.id)
    then p.(deleted := p.deleted + [chat.id], attempted := p.attempted + [chat.id])
    else p.(kept := p.kept + {chat.id}, attempted := p.attempted + [chat.id])
  }

  function SweptAll(rules: Rules, cloud: Cloud, now: real, p: Progress, pending: seq<Chat>): Progress
    decreases |pending|
  {
    if pending == [] then p else SweptAll(rules, cloud, now, Swept(rules, cloud, now, p, pending[0]), pending[1..])
  }

  // The rows a round still has to decide on; a row without an id is none.
  function Pending(rules: Rules, kept: set<string>, rows: seq<Chat>): seq<Chat> {
    Excluding(NewestFirst(rows), rules.whitelist + kept + {""})
  }

  function Cleaned(rules: Rules, cloud: Cloud, round: nat, p: Progress): Outcome
    decreases MAX_ROUNDS - round
  {
    if round >= MAX_ROUNDS then Outcome(p, false, round)
    else match cloud.listing(round, p.deleted)
      case None => Outcome(p, true, round + 1)
      case Some(rows) =>
        var pending := Pending(rules, p.kept, rows);
        var n := SweptAll(rules, cloud, cloud.clock(round), p, pending);
        if pending == [] then Outcome(p, false, round + 1)
        else if |n.deleted| == |p.deleted| then Outcome(n, false, round + 1)
        else Cleaned(rules, cloud, round + 1, n)
  }

  const NOTHING := Progress({}, [], [])

  function CleanUp(rules: Rules, cloud: Cloud): Outcome {
    Cleaned(rules, cloud, 0, NOTHING)
  }

  // One round over its pending rows, already newest first.
  method Sweep(rules: Rules, cloud: Cloud, now: real, p: Progress, pending: seq<Chat>) returns (n: Progress, roundDeleted: nat)
    ensures n == SweptAll(rules, cloud, now, p, pending)
    ensures |n.deleted| == |p.deleted| + roundDeleted
  {
    var kept, deleted, attempted := p.kept, p.deleted, p.attempted;
    roundDeleted := 0;
    for i := 0 to |pending|
      invariant SweptAll(rules, cloud, now, Progress(kept, deleted, attempted), pending[i..]) == SweptAll(rules, cloud, now, p, pending)
      invariant |deleted| == |p.deleted| + roundDeleted
    {
      assert pending[i..][0] == pending[i] && pending[i..][1..] == pending[i + 1..];
      var id, updated := pending[i].id, UpdatedAt(pending[i]);
      var tooOld := rules.olderThan > 0.0 && updated > 0.0 && now - updated > rules.olderThan;
      var overCap := rules.keepNewest > 0 && |kept| >= rules.keepNewest;
      if !tooOld && !overCap {
        kept := kept + {id};
        continue;
      }
      var ok := cloud.deletes(|attempted|, id);
      attempted := attempted + [id];
      if !ok {
        kept := kept + {id};
        continue;
      }
      deleted := deleted + [id];
      roundDeleted := roundDeleted + 1;
    }
    n := Progress(kept, deleted, attempted);
  }

  method CleanupConversations(rules: Rules, cloud: Cloud) returns (deleted: seq<string>, failed: bool)
    ensures (deleted, failed) == (CleanUp(rules, cloud).progress.deleted, CleanUp(rules, cloud).failed)
  {
    var p := NOTHING;
    for round := 0 to MAX_ROUNDS
      invariant Cleaned(rules, cloud, round, p) == CleanUp(rules, cloud)
    {
      var listing := cloud.listing(round, p.deleted);
      if listing.None? { return p.deleted, true; }
      var pending := Pending(rules, p.kept, listing.value);
      if pending == [] { return p.deleted, false; }
      var n, roundDeleted := Sweep(rules, cloud, cloud.clock(round), p, pending);
      p := n;
      if roundDeleted == 0 { return p.deleted, false; }
    }
    return p.deleted, false;
  }

  // ------------------------------------------------------------ any cloud at all

  lemma {:induction false} ExcludingMeaning(chats: seq<Chat>, ids: set<string>)
    ensures forall c :: c in Excluding(chats, ids) <==> c in chats && c.id !in ids
  {
    if chats != [] {
      ExcludingMeaning(chats[1..], ids);
      assert chats == [chats[0]] + chats[1..];
    }
  }

  // Nothing was attempted but real ids outside the whitelist, nothing was deleted
  // that was not attempted, and what could not be deleted is kept.
  ghost predicate Allowed(rules: Rules, p: Progress) {
    && (forall id :: id in p.attempted ==> id !in rules.whitelist && id != "")
    && (forall id :: id in p.deleted ==> id in p.attempted)
    && (forall id :: id in p.attempted ==> id in p.deleted || id in p.kept)
  }

  lemma {:induction false} SweptAllowed(rules: Rules, cloud: Cloud, now: real, p: Progress, pending: seq<Chat>)
    requires Allowed(rules, p) && forall c :: c in pending ==> c.id !in rules.whitelist && c.id != ""
    ensures Allowed(rules, SweptAll(rules, cloud, now, p, pending))
    decreases |pending|
  {
    if pending != [] {
      assert Allowed(rules, Swept(rules, cloud, now, p, pending[0]));
      SweptAllowed(rules, cloud, now, Swept(rules, cloud, now, p, pending[0]), pending[1..]);
    }
  }

  lemma {:induction false} CleanedAllowed(rules: Rules, cloud: Cloud, round: nat, p: Progress)
    requires round <= MAX_ROUNDS && Allowed(rules, p)
    ensures Allowed(rules, Cleaned(rules, cloud, round, p).progress) && Cleaned(rules, cloud, round, p).listings <= MAX_ROUNDS
    decreases MAX_ROUNDS - round
  {
    if round < MAX_ROUNDS && cloud.listing(round, p.deleted).Some? {
      var rows := cloud.listing(round, p.deleted).value;
      var pending := Pending(rules, p.kept, rows);
      ExcludingMeaning(NewestFirst(rows), rules.whitelist + p.kept + {""});
      SweptAllowed(rules, cloud, cloud.clock(round), p, pending);
      CleanedAllowed(rules, cloud, round + 1, SweptAll(rules, cloud, cloud.clock(round), p, pending));
    }
  }

  // Whatever the cloud answers, a whitelisted conversation is never attempted,
  // and the cleanup stops within a hundred listings.
  lemma ProtectedStay(rules: Rules, cloud: Cloud, id: string)
    requires id in rules.whitelist
    ensures id !in CleanUp(rules, cloud).progress.attempted && id !in CleanUp(rules, cloud).progress.deleted
    ensures CleanUp(rules, cloud).listings <= MAX_ROUNDS
  {
    CleanedAllowed(rules, cloud, 0, NOTHING);
  }

  lemma {:induction false} AllKept(rules: Rules, cloud: Cloud, now: real, p: Progress, pending: seq<Chat>)
    requires rules.olderThan <= 0.0 && rules.keepNewest <= 0
    ensures var n := SweptAll(rules, cloud, now, p, pending); n.deleted == p.deleted && n.attempted == p.attempted
    decreases |pending|
  {
    if pending != [] {
      AllKept(rules, cloud, now, Swept(rules, cloud, now, p, pending[0]), pending[1..]);
    }
  }

  // With both rules off nothing is attempted.
  lemma NoRulesNothingDeleted(rules: Rules, cloud: Cloud)
    requires rules.olderThan <= 0.0 && rules.keepNewest <= 0
    ensures CleanUp(rules, cloud).progress.deleted == [] && CleanUp(rules, cloud).progress.attempted == []
  {
    if cloud.listing(0, []).Some? {
      AllKept(rules, cloud, cloud.clock(0), NOTHING, Pending(rules, {}, cloud.listing(0, []).value));
    }
  }

  predicate TooOld(rules: Rules, now: real, chat: Chat) {
    rules.olderThan > 0.0 && UpdatedAt(chat) > 0.0 && now - UpdatedAt(chat) > rules.olderThan
  }

  // A round decides on every row of it; one that is too old is attempted, and so
  // is every row once as many as the cap are kept.
  lemma {:induction false} OldRowsAttempted(rules: Rules, cloud: Cloud, now: real, p: Progress, pending: seq<Chat>)
    ensures var n := SweptAll(rules, cloud, now, p, pending);
      && p.kept <= n.kept && (forall id :: id in p.attempted ==> id in n.attempted)
      && (forall c :: c in pending ==> c.id in n.attempted || c.id in n.kept)
      && (forall c :: c in pending && TooOld(rules, now, c) ==> c.id in n.attempted)
      && (0 < rules.keepNewest <= |p.kept| ==> forall c :: c in pending ==> c.id in n.attempted)
    decreases |pending|
  {
    if pending != [] {
      var next := Swept(rules, cloud, now, p, pending[0]);
      assert pending == [pending[0]] + pending[1..];
      OldRowsAttempted(rules, cloud, now, next, pending[1..]);
      SubsetSize(p.kept, next.kept);
    }
  }

  lemma SubsetSize(a: set<string>, b: set<string>)
    requires a <= b
    ensures |a| <= |b|
  {
    assert b == a + (b - a);
  }

  // And nothing else is: while no row is too old and the cap has room for all of
  // them, none is attempted.
  lemma {:induction false} NothingElseAttempted(rules: Rules, cloud: Cloud, now: real, p: Progress, pending: seq<Chat>)
    requires forall c :: c in pending ==> !TooOld(rules, now, c)
    requires rules.keepNewest > 0 ==> |p.kept| + |pending| <= rules.keepNewest
    ensures SweptAll(rules, cloud, now, p, pending).attempted == p.attempted
    decreases |pending|
  {
    if pending != [] {
      var next := Swept(rules, cloud, now, p, pending[0]);
      assert pending == [pending[0]] + pending[1..];
      assert pending[0] in pending && next == p.(kept := p.kept + {pending[0].id});
      NothingElseAttempted(rules, cloud, now, next, pending[1..]);
    }
  }

  // The time of a row is its update in seconds, or else its creation.
  lemma UpdatedAtMeaning(id: string, update: real, create: Option<real>)
    requires update > 0.0
    ensures UpdatedAt(Chat(id, Some(update), create)) * 1000.0 == update
    ensures UpdatedAt(Chat(id, None, Some(update))) * 1000.0 == update
    ensures UpdatedAt(Chat(id, Some(0.0 - update), Some(update))) * 1000.0 == update
    ensures UpdatedAt(Chat(id, None, None)) == 0.0
  {
  }

  function IfAt(chat: Chat, time: real): seq<Chat> {
    if UpdatedAt(chat) == time then [chat] else []
  }

  // The rows of one time, in order.
  function AtTime(chats: seq<Chat>, time: real): seq<Chat> {
    if chats == [] then [] else IfAt(chats[0], time) + AtTime(chats[1..], time)
  }

  ghost predicate NotRising(chats: seq<Chat>) {
    |chats| <= 1 || (UpdatedAt(chats[0]) >= UpdatedAt(chats[1]) && NotRising(chats[1..]))
  }

  lemma {:induction false} PlacedSorted(chat: Chat, rest: seq<Chat>)
    requires NotRising(rest)
    ensures NotRising(Placed(chat, rest)) && Placed(chat, rest) != []
    ensures Placed(chat, rest)[0] == chat || (rest != [] && Placed(chat, rest)[0] == rest[0])
  {
    if rest != [] && UpdatedAt(chat) < UpdatedAt(rest[0]) {
      var more := Placed(chat, rest[1..]);
      PlacedSorted(chat, rest[1..]);
      assert ([rest[0]] + more)[1..] == more;
    } else {
      assert ([chat] + rest)[1..] == rest;
    }
  }

  lemma {:induction false} PlacedHolds(chat: Chat, rest: seq<Chat>)
    ensures multiset(Placed(chat, rest)) == multiset{chat} + multiset(rest)
  {
    if rest != [] && UpdatedAt(chat) < UpdatedAt(rest[0]) {
      PlacedHolds(chat, rest[1..]);
      assert rest == [rest[0]] + rest[1..];
    }
  }

  lemma AtTimeCons(chat: Chat, rest: seq<Chat>, time: real)
    ensures AtTime([chat] + rest, time) == IfAt(chat, time) + AtTime(rest, time)
  {
    assert ([chat] + rest)[1..] == rest;
  }

  lemma SwapEmpty(a: seq<Chat>, b: seq<Chat>, c: seq<Chat>)
    requires a == [] || b == []
    ensures a + (b + c) == b + (a + c)
  {
  }

  lemma {:induction false} PlacedInOrder(chat: Chat, rest: seq<Chat>, time: real)
    ensures AtTime(Placed(chat, rest), time) == IfAt(chat, time) + AtTime(rest, time)
  {
    if rest != [] && UpdatedAt(chat) < UpdatedAt(rest[0]) {
      PlacedInOrder(chat, rest[1..], time);
      AtTimeCons(rest[0], Placed(chat, rest[1..]), time);
      SwapEmpty(IfAt(rest[0], time), IfAt(chat, time), AtTime(rest[1..], time));
    } else {
      AtTimeCons(chat, rest, time);
    }
  }

  // A listing is put newest first, each row once, rows of one time as they came.
  lemma {:induction false} NewestFirstSorts(chats: seq<Chat>)
    ensures NotRising(NewestFirst(chats)) && multiset(NewestFirst(chats)) == multiset(chats)
  {
    if chats != [] {
      var rest := NewestFirst(chats[1..]);
      NewestFirstSorts(chats[1..]);
      PlacedSorted(chats[0], rest);
      PlacedHolds(chats[0], rest);
      assert chats == [chats[0]] + chats[1..];
    }
  }

  lemma {:induction false} NewestFirstIsStable(chats: seq<Chat>, time: real)
    ensures AtTime(NewestFirst(chats), time) == AtTime(chats, time)
  {
    if chats != [] {
      NewestFirstIsStable(chats[1..], time);
      PlacedInOrder(chats[0], NewestFirst(chats[1..]), time);
    }
  }

  // ------------------------------------------------------------ kept ids

  ghost predicate Distinct(chats: seq<Chat>) {
    chats == [] || ((forall c :: c in chats[1..] ==> c.id != chats[0].id) && Distinct(chats[1..]))
  }

  // No deletion is attempted of an id that has been kept.
  ghost predicate Careful(rules: Rules, cloud: Cloud, now: real, p: Progress, pending: seq<Chat>)
    decreases |pending|
  {
    pending == [] ||
    (&& (pending[0].id in p.kept ==> !Doomed(rules, now, UpdatedAt(pending[0]), |p.kept|))
     && Careful(rules, cloud, now, Swept(rules, cloud, now, p, pending[0]), pending[1..]))
  }

  ghost predicate Unseen(p: Progress, pending: seq<Chat>) {
    forall c :: c in pending ==> c.id !in p.kept
  }

  lemma {:induction false} DistinctIsCareful(rules: Rules, cloud: Cloud, now: real, p: Progress, pending: seq<Chat>)
    requires Distinct(pending) && Unseen(p, pending)
    ensures Careful(rules, cloud, now, p, pending)
    decreases |pending|
  {
    if pending != [] {
      assert pending == [pending[0]] + pending[1..];
      DistinctIsCareful(rules, cloud, now, Swept(rules, cloud, now, p, pending[0]), pending[1..]);
    }
  }

  lemma {:induction false} OverCapRepeat(rules: Rules, cloud: Cloud, now: real, p: Progress, pending: seq<Chat>, c: Chat)
    requires 0 < rules.keepNewest <= |p.kept| && (forall n, id :: cloud.deletes(n, id))
    requires c in pending && c.id in p.kept
    ensures !Careful(rules, cloud, now, p, pending)
    decreases |pending|
  {
    assert pending == [pending[0]] + pending[1..];
    if c != pending[0] {
      OverCapRepeat(rules, cloud, now, Swept(rules, cloud, now, p, pending[0]), pending[1..], c);
    }
  }

  lemma {:induction false} RepeatIsRisky(cloud: Cloud, now: real, p: Progress, pending: seq<Chat>) returns (cap: nat)
    requires !Distinct(pending) && Unseen(p, pending) && (forall n, id :: cloud.deletes(n, id))
    ensures cap > |p.kept| && !Careful(Rules(0.0, cap, {}), cloud, now, p, pending)
    decreases |pending|
  {
    var head, rest := pending[0], pending[1..];
    assert pending == [head] + rest;
    var n := p.(kept := p.kept + {head.id});
    if c :| c in rest && c.id == head.id {
      cap := |n.kept|;
      OverCapRepeat(Rules(0.0, cap, {}), cloud, now, n, rest, c);
    } else {
      cap := RepeatIsRisky(cloud, now, n, rest);
    }
    assert Swept(Rules(0.0, cap, {}), cloud, now, p, head) == n;
  }

  // The rows of a round are safe from this under every rule, clock and cloud
  // exactly when no id comes twice.
  lemma KeptIsSafeExactly(pending: seq<Chat>)
    ensures (forall rules, cloud, now :: Careful(rules, cloud, now, NOTHING, pending)) <==> Distinct(pending)
  {
    if Distinct(pending) {
      forall rules, cloud, now ensures Careful(rules, cloud, now, NOTHING, pending) {
        DistinctIsCareful(rules, cloud, now, NOTHING, pending);
      }
    } else {
      var cloud := Cloud((n, deleted) => None, n => 0.0, (n, id) => true);
      var cap := RepeatIsRisky(cloud, 0.0, NOTHING, pending);
    }
  }

  // Rows with known times, newest first.
  ghost predicate Descending(rows: seq<Chat>) {
    && (forall i, j :: 0 <= i < j < |rows| ==> UpdatedAt(rows[i]) >= UpdatedAt(rows[j]))
    && (forall i :: 0 <= i < |rows| ==> UpdatedAt(rows[i]) > 0.0)
  }

  // How many rows come before the first one to delete.
  function FirstDoomed(rules: Rules, now: real, kept: set<string>, rows: seq<Chat>): (count: nat)
    ensures count <= |rows|
    decreases |rows|
  {
    if rows == [] || Doomed(rules, now, UpdatedAt(rows[0]), |kept|) then 0
    else 1 + FirstDoomed(rules, now, kept + {rows[0].id}, rows[1..])
  }

  lemma {:induction false} DoomedFromHere(rules: Rules, cloud: Cloud, now: real, p: Progress, rows: seq<Chat>)
    requires Descending(rows) && (forall n, id :: cloud.deletes(n, id))
    requires rows != [] ==> Doomed(rules, now, UpdatedAt(rows[0]), |p.kept|)
    ensures Careful(rules, cloud, now, p, rows) <==> Unseen(p, rows)
    decreases |rows|
  {
    if rows != [] {
      var head, rest := rows[0], rows[1..];
      assert rows == [head] + rest && Descending(rest);
      if rest != [] {
        assert rest[0] == rows[1];
      }
      DoomedFromHere(rules, cloud, now, Swept(rules, cloud, now, p, head), rest);
    }
  }

  // No row from `first` on repeats an id that was kept, or that an earlier row has.
  ghost predicate NoneRepeats(kept: set<string>, rows: seq<Chat>, first: nat)
    requires first <= |rows|
  {
    forall c :: c in rows[first..] ==> c.id !in kept && forall k :: k in rows[..first] ==> k.id != c.id
  }

  lemma KeptOrEarlier(kept: set<string>, rows: seq<Chat>, first: nat)
    requires 0 < first <= |rows|
    ensures NoneRepeats(kept + {rows[0].id}, rows[1..], first - 1) <==> NoneRepeats(kept, rows, first)
  {
    var earlier := rows[1..][..first - 1];
    assert rows[1..][first - 1..] == rows[first..] && rows[..first] == [rows[0]] + earlier;
    assert forall k :: k in rows[..first] <==> k == rows[0] || k in earlier;
  }

  lemma DescendingTail(rows: seq<Chat>)
    requires Descending(rows) && rows != []
    ensures Descending(rows[1..])
  {
  }

  // For given rules and a given moment: when every deletion succeeds, a round
  // keeps its hands off what it kept exactly if no row from the first one to
  // delete on repeats an id kept before.
  lemma {:induction false} RoundSafeExactly(rules: Rules, cloud: Cloud, now: real, p: Progress, rows: seq<Chat>)
    requires Descending(rows) && (forall n, id :: cloud.deletes(n, id))
    ensures Careful(rules, cloud, now, p, rows) <==> NoneRepeats(p.kept, rows, FirstDoomed(rules, now, p.kept, rows))
    decreases |rows|
  {
    var first := FirstDoomed(rules, now, p.kept, rows);
    if first == 0 {
      assert rows[0..] == rows && rows[..0] == [];
      DoomedFromHere(rules, cloud, now, p, rows);
    } else {
      var n := p.(kept := p.kept + {rows[0].id});
      assert Careful(rules, cloud, now, p, rows) == Careful(rules, cloud, now, n, rows[1..]);
      DescendingTail(rows);
      RoundSafeExactly(rules, cloud, now, n, rows[1..]);
      KeptOrEarlier(p.kept, rows, first);
    }
  }

  lemma {:induction false} ExcludingDistinct(chats: seq<Chat>, ids: set<string>)
    requires Distinct(chats)
    ensures Distinct(Excluding(chats, ids))
  {
    if chats != [] {
      ExcludingDistinct(chats[1..], ids);
      ExcludingMeaning(chats[1..], ids);
      if chats[0].id !in ids {
        assert Excluding(chats, ids)[1..] == Excluding(chats[1..], ids);
      } else {
        assert Excluding(chats, ids) == Excluding(chats[1..], ids);
      }
    }
  }

  lemma {:induction false} PlacedDistinct(chat: Chat, rest: seq<Chat>)
    requires Distinct(rest) && forall c :: c in rest ==> c.id != chat.id
    ensures Distinct(Placed(chat, rest))
    ensures forall c :: c in Placed(chat, rest) <==> c == chat || c in rest
  {
    if rest != [] && UpdatedAt(chat) < UpdatedAt(rest[0]) {
      PlacedDistinct(chat, rest[1..]);
      assert rest == [rest[0]] + rest[1..];
      assert ([rest[0]] + Placed(chat, rest[1..]))[1..] == Placed(chat, rest[1..]);
    } else {
      assert ([chat] + rest)[1..] == rest;
    }
  }

  lemma {:induction false} NewestFirstDistinct(chats: seq<Chat>)
    requires Distinct(chats)
    ensures Distinct(NewestFirst(chats))
    ensures forall c :: c in NewestFirst(chats) <==> c in chats
  {
    if chats != [] {
      NewestFirstDistinct(chats[1..]);
      assert chats == [chats[0]] + chats[1..];
      PlacedDistinct(chats[0], NewestFirst(chats[1..]));
    }
  }

  ghost predicate CarefulRun(rules: Rules, cloud: Cloud, round: nat, p: Progress)
    decreases MAX_ROUNDS - round
  {
    round >= MAX_ROUNDS || cloud.listing(round, p.deleted).None? ||
    var pending := Pending(rules, p.kept, cloud.listing(round, p.deleted).value);
    var n := SweptAll(rules, cloud, cloud.clock(round), p, pending);
    && Careful(rules, cloud, cloud.clock(round), p, pending)
    && (|n.deleted| == |p.deleted| || CarefulRun(rules, cloud, round + 1, n))
  }

  // Over a whole cleanup: when no listing repeats an id, nothing that was kept
  // is attempted later, in that round or another.
  lemma {:induction false} KeptStays(rules: Rules, cloud: Cloud, round: nat, p: Progress)
    requires forall n, deleted :: cloud.listing(n, deleted).Some? ==> Distinct(cloud.listing(n, deleted).value)
    ensures CarefulRun(rules, cloud, round, p)
    decreases MAX_ROUNDS - round
  {
    if round < MAX_ROUNDS && cloud.listing(round, p.deleted).Some? {
      var rows := cloud.listing(round, p.deleted).value;
      var pending := Pending(rules, p.kept, rows);
      NewestFirstDistinct(rows);
      ExcludingDistinct(NewestFirst(rows), rules.whitelist + p.kept + {""});
      ExcludingMeaning(NewestFirst(rows), rules.whitelist + p.kept + {""});
      DistinctIsCareful(rules, cloud, cloud.clock(round), p, pending);
      KeptStays(rules, cloud, round + 1, SweptAll(rules, cloud, cloud.clock(round), p, pending));
    }
  }

  // ------------------------------------------------------------ rounds

  // What the first `round` rounds would come to if none ended the cleanup.
  ghost function AfterRounds(rules: Rules, cloud: Cloud, round: nat): Progress {
    if round == 0 then NOTHING
    else
      var p := AfterRounds(rules, cloud, round - 1);
      match cloud.listing(round - 1, p.deleted)
      case None => p
      case Some(rows) => SweptAll(rules, cloud, cloud.clock(round - 1), p, Pending(rules, p.kept, rows))
  }

  ghost predicate Deletes(rules: Rules, cloud: Cloud, round: nat) {
    |AfterRounds(rules, cloud, round + 1).deleted| != |AfterRounds(rules, cloud, round).deleted|
  }

  // The rounds from `round` on: each but the last deletes something, and the last
  // is the hundredth, deletes nothing, or finds no listing.
  ghost predicate RanFrom(rules: Rules, cloud: Cloud, round: nat, o: Outcome) {
    && round < o.listings <= 100 && o.progress == AfterRounds(rules, cloud, o.listings)
    && (forall r :: round <= r < o.listings - 1 ==> Deletes(rules, cloud, r))
    && (o.listings < 100 ==> !Deletes(rules, cloud, o.listings - 1))
    && (o.failed <==> cloud.listing(o.listings - 1, AfterRounds(rules, cloud, o.listings - 1).deleted).None?)
  }

  ghost function From(rules: Rules, cloud: Cloud, round: nat): Outcome {
    Cleaned(rules, cloud, round, AfterRounds(rules, cloud, round))
  }

  lemma OneRound(rules: Rules, cloud: Cloud, round: nat)
    requires round < 100
    ensures var p, n := AfterRounds(rules, cloud, round), AfterRounds(rules, cloud, round + 1);
      From(rules, cloud, round) ==
        if cloud.listing(round, p.deleted).None? then Outcome(n, true, round + 1)
        else if !Deletes(rules, cloud, round) then Outcome(n, false, round + 1)
        else From(rules, cloud, round + 1)
  {
  }

  lemma RanOneMore(rules: Rules, cloud: Cloud, round: nat, o: Outcome)
    requires RanFrom(rules, cloud, round + 1, o) && Deletes(rules, cloud, round)
    ensures RanFrom(rules, cloud, round, o)
  {
  }

  lemma RanLast(rules: Rules, cloud: Cloud, round: nat, failed: bool)
    requires round < 100 && (failed <==> cloud.listing(round, AfterRounds(rules, cloud, round).deleted).None?)
    requires round == 99 || !Deletes(rules, cloud, round)
    ensures RanFrom(rules, cloud, round, Outcome(AfterRounds(rules, cloud, round + 1), failed, round + 1))
  {
  }

  lemma LastRoundReached(rules: Rules, cloud: Cloud)
    ensures From(rules, cloud, 100) == Outcome(AfterRounds(rules, cloud, 100), false, 100)
  {
  }

  lemma {:induction false} GoesOnFrom(rules: Rules, cloud: Cloud, round: nat)
    requires round < 100
    ensures RanFrom(rules, cloud, round, From(rules, cloud, round))
    decreases 100 - round
  {
    OneRound(rules, cloud, round);
    var failed := cloud.listing(round, AfterRounds(rules, cloud, round).deleted).None?;
    if failed || !Deletes(rules, cloud, round) {
      RanLast(rules, cloud, round, failed);
    } else if round < 99 {
      GoesOnFrom(rules, cloud, round + 1);
      RanOneMore(rules, cloud, round, From(rules, cloud, round + 1));
    } else {
      LastRoundReached(rules, cloud);
      RanLast(rules, cloud, round, failed);
    }
  }

  // The cleanup lists again exactly while the round before deleted something, up
  // to a hundred times, and fails exactly if its last listing does.
  lemma GoesOnWhileItDeletes(rules: Rules, cloud: Cloud)
    ensures RanFrom(rules, cloud, 0, CleanUp(rules, cloud))
  {
    assert From(rules, cloud, 0) == CleanUp(rules, cloud);
    GoesOnFrom(rules, cloud, 0);
  }
}
