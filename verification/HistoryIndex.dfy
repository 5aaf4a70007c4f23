// The index from message histories to upstream sessions (history_index.py): a
// bounded store of digests that must agree with the histories it abbreviates.
// SHA-256 is a parameter without collisions.
module HistoryIndex {
  import opened Prelude

  const NUL: char := '\0'

  type Message = (string, string)   // role and normalized text
  type History = seq<Message>

  // ------------------------------------------------------------ the encoding

  // What is hashed for one history.
  function Encode(pairs: History): string {
    if pairs == [] then []
    else pairs[0].0 + [NUL] + pairs[0].1 + [NUL] + Encode(pairs[1..])
  }

  predicate NulFree(s: string) {
    NUL !in s
  }

  // The parts of a text between its NULs.
  function Split(s: string): (parts: seq<string>)
    ensures parts != [] && forall i :: 0 <= i < |parts| ==> NulFree(parts[i])
  {
    if s == [] then [[]]
    else if s[0] == NUL then [[]] + Split(s[1..])
    else var rest := Split(s[1..]); [[s[0]] + rest[0]] + rest[1..]
  }

  // Everything a history has between NULs, in order.
  function Pieces(pairs: History): (pieces: seq<string>)
    ensures forall i :: 0 <= i < |pieces| ==> NulFree(pieces[i])
  {
    if pairs == [] then [] else Split(pairs[0].0) + Split(pairs[0].1) + Pieces(pairs[1..])
  }

  function Terminated(pieces: seq<string>): string {
    if pieces == [] then [] else pieces[0] + [NUL] + Terminated(pieces[1..])
  }

  lemma {:induction false} TerminatedAppend(a: seq<string>, b: seq<string>)
    ensures Terminated(a + b) == Terminated(a) + Terminated(b)
  {
    if a == [] {
      assert a + b == b;
    } else {
      assert (a + b)[1..] == a[1..] + b;
      TerminatedAppend(a[1..], b);
    }
  }

  lemma {:induction false} SplitTerminated(s: string)
    ensures Terminated(Split(s)) == s + [NUL]
  {
    if s != [] {
      SplitTerminated(s[1..]);
      var rest := Split(s[1..]);
      if s[0] == NUL {
        assert ([[]] + rest)[1..] == rest;
      } else {
        var parts := [[s[0]] + rest[0]] + rest[1..];
        assert parts[1..] == rest[1..];
        assert Terminated(parts) == [s[0]] + (rest[0] + [NUL] + Terminated(rest[1..]));
        assert s == [s[0]] + s[1..];
      }
    }
  }

  lemma {:induction false} EncodeTerminated(pairs: History)
    ensures Encode(pairs) == Terminated(Pieces(pairs))
  {
    if pairs != [] {
      EncodeTerminated(pairs[1..]);
      SplitTerminated(pairs[0].0);
      SplitTerminated(pairs[0].1);
      TerminatedAppend(Split(pairs[0].0) + Split(pairs[0].1), Pieces(pairs[1..]));
      TerminatedAppend(Split(pairs[0].0), Split(pairs[0].1));
    }
  }

  lemma {:induction false} FirstPiece(a: string, b: string, x: string, y: string)
    requires NulFree(a) && NulFree(b) && a + [NUL] + x == b + [NUL] + y
    ensures a == b && x == y
  {
    var s := a + [NUL] + x;
    assert s[|a|] == NUL && s[|b|] == NUL;
    assert forall i :: 0 <= i < |a| ==> s[i] == a[i];
    assert forall i :: 0 <= i < |b| ==> s[i] == b[i];
    assert |a| == |b|;
    assert a == s[..|a|] && b == s[..|b|];
    assert x == s[|a| + 1..] && y == s[|b| + 1..];
  }

  lemma {:induction false} TerminatedInjective(a: seq<string>, b: seq<string>)
    requires forall i :: 0 <= i < |a| ==> NulFree(a[i])
    requires forall i :: 0 <= i < |b| ==> NulFree(b[i])
    requires Terminated(a) == Terminated(b)
    ensures a == b
  {
    if a == [] || b == [] {
    } else {
      FirstPiece(a[0], b[0], Terminated(a[1..]), Terminated(b[1..]));
      TerminatedInjective(a[1..], b[1..]);
      assert a == [a[0]] + a[1..] && b == [b[0]] + b[1..];
    }
  }

  // Two histories are hashed alike exactly when they have the same pieces.
  lemma EncodingMeaning(a: History, b: History)
    ensures Encode(a) == Encode(b) <==> Pieces(a) == Pieces(b)
  {
    EncodeTerminated(a);
    EncodeTerminated(b);
    if Encode(a) == Encode(b) {
      TerminatedInjective(Pieces(a), Pieces(b));
    }
  }

  ghost predicate Plain(pairs: History) {
    forall i :: 0 <= i < |pairs| ==> NulFree(pairs[i].0) && NulFree(pairs[i].1)
  }

  // So without NULs in roles and texts no two histories are hashed alike.
  lemma {:induction false} PlainHistoriesDiffer(a: History, b: History)
    requires Plain(a) && Plain(b) && Encode(a) == Encode(b)
    ensures a == b
  {
    if a == [] || b == [] {
    } else {
      var restA := a[0].1 + [NUL] + Encode(a[1..]);
      var restB := b[0].1 + [NUL] + Encode(b[1..]);
      assert Encode(a) == a[0].0 + [NUL] + restA && Encode(b) == b[0].0 + [NUL] + restB;
      FirstPiece(a[0].0, b[0].0, restA, restB);
      FirstPiece(a[0].1, b[0].1, Encode(a[1..]), Encode(b[1..]));
      PlainHistoriesDiffer(a[1..], b[1..]);
      assert a == [a[0]] + a[1..] && b == [b[0]] + b[1..];
    }
  }

  // A NUL inside a message makes one message look like two.
  lemma NulInTextCollides()
    ensures exists a: History, b: History :: a != b && Encode(a) == Encode(b)
  {
    var a: History := [("user", "hi" + [NUL] + "assistant" + [NUL] + "yo")];
    var b: History := [("user", "hi"), ("assistant", "yo")];
    assert |a| != |b|;
    assert a[1..] == [] && b[1..] == [("assistant", "yo")] && b[1..][1..] == [];
    assert Encode(b[1..]) == "assistant" + [NUL] + "yo" + [NUL];
    assert Encode(a) == "user" + [NUL] + ("hi" + [NUL] + "assistant" + [NUL] + "yo") + [NUL] + [];
    assert Encode(a) == Encode(b);
  }

  // ------------------------------------------------------------ the index

  // An ordered dictionary from digests to owner sets, least recently used
  // first, and two counters.
  datatype Index = Index(order: seq<string>, owners: map<string, set<string>>, hits: nat, misses: nat)

  datatype Call =
    | RecordCall(tenant: string, pairs: History, owner: string)
    | MatchCall(tenant: string, pairs: History)

  const EMPTY := Index([], map[], 0, 0)
  const MAX_OWNERS := 2

  function EntryKey(sha: string -> string, tenant: string, pairs: History): string {
    tenant + [NUL] + sha(Encode(pairs))
  }

  function Without(order: seq<string>, k: string): seq<string> {
    if order == [] then [] else (if order[0] == k then [] else [order[0]]) + Without(order[1..], k)
  }

  function MoveToEnd(order: seq<string>, k: string): seq<string> {
    Without(order, k) + [k]
  }

  // The length of the longest recorded prefix of at most `n` messages, or 0.
  function Longest(sha: string -> string, owners: map<string, set<string>>, tenant: string, pairs: History, n: nat): (length: nat)
    requires n <= |pairs|
    ensures length <= n && (length > 0 ==> EntryKey(sha, tenant, pairs[..length]) in owners)
    ensures forall m :: length < m <= n ==> EntryKey(sha, tenant, pairs[..m]) !in owners
  {
    if n == 0 || EntryKey(sha, tenant, pairs[..n]) in owners then n
    else Longest(sha, owners, tenant, pairs, n - 1)
  }

  ghost function Matched(sha: string -> string, ix: Index, tenant: string, pairs: History): (Index, Option<string>) {
    var n := if pairs == [] then 0 else Longest(sha, ix.owners, tenant, pairs, |pairs| - 1);
    var key := EntryKey(sha, tenant, pairs[..n]);
    if n == 0 || key !in ix.owners then (ix.(misses := ix.misses + 1), None)
    else
      var moved := ix.(order := MoveToEnd(ix.order, key));
      if |ix.owners[key]| == 1
      then (moved.(hits := ix.hits + 1), Some(var owner :| owner in ix.owners[key]; owner))
      else (moved.(misses := ix.misses + 1), None)
  }

  function WithOwner(owners: map<string, set<string>>, key: string, owner: string): map<string, set<string>> {
    var known := if key in owners then owners[key] else {};
    owners[key := if |known| < MAX_OWNERS then known + {owner} else known]
  }

  function Restrict(owners: map<string, set<string>>, order: seq<string>): map<string, set<string>> {
    map k | k in owners && k in order :: owners[k]
  }

  // The `max` most recently used entries.
  function Trimmed(ix: Index, max: nat): Index {
    ix.(order := Last(ix.order, max), owners := Restrict(ix.owners, Last(ix.order, max)))
  }

  function Recorded(sha: string -> string, max: nat, ix: Index, tenant: string, pairs: History, owner: string): Index {
    if pairs == [] then ix
    else
      var key := EntryKey(sha, tenant, pairs);
      Trimmed(ix.(order := MoveToEnd(ix.order, key), owners := WithOwner(ix.owners, key, owner)), max)
  }

  ghost function Step(sha: string -> string, max: nat, ix: Index, call: Call): Index {
    match call
    case RecordCall(tenant, pairs, owner) => Recorded(sha, max, ix, tenant, pairs, owner)
    case MatchCall(tenant, pairs) => Matched(sha, ix, tenant, pairs).0
  }

  ghost function Replay(sha: string -> string, max: nat, calls: seq<Call>): Index {
    if calls == [] then EMPTY
    else Step(sha, max, Replay(sha, max, calls[..|calls| - 1]), calls[|calls| - 1])
  }

  // ------------------------------------------------------------ plain history

  ghost predicate Records(call: Call) {
    call.RecordCall? && call.pairs != []
  }

  // The owners recorded for exactly this history, had nothing been abbreviated.
  ghost function OwnersOf(calls: seq<Call>, tenant: string, code: string): set<string> {
    if calls == [] then {}
    else
      var c := calls[|calls| - 1];
      OwnersOf(calls[..|calls| - 1], tenant, code)
      + if Records(c) && c.tenant == tenant && Encode(c.pairs) == code then {c.owner} else {}
  }

  // The distinct histories recorded.
  ghost function Distinct(calls: seq<Call>): set<(string, string)> {
    if calls == [] then {}
    else
      var c := calls[|calls| - 1];
      Distinct(calls[..|calls| - 1]) + if Records(c) then {(c.tenant, Encode(c.pairs))} else {}
  }

  // The longest recorded strict prefix has `owner` as its only owner.
  ghost predicate UniqueOwner(calls: seq<Call>, tenant: string, pairs: History, owner: string) {
    exists n :: 0 < n < |pairs| && IsLongest(calls, tenant, pairs, n) && OwnersOf(calls, tenant, Encode(pairs[..n])) == {owner}
  }

  ghost predicate IsLongest(calls: seq<Call>, tenant: string, pairs: History, n: nat) {
    && 0 < n < |pairs|
    && OwnersOf(calls, tenant, Encode(pairs[..n])) != {}
    && forall m :: n < m < |pairs| ==> OwnersOf(calls, tenant, Encode(pairs[..m])) == {}
  }

  // SHA-256 has no collisions, and no tenant id contains a NUL.
  ghost predicate CollisionFree(sha: string -> string) {
    forall a, b :: sha(a) == sha(b) ==> a == b
  }

  ghost predicate Tenants(calls: seq<Call>) {
    forall c :: c in calls ==> NulFree(c.tenant)
  }

  lemma KeysDiffer(sha: string -> string, t: string, a: History, u: string, b: History)
    requires CollisionFree(sha) && NulFree(t) && NulFree(u) && EntryKey(sha, t, a) == EntryKey(sha, u, b)
    ensures t == u && Encode(a) == Encode(b)
  {
    FirstPiece(t, u, sha(Encode(a)), sha(Encode(b)));
  }

  // ------------------------------------------------------------ the order

  ghost predicate NoRepeats(order: seq<string>) {
    forall i, j :: 0 <= i < j < |order| ==> order[i] != order[j]
  }

  ghost predicate Tidy(ix: Index, max: nat) {
    && NoRepeats(ix.order) && |ix.order| <= max
    && (forall k :: k in ix.order <==> k in ix.owners)
    && (forall k :: k in ix.owners ==> 1 <= |ix.owners[k]| <= MAX_OWNERS)
  }

  lemma {:induction false} WithoutMeaning(order: seq<string>, k: string)
    requires NoRepeats(order)
    ensures NoRepeats(Without(order, k))
    ensures forall x :: x in Without(order, k) <==> x in order && x != k
    ensures |Without(order, k)| == |order| - (if k in order then 1 else 0)
  {
    if order != [] {
      WithoutMeaning(order[1..], k);
      assert order == [order[0]] + order[1..];
      assert order[0] !in order[1..];
    }
  }

  lemma MovedMeaning(order: seq<string>, k: string)
    requires NoRepeats(order)
    ensures NoRepeats(MoveToEnd(order, k))
    ensures forall x :: x in MoveToEnd(order, k) <==> x in order || x == k
    ensures |MoveToEnd(order, k)| == |order| + (if k in order then 0 else 1)
  {
    WithoutMeaning(order, k);
  }

  lemma StepTidy(sha: string -> string, max: nat, ix: Index, call: Call)
    requires Tidy(ix, max)
    ensures Tidy(Step(sha, max, ix, call), max)
  {
    match call {
      case RecordCall(tenant, pairs, owner) =>
        if pairs != [] {
          var key := EntryKey(sha, tenant, pairs);
          MovedMeaning(ix.order, key);
          var grown := ix.(order := MoveToEnd(ix.order, key), owners := WithOwner(ix.owners, key, owner));
          AddedOwner(ix.owners, key, owner);
          TrimmedTidy(grown, max);
        }
      case MatchCall(tenant, pairs) =>
        var n := if pairs == [] then 0 else Longest(sha, ix.owners, tenant, pairs, |pairs| - 1);
        MovedMeaning(ix.order, EntryKey(sha, tenant, pairs[..n]));
    }
  }

  lemma AddedOwner(owners: map<string, set<string>>, key: string, owner: string)
    requires forall k :: k in owners ==> 1 <= |owners[k]| <= MAX_OWNERS
    ensures forall k :: k in WithOwner(owners, key, owner) ==> 1 <= |WithOwner(owners, key, owner)[k]| <= MAX_OWNERS
  {
  }

  lemma TrimmedTidy(ix: Index, max: nat)
    requires NoRepeats(ix.order) && (forall k :: k in ix.order <==> k in ix.owners)
    requires forall k :: k in ix.owners ==> 1 <= |ix.owners[k]| <= MAX_OWNERS
    ensures Tidy(Trimmed(ix, max), max)
  {
  }

  ghost function Lookups(calls: seq<Call>): nat {
    if calls == [] then 0 else Lookups(calls[..|calls| - 1]) + (if calls[|calls| - 1].MatchCall? then 1 else 0)
  }

  // The store never outgrows its cap, holds at most two owners an entry, and
  // counts every lookup once.
  lemma {:induction false} AlwaysTidy(sha: string -> string, max: nat, calls: seq<Call>)
    ensures Tidy(Replay(sha, max, calls), max)
    ensures Replay(sha, max, calls).hits + Replay(sha, max, calls).misses == Lookups(calls)
  {
    if calls != [] {
      AlwaysTidy(sha, max, calls[..|calls| - 1]);
      StepTidy(sha, max, Replay(sha, max, calls[..|calls| - 1]), calls[|calls| - 1]);
    }
  }

  // The lookups that were given an owner.
  ghost function Answered(sha: string -> string, max: nat, calls: seq<Call>): nat {
    if calls == [] then 0
    else
      var front, call := calls[..|calls| - 1], calls[|calls| - 1];
      Answered(sha, max, front)
      + (if call.MatchCall? && Matched(sha, Replay(sha, max, front), call.tenant, call.pairs).1.Some? then 1 else 0)
  }

  // A hit is a lookup that was given an owner, a miss one that was not, and
  // recording counts as neither.
  lemma {:induction false} CountersExact(sha: string -> string, max: nat, calls: seq<Call>)
    ensures Replay(sha, max, calls).hits == Answered(sha, max, calls)
    ensures Replay(sha, max, calls).misses == Lookups(calls) - Answered(sha, max, calls)
  {
    if calls != [] {
      CountersExact(sha, max, calls[..|calls| - 1]);
    }
  }

  // ------------------------------------------------------------ agreement

  // The index that would result with no bounds at all.
  ghost function Full(sha: string -> string, calls: seq<Call>): map<string, set<string>> {
    if calls == [] then map[]
    else Grown(sha, Full(sha, calls[..|calls| - 1]), calls[|calls| - 1])
  }

  ghost function Grown(sha: string -> string, full: map<string, set<string>>, call: Call): map<string, set<string>> {
    if Records(call) then AddTo(full, EntryKey(sha, call.tenant, call.pairs), call.owner) else full
  }

  function AddTo(full: map<string, set<string>>, key: string, owner: string): map<string, set<string>> {
    full[key := At(full, key) + {owner}]
  }

  function At(full: map<string, set<string>>, key: string): set<string> {
    if key in full then full[key] else {}
  }

  // An entry stands for its full owner set: contained in it, and while the
  // history is exact, equal to it unless the entry is full.
  ghost predicate StandsFor(kept: set<string>, all: set<string>, exact: bool) {
    kept <= all && (exact && |kept| < MAX_OWNERS ==> kept == all)
  }

  ghost predicate Abbreviates(owners: map<string, set<string>>, full: map<string, set<string>>, exact: bool) {
    && (exact ==> owners.Keys == full.Keys)
    && forall k :: k in owners ==> k in full && StandsFor(owners[k], full[k], exact)
  }

  ghost predicate Agrees(max: nat, ix: Index, full: map<string, set<string>>) {
    Abbreviates(ix.owners, full, |full| <= max)
  }

  lemma {:induction false} CardOfOrder(order: seq<string>)
    requires NoRepeats(order)
    ensures |set k | k in order| == |order|
  {
    if order != [] {
      CardOfOrder(order[1..]);
      assert order == [order[0]] + order[1..];
      assert (set k | k in order) == {order[0]} + set k | k in order[1..];
      assert order[0] !in order[1..];
    }
  }

  lemma SubsetCard<T>(a: set<T>, b: set<T>)
    requires a <= b
    ensures |a| <= |b|
  {
    assert b == a + (b - a);
  }

  lemma OneMoreOwner(kept: set<string>, all: set<string>, exact: bool, owner: string)
    requires StandsFor(kept, all, exact)
    ensures StandsFor(if |kept| < MAX_OWNERS then kept + {owner} else kept, all + {owner}, exact)
  {
  }

  lemma GrownAbbreviates(owners: map<string, set<string>>, full: map<string, set<string>>, exact: bool, key: string, owner: string)
    requires Abbreviates(owners, full, exact)
    ensures Abbreviates(WithOwner(owners, key, owner), AddTo(full, key, owner), exact)
  {
    var grown, more := WithOwner(owners, key, owner), AddTo(full, key, owner);
    OneMoreOwner(At(owners, key), At(full, key), exact, owner);
    forall k | k in grown ensures k in more && StandsFor(grown[k], more[k], exact) {
      if k == key {
        assert more[k] == At(full, key) + {owner};
      } else {
        assert grown[k] == owners[k] && more[k] == full[k];
      }
    }
    assert exact ==> grown.Keys == owners.Keys + {key};
  }

  // Before anything is dropped.
  lemma GrownAgrees(max: nat, ix: Index, full: map<string, set<string>>, key: string, owner: string)
    requires Agrees(max, ix, full)
    ensures Agrees(max, ix.(owners := WithOwner(ix.owners, key, owner)), AddTo(full, key, owner))
  {
    var more := AddTo(full, key, owner);
    SubsetCard(full.Keys, more.Keys);
    assert Abbreviates(ix.owners, full, |more| <= max);
    GrownAbbreviates(ix.owners, full, |more| <= max, key, owner);
  }

  lemma TrimmedAgrees(max: nat, ix: Index, full: map<string, set<string>>)
    requires Agrees(max, ix, full) && NoRepeats(ix.order) && (forall k :: k in ix.order <==> k in ix.owners)
    ensures Agrees(max, Trimmed(ix, max), full)
  {
    if |full| <= max {
      CardOfOrder(ix.order);
      assert (set k | k in ix.order) == full.Keys;
      assert Trimmed(ix, max).owners == ix.owners;
    }
  }

  lemma StepAgrees(sha: string -> string, max: nat, ix: Index, full: map<string, set<string>>, call: Call)
    requires Tidy(ix, max) && Agrees(max, ix, full)
    ensures Agrees(max, Step(sha, max, ix, call), Grown(sha, full, call))
  {
    if Records(call) {
      var key := EntryKey(sha, call.tenant, call.pairs);
      var owners := WithOwner(ix.owners, key, call.owner);
      GrownAgrees(max, ix, full, key, call.owner);
      MovedMeaning(ix.order, key);
      TrimmedAgrees(max, ix.(order := MoveToEnd(ix.order, key), owners := owners), AddTo(full, key, call.owner));
    } else {
      assert Step(sha, max, ix, call).owners == ix.owners;
    }
  }

  lemma {:induction false} AlwaysAgrees(sha: string -> string, max: nat, calls: seq<Call>)
    ensures Agrees(max, Replay(sha, max, calls), Full(sha, calls))
  {
    if calls != [] {
      var front := calls[..|calls| - 1];
      AlwaysAgrees(sha, max, front);
      AlwaysTidy(sha, max, front);
      StepAgrees(sha, max, Replay(sha, max, front), Full(sha, front), calls[|calls| - 1]);
    }
  }

  lemma {:induction false} FullMeaning(sha: string -> string, calls: seq<Call>, tenant: string, pairs: History)
    requires CollisionFree(sha) && Tenants(calls) && NulFree(tenant)
    ensures At(Full(sha, calls), EntryKey(sha, tenant, pairs)) == OwnersOf(calls, tenant, Encode(pairs))
    ensures EntryKey(sha, tenant, pairs) in Full(sha, calls) <==> OwnersOf(calls, tenant, Encode(pairs)) != {}
  {
    if calls != [] {
      var c := calls[|calls| - 1];
      FullMeaning(sha, calls[..|calls| - 1], tenant, pairs);
      if Records(c) && EntryKey(sha, c.tenant, c.pairs) == EntryKey(sha, tenant, pairs) {
        KeysDiffer(sha, c.tenant, c.pairs, tenant, pairs);
      }
    }
  }

  lemma {:induction false} DistinctHasKey(sha: string -> string, calls: seq<Call>, tenant: string, pairs: History)
    requires (tenant, Encode(pairs)) in Distinct(calls)
    ensures EntryKey(sha, tenant, pairs) in Full(sha, calls)
  {
    var c := calls[|calls| - 1];
    if !Records(c) || (c.tenant, Encode(c.pairs)) != (tenant, Encode(pairs)) {
      DistinctHasKey(sha, calls[..|calls| - 1], tenant, pairs);
    }
  }

  lemma {:induction false} FewKeys(sha: string -> string, calls: seq<Call>)
    ensures |Full(sha, calls)| <= |Distinct(calls)|
  {
    if calls != [] {
      var front, c := calls[..|calls| - 1], calls[|calls| - 1];
      FewKeys(sha, front);
      if Records(c) {
        var key, pair := EntryKey(sha, c.tenant, c.pairs), (c.tenant, Encode(c.pairs));
        assert Full(sha, calls).Keys == Full(sha, front).Keys + {key};
        assert Distinct(calls) == Distinct(front) + {pair};
        if pair in Distinct(front) {
          DistinctHasKey(sha, front, c.tenant, c.pairs);
          assert Distinct(calls) == Distinct(front) && Full(sha, calls).Keys == Full(sha, front).Keys;
        }
      }
    }
  }

  // Whatever is answered was recorded for some strict prefix under that tenant,
  // however much has been evicted.
  lemma AnswersWereRecorded(sha: string -> string, max: nat, calls: seq<Call>, tenant: string, pairs: History)
    requires CollisionFree(sha) && Tenants(calls) && NulFree(tenant)
    ensures var answer := Matched(sha, Replay(sha, max, calls), tenant, pairs).1;
      answer.Some? ==> exists n :: 0 < n < |pairs| && answer.value in OwnersOf(calls, tenant, Encode(pairs[..n]))
  {
    AlwaysAgrees(sha, max, calls);
    var ix := Replay(sha, max, calls);
    if Matched(sha, ix, tenant, pairs).1.Some? {
      var n := Longest(sha, ix.owners, tenant, pairs, |pairs| - 1);
      FullMeaning(sha, calls, tenant, pairs[..n]);
    }
  }

  // Up to `max` distinct histories, the answer is the only owner of the longest
  // recorded strict prefix, and there is no answer exactly when no prefix was
  // recorded or that one has several owners.
  lemma MatchFindsTheUniqueOwner(sha: string -> string, max: nat, calls: seq<Call>, tenant: string, pairs: History, owner: string)
    requires CollisionFree(sha) && Tenants(calls) && NulFree(tenant) && |Distinct(calls)| <= max
    ensures Matched(sha, Replay(sha, max, calls), tenant, pairs).1 == Some(owner) <==> UniqueOwner(calls, tenant, pairs, owner)
  {
    if pairs != [] {
      AlwaysAgrees(sha, max, calls);
      AlwaysTidy(sha, max, calls);
      FewKeys(sha, calls);
      var ix := Replay(sha, max, calls);
      var n := Longest(sha, ix.owners, tenant, pairs, |pairs| - 1);
      LongestMeaning(sha, ix.owners, calls, tenant, pairs);
      if n > 0 {
        FullMeaning(sha, calls, tenant, pairs[..n]);
        OneOrMore(ix.owners[EntryKey(sha, tenant, pairs[..n])], OwnersOf(calls, tenant, Encode(pairs[..n])), owner);
      }
    }
  }

  lemma LongestMeaning(sha: string -> string, owners: map<string, set<string>>, calls: seq<Call>, tenant: string, pairs: History)
    requires CollisionFree(sha) && Tenants(calls) && NulFree(tenant) && pairs != [] && owners.Keys == Full(sha, calls).Keys
    ensures var n := Longest(sha, owners, tenant, pairs, |pairs| - 1);
      && (n > 0 ==> IsLongest(calls, tenant, pairs, n))
      && (forall m :: IsLongest(calls, tenant, pairs, m) ==> m == n)
  {
    forall m | 0 < m < |pairs|
      ensures EntryKey(sha, tenant, pairs[..m]) in owners <==> OwnersOf(calls, tenant, Encode(pairs[..m])) != {}
    {
      FullMeaning(sha, calls, tenant, pairs[..m]);
    }
  }

  // An owner set of at most two tells one owner from several.
  lemma OneOrMore(kept: set<string>, all: set<string>, owner: string)
    requires 1 <= |kept| <= MAX_OWNERS && kept <= all && (|kept| < MAX_OWNERS ==> kept == all)
    ensures |kept| == 1 && owner in kept <==> all == {owner}
    ensures |kept| == 1 && owner in kept ==> kept == {owner}
  {
    SubsetCard(kept, all);
    if |kept| == 1 && owner in kept {
      SubsetCard({owner}, kept);
      assert kept == {owner} + (kept - {owner});
    }
  }

  // ------------------------------------------------------------ eviction

  // The entries used more recently than `k`.
  function LaterThan(order: seq<string>, k: string): set<string> {
    if order == [] then {}
    else if order[0] == k then set x | x in order[1..]
    else LaterThan(order[1..], k)
  }

  // The entry a call uses, if any.
  ghost function Touch(sha: string -> string, ix: Index, call: Call): Option<string> {
    match call
    case RecordCall(tenant, pairs, _) => if pairs == [] then None else Some(EntryKey(sha, tenant, pairs))
    case MatchCall(tenant, pairs) =>
      var n := if pairs == [] then 0 else Longest(sha, ix.owners, tenant, pairs, |pairs| - 1);
      if n == 0 then None else Some(EntryKey(sha, tenant, pairs[..n]))
  }

  function AsSet(touched: Option<string>): set<string> {
    if touched.None? then {} else {touched.value}
  }

  ghost function TouchedAfter(sha: string -> string, max: nat, before: seq<Call>, calls: seq<Call>): set<string> {
    if calls == [] then {}
    else
      var front := calls[..|calls| - 1];
      TouchedAfter(sha, max, before, front) + AsSet(Touch(sha, Replay(sha, max, before + front), calls[|calls| - 1]))
  }

  // One more use.
  function SinceAfter(since: Option<set<string>>, touched: Option<string>, k: string): Option<set<string>> {
    if touched == Some(k) then Some({})
    else if since.None? then None
    else Some(since.value + AsSet(touched))
  }

  // The other entries used since `k` was last used; nothing if it never was.
  ghost function UsedSince(sha: string -> string, max: nat, calls: seq<Call>, k: string): Option<set<string>> {
    if calls == [] then None
    else
      var front := calls[..|calls| - 1];
      SinceAfter(UsedSince(sha, max, front, k), Touch(sha, Replay(sha, max, front), calls[|calls| - 1]), k)
  }

  // Fewer than `max` other entries were used since the last use of `k`.
  ghost predicate Stored(sha: string -> string, max: nat, calls: seq<Call>, k: string) {
    var since := UsedSince(sha, max, calls, k);
    since.Some? && |since.value| < max
  }

  lemma {:induction false} LaterMoved(order: seq<string>, k: string, x: string)
    requires NoRepeats(order) && k in order
    ensures k in MoveToEnd(order, x)
    ensures LaterThan(MoveToEnd(order, x), k) == if x == k then {} else LaterThan(order, k) + {x}
  {
    WithoutMeaning(order, x);
    if x != k {
      LaterAppended(Without(order, x), k, x);
      LaterWithout(order, k, x);
    } else {
      NotThere(Without(order, k), k);
    }
  }

  lemma {:induction false} NotThere(order: seq<string>, k: string)
    requires k !in order
    ensures LaterThan(order + [k], k) == {}
  {
    if order != [] {
      assert (order + [k])[1..] == order[1..] + [k];
      NotThere(order[1..], k);
    }
  }

  lemma {:induction false} LaterWithout(order: seq<string>, k: string, x: string)
    requires NoRepeats(order) && x != k && k in order
    ensures LaterThan(Without(order, x), k) == LaterThan(order, k) - {x}
  {
    var tail := order[1..];
    var rest := Without(tail, x);
    assert order == [order[0]] + tail;
    WithoutMeaning(tail, x);
    if order[0] == k {
      assert Without(order, x) == [k] + rest && Without(order, x)[1..] == rest;
    } else {
      LaterWithout(tail, k, x);
      if order[0] != x {
        assert Without(order, x) == [order[0]] + rest && Without(order, x)[1..] == rest;
      } else {
        assert Without(order, x) == rest;
        LaterIsThere(tail, k);
      }
    }
  }

  lemma {:induction false} LaterIsThere(order: seq<string>, k: string)
    requires NoRepeats(order)
    ensures forall x :: x in LaterThan(order, k) ==> x in order && x != k
  {
    if order != [] {
      LaterIsThere(order[1..], k);
      assert order == [order[0]] + order[1..];
    }
  }

  lemma {:induction false} LaterAppended(order: seq<string>, k: string, x: string)
    requires k in order
    ensures LaterThan(order + [x], k) == LaterThan(order, k) + {x}
  {
    assert (order + [x])[1..] == order[1..] + [x];
    if order[0] != k {
      LaterAppended(order[1..], k, x);
    }
  }

  lemma {:induction false} LaterCount(order: seq<string>, k: string)
    requires NoRepeats(order) && k in order
    ensures |LaterThan(order, k)| < |order|
  {
    var rest := order[1..];
    if order[0] == k {
      CardOfOrder(rest);
    } else {
      LaterCount(rest, k);
    }
  }

  // Dropping all but the last `max` keeps `k` exactly if fewer than `max` are
  // later.
  lemma {:induction false} LateEnoughStays(order: seq<string>, k: string, max: nat)
    requires NoRepeats(order) && k in order
    ensures k in Last(order, max) <==> |LaterThan(order, k)| < max
    ensures k in Last(order, max) ==> LaterThan(Last(order, max), k) == LaterThan(order, k)
  {
    if |order| <= max {
      LaterCount(order, k);
    } else {
      var rest := order[1..];
      assert order == [order[0]] + rest;
      LastOfTail(order, max);
      if order[0] == k {
        CardOfOrder(rest);
      } else {
        LateEnoughStays(rest, k, max);
      }
    }
  }

  lemma LastOfTail(order: seq<string>, max: nat)
    requires |order| > max
    ensures Last(order, max) == Last(order[1..], max)
    ensures forall x :: x in Last(order, max) ==> x in order[1..]
  {
  }

  // Every call moves the entry it uses to the end of the order and drops what
  // is beyond the cap; a lookup uses only entries that are there.
  lemma StepOrder(sha: string -> string, max: nat, ix: Index, call: Call)
    requires Tidy(ix, max)
    ensures var order := Step(sha, max, ix, call).order;
      match Touch(sha, ix, call)
      case None => order == ix.order
      case Some(x) => order == Last(MoveToEnd(ix.order, x), max) && (call.MatchCall? ==> x in ix.order)
  {
    if call.MatchCall? && Touch(sha, ix, call).Some? {
      MovedMeaning(ix.order, Touch(sha, ix, call).value);
    }
  }

  // One use of `x` moves `k` one place back, or out.
  lemma UseMoves(order: seq<string>, k: string, x: string, max: nat)
    requires NoRepeats(order)
    ensures var moved := Last(MoveToEnd(order, x), max);
      && (k in order && k != x ==> (k in moved <==> |LaterThan(order, k) + {x}| < max))
      && (k in order && k != x && k in moved ==> LaterThan(moved, k) == LaterThan(order, k) + {x})
      && (k == x ==> (k in moved <==> max > 0) && (k in moved ==> LaterThan(moved, k) == {}))
      && (k !in order && k != x ==> k !in moved)
  {
    MovedMeaning(order, x);
    WithoutMeaning(order, x);
    if k in order {
      LaterMoved(order, k, x);
      LateEnoughStays(MoveToEnd(order, x), k, max);
    } else if k == x {
      NotThere(Without(order, k), k);
      LateEnoughStays(MoveToEnd(order, x), k, max);
    }
  }

  ghost predicate PlacedBy(since: Option<set<string>>, order: seq<string>, k: string, max: nat) {
    && (k in order <==> since.Some? && |since.value| < max)
    && (k in order ==> LaterThan(order, k) == since.value)
  }

  lemma UsePlaces(since: Option<set<string>>, order: seq<string>, k: string, x: string, max: nat)
    requires NoRepeats(order) && PlacedBy(since, order, k, max)
    ensures PlacedBy(SinceAfter(since, Some(x), k), Last(MoveToEnd(order, x), max), k, max)
  {
    UseMoves(order, k, x, max);
    if x != k && since.Some? {
      SubsetCard(since.value, since.value + {x});
    }
  }

  lemma {:induction false} AlwaysPlaced(sha: string -> string, max: nat, calls: seq<Call>, k: string)
    ensures PlacedBy(UsedSince(sha, max, calls, k), Replay(sha, max, calls).order, k, max)
  {
    if calls != [] {
      var front, call := calls[..|calls| - 1], calls[|calls| - 1];
      var ix := Replay(sha, max, front);
      AlwaysPlaced(sha, max, front, k);
      AlwaysTidy(sha, max, front);
      StepOrder(sha, max, ix, call);
      var touched, since := Touch(sha, ix, call), UsedSince(sha, max, front, k);
      if touched.Some? {
        UsePlaces(since, ix.order, k, touched.value, max);
      } else if since.Some? {
        assert since.value + AsSet(touched) == since.value;
      }
    }
  }

  // Least recently used goes first, exactly: after any calls an entry is stored
  // if and only if fewer than `max` other entries were used since its last use.
  lemma StoredExactly(sha: string -> string, max: nat, calls: seq<Call>, k: string)
    ensures k in Replay(sha, max, calls).owners <==> Stored(sha, max, calls, k)
  {
    AlwaysPlaced(sha, max, calls, k);
    AlwaysTidy(sha, max, calls);
  }

  lemma UsedAppend(sha: string -> string, max: nat, front: seq<Call>, call: Call, k: string)
    ensures UsedSince(sha, max, front + [call], k)
            == SinceAfter(UsedSince(sha, max, front, k), Touch(sha, Replay(sha, max, front), call), k)
  {
    assert (front + [call])[..|front|] == front;
  }

  // `since` is what was touched, up to further uses of `k` itself.
  ghost predicate Within(since: Option<set<string>>, touched: set<string>, k: string) {
    since.Some? && since.value <= touched - {k} && (k !in touched ==> since.value == touched)
  }

  lemma StaysWithin(since: Option<set<string>>, past: set<string>, touched: Option<string>, k: string)
    requires Within(since, past, k) && k !in since.value
    ensures Within(SinceAfter(since, touched, k), past + AsSet(touched), k)
  {
  }

  lemma {:induction false} UsedSinceRecord(sha: string -> string, max: nat, before: seq<Call>, call: Call, calls: seq<Call>)
    requires Records(call)
    ensures var k := EntryKey(sha, call.tenant, call.pairs);
      Within(UsedSince(sha, max, before + [call] + calls, k), TouchedAfter(sha, max, before + [call], calls), k)
  {
    var k := EntryKey(sha, call.tenant, call.pairs);
    if calls == [] {
      assert before + [call] + calls == before + [call];
      UsedAppend(sha, max, before, call, k);
    } else {
      var front, last := calls[..|calls| - 1], calls[|calls| - 1];
      UsedSinceRecord(sha, max, before, call, front);
      assert before + [call] + calls == before + [call] + front + [last];
      UsedAppend(sha, max, before + [call] + front, last, k);
      StaysWithin(UsedSince(sha, max, before + [call] + front, k), TouchedAfter(sha, max, before + [call], front),
                  Touch(sha, Replay(sha, max, before + [call] + front), last), k);
    }
  }

  // A recorded history survives while fewer than `max` other entries are used.
  lemma RecentRecordsSurvive(sha: string -> string, max: nat, before: seq<Call>, call: Call, calls: seq<Call>)
    requires Records(call)
    requires |TouchedAfter(sha, max, before + [call], calls) - {EntryKey(sha, call.tenant, call.pairs)}| < max
    ensures EntryKey(sha, call.tenant, call.pairs) in Replay(sha, max, before + [call] + calls).owners
  {
    var k, all := EntryKey(sha, call.tenant, call.pairs), before + [call] + calls;
    UsedSinceRecord(sha, max, before, call, calls);
    SubsetCard(UsedSince(sha, max, all, k).value, TouchedAfter(sha, max, before + [call], calls) - {k});
    StoredExactly(sha, max, all, k);
  }

  // And if it is not used again itself, it is gone from the `max`-th other
  // entry on.
  lemma EvictedExactly(sha: string -> string, max: nat, before: seq<Call>, call: Call, calls: seq<Call>)
    requires Records(call)
    requires EntryKey(sha, call.tenant, call.pairs) !in TouchedAfter(sha, max, before + [call], calls)
    ensures EntryKey(sha, call.tenant, call.pairs) in Replay(sha, max, before + [call] + calls).owners
            <==> |TouchedAfter(sha, max, before + [call], calls)| < max
  {
    UsedSinceRecord(sha, max, before, call, calls);
    StoredExactly(sha, max, before + [call] + calls, EntryKey(sha, call.tenant, call.pairs));
  }

  // ------------------------------------------------------------ forgotten owners

  ghost predicate RecordsKey(sha: string -> string, call: Call, k: string) {
    Records(call) && EntryKey(sha, call.tenant, call.pairs) == k
  }

  // The position of the record that last created the entry `k`: the last one
  // that did not find it stored.
  ghost function CreatedAt(sha: string -> string, max: nat, calls: seq<Call>, k: string): (at: nat)
    ensures at <= |calls|
  {
    if calls == [] then 0
    else
      var front := calls[..|calls| - 1];
      if RecordsKey(sha, calls[|calls| - 1], k) && !Stored(sha, max, front, k) then |front|
      else CreatedAt(sha, max, front, k)
  }

  // The owners recorded for a history since its entry was last created.
  ghost function OwnersSince(sha: string -> string, max: nat, calls: seq<Call>, tenant: string, pairs: History): set<string> {
    OwnersOf(calls[CreatedAt(sha, max, calls, EntryKey(sha, tenant, pairs))..], tenant, Encode(pairs))
  }

  lemma StepOwners(sha: string -> string, max: nat, ix: Index, call: Call, k: string)
    requires Tidy(ix, max) && k in Step(sha, max, ix, call).owners
    ensures var owners := Step(sha, max, ix, call).owners;
      && (RecordsKey(sha, call, k) ==>
            owners[k] == if |At(ix.owners, k)| < MAX_OWNERS then At(ix.owners, k) + {call.owner} else At(ix.owners, k))
      && (!RecordsKey(sha, call, k) ==> k in ix.owners && owners[k] == ix.owners[k])
  {
  }

  lemma OwnersSinceAppend(sha: string -> string, max: nat, front: seq<Call>, call: Call, tenant: string, pairs: History)
    requires CollisionFree(sha) && NulFree(call.tenant) && NulFree(tenant)
    ensures var k := EntryKey(sha, tenant, pairs);
      OwnersSince(sha, max, front + [call], tenant, pairs)
      == (if RecordsKey(sha, call, k) && !Stored(sha, max, front, k) then {} else OwnersSince(sha, max, front, tenant, pairs))
         + (if RecordsKey(sha, call, k) then {call.owner} else {})
  {
    var k, all := EntryKey(sha, tenant, pairs), front + [call];
    assert all[..|front|] == front;
    var at := CreatedAt(sha, max, all, k);
    assert at <= |front| && all[at..] == front[at..] + [call];
    OwnersSplit(front[at..], [call], tenant, Encode(pairs));
    assert front[|front|..] == [] && [call][..0] == [];
    if RecordsKey(sha, call, k) {
      KeysDiffer(sha, call.tenant, call.pairs, tenant, pairs);
    }
  }

  // One call keeps an entry standing for the owners since its creation.
  lemma StillStandsFor(stored: bool, records: bool, kept: set<string>, all: set<string>, owner: string,
                       now: set<string>, allNow: set<string>)
    requires stored ==> StandsFor(kept, all, true)
    requires stored || (records && kept == {})
    requires now == if records && |kept| < MAX_OWNERS then kept + {owner} else kept
    requires allNow == (if records && !stored then {} else all) + (if records then {owner} else {})
    ensures StandsFor(now, allNow, true)
  {
    OneMoreOwner(kept, if stored then all else {}, true, owner);
  }

  lemma {:induction false} StoredOwners(sha: string -> string, max: nat, calls: seq<Call>, tenant: string, pairs: History)
    requires CollisionFree(sha) && Tenants(calls) && NulFree(tenant) && EntryKey(sha, tenant, pairs) in Replay(sha, max, calls).owners
    ensures StandsFor(Replay(sha, max, calls).owners[EntryKey(sha, tenant, pairs)], OwnersSince(sha, max, calls, tenant, pairs), true)
  {
    var k := EntryKey(sha, tenant, pairs);
    var front, call := calls[..|calls| - 1], calls[|calls| - 1];
    assert calls == front + [call] && call in calls;
    var ix, n := Replay(sha, max, front), Replay(sha, max, calls);
    assert n == Step(sha, max, ix, call);
    assert Tidy(ix, max) by { AlwaysTidy(sha, max, front); }
    StepOwners(sha, max, ix, call, k);
    StoredExactly(sha, max, front, k);
    OwnersSinceAppend(sha, max, front, call, tenant, pairs);
    var kept, all := At(ix.owners, k), OwnersSince(sha, max, front, tenant, pairs);
    if k in ix.owners {
      StoredOwners(sha, max, front, tenant, pairs);
    }
    StillStandsFor(k in ix.owners, RecordsKey(sha, call, k), kept, all, if call.RecordCall? then call.owner else "",
                   n.owners[k], OwnersSince(sha, max, calls, tenant, pairs));
  }

  // The longest strict prefix whose entry is stored.
  ghost predicate IsLongestStored(sha: string -> string, max: nat, calls: seq<Call>, tenant: string, pairs: History, n: nat) {
    && 0 < n < |pairs| && Stored(sha, max, calls, EntryKey(sha, tenant, pairs[..n]))
    && forall m :: n < m < |pairs| ==> !Stored(sha, max, calls, EntryKey(sha, tenant, pairs[..m]))
  }

  lemma LongestStored(sha: string -> string, max: nat, calls: seq<Call>, tenant: string, pairs: History)
    requires pairs != []
    ensures var n := Longest(sha, Replay(sha, max, calls).owners, tenant, pairs, |pairs| - 1);
      && (n > 0 ==> IsLongestStored(sha, max, calls, tenant, pairs, n))
      && (forall m :: IsLongestStored(sha, max, calls, tenant, pairs, m) ==> m == n)
  {
    forall m | 0 < m < |pairs|
      ensures EntryKey(sha, tenant, pairs[..m]) in Replay(sha, max, calls).owners
              <==> Stored(sha, max, calls, EntryKey(sha, tenant, pairs[..m]))
    {
      StoredExactly(sha, max, calls, EntryKey(sha, tenant, pairs[..m]));
    }
  }

  // After any calls, however much has been evicted, the answer is the only owner
  // recorded for the longest stored strict prefix since its entry was last
  // created, and there is no answer otherwise.
  lemma MatchedExactly(sha: string -> string, max: nat, calls: seq<Call>, tenant: string, pairs: History, owner: string)
    requires CollisionFree(sha) && Tenants(calls) && NulFree(tenant)
    ensures Matched(sha, Replay(sha, max, calls), tenant, pairs).1 == Some(owner)
            <==> exists n: nat :: IsLongestStored(sha, max, calls, tenant, pairs, n)
                                  && OwnersSince(sha, max, calls, tenant, pairs[..n]) == {owner}
  {
    if pairs != [] {
      var ix := Replay(sha, max, calls);
      var n := Longest(sha, ix.owners, tenant, pairs, |pairs| - 1);
      LongestStored(sha, max, calls, tenant, pairs);
      if n > 0 {
        AlwaysTidy(sha, max, calls);
        StoredOwners(sha, max, calls, tenant, pairs[..n]);
        OneOrMore(ix.owners[EntryKey(sha, tenant, pairs[..n])], OwnersSince(sha, max, calls, tenant, pairs[..n]), owner);
      }
    }
  }

  lemma {:induction false} OwnersSplit(a: seq<Call>, b: seq<Call>, tenant: string, code: string)
    ensures OwnersOf(a + b, tenant, code) == OwnersOf(a, tenant, code) + OwnersOf(b, tenant, code)
  {
    if b == [] {
      assert a + b == a;
    } else {
      assert (a + b)[..|a + b| - 1] == a + b[..|b| - 1];
      OwnersSplit(a, b[..|b| - 1], tenant, code);
    }
  }

  // A lookup uses the entry of the longest stored strict prefix, answered or not,
  // and no other; without one it uses none. A record uses its own.
  lemma LongestIs(sha: string -> string, max: nat, calls: seq<Call>, tenant: string, pairs: History, n: nat)
    requires IsLongestStored(sha, max, calls, tenant, pairs, n)
    ensures Longest(sha, Replay(sha, max, calls).owners, tenant, pairs, |pairs| - 1) == n
  {
    LongestStored(sha, max, calls, tenant, pairs);
  }

  lemma TouchOfLongest(sha: string -> string, ix: Index, tenant: string, pairs: History, n: nat)
    requires 0 < n < |pairs| && Longest(sha, ix.owners, tenant, pairs, |pairs| - 1) == n
    ensures Touch(sha, ix, MatchCall(tenant, pairs)) == Some(EntryKey(sha, tenant, pairs[..n]))
  {
  }

  lemma LookupIsUse(sha: string -> string, max: nat, calls: seq<Call>, tenant: string, pairs: History, n: nat, k: string)
    requires IsLongestStored(sha, max, calls, tenant, pairs, n)
    ensures var now := UsedSince(sha, max, calls + [MatchCall(tenant, pairs)], k);
      var used, before := EntryKey(sha, tenant, pairs[..n]), UsedSince(sha, max, calls, k);
      now == if k == used then Some({}) else if before.None? then None else Some(before.value + {used})
  {
    LongestIs(sha, max, calls, tenant, pairs, n);
    TouchOfLongest(sha, Replay(sha, max, calls), tenant, pairs, n);
    UsedAppend(sha, max, calls, MatchCall(tenant, pairs), k);
  }

  lemma VainLookupUsesNothing(sha: string -> string, max: nat, calls: seq<Call>, tenant: string, pairs: History, k: string)
    requires forall n: nat :: !IsLongestStored(sha, max, calls, tenant, pairs, n)
    ensures UsedSince(sha, max, calls + [MatchCall(tenant, pairs)], k) == UsedSince(sha, max, calls, k)
  {
    if pairs != [] {
      LongestStored(sha, max, calls, tenant, pairs);
    }
    UsedAppend(sha, max, calls, MatchCall(tenant, pairs), k);
    var since := UsedSince(sha, max, calls, k);
    if since.Some? {
      assert since.value + {} == since.value;
    }
  }

  lemma RecordIsUse(sha: string -> string, max: nat, calls: seq<Call>, tenant: string, pairs: History, owner: string, k: string)
    ensures var now := UsedSince(sha, max, calls + [RecordCall(tenant, pairs, owner)], k);
      var used, before := EntryKey(sha, tenant, pairs), UsedSince(sha, max, calls, k);
      now == if pairs == [] then before else if k == used then Some({}) else if before.None? then None else Some(before.value + {used})
  {
    UsedAppend(sha, max, calls, RecordCall(tenant, pairs, owner), k);
    var since := UsedSince(sha, max, calls, k);
    if since.Some? {
      assert since.value + {} == since.value;
    }
  }

  // The answer names an owner although the prefix has others, exactly when the
  // entry was created again after somebody else had recorded that history, and
  // only the answered owner has recorded it since.
  lemma OwnerHiddenExactly(sha: string -> string, max: nat, calls: seq<Call>, tenant: string, pairs: History, n: nat, owner: string)
    requires CollisionFree(sha) && Tenants(calls) && NulFree(tenant) && IsLongestStored(sha, max, calls, tenant, pairs, n)
    ensures var code, at := Encode(pairs[..n]), CreatedAt(sha, max, calls, EntryKey(sha, tenant, pairs[..n]));
      Matched(sha, Replay(sha, max, calls), tenant, pairs).1 == Some(owner) && OwnersOf(calls, tenant, code) != {owner}
      <==> OwnersOf(calls[at..], tenant, code) == {owner} && !(OwnersOf(calls[..at], tenant, code) <= {owner})
  {
    MatchedExactly(sha, max, calls, tenant, pairs, owner);
    LongestStored(sha, max, calls, tenant, pairs);
    var at := CreatedAt(sha, max, calls, EntryKey(sha, tenant, pairs[..n]));
    assert calls == calls[..at] + calls[at..];
    OwnersSplit(calls[..at], calls[at..], tenant, Encode(pairs[..n]));
  }

  // ------------------------------------------------------------ an input for every cap

  function KeyOf(sha: string -> string, call: Call): string {
    EntryKey(sha, call.tenant, call.pairs)
  }

  // Records of histories that all differ.
  ghost predicate Fills(sha: string -> string, calls: seq<Call>) {
    && (forall i :: 0 <= i < |calls| ==> Records(calls[i]) && NulFree(calls[i].tenant))
    && (forall i, j :: 0 <= i < j < |calls| ==> KeyOf(sha, calls[i]) != KeyOf(sha, calls[j]))
  }

  function KeysIn(sha: string -> string, calls: seq<Call>): set<string> {
    set c | c in calls :: KeyOf(sha, c)
  }

  lemma FillFront(sha: string -> string, first: Call, front: seq<Call>, last: Call)
    requires Fills(sha, [first] + (front + [last]))
    ensures Fills(sha, [first] + front) && Records(last)
    ensures KeyOf(sha, last) != KeyOf(sha, first) && KeyOf(sha, last) !in KeysIn(sha, front)
    ensures KeysIn(sha, front + [last]) == KeysIn(sha, front) + {KeyOf(sha, last)}
  {
    var all, less := [first] + (front + [last]), [first] + front;
    assert all[0] == first && all[|all| - 1] == last;
    assert forall i :: 0 <= i < |less| ==> less[i] == all[i];
    forall c | c in front ensures KeyOf(sha, c) != KeyOf(sha, last) {
      var i :| 0 <= i < |front| && front[i] == c;
      assert all[i + 1] == c;
    }
  }

  // So many other entries are used by them after the first one.
  lemma {:induction false} FillUses(sha: string -> string, max: nat, first: Call, fill: seq<Call>)
    requires Records(first) && Fills(sha, [first] + fill)
    ensures UsedSince(sha, max, [first] + fill, KeyOf(sha, first)) == Some(KeysIn(sha, fill)) && |KeysIn(sha, fill)| == |fill|
  {
    var k := KeyOf(sha, first);
    if fill == [] {
      assert [first] + fill == [] + [first] && KeysIn(sha, fill) == {};
      UsedAppend(sha, max, [], first, k);
    } else {
      var front, last := fill[..|fill| - 1], fill[|fill| - 1];
      assert fill == front + [last];
      FillFront(sha, first, front, last);
      FillUses(sha, max, first, front);
      assert [first] + fill == ([first] + front) + [last];
      UsedAppend(sha, max, [first] + front, last, k);
      OneMoreKey(KeysIn(sha, front), KeyOf(sha, last), k);
    }
  }

  lemma OneMoreKey(keys: set<string>, last: string, k: string)
    requires last != k && last !in keys
    ensures SinceAfter(Some(keys), Some(last), k) == Some(keys + {last}) && |keys + {last}| == |keys| + 1
  {
  }

  // A record that does not find its entry creates it with its own owner alone.
  lemma CreatedAlone(sha: string -> string, max: nat, early: seq<Call>, again: Call, pairs: History)
    requires CollisionFree(sha) && Tenants(early) && NulFree(again.tenant) && Records(again) && max > 0
    requires !Stored(sha, max, early, KeyOf(sha, again)) && |pairs| == |again.pairs| + 1 && pairs[..|again.pairs|] == again.pairs
    ensures Matched(sha, Replay(sha, max, early + [again]), again.tenant, pairs).1 == Some(again.owner)
  {
    var calls, k := early + [again], KeyOf(sha, again);
    UsedAppend(sha, max, early, again, k);
    OwnersSinceAppend(sha, max, early, again, again.tenant, again.pairs);
    assert IsLongestStored(sha, max, calls, again.tenant, pairs, |again.pairs|);
    MatchedExactly(sha, max, calls, again.tenant, pairs, again.owner);
  }

  // With `max` other histories recorded between two owners of one history, the
  // first owner is forgotten, whatever the cap.
  lemma SecondOwnerAnswers(sha: string -> string, max: nat, first: Call, fill: seq<Call>, owner: string, pairs: History)
    requires CollisionFree(sha) && max > 0 && |fill| == max && Records(first) && Fills(sha, [first] + fill)
    requires |pairs| == |first.pairs| + 1 && pairs[..|first.pairs|] == first.pairs
    ensures var calls := [first] + fill + [first.(owner := owner)];
      && {first.owner, owner} <= OwnersOf(calls, first.tenant, Encode(first.pairs))
      && Matched(sha, Replay(sha, max, calls), first.tenant, pairs).1 == Some(owner)
  {
    var early, again, code := [first] + fill, first.(owner := owner), Encode(first.pairs);
    assert early[0] == first;
    FillUses(sha, max, first, fill);
    CreatedAlone(sha, max, early, again, pairs);
    OwnersSplit(early, [again], first.tenant, code);
    OwnersSplit([first], fill, first.tenant, code);
    OwnerOfOne(first);
    OwnerOfOne(again);
  }

  lemma OwnerOfOne(call: Call)
    requires Records(call)
    ensures OwnersOf([call], call.tenant, Encode(call.pairs)) == {call.owner}
  {
    assert [call][..0] == [];
  }

  // A text of `n` letters, and the conversation that opens with it.
  function Letters(n: nat): string {
    seq(n, i => 'x')
  }

  function Opening(n: nat): History {
    [("user", Letters(n + 1))]
  }

  // Records of the openings `from`, `from + 1`, ..., each by a session of its own.
  function Openings(tenant: string, owner: nat -> string, from: nat, count: nat): seq<Call> {
    seq(count, i requires 0 <= i < count => RecordCall(tenant, Opening(from + i), owner(from + i)))
  }

  lemma OpeningLength(n: nat)
    ensures |Encode(Opening(n))| == n + 7
  {
    var a := Opening(n);
    assert a[1..] == [] && |"user"| == 4;
    assert Encode(a) == "user" + [NUL] + Letters(n + 1) + [NUL] + [];
  }

  lemma OpeningsFill(sha: string -> string, tenant: string, owner: nat -> string, count: nat)
    requires CollisionFree(sha) && NulFree(tenant)
    ensures Fills(sha, Openings(tenant, owner, 0, count))
  {
    var calls := Openings(tenant, owner, 0, count);
    forall i | 0 <= i < |calls| ensures Records(calls[i]) && calls[i].tenant == tenant {
      assert calls[i] == RecordCall(tenant, Opening(i), owner(i)) && |Opening(i)| == 1;
    }
    forall i, j | 0 <= i < j < |calls| ensures KeyOf(sha, calls[i]) != KeyOf(sha, calls[j]) {
      OpeningLength(i);
      OpeningLength(j);
      if KeyOf(sha, calls[i]) == KeyOf(sha, calls[j]) {
        KeysDiffer(sha, tenant, Opening(i), tenant, Opening(j));
      }
    }
  }

  // Concretely, for every cap: two sessions open with the same message, `max`
  // other openings come between them, and the continuation of either is answered
  // with the second.
  lemma EvictionHidesAnOwner(sha: string -> string, max: nat, tenant: string, owner: nat -> string, second: string, reply: Message)
    requires CollisionFree(sha) && NulFree(tenant) && max > 0
    ensures var calls := Openings(tenant, owner, 0, max + 1) + [RecordCall(tenant, Opening(0), second)];
      && {owner(0), second} <= OwnersOf(calls, tenant, Encode(Opening(0)))
      && Matched(sha, Replay(sha, max, calls), tenant, Opening(0) + [reply]).1 == Some(second)
  {
    var first, fill := RecordCall(tenant, Opening(0), owner(0)), Openings(tenant, owner, 1, max);
    assert Openings(tenant, owner, 0, max + 1) == [first] + fill;
    OpeningsFill(sha, tenant, owner, max + 1);
    SecondOwnerAnswers(sha, max, first, fill, second, Opening(0) + [reply]);
  }

  // ------------------------------------------------------------ the object

  class HistoryDigestIndex {
    const sha: string -> string
    const maxEntries: nat
    var order: seq<string>
    var owners: map<string, set<string>>
    var hits: nat
    var misses: nat

    ghost function View(): Index
      reads this
    {
      Index(order, owners, hits, misses)
    }

    ghost predicate Valid()
      reads this
    {
      Tidy(View(), maxEntries)
    }

    constructor (sha: string -> string, maxEntries: nat)
      ensures Valid() && View() == EMPTY && this.sha == sha && this.maxEntries == maxEntries
    {
      this.sha, this.maxEntries := sha, maxEntries;
      order, owners, hits, misses := [], map[], 0, 0;
    }

    // The digest of every prefix in one pass over a running hash.
    method Chain(pairs: History) returns (digests: seq<string>)
      ensures |digests| == |pairs|
      ensures forall i :: 0 <= i < |pairs| ==> digests[i] == sha(Encode(pairs[..i + 1]))
    {
      digests := [];
      var running := [];
      var i := 0;
      while i < |pairs|
        invariant 0 <= i <= |pairs| && |digests| == i && running == Encode(pairs[..i])
        invariant forall j :: 0 <= j < i ==> digests[j] == sha(Encode(pairs[..j + 1]))
      {
        EncodeAppend(pairs[..i], pairs[i]);
        assert pairs[..i] + [pairs[i]] == pairs[..i + 1];
        running := running + pairs[i].0 + [NUL] + pairs[i].1 + [NUL];
        digests := digests + [sha(running)];
        i := i + 1;
      }
    }

    method Match(tenant: string, pairs: History) returns (owner: Option<string>)
      requires Valid()
      modifies this
      ensures Valid()
      ensures (View(), owner) == Matched(sha, old(View()), tenant, pairs)
    {
      StepTidy(sha, maxEntries, View(), MatchCall(tenant, pairs));
      var digests := Chain(pairs);
      var n := |digests| - 1;
      while n > 0
        invariant n <= |pairs| - 1 && View() == old(View())
        invariant n > 0 ==> Longest(sha, owners, tenant, pairs, |pairs| - 1) == Longest(sha, owners, tenant, pairs, n)
        invariant n <= 0 && pairs != [] ==> Longest(sha, owners, tenant, pairs, |pairs| - 1) == 0
      {
        var entry := tenant + [NUL] + digests[n - 1];
        assert entry == EntryKey(sha, tenant, pairs[..n]);
        if entry in owners {
          order := MoveToEnd(order, entry);
          if |owners[entry]| == 1 {
            hits := hits + 1;
            var only :| only in owners[entry];
            OnlyOne(owners[entry], only);
            return Some(only);
          }
          misses := misses + 1;
          return None;
        }
        n := n - 1;
      }
      misses := misses + 1;
      return None;
    }

    method Record(tenant: string, pairs: History, owner: string)
      requires Valid()
      modifies this
      ensures Valid()
      ensures View() == Recorded(sha, maxEntries, old(View()), tenant, pairs, owner)
    {
      StepTidy(sha, maxEntries, View(), RecordCall(tenant, pairs, owner));
      var digests := Chain(pairs);
      if digests == [] { return; }
      var entry := tenant + [NUL] + digests[|digests| - 1];
      assert pairs[..|pairs|] == pairs;
      MovedMeaning(order, entry);
      owners := WithOwner(owners, entry, owner);
      order := MoveToEnd(order, entry);
      Trim();
    }

    method Trim()
      requires NoRepeats(order) && forall k :: k in order <==> k in owners
      modifies this`order, this`owners
      ensures View() == Trimmed(old(View()), maxEntries)
    {
      assert Restrict(owners, order) == owners;
      while |order| > maxEntries
        invariant Last(order, maxEntries) == Last(old(order), maxEntries)
        invariant NoRepeats(order) && owners == Restrict(old(owners), order)
        decreases |order|
      {
        RestrictTail(old(owners), order);
        owners := owners - {order[0]};
        order := order[1..];
      }
    }
  }

  lemma RestrictTail(owners: map<string, set<string>>, order: seq<string>)
    requires NoRepeats(order) && order != []
    ensures Restrict(owners, order) - {order[0]} == Restrict(owners, order[1..])
  {
    assert order == [order[0]] + order[1..];
  }

  lemma {:induction false} EncodeAppend(pairs: History, message: Message)
    ensures Encode(pairs + [message]) == Encode(pairs) + message.0 + [NUL] + message.1 + [NUL]
  {
    if pairs == [] {
      assert (pairs + [message])[1..] == [];
    } else {
      var all := pairs + [message];
      assert all[1..] == pairs[1..] + [message] && all[0] == pairs[0];
      EncodeAppend(pairs[1..], message);
      var ending := message.0 + [NUL] + message.1 + [NUL];
      assert Encode(all) == pairs[0].0 + [NUL] + pairs[0].1 + [NUL] + (Encode(pairs[1..]) + ending);
    }
  }

  lemma OnlyOne(owners: set<string>, only: string)
    requires |owners| == 1 && only in owners
    ensures owners == {only}
  {
    SubsetCard(owners - {only}, owners);
    assert owners == (owners - {only}) + {only};
  }
}
