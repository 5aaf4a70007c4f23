// Cleaning up a history that does not change meanwhile: what is kept is the
// newest part and what is deleted follows it, through any listing window.
module CloudStatic {
  import opened Prelude
  import opened CloudCleanup

  // A history, newest first, with known and different times and ids.
  ghost predicate History(h: seq<Chat>) {
    && (forall i, j :: 0 <= i < j < |h| ==> UpdatedAt(h[i]) > UpdatedAt(h[j]) && h[i].id != h[j].id)
    && (forall i :: 0 <= i < |h| ==> UpdatedAt(h[i]) > 0.0)
  }

  function First(chats: seq<Chat>, size: nat): seq<Chat> {
    if |chats| <= size then chats else chats[..size]
  }

  function IdSet(chats: seq<Chat>): set<string> {
    set c | c in chats :: c.id
  }

  function IdList(chats: seq<Chat>): seq<string> {
    seq(|chats|, i requires 0 <= i < |chats| => chats[i].id)
  }

  function SetOf(ids: seq<string>): set<string> {
    set id | id in ids
  }

  // Each listing shows the newest `size` rows that are left, each deletion
  // succeeds, and time does not go back.
  ghost predicate Static(cloud: Cloud, h: seq<Chat>, size: nat) {
    && (forall n, deleted :: cloud.listing(n, deleted).Some?
                             && NewestFirst(cloud.listing(n, deleted).value) == First(Excluding(h, SetOf(deleted)), size))
    && (forall n, id :: cloud.deletes(n, id))
    && (forall n: nat :: cloud.clock(n) <= cloud.clock(n + 1))
  }

  // The conversations the rules apply to.
  function Unprotected(h: seq<Chat>, rules: Rules): seq<Chat> {
    Excluding(h, rules.whitelist + {""})
  }

  // Of the first `m` of them, the first `c` are kept and the others deleted.
  ghost predicate At(p: Progress, u: seq<Chat>, c: nat, m: nat) {
    c <= m <= |u| && p.kept == IdSet(u[..c]) && p.deleted == IdList(u[c..m])
  }

  // What doomed the first deletion still dooms everything older.
  ghost predicate Persists(rules: Rules, now: real, u: seq<Chat>, c: nat, m: nat)
    requires c <= m <= |u|
  {
    c < m ==> Doomed(rules, now, UpdatedAt(u[c]), c)
  }

  // ------------------------------------------------------------ windows

  lemma {:induction false} ExcludingAppend(a: seq<Chat>, b: seq<Chat>, ids: set<string>)
    ensures Excluding(a + b, ids) == Excluding(a, ids) + Excluding(b, ids)
  {
    if a == [] {
      assert a + b == b;
    } else {
      assert (a + b)[1..] == a[1..] + b;
      ExcludingAppend(a[1..], b, ids);
    }
  }

  lemma {:induction false} ExcludingTwice(chats: seq<Chat>, a: set<string>, b: set<string>)
    ensures Excluding(Excluding(chats, a), b) == Excluding(chats, a + b)
  {
    if chats != [] {
      ExcludingTwice(chats[1..], a, b);
      if chats[0].id !in a {
        assert Excluding(chats, a)[1..] == Excluding(chats[1..], a);
      } else {
        assert Excluding(chats, a) == Excluding(chats[1..], a);
      }
    }
  }

  lemma {:induction false} ExcludingAll(chats: seq<Chat>, ids: set<string>)
    requires forall i :: 0 <= i < |chats| ==> chats[i].id in ids
    ensures Excluding(chats, ids) == []
  {
    if chats != [] {
      ExcludingAll(chats[1..], ids);
    }
  }

  lemma {:induction false} ExcludingNone(chats: seq<Chat>, ids: set<string>)
    requires forall i :: 0 <= i < |chats| ==> chats[i].id !in ids
    ensures Excluding(chats, ids) == chats
  {
    if chats != [] {
      ExcludingNone(chats[1..], ids);
    }
  }

  // A window on what is left is what is left of some first part.
  lemma {:induction false} WindowIsPrefix(h: seq<Chat>, ids: set<string>, size: nat) returns (g: nat)
    ensures g <= |h| && First(Excluding(h, ids), size) == Excluding(h[..g], ids)
  {
    if h == [] {
      g := 0;
    } else if h[0].id in ids {
      var k := WindowIsPrefix(h[1..], ids, size);
      g := k + 1;
      assert h[..g][1..] == h[1..][..k];
    } else if size == 0 {
      g := 0;
    } else {
      var k := WindowIsPrefix(h[1..], ids, size - 1);
      g := k + 1;
      assert h[..g][1..] == h[1..][..k];
      assert First(Excluding(h, ids), size) == [h[0]] + First(Excluding(h[1..], ids), size - 1);
    }
  }

  lemma PrefixOfExcluding(h: seq<Chat>, g: nat, ids: set<string>)
    requires g <= |h|
    ensures |Excluding(h[..g], ids)| <= |Excluding(h, ids)|
    ensures Excluding(h[..g], ids) == Excluding(h, ids)[..|Excluding(h[..g], ids)|]
  {
    assert h == h[..g] + h[g..];
    ExcludingAppend(h[..g], h[g..], ids);
  }

  // The rows a round has to decide on are the next of the history.
  lemma PendingIsNext(h: seq<Chat>, rules: Rules, rows: seq<Chat>, p: Progress, size: nat, c: nat, m: nat) returns (q: nat)
    requires History(h) && At(p, Unprotected(h, rules), c, m)
    requires NewestFirst(rows) == First(Excluding(h, SetOf(p.deleted)), size)
    ensures m <= q <= |Unprotected(h, rules)| && Pending(rules, p.kept, rows) == Unprotected(h, rules)[m..q]
  {
    var u, gone := Unprotected(h, rules), SetOf(p.deleted);
    var g := WindowIsPrefix(h, gone, size);
    ExcludingTwice(h[..g], gone, rules.whitelist + p.kept + {""});
    assert gone + (rules.whitelist + p.kept + {""}) == (rules.whitelist + {""}) + (gone + p.kept);
    ExcludingTwice(h[..g], rules.whitelist + {""}, gone + p.kept);
    PrefixOfExcluding(h, g, rules.whitelist + {""});
    var k := |Excluding(h[..g], rules.whitelist + {""})|;
    DecidedIds(u, p, c, m);
    UnprotectedIsHistory(h, rules);
    q := NextPart(u, m, k);
  }

  lemma DecidedIds(u: seq<Chat>, p: Progress, c: nat, m: nat)
    requires At(p, u, c, m)
    ensures SetOf(p.deleted) + p.kept == IdSet(u[..m])
  {
    assert u[..m] == u[..c] + u[c..m];
    forall id | id in SetOf(p.deleted) ensures id in IdSet(u[c..m]) {
      var i :| 0 <= i < |p.deleted| && p.deleted[i] == id;
      assert u[c..m][i].id == id;
    }
    forall chat | chat in u[c..m] ensures chat.id in SetOf(p.deleted) {
      var i :| 0 <= i < |u[c..m]| && u[c..m][i] == chat;
      assert p.deleted[i] == chat.id;
    }
  }

  lemma HistoryCons(head: Chat, rest: seq<Chat>)
    requires History(rest) && UpdatedAt(head) > 0.0
    requires forall c :: c in rest ==> UpdatedAt(head) > UpdatedAt(c) && head.id != c.id
    ensures History([head] + rest)
  {
    var all := [head] + rest;
    assert forall k :: 0 < k < |all| ==> all[k] == rest[k - 1] && rest[k - 1] in rest;
  }

  lemma {:induction false} ExcludingIsHistory(h: seq<Chat>, ids: set<string>)
    requires History(h)
    ensures History(Excluding(h, ids))
  {
    if h != [] {
      assert forall k :: 0 <= k < |h[1..]| ==> h[1..][k] == h[k + 1];
      ExcludingIsHistory(h[1..], ids);
      ExcludingMeaning(h[1..], ids);
      if h[0].id in ids {
        assert Excluding(h, ids) == Excluding(h[1..], ids);
      } else {
        HistoryCons(h[0], Excluding(h[1..], ids));
      }
    }
  }

  lemma UnprotectedIsHistory(h: seq<Chat>, rules: Rules)
    requires History(h)
    ensures History(Unprotected(h, rules))
  {
    ExcludingIsHistory(h, rules.whitelist + {""});
  }

  lemma NextPart(u: seq<Chat>, m: nat, k: nat) returns (q: nat)
    requires History(u) && m <= |u| && k <= |u|
    ensures m <= q <= |u| && Excluding(u[..k], IdSet(u[..m])) == u[m..q]
  {
    var ids := IdSet(u[..m]);
    if k <= m {
      q := m;
      forall i | 0 <= i < k ensures u[..k][i].id in ids {
        assert u[..m][i] == u[i];
      }
      ExcludingAll(u[..k], ids);
    } else {
      q := k;
      assert u[..k] == u[..m] + u[m..k];
      ExcludingAppend(u[..m], u[m..k], ids);
      forall i | 0 <= i < m ensures u[..m][i].id in ids {
        assert u[..m][i] == u[i];
      }
      ExcludingAll(u[..m], ids);
      ExcludingNone(u[m..k], ids);
    }
  }

  // ------------------------------------------------------------ rounds

  lemma IdSetAppend(chats: seq<Chat>, chat: Chat)
    ensures IdSet(chats + [chat]) == IdSet(chats) + {chat.id}
  {
  }

  lemma NotAmong(u: seq<Chat>, c: nat)
    requires History(u) && c < |u|
    ensures u[c].id !in IdSet(u[..c])
  {
  }

  lemma AddNew(ids: set<string>, id: string)
    requires id !in ids
    ensures |ids + {id}| == |ids| + 1
  {
  }

  lemma {:induction false} KeptCount(u: seq<Chat>, c: nat)
    requires History(u) && c <= |u|
    ensures |IdSet(u[..c])| == c
  {
    if c == 0 {
      assert IdSet(u[..0]) == {};
    } else {
      var front, last := u[..c - 1], u[c - 1];
      assert |IdSet(front)| == c - 1 by { KeptCount(u, c - 1); }
      assert last.id !in IdSet(front) by { NotAmong(u, c - 1); }
      assert IdSet(u[..c]) == IdSet(front) + {last.id} by {
        assert u[..c] == front + [last];
        IdSetAppend(front, last);
      }
      AddNew(IdSet(front), last.id);
    }
  }

  lemma OneMoreKept(p: Progress, u: seq<Chat>, m: nat)
    requires At(p, u, m, m) && m < |u|
    ensures At(p.(kept := p.kept + {u[m].id}), u, m + 1, m + 1)
  {
    IdSetAppend(u[..m], u[m]);
    assert u[..m + 1] == u[..m] + [u[m]];
    assert u[m + 1..m + 1] == [] && p.deleted == [];
  }

  lemma OneMoreDeleted(p: Progress, u: seq<Chat>, c: nat, m: nat)
    requires At(p, u, c, m) && m < |u|
    ensures At(p.(deleted := p.deleted + [u[m].id], attempted := p.attempted + [u[m].id]), u, c, m + 1)
  {
    assert u[c..m + 1] == u[c..m] + [u[m]];
    assert IdList(u[c..m + 1]) == IdList(u[c..m]) + [u[m].id];
  }

  // Conversation `i` of the unprotected ones, counted from the newest, is due for
  // deletion at `now`.
  predicate Due(rules: Rules, now: real, u: seq<Chat>, i: nat)
    requires i < |u|
  {
    (rules.olderThan > 0.0 && now - UpdatedAt(u[i]) > rules.olderThan) || (rules.keepNewest > 0 && i >= rules.keepNewest)
  }

  // None of the kept ones was due at `first`.
  ghost predicate Spared(rules: Rules, first: real, u: seq<Chat>, c: nat)
    requires c <= |u|
  {
    forall i :: 0 <= i < c ==> !Due(rules, first, u, i)
  }

  lemma OneMoreSpared(rules: Rules, first: real, now: real, u: seq<Chat>, m: nat)
    requires History(u) && m < |u| && first <= now && Spared(rules, first, u, m) && !Doomed(rules, now, UpdatedAt(u[m]), m)
    ensures Spared(rules, first, u, m + 1)
  {
    forall i | 0 <= i < m + 1 ensures !Due(rules, first, u, i) {
      if i == m {
        assert UpdatedAt(u[m]) > 0.0;
      }
    }
  }

  lemma StaysDoomed(rules: Rules, now: real, u: seq<Chat>, c: nat, m: nat)
    requires History(u) && c < m < |u| && Doomed(rules, now, UpdatedAt(u[c]), c)
    ensures Doomed(rules, now, UpdatedAt(u[m]), c)
  {
    assert UpdatedAt(u[c]) > UpdatedAt(u[m]) > 0.0;
  }

  lemma OneMore(rules: Rules, cloud: Cloud, first: real, now: real, p: Progress, u: seq<Chat>, c: nat, m: nat) returns (d: nat)
    requires History(u) && At(p, u, c, m) && Persists(rules, now, u, c, m) && m < |u|
    requires (forall n, id :: cloud.deletes(n, id)) && first <= now && Spared(rules, first, u, c)
    ensures d <= m + 1 && At(Swept(rules, cloud, now, p, u[m]), u, d, m + 1) && Persists(rules, now, u, d, m + 1)
    ensures Spared(rules, first, u, d)
  {
    assert |p.kept| == c by { KeptCount(u, c); }
    if c == m && !Doomed(rules, now, UpdatedAt(u[m]), c) {
      d := m + 1;
      OneMoreSpared(rules, first, now, u, m);
      OneMoreKept(p, u, m);
    } else {
      d := c;
      if c < m {
        StaysDoomed(rules, now, u, c, m);
      }
      OneMoreDeleted(p, u, c, m);
    }
  }

  lemma {:induction false} RoundStatic(rules: Rules, cloud: Cloud, first: real, now: real, p: Progress, u: seq<Chat>,
                                       c: nat, m: nat, q: nat)
    returns (d: nat)
    requires History(u) && At(p, u, c, m) && Persists(rules, now, u, c, m) && m <= q <= |u|
    requires (forall n, id :: cloud.deletes(n, id)) && first <= now && Spared(rules, first, u, c)
    ensures d <= q && At(SweptAll(rules, cloud, now, p, u[m..q]), u, d, q) && Persists(rules, now, u, d, q)
    ensures Spared(rules, first, u, d)
    decreases q - m
  {
    if m == q {
      d := c;
    } else {
      var e := OneMore(rules, cloud, first, now, p, u, c, m);
      assert u[m..q][0] == u[m] && u[m..q][1..] == u[m + 1..q];
      d := RoundStatic(rules, cloud, first, now, Swept(rules, cloud, now, p, u[m]), u, e, m + 1, q);
    }
  }

  lemma {:induction false} ClockGrows(cloud: Cloud, h: seq<Chat>, size: nat, i: nat, j: nat)
    requires Static(cloud, h, size) && i <= j
    ensures cloud.clock(i) <= cloud.clock(j)
    decreases j - i
  {
    if i < j {
      ClockGrows(cloud, h, size, i, j - 1);
      assert cloud.clock(j - 1) <= cloud.clock(j - 1 + 1);
    }
  }

  lemma {:induction false} CleanedStatic(rules: Rules, cloud: Cloud, h: seq<Chat>, size: nat, round: nat, p: Progress, c: nat, m: nat)
    returns (d: nat, q: nat)
    requires History(h) && Static(cloud, h, size) && At(p, Unprotected(h, rules), c, m) && round <= MAX_ROUNDS
    requires Persists(rules, cloud.clock(round), Unprotected(h, rules), c, m)
    requires Spared(rules, cloud.clock(0), Unprotected(h, rules), c)
    ensures At(Cleaned(rules, cloud, round, p).progress, Unprotected(h, rules), d, q)
    ensures Persists(rules, cloud.clock(MAX_ROUNDS), Unprotected(h, rules), d, q)
    ensures Spared(rules, cloud.clock(0), Unprotected(h, rules), d)
    ensures !Cleaned(rules, cloud, round, p).failed
    decreases MAX_ROUNDS - round
  {
    d, q := c, m;
    ClockGrows(cloud, h, size, round, MAX_ROUNDS);
    if round < MAX_ROUNDS {
      var u, rows, now := Unprotected(h, rules), cloud.listing(round, p.deleted).value, cloud.clock(round);
      var k := PendingIsNext(h, rules, rows, p, size, c, m);
      UnprotectedIsHistory(h, rules);
      ClockGrows(cloud, h, size, 0, round);
      var e := RoundStatic(rules, cloud, cloud.clock(0), now, p, u, c, m, k);
      var n := SweptAll(rules, cloud, now, p, u[m..k]);
      if u[m..k] != [] {
        d, q := e, k;
        if |n.deleted| != |p.deleted| {
          ClockGrows(cloud, h, size, round, round + 1);
          d, q := CleanedStatic(rules, cloud, h, size, round + 1, n, e, k);
        }
      }
    }
  }

  // On a static history the kept conversations are the newest unprotected ones
  // and the deleted ones come right after them, in order.
  lemma KeptThenDeleted(rules: Rules, cloud: Cloud, h: seq<Chat>, size: nat) returns (c: nat, m: nat)
    requires History(h) && Static(cloud, h, size)
    ensures At(CleanUp(rules, cloud).progress, Unprotected(h, rules), c, m)
    ensures Persists(rules, cloud.clock(MAX_ROUNDS), Unprotected(h, rules), c, m)
    ensures Spared(rules, cloud.clock(0), Unprotected(h, rules), c)
  {
    var u := Unprotected(h, rules);
    assert u[..0] == [] && IdSet(u[..0]) == {} && IdList(u[0..0]) == [];
    c, m := CleanedStatic(rules, cloud, h, size, 0, NOTHING, 0, 0);
  }

  lemma StillDue(rules: Rules, now: real, u: seq<Chat>, c: nat, i: nat)
    requires History(u) && c <= i < |u| && Doomed(rules, now, UpdatedAt(u[c]), c)
    ensures Due(rules, now, u, i)
  {
  }

  // Through a window of any size, nothing is kept that was due from the first
  // moment, and nothing deleted that was not due by the last.
  lemma DecidedByTheRules(rules: Rules, cloud: Cloud, h: seq<Chat>, size: nat, i: nat)
    requires History(h) && Static(cloud, h, size) && i < |Unprotected(h, rules)|
    ensures var u, p := Unprotected(h, rules), CleanUp(rules, cloud).progress;
      && (u[i].id in p.kept ==> !Due(rules, cloud.clock(0), u, i))
      && (u[i].id in p.deleted ==> Due(rules, cloud.clock(MAX_ROUNDS), u, i))
  {
    var c, m := KeptThenDeleted(rules, cloud, h, size);
    var u, p := Unprotected(h, rules), CleanUp(rules, cloud).progress;
    UnprotectedIsHistory(h, rules);
    if u[i].id in p.kept {
      var b := WhereKept(p, u, c, m, u[i].id);
    }
    if u[i].id in p.deleted {
      var a := WhereDeleted(p, u, c, m, u[i].id);
      StillDue(rules, cloud.clock(MAX_ROUNDS), u, c, a);
    }
  }

  lemma WholeWindow(h: seq<Chat>, rules: Rules, rows: seq<Chat>, size: nat)
    requires |h| <= size && NewestFirst(rows) == First(Excluding(h, SetOf([])), size)
    ensures Pending(rules, {}, rows) == Unprotected(h, rules)
  {
    assert SetOf([]) == {};
    ExcludingNone(h, {});
    assert rules.whitelist + {} + {""} == rules.whitelist + {""};
  }

  lemma DueSplit(rules: Rules, now: real, n: Progress, u: seq<Chat>, d: nat, i: nat)
    requires History(u) && i < |u| && At(n, u, d, |u|) && Persists(rules, now, u, d, |u|) && Spared(rules, now, u, d)
    ensures u[i].id in n.deleted <==> Due(rules, now, u, i)
    ensures u[i].id in n.kept <==> !Due(rules, now, u, i)
  {
    if i < d {
      AmongKept(u, d, i);
    } else {
      StillDue(rules, now, u, d, i);
      AmongDeleted(u, d, i);
    }
  }

  // When the window shows the whole history, exactly the conversations that are
  // due are deleted, and the others kept.
  lemma DueAreDeleted(rules: Rules, cloud: Cloud, h: seq<Chat>, size: nat, i: nat)
    requires History(h) && Static(cloud, h, size) && |h| <= size && i < |Unprotected(h, rules)|
    ensures var u, p := Unprotected(h, rules), CleanUp(rules, cloud).progress;
      && (u[i].id in p.deleted <==> Due(rules, cloud.clock(0), u, i))
      && (u[i].id in p.kept <==> !Due(rules, cloud.clock(0), u, i))
  {
    var u, now := Unprotected(h, rules), cloud.clock(0);
    UnprotectedIsHistory(h, rules);
    assert u[..0] == [] && IdSet(u[..0]) == {} && IdList(u[0..0]) == [] && u[0..|u|] == u;
    var d := RoundStatic(rules, cloud, now, now, NOTHING, u, 0, 0, |u|);
    var n := SweptAll(rules, cloud, now, NOTHING, u);
    WholeWindow(h, rules, cloud.listing(0, []).value, size);
    EndsAfterWhole(rules, cloud, h, size, n, d);
    DueSplit(rules, now, n, u, d, i);
  }

  lemma AmongKept(u: seq<Chat>, d: nat, i: nat)
    requires History(u) && i < d <= |u|
    ensures u[i].id in IdSet(u[..d]) && u[i].id !in IdList(u[d..|u|])
  {
    assert u[i] == u[..d][i];
    assert forall k :: 0 <= k < |u| - d ==> IdList(u[d..|u|])[k] == u[d + k].id;
  }

  lemma AmongDeleted(u: seq<Chat>, d: nat, i: nat)
    requires History(u) && d <= i < |u|
    ensures u[i].id !in IdSet(u[..d]) && u[i].id in IdList(u[d..|u|])
  {
    assert IdList(u[d..|u|])[i - d] == u[i].id;
    forall chat | chat in u[..d] ensures chat.id != u[i].id {
      var k :| 0 <= k < d && u[..d][k] == chat;
    }
  }

  // After everything has been decided another round changes nothing.
  lemma EndsAfterWhole(rules: Rules, cloud: Cloud, h: seq<Chat>, size: nat, n: Progress, d: nat)
    requires History(h) && Static(cloud, h, size)
    requires Pending(rules, {}, cloud.listing(0, []).value) == Unprotected(h, rules)
    requires n == SweptAll(rules, cloud, cloud.clock(0), NOTHING, Unprotected(h, rules))
    requires At(n, Unprotected(h, rules), d, |Unprotected(h, rules)|)
    ensures CleanUp(rules, cloud).progress == n
  {
    var u := Unprotected(h, rules);
    if u != [] && |n.deleted| != 0 {
      var q := PendingIsNext(h, rules, cloud.listing(1, n.deleted).value, n, size, d, |u|);
      assert u[|u|..q] == [];
    }
  }

  // So none is deleted twice, and no deleted one is newer than a kept one.
  lemma NewestKept(rules: Rules, cloud: Cloud, h: seq<Chat>, size: nat, i: nat, j: nat)
    requires History(h) && Static(cloud, h, size) && i < |h| && j < |h|
    requires h[i].id in CleanUp(rules, cloud).progress.deleted && h[j].id in CleanUp(rules, cloud).progress.kept
    ensures UpdatedAt(h[j]) > UpdatedAt(h[i])
  {
    var c, m := KeptThenDeleted(rules, cloud, h, size);
    var u, p := Unprotected(h, rules), CleanUp(rules, cloud).progress;
    UnprotectedIsHistory(h, rules);
    var a := WhereDeleted(p, u, c, m, h[i].id);
    var b := WhereKept(p, u, c, m, h[j].id);
    InHistory(h, rules, i, a);
    InHistory(h, rules, j, b);
  }

  lemma WhereDeleted(p: Progress, u: seq<Chat>, c: nat, m: nat, id: string) returns (a: nat)
    requires At(p, u, c, m) && id in p.deleted
    ensures c <= a < m && u[a].id == id
  {
    var k :| 0 <= k < |p.deleted| && p.deleted[k] == id;
    assert IdList(u[c..m])[k] == u[c..m][k].id;
    a := c + k;
  }

  lemma WhereKept(p: Progress, u: seq<Chat>, c: nat, m: nat, id: string) returns (b: nat)
    requires At(p, u, c, m) && id in p.kept
    ensures b < c && u[b].id == id
  {
    var chat :| chat in u[..c] && chat.id == id;
    var k :| 0 <= k < c && u[..c][k] == chat;
    b := k;
  }

  lemma InHistory(h: seq<Chat>, rules: Rules, i: nat, k: nat)
    requires History(h) && i < |h| && k < |Unprotected(h, rules)| && Unprotected(h, rules)[k].id == h[i].id
    ensures Unprotected(h, rules)[k] == h[i]
  {
    ExcludingMeaning(h, rules.whitelist + {""});
    assert Unprotected(h, rules)[k] in h;
  }

  lemma NoneDeletedTwice(rules: Rules, cloud: Cloud, h: seq<Chat>, size: nat)
    requires History(h) && Static(cloud, h, size)
    ensures var deleted := CleanUp(rules, cloud).progress.deleted;
      forall i, j :: 0 <= i < j < |deleted| ==> deleted[i] != deleted[j]
  {
    var c, m := KeptThenDeleted(rules, cloud, h, size);
    UnprotectedIsHistory(h, rules);
    var u, p := Unprotected(h, rules), CleanUp(rules, cloud).progress;
    forall i, j | 0 <= i < j < |p.deleted| ensures p.deleted[i] != p.deleted[j] {
      assert u[c..m][i] == u[c + i] && u[c..m][j] == u[c + j];
    }
  }
}
