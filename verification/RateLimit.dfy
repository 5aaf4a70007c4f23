// The self-imposed request ceiling (ratelimit.py): a token bucket per identity,
// over real arithmetic and a clock that does not go back.
module RateLimit {
  import opened Prelude

  // The state of one bucket; `rpm`, `rate` (tokens a second) and `capacity`
  // never change.
  datatype Bucket = Bucket(rpm: real, rate: real, capacity: int, tokens: real, updated: real)

  datatype Reply = Reply(allowed: bool, retryAfter: real)

  function Min(a: real, b: real): real {
    if a < b then a else b
  }

  predicate Sound(b: Bucket) {
    b.capacity >= 1 && 0.0 <= b.tokens <= b.capacity as real && (b.rpm > 0.0 ==> b.rate > 0.0)
  }

  function Fresh(rpm: real, burst: int, now: real): (b: Bucket)
    ensures Sound(b) && b.rate * 60.0 == rpm && b.tokens == b.capacity as real
    ensures if burst < 1 then b.capacity == 1 else b.capacity == burst
  {
    var capacity := if burst > 1 then burst else 1;
    Bucket(rpm, rpm / 60.0, capacity, capacity as real, now)
  }

  // What a bucket holds at `now`, nothing spent.
  function Refilled(b: Bucket, now: real): Bucket {
    if now > b.updated
    then b.(tokens := Min(b.capacity as real, b.tokens + b.rate * (now - b.updated)), updated := now)
    else b
  }

  function Acquired(b: Bucket, now: real): (Bucket, Reply) {
    if b.rpm <= 0.0 then (b, Reply(true, 0.0))
    else
      var r := Refilled(b, now);
      if r.tokens >= 1.0 then (r.(tokens := r.tokens - 1.0), Reply(true, 0.0))
      else (r, Reply(false, if b.rate > 0.0 then (1.0 - r.tokens) / b.rate else 0.0))
  }

  class TokenBucket {
    const rpm: real
    const rate: real
    const capacity: int
    var tokens: real
    var updated: real

    ghost function View(): Bucket
      reads this
    {
      Bucket(rpm, rate, capacity, tokens, updated)
    }

    constructor (rpm: real, burst: int, now: real)
      ensures View() == Fresh(rpm, burst, now)
    {
      this.rpm := rpm;
      rate := rpm / 60.0;
      capacity := if burst > 1 then burst else 1;
      tokens := (if burst > 1 then burst else 1) as real;
      updated := now;
    }

    method Refill(now: real)
      modifies this
      ensures View() == Refilled(old(View()), now)
    {
      var elapsed := now - updated;
      if elapsed > 0.0 {
        var accrued := tokens + elapsed * rate;
        tokens := if capacity as real < accrued then capacity as real else accrued;
        updated := now;
      }
    }

    method TryAcquire(now: real) returns (allowed: bool, retryAfter: real)
      modifies this
      ensures (View(), Reply(allowed, retryAfter)) == Acquired(old(View()), now)
    {
      if rpm <= 0.0 { return true, 0.0; }
      Refill(now);
      if tokens >= 1.0 {
        tokens := tokens - 1.0;
        return true, 0.0;
      }
      return false, if rate > 0.0 then (1.0 - tokens) / rate else 0.0;
    }
  }

  // ------------------------------------------------------------ call sequences

  ghost predicate Sorted(times: seq<real>, since: real) {
    && (forall i :: 0 <= i < |times| ==> since <= times[i])
    && (forall i, j :: 0 <= i < j < |times| ==> times[i] <= times[j])
  }

  function After(b: Bucket, times: seq<real>): Bucket
    decreases |times|
  {
    if times == [] then b else After(Acquired(b, times[0]).0, times[1..])
  }

  function Replies(b: Bucket, times: seq<real>): (replies: seq<Reply>)
    ensures |replies| == |times|
    decreases |times|
  {
    if times == [] then [] else [Acquired(b, times[0]).1] + Replies(Acquired(b, times[0]).0, times[1..])
  }

  // How many of the calls made within [from, to] were granted.
  function GrantsWithin(times: seq<real>, replies: seq<Reply>, from: real, to: real): nat
    requires |times| == |replies|
  {
    if times == [] then 0
    else (if replies[0].allowed && from <= times[0] <= to then 1 else 0)
         + GrantsWithin(times[1..], replies[1..], from, to)
  }

  lemma AcquiredStaysSound(b: Bucket, now: real)
    requires Sound(b) && b.rpm > 0.0 && b.updated <= now
    ensures Sound(Acquired(b, now).0) && Acquired(b, now).0.updated == now
    ensures Acquired(b, now).0 == b.(tokens := Acquired(b, now).0.tokens, updated := now)
  {
    var gained := b.rate * (now - b.updated);
    assert gained >= 0.0 by { NonNegative(b.rate, now - b.updated); }
    assert b.tokens + gained >= 0.0;
  }

  // What a bucket can still grant within the window.
  ghost function Budget(b: Bucket, from: real, to: real): real {
    if b.updated < from then b.capacity as real + b.rate * (to - from)
    else if b.updated <= to then b.tokens + b.rate * (to - b.updated)
    else 0.0
  }

  lemma BudgetSpent(b: Bucket, now: real, from: real, to: real)
    requires Sound(b) && b.rpm > 0.0 && b.updated <= now && from <= to
    ensures var (n, r) := Acquired(b, now);
      Budget(n, from, to) + (if r.allowed && from <= now <= to then 1.0 else 0.0) <= Budget(b, from, to)
  {
    if b.updated > to {
    } else if now > to {
      SpentAfter(b, now, from, to);
    } else if now < from {
      AcquiredStaysSound(b, now);
    } else if b.updated < from {
      SpentFirst(b, now, from, to);
    } else {
      SpentWithin(b, now, from, to);
    }
  }

  lemma SpentAfter(b: Bucket, now: real, from: real, to: real)
    requires Sound(b) && b.rpm > 0.0 && b.updated <= to < now && from <= to
    ensures Budget(Acquired(b, now).0, from, to) <= Budget(b, from, to)
  {
    BudgetBounded(b, from, to);
    AcquiredStaysSound(b, now);
  }

  lemma SpentFirst(b: Bucket, now: real, from: real, to: real)
    requires Sound(b) && b.rpm > 0.0 && b.updated < from <= now <= to
    ensures Budget(Acquired(b, now).0, from, to) + Spent(b, now) <= Budget(b, from, to)
  {
    var n := Acquired(b, now).0;
    var ahead, whole := b.rate * (to - now), b.rate * (to - from);
    assert ahead <= whole by { Wider(b.rate, to - now, to - from); }
    assert n.tokens + Spent(b, now) <= b.capacity as real by { HoldsAtMost(b, now); }
    assert Budget(n, from, to) == n.tokens + ahead by { HoldsAtMost(b, now); }
    assert Budget(b, from, to) == b.capacity as real + whole;
    Together(n.tokens + Spent(b, now), b.capacity as real, ahead, whole);
  }

  lemma SpentWithin(b: Bucket, now: real, from: real, to: real)
    requires Sound(b) && b.rpm > 0.0 && from <= b.updated <= now <= to
    ensures Budget(Acquired(b, now).0, from, to) + Spent(b, now) <= Budget(b, from, to)
  {
    var n := Acquired(b, now).0;
    var ahead, gained := b.rate * (to - now), b.rate * (now - b.updated);
    assert b.rate * (to - b.updated) == ahead + gained by { Split(b.rate, to - now, now - b.updated); }
    assert n.tokens + Spent(b, now) <= b.tokens + gained by { HoldsAtMost(b, now); }
    assert Budget(n, from, to) == n.tokens + ahead by { HoldsAtMost(b, now); }
    assert Budget(b, from, to) == b.tokens + (ahead + gained);
    Together(n.tokens + Spent(b, now), b.tokens + gained, ahead, ahead);
  }

  lemma Together(a: real, b: real, c: real, d: real)
    requires a <= b && c <= d
    ensures a + c <= b + d
  {
  }

  // What a call at `now` takes.
  function Spent(b: Bucket, now: real): real {
    if Acquired(b, now).1.allowed then 1.0 else 0.0
  }

  // What is left behind, with what was just spent, is no more than what the
  // bucket held plus what accrued, and no more than its capacity.
  lemma HoldsAtMost(b: Bucket, now: real)
    requires Sound(b) && b.rpm > 0.0 && b.updated <= now
    ensures var n := Acquired(b, now).0;
      && n == b.(tokens := n.tokens, updated := now)
      && n.tokens + Spent(b, now) <= b.capacity as real
      && n.tokens + Spent(b, now) <= b.tokens + b.rate * (now - b.updated)
  {
  }

  lemma Split(rate: real, a: real, b: real)
    ensures rate * (a + b) == rate * a + rate * b
  {
  }

  lemma Wider(rate: real, a: real, b: real)
    requires rate >= 0.0 && a <= b
    ensures rate * a <= rate * b
  {
    NonNegative(rate, b - a);
    Split(rate, a, b - a);
  }

  lemma BudgetBounded(b: Bucket, from: real, to: real)
    requires Sound(b) && b.rpm > 0.0 && from <= to
    ensures 0.0 <= Budget(b, from, to) <= b.capacity as real + b.rate * (to - from)
  {
    var whole := b.rate * (to - from);
    assert whole >= 0.0 by { NonNegative(b.rate, to - from); }
    if from <= b.updated <= to {
      var ahead := b.rate * (to - b.updated);
      assert ahead <= whole by { Wider(b.rate, to - b.updated, to - from); }
      assert ahead >= 0.0 by { NonNegative(b.rate, to - b.updated); }
      assert Budget(b, from, to) == b.tokens + ahead;
      Together(0.0, b.tokens, 0.0, ahead);
      Together(b.tokens, b.capacity as real, ahead, whole);
    }
  }

  lemma NonNegative(x: real, y: real)
    requires x >= 0.0 && y >= 0.0
    ensures x * y >= 0.0
  {
  }

  lemma {:induction false} GrantsFitBudget(b: Bucket, times: seq<real>, from: real, to: real)
    requires Sound(b) && b.rpm > 0.0 && Sorted(times, b.updated) && from <= to
    ensures GrantsWithin(times, Replies(b, times), from, to) as real <= Budget(b, from, to)
    decreases |times|
  {
    if times == [] {
      BudgetBounded(b, from, to);
    } else {
      var n := Acquired(b, times[0]).0;
      AcquiredStaysSound(b, times[0]);
      BudgetSpent(b, times[0], from, to);
      SortedTail(times, b.updated);
      GrantsFitBudget(n, times[1..], from, to);
      assert Replies(b, times)[1..] == Replies(n, times[1..]);
    }
  }

  // The ceiling: within any window one bucket grants at most its capacity plus
  // what accrues in the window, whatever the calls.
  lemma WindowBound(b: Bucket, times: seq<real>, from: real, to: real)
    requires Sound(b) && b.rpm > 0.0 && Sorted(times, b.updated) && from <= to
    ensures GrantsWithin(times, Replies(b, times), from, to) as real <= b.capacity as real + b.rate * (to - from)
  {
    GrantsFitBudget(b, times, from, to);
    BudgetBounded(b, from, to);
  }

  lemma SortedTail(times: seq<real>, since: real)
    requires Sorted(times, since) && times != []
    ensures Sorted(times[1..], times[0])
  {
  }

  // ------------------------------------------------------------ refusals

  // Refilling early makes no difference later.
  lemma RefillOnTheWay(b: Bucket, now: real, later: real)
    requires Sound(b) && b.rpm > 0.0 && now <= later
    ensures Refilled(Refilled(b, now), later) == Refilled(b, later)
  {
    Split(b.rate, later - now, now - b.updated);
    NonNegative(b.rate, later - now);
  }

  // A refused call is invisible: everything answered later is as if it had not
  // been made.
  lemma RefusedIsInvisible(b: Bucket, now: real, times: seq<real>)
    requires Sound(b) && b.rpm > 0.0 && b.updated <= now && Sorted(times, now)
    requires !Acquired(b, now).1.allowed
    ensures Replies(Acquired(b, now).0, times) == Replies(b, times)
    ensures times != [] ==> After(Acquired(b, now).0, times) == After(b, times)
  {
    if times != [] {
      RefillOnTheWay(b, now, times[0]);
    }
  }

  function GrantedTimes(b: Bucket, times: seq<real>): seq<real>
    decreases |times|
  {
    if times == [] then []
    else
      var (n, r) := Acquired(b, times[0]);
      if r.allowed then [times[0]] + GrantedTimes(n, times[1..]) else GrantedTimes(n, times[1..])
  }

  lemma {:induction false} GrantedTimesSorted(b: Bucket, times: seq<real>, since: real)
    requires Sorted(times, since)
    ensures Sorted(GrantedTimes(b, times), since)
    decreases |times|
  {
    if times != [] {
      var n := Acquired(b, times[0]).0;
      SortedTail(times, since);
      GrantedTimesSorted(n, times[1..], times[0]);
      var rest := GrantedTimes(n, times[1..]);
      var all := [times[0]] + rest;
      assert forall i :: 0 < i < |all| ==> all[i] == rest[i - 1];
      assert Sorted(all, since);
    }
  }

  ghost predicate AllGranted(replies: seq<Reply>) {
    forall i :: 0 <= i < |replies| ==> replies[i].allowed
  }

  // The refused calls leave no trace in the bucket either: at any later moment it
  // holds what it would hold had only the granted ones been made.
  lemma {:induction false} GrantedAloneSameBucket(b: Bucket, times: seq<real>, later: real)
    requires Sound(b) && b.rpm > 0.0 && Sorted(times, b.updated) && b.updated <= later
    requires times != [] ==> times[|times| - 1] <= later
    ensures Refilled(After(b, GrantedTimes(b, times)), later) == Refilled(After(b, times), later)
    decreases |times|
  {
    if times != [] {
      var (n, r) := Acquired(b, times[0]);
      AcquiredStaysSound(b, times[0]);
      SortedTail(times, b.updated);
      GrantedAloneSameBucket(n, times[1..], later);
      var rest := GrantedTimes(n, times[1..]);
      GrantedTimesSorted(n, times[1..], times[0]);
      if r.allowed {
        var kept := [times[0]] + rest;
        assert kept[1..] == rest;
        assert After(b, kept) == After(n, rest);
      } else {
        RefusedIsInvisible(b, times[0], rest);
        if rest == [] {
          RefillOnTheWay(b, times[0], later);
        }
      }
    }
  }

  // Dropping every refused call from a sequence leaves exactly the granted ones
  // granted.
  lemma {:induction false} GrantedAlone(b: Bucket, times: seq<real>)
    requires Sound(b) && b.rpm > 0.0 && Sorted(times, b.updated)
    ensures AllGranted(Replies(b, GrantedTimes(b, times)))
    decreases |times|
  {
    if times != [] {
      var (n, r) := Acquired(b, times[0]);
      AcquiredStaysSound(b, times[0]);
      SortedTail(times, b.updated);
      GrantedAlone(n, times[1..]);
      var rest := GrantedTimes(n, times[1..]);
      GrantedTimesSorted(n, times[1..], times[0]);
      if r.allowed {
        var kept := [times[0]] + rest;
        assert kept[1..] == rest;
        assert Replies(b, kept) == [r] + Replies(n, rest);
      } else {
        RefusedIsInvisible(b, times[0], rest);
      }
    }
  }

  // A refusal is exact: with no other grant, a retry is granted if and only if
  // the announced time has passed, and that time is still ahead.
  lemma RetryAfterIsExact(b: Bucket, now: real, later: real)
    requires Sound(b) && b.rpm > 0.0 && b.updated <= now <= later
    requires !Acquired(b, now).1.allowed
    ensures Acquired(b, now).1.retryAfter > 0.0
    ensures Acquired(Acquired(b, now).0, later).1.allowed <==> now + Acquired(b, now).1.retryAfter <= later
  {
    AcquiredStaysSound(b, now);
    var r := Acquired(b, now).0;
    assert 0.0 <= r.tokens < 1.0;
    WaitIsExact(b.rate, 1.0 - r.tokens, later - now);
  }

  // `elapsed` makes up for `missing` exactly from the quotient on.
  lemma WaitIsExact(rate: real, missing: real, elapsed: real)
    requires rate > 0.0 && missing > 0.0
    ensures missing / rate > 0.0
    ensures rate * elapsed >= missing <==> missing / rate <= elapsed
  {
    var wait := missing / rate;
    assert wait * rate == missing;
    if wait <= 0.0 {
      NonNegative(rate, 0.0 - wait);
    }
    if wait <= elapsed {
      NonNegative(rate, elapsed - wait);
    } else {
      Positive(rate, wait - elapsed);
    }
  }

  lemma Positive(x: real, y: real)
    requires x > 0.0 && y > 0.0
    ensures x * y > 0.0
  {
  }

  // ------------------------------------------------------------ grants

  // What a bucket that was full at `full` holds at `at` after that many grants.
  ghost predicate FullAt(b: Bucket, full: real, grants: int) {
    full <= b.updated && b.tokens == b.capacity as real + b.rate * (b.updated - full) - grants as real
  }

  // One call: either the bucket has filled up again, or it has been counted on.
  lemma FullAfterCall(b: Bucket, full: real, grants: int, now: real)
    requires Sound(b) && b.rpm > 0.0 && b.updated <= now && FullAt(b, full, grants)
    ensures var (n, r) := Acquired(b, now);
      var more := if r.allowed then 1 else 0;
      FullAt(n, full, grants + more) || (b.updated < now && FullAt(n, now, more))
  {
    var n, r := Acquired(b, now).0, Acquired(b, now).1;
    var past, gained := b.rate * (b.updated - full), b.rate * (now - b.updated);
    assert b.rate * (now - full) == past + gained by { Split(b.rate, b.updated - full, now - b.updated); }
    assert b.rate * (now - now) == 0.0;
    assert n == b.(tokens := n.tokens, updated := now) by { HoldsAtMost(b, now); }
    CountsOn(b, now, gained);
  }

  // What one call leaves, in terms of what was there and what accrued.
  lemma CountsOn(b: Bucket, now: real, gained: real)
    requires Sound(b) && b.rpm > 0.0 && b.updated <= now && gained == b.rate * (now - b.updated)
    ensures Acquired(b, now).0.tokens + Spent(b, now) == b.tokens + gained
            || (b.updated < now && Acquired(b, now).0.tokens + Spent(b, now) == b.capacity as real)
  {
    if b.updated == now {
      assert gained == 0.0;
    }
  }

  // After any calls there is a moment at which the bucket was last full: since
  // then everything accrued and every grant is in what it holds.
  lemma {:induction false} LastFull(b: Bucket, times: seq<real>, full: real, grants: nat, to: real) returns (since: real)
    requires Sound(b) && b.rpm > 0.0 && Sorted(times, b.updated) && FullAt(b, full, grants)
    requires b.updated <= to && (times != [] ==> times[|times| - 1] <= to)
    ensures full <= since
    ensures var after, counted := After(b, times), GrantsWithin(times, Replies(b, times), since, to);
      && Sound(after) && after == b.(tokens := after.tokens, updated := after.updated) && b.updated <= after.updated <= to
      && ((since == full && FullAt(after, full, grants + counted)) || (b.updated < since && FullAt(after, since, counted)))
    decreases |times|
  {
    if times == [] {
      since := full;
    } else {
      var now, rest := times[0], times[1..];
      var n, r := Acquired(b, now).0, Acquired(b, now).1;
      var more := if r.allowed then 1 else 0;
      AcquiredStaysSound(b, now);
      SortedTail(times, b.updated);
      FullAfterCall(b, full, grants, now);
      assert rest != [] ==> rest[|rest| - 1] == times[|times| - 1];
      assert Replies(b, times)[1..] == Replies(n, rest) && Replies(b, times)[0] == r;
      if FullAt(n, full, grants + more) {
        since := LastFull(n, rest, full, grants + more, to);
      } else {
        since := LastFull(n, rest, now, more, to);
      }
    }
  }

  lemma {:induction false} OneMoreReply(b: Bucket, times: seq<real>, now: real)
    ensures Replies(b, times + [now]) == Replies(b, times) + [Acquired(After(b, times), now).1]
    decreases |times|
  {
    if times == [] {
      assert times + [now] == [now] && [now][1..] == [];
    } else {
      assert (times + [now])[1..] == times[1..] + [now];
      OneMoreReply(Acquired(b, times[0]).0, times[1..], now);
    }
  }

  lemma {:induction false} OneMoreWithin(times: seq<real>, replies: seq<Reply>, now: real, reply: Reply, from: real, to: real)
    requires |times| == |replies|
    ensures GrantsWithin(times + [now], replies + [reply], from, to)
            == GrantsWithin(times, replies, from, to) + (if reply.allowed && from <= now <= to then 1 else 0)
    decreases |times|
  {
    if times == [] {
      assert times + [now] == [now] && replies + [reply] == [reply] && [now][1..] == [] && [reply][1..] == [];
      assert GrantsWithin([now][1..], [reply][1..], from, to) == 0;
    } else {
      assert (times + [now])[1..] == times[1..] + [now] && (replies + [reply])[1..] == replies[1..] + [reply];
      OneMoreWithin(times[1..], replies[1..], now, reply, from, to);
    }
  }

  // With one more grant, some window that ends now would hold too many.
  ghost predicate WouldExceed(b: Bucket, times: seq<real>, from: real, now: real) {
    b.updated <= from <= now
    && GrantsWithin(times, Replies(b, times), from, now) as real + 1.0 > b.capacity as real + b.rate * (now - from)
  }

  // `now` is no earlier than any of the calls before it.
  ghost predicate Latest(times: seq<real>, since: real, now: real) {
    since <= now && forall i :: 0 <= i < |times| ==> times[i] <= now
  }

  lemma ExtendSorted(times: seq<real>, since: real, now: real)
    requires Sorted(times, since) && Latest(times, since, now)
    ensures Sorted(times + [now], since)
  {
  }

  // A refused bucket holds less than one, with all that accrued.
  lemma RefusedHoldsLess(b: Bucket, now: real, gained: real)
    requires Sound(b) && b.rpm > 0.0 && b.updated <= now && gained == b.rate * (now - b.updated)
    requires !Acquired(b, now).1.allowed
    ensures b.tokens + gained < 1.0
  {
    CountsOn(b, now, gained);
  }

  lemma FullTogether(b: Bucket, full: real, grants: int, now: real)
    requires FullAt(b, full, grants) && b.updated <= now
    ensures b.tokens + b.rate * (now - b.updated) == b.capacity as real + b.rate * (now - full) - grants as real
  {
    var past, gained := b.rate * (b.updated - full), b.rate * (now - b.updated);
    assert b.rate * (now - full) == past + gained by { Split(b.rate, b.updated - full, now - b.updated); }
  }

  // The last fill counts from there to the refusal.
  lemma ExceedsSinceFull(last: Bucket, from: real, grants: int, now: real, capacity: int, rate: real)
    requires Sound(last) && last.rpm > 0.0 && last.updated <= now && FullAt(last, from, grants) && !Acquired(last, now).1.allowed
    requires capacity == last.capacity && rate == last.rate
    ensures from <= now && grants as real + 1.0 > capacity as real + rate * (now - from)
  {
    var gained, whole := last.rate * (now - last.updated), last.rate * (now - from);
    assert last.tokens + gained == last.capacity as real + whole - grants as real by { FullTogether(last, from, grants, now); }
    assert last.tokens + gained < 1.0 by { RefusedHoldsLess(last, now, gained); }
  }

  lemma FreshIsFull(b: Bucket)
    requires b.tokens == b.capacity as real
    ensures FullAt(b, b.updated, 0)
  {
    assert b.rate * (b.updated - b.updated) == 0.0;
  }

  // The last moment at which a bucket that began full was full.
  lemma LastFullSince(b: Bucket, times: seq<real>, now: real) returns (from: real)
    requires Sound(b) && b.rpm > 0.0 && b.tokens == b.capacity as real && Sorted(times, b.updated) && Latest(times, b.updated, now)
    ensures var last := After(b, times);
      && b.updated <= from && FullAt(last, from, GrantsWithin(times, Replies(b, times), from, now))
      && Sound(last) && last == b.(tokens := last.tokens, updated := last.updated) && last.updated <= now
  {
    FreshIsFull(b);
    from := LastFull(b, times, b.updated, 0, now);
  }

  lemma ExceedsFrom(b: Bucket, times: seq<real>, now: real, from: real, last: Bucket, grants: nat)
    requires b.rpm > 0.0 && last == After(b, times) && grants == GrantsWithin(times, Replies(b, times), from, now)
    requires b.updated <= from && FullAt(last, from, grants) && !Acquired(last, now).1.allowed
    requires Sound(last) && last == b.(tokens := last.tokens, updated := last.updated) && last.updated <= now
    ensures WouldExceed(b, times, from, now)
  {
    ExceedsSinceFull(last, from, grants, now, b.capacity, b.rate);
  }

  lemma RefusedExceeds(b: Bucket, times: seq<real>, now: real) returns (from: real)
    requires Sound(b) && b.rpm > 0.0 && b.tokens == b.capacity as real && Sorted(times, b.updated) && Latest(times, b.updated, now)
    requires !Acquired(After(b, times), now).1.allowed
    ensures WouldExceed(b, times, from, now)
  {
    from := LastFullSince(b, times, now);
    ExceedsFrom(b, times, now, from, After(b, times), GrantsWithin(times, Replies(b, times), from, now));
  }

  lemma ExceedingIsRefused(b: Bucket, times: seq<real>, from: real, now: real)
    requires Sound(b) && b.rpm > 0.0 && Sorted(times, b.updated) && Latest(times, b.updated, now)
    requires WouldExceed(b, times, from, now)
    ensures !Acquired(After(b, times), now).1.allowed
  {
    ExtendSorted(times, b.updated, now);
    WindowBound(b, times + [now], from, now);
    OneMoreReply(b, times, now);
    OneMoreWithin(times, Replies(b, times), now, Acquired(After(b, times), now).1, from, now);
  }

  // The limit is exact in both directions: from a full bucket on, a call is
  // refused if and only if granting it would put more grants into some window
  // that ends with it than the capacity plus what accrues in the window.
  lemma RefusedExactly(b: Bucket, times: seq<real>, now: real)
    requires Sound(b) && b.rpm > 0.0 && b.tokens == b.capacity as real && Sorted(times, b.updated) && Latest(times, b.updated, now)
    ensures !Acquired(After(b, times), now).1.allowed <==> exists from :: WouldExceed(b, times, from, now)
  {
    if !Acquired(After(b, times), now).1.allowed {
      var from := RefusedExceeds(b, times, now);
    } else {
      forall from ensures !WouldExceed(b, times, from, now) {
        if WouldExceed(b, times, from, now) {
          ExceedingIsRefused(b, times, from, now);
        }
      }
    }
  }

  lemma {:induction false} AtMostAll(times: seq<real>, replies: seq<Reply>, from: real, to: real)
    requires |times| == |replies|
    ensures GrantsWithin(times, replies, from, to) <= |times|
    decreases |times|
  {
    if times != [] {
      AtMostAll(times[1..], replies[1..], from, to);
    }
  }

  lemma FewNeverExceed(b: Bucket, times: seq<real>, from: real, now: real)
    requires Sound(b) && b.rpm > 0.0 && |times| < b.capacity
    ensures !WouldExceed(b, times, from, now)
  {
    if from <= now {
      var whole, grants := b.rate * (now - from), GrantsWithin(times, Replies(b, times), from, now);
      assert whole >= 0.0 by { NonNegative(b.rate, now - from); }
      assert grants + 1 <= b.capacity by { AtMostAll(times, Replies(b, times), from, now); }
      Together((grants + 1) as real, b.capacity as real, 0.0, whole);
    }
  }

  // So the first `capacity` calls of a fresh bucket are granted, at one moment or
  // at any others.
  lemma {:induction false} FirstCallsGranted(b: Bucket, times: seq<real>)
    requires Sound(b) && b.rpm > 0.0 && b.tokens == b.capacity as real && Sorted(times, b.updated) && |times| <= b.capacity
    ensures AllGranted(Replies(b, times))
    decreases |times|
  {
    if times != [] {
      var front, now := times[..|times| - 1], times[|times| - 1];
      FirstCallsGranted(b, front);
      if !Acquired(After(b, front), now).1.allowed {
        var from := RefusedExceeds(b, front, now);
        FewNeverExceed(b, front, from, now);
      }
      assert times == front + [now];
      OneMoreReply(b, front, now);
    }
  }

  // A caller without a limit is never refused and costs nothing.
  lemma UnlimitedIsGranted(b: Bucket, now: real)
    requires b.rpm <= 0.0
    ensures Acquired(b, now) == (b, Reply(true, 0.0))
  {
  }

  // ------------------------------------------------------------ registry

  datatype Entry = Entry(rpm: real, burst: int, bucket: Bucket)

  datatype Request = Request(identity: string, rpm: real, burst: int, now: real)

  type Registry = map<string, Entry>

  // A changed limit replaces the bucket; an unlimited caller touches none.
  function BucketOf(g: Registry, identity: string, rpm: real, burst: int, now: real): Bucket {
    if identity in g && g[identity].rpm == rpm && g[identity].burst == burst
    then g[identity].bucket else Fresh(rpm, burst, now)
  }

  function Served(g: Registry, q: Request): (Registry, Reply) {
    if q.rpm <= 0.0 then (g, Reply(true, 0.0))
    else
      var (n, r) := Acquired(BucketOf(g, q.identity, q.rpm, q.burst, q.now), q.now);
      (g[q.identity := Entry(q.rpm, q.burst, n)], r)
  }

  class RateLimiterRegistry {
    var buckets: map<string, (real, int, TokenBucket)>

    ghost predicate Valid()
      reads this
    {
      (forall i, j :: i in buckets && j in buckets && buckets[i].2 == buckets[j].2 ==> i == j)
    }

    ghost function Owned(): set<TokenBucket>
      reads this
    {
      set i | i in buckets :: buckets[i].2
    }

    ghost function View(): Registry
      reads this, Owned()
    {
      map i | i in buckets :: Entry(buckets[i].0, buckets[i].1, buckets[i].2.View())
    }

    constructor ()
      ensures Valid() && View() == map[]
    {
      buckets := map[];
    }

    method BucketFor(identity: string, rpm: real, burst: int, now: real) returns (bucket: TokenBucket)
      requires Valid()
      modifies this
      ensures Valid() && (bucket in old(Owned()) || fresh(bucket))
      ensures identity in buckets && buckets[identity] == (rpm, burst, bucket)
      ensures View() == old(View())[identity := Entry(rpm, burst, BucketOf(old(View()), identity, rpm, burst, now))]
    {
      if identity !in buckets || buckets[identity].0 != rpm || buckets[identity].1 != burst {
        bucket := new TokenBucket(rpm, burst, now);
        buckets := buckets[identity := (rpm, burst, bucket)];
      } else {
        bucket := buckets[identity].2;
      }
    }

    method Spend(identity: string, now: real) returns (allowed: bool, retryAfter: real)
      requires Valid() && identity in buckets
      modifies buckets[identity].2
      ensures Valid()
      ensures var (n, r) := Acquired(old(View())[identity].bucket, now);
        && Reply(allowed, retryAfter) == r
        && View() == old(View())[identity := old(View())[identity].(bucket := n)]
    {
      var bucket := buckets[identity].2;
      allowed, retryAfter := bucket.TryAcquire(now);
      forall i | i in buckets && i != identity ensures View()[i] == old(View())[i] {
        assert buckets[i].2 != bucket;
      }
    }

    method TryAcquire(identity: string, rpm: real, burst: int, now: real) returns (allowed: bool, retryAfter: real)
      requires Valid()
      modifies this, Owned()
      ensures Valid()
      ensures (View(), Reply(allowed, retryAfter)) == Served(old(View()), Request(identity, rpm, burst, now))
    {
      if rpm <= 0.0 { return true, 0.0; }
      ghost var bucket := BucketOf(View(), identity, rpm, burst, now);
      var _ := BucketFor(identity, rpm, burst, now);
      assert View()[identity] == Entry(rpm, burst, bucket);
      allowed, retryAfter := Spend(identity, now);
      assert View() == old(View())[identity := Entry(rpm, burst, Acquired(bucket, now).0)];
    }
  }

  // The calls of one identity, and the replies they get among everyone else's.
  function TimesOf(identity: string, calls: seq<Request>): seq<real> {
    if calls == [] then []
    else (if calls[0].identity == identity then [calls[0].now] else []) + TimesOf(identity, calls[1..])
  }

  function RepliesTo(identity: string, g: Registry, calls: seq<Request>): seq<Reply>
    decreases |calls|
  {
    if calls == [] then []
    else
      var (n, r) := Served(g, calls[0]);
      (if calls[0].identity == identity then [r] else []) + RepliesTo(identity, n, calls[1..])
  }

  ghost predicate SteadyLimit(identity: string, calls: seq<Request>, rpm: real, burst: int) {
    forall i :: 0 <= i < |calls| && calls[i].identity == identity ==> calls[i].rpm == rpm && calls[i].burst == burst
  }

  // While its limit is unchanged, an identity is answered by one bucket, as if
  // it were alone, whatever the other identities do.
  lemma {:induction false} OneBucketPerIdentity(identity: string, g: Registry, calls: seq<Request>, rpm: real, burst: int)
    requires rpm > 0.0 && SteadyLimit(identity, calls, rpm, burst)
    requires identity in g && g[identity].rpm == rpm && g[identity].burst == burst
    ensures RepliesTo(identity, g, calls) == Replies(g[identity].bucket, TimesOf(identity, calls))
    decreases |calls|
  {
    if calls != [] {
      var (n, r) := Served(g, calls[0]);
      assert SteadyLimit(identity, calls[1..], rpm, burst) by {
        assert forall i :: 0 <= i < |calls[1..]| ==> calls[1..][i] == calls[i + 1];
      }
      OneBucketPerIdentity(identity, n, calls[1..], rpm, burst);
      if calls[0].identity == identity {
        var later := TimesOf(identity, calls[1..]);
        assert TimesOf(identity, calls) == [calls[0].now] + later;
        assert TimesOf(identity, calls)[1..] == later;
        assert RepliesTo(identity, g, calls) == [r] + RepliesTo(identity, n, calls[1..]);
      } else {
        assert TimesOf(identity, calls) == TimesOf(identity, calls[1..]);
        assert RepliesTo(identity, g, calls) == RepliesTo(identity, n, calls[1..]);
      }
    }
  }

  // The first call of an identity, or the first under a new limit, starts that
  // bucket full.
  lemma FirstCallStartsFull(g: Registry, q: Request, calls: seq<Request>)
    requires q.rpm > 0.0 && SteadyLimit(q.identity, calls, q.rpm, q.burst)
    requires q.identity in g ==> g[q.identity].rpm != q.rpm || g[q.identity].burst != q.burst
    ensures RepliesTo(q.identity, g, [q] + calls)
            == Replies(Fresh(q.rpm, q.burst, q.now), [q.now] + TimesOf(q.identity, calls))
    ensures RepliesTo(q.identity, g, [q] + calls)[0].allowed
  {
    assert ([q] + calls)[1..] == calls;
    var n := Served(g, q).0;
    OneBucketPerIdentity(q.identity, n, calls, q.rpm, q.burst);
    assert ([q.now] + TimesOf(q.identity, calls))[1..] == TimesOf(q.identity, calls);
  }

  // A call of another identity, and one without a limit, leaves what an identity
  // has accrued alone.
  lemma OthersLeaveItAlone(g: Registry, q: Request, identity: string)
    requires q.identity != identity || q.rpm <= 0.0
    ensures var (n, r) := Served(g, q);
      && (identity in n <==> identity in g) && (identity in g ==> n[identity] == g[identity])
      && (q.rpm <= 0.0 ==> r == Reply(true, 0.0))
  {
  }
}
