// What every run of the account store keeps: one identity behind both slots, a
// browser session bound to its token, and an epoch that dates every switch.
module AccountInvariants {
  import opened Prelude
  import opened AccountRecord

  // ------------------------------------------------------- one identity

  predicate PairedIdentity(a: Rec) {
    a.substrate.token != NoToken && a.consumer.token != "" ==>
      a.substrate.subject != "" && a.substrate.subject == a.consumer.subject && Personal(a.substrate.token)
  }

  predicate BoundSession(a: Rec) {
    a.substrate.session.Some? ==>
      a.substrate.token.Jwe? && a.substrate.subject != "" && a.substrate.session.value.subject == a.substrate.subject
  }

  predicate Consistent(a: Rec) {
    PairedIdentity(a) && BoundSession(a)
  }

  // The two RT commits trust their caller: neither checks the identity again.
  predicate RenewalKeepsIdentity(a: Rec, op: Op) {
    match op
    case ApplyRefreshTokenResult(_, _, newToken, _, _) =>
      a.consumer.token != "" && newToken != NoToken ==>
        Personal(newToken) && a.substrate.subject != "" && a.substrate.subject == a.consumer.subject
    case ApplyConsumerRefreshResult(_, expectedAccess, _, _, _, _) =>
      expectedAccess == "" ==> MayPairConsumer(a, a.consumer.subject)
    case _ => true
  }

  // Every operation but the two RT commits keeps the invariant by itself, and
  // those two keep it exactly when the caller respects the stated condition.
  lemma ConsistentAfter(a: Rec, op: Op, now: real)
    requires Consistent(a)
    ensures Apply(a, op, now).Stored? ==> (Consistent(After(a, op, now)) <==> RenewalKeepsIdentity(a, op))
    ensures !Apply(a, op, now).Stored? ==> After(a, op, now) == a
  {
  }

  // The plain RT commit can break the pairing: a paired personal account renewed
  // with a work-tenant token keeps both slots, now of two identities.
  lemma RenewalCanBreakPairing()
    ensures exists a: Rec, op: Op, now: real ::
      Consistent(a) && op.ApplyRefreshTokenResult? && Apply(a, op, now).Stored? && !Consistent(After(a, op, now))
  {
    var a := BLANK.(substrate := NO_SUBSTRATE.(token := Jwe("t"), subject := "home:1"),
                    consumer := NO_CONSUMER.(token := "c", subject := "home:1"),
                    grant := NO_GRANT.(text := "g"));
    var op := ApplyRefreshTokenResult("g", Jwe("t"), Jwt("work", "oid", "t2"), "", None);
    assert |PERSONAL_TENANT| == 36 && |"work"| == 4;
    assert Consistent(a) && !Consistent(After(a, op, 1.0));
  }

  datatype Event =
    | Call(id: string, op: Op, now: real)
    | Add(id: string, token: Token, subject: string, capture: Option<Capture>, expiry: Expiry, now: real)
    | Remove(id: string)

  function PoolAfter(p: Pool, e: Event): Pool {
    match e
    case Call(id, op, now) => Commit(p, id, op, now).1
    case Add(id, token, subject, capture, expiry, now) =>
      var a := NewAccount(token, subject, capture, expiry, now);
      if a.Some? && id !in p then p[id := a.value] else p
    case Remove(id) => p - {id}
  }

  function Replay(p: Pool, events: seq<Event>): Pool
    decreases |events|
  {
    if events == [] then p else Replay(PoolAfter(p, events[0]), events[1..])
  }

  predicate RenewalsKeepIdentity(p: Pool, events: seq<Event>)
    decreases |events|
  {
    events == [] ||
    (&& (events[0].Call? && events[0].id in p ==> RenewalKeepsIdentity(p[events[0].id], events[0].op))
     && RenewalsKeepIdentity(PoolAfter(p, events[0]), events[1..]))
  }

  predicate AllConsistent(p: Pool) {
    forall id :: id in p ==> Consistent(p[id])
  }

  lemma {:induction false} RunsStayConsistent(p: Pool, events: seq<Event>)
    requires AllConsistent(p) && RenewalsKeepIdentity(p, events)
    ensures AllConsistent(Replay(p, events))
    decreases |events|
  {
    if events != [] {
      var e := events[0];
      if e.Call? && e.id in p {
        ConsistentAfter(p[e.id], e.op, e.now);
      }
      RunsStayConsistent(PoolAfter(p, e), events[1..]);
    }
  }

  // Every store state reachable from the empty pool.
  lemma ReachableStoresAreConsistent(events: seq<Event>)
    requires RenewalsKeepIdentity(map[], events)
    ensures AllConsistent(Replay(map[], events))
  {
    RunsStayConsistent(map[], events);
  }

  // ------------------------------------------------------- issuer deadline

  predicate NotLater(before: real, after: real) {
    after != 0.0 && after <= before
  }

  // A stored re-push of the same JWE under the same subject moves a known
  // deadline no later exactly when the subject is known or the push itself
  // reports an earlier expiry.
  lemma RepushDeadline(a: Rec, op: Op, now: real)
    requires op.UpdateToken? && op.newToken.Jwe? && op.newToken == a.substrate.token && a.substrate.deadline > 0.0
    requires SubjectAfter(a.substrate, op.newToken, op.capturedSubject) == a.substrate.subject
    requires Apply(a, op, now).Stored?
    ensures NotLater(a.substrate.deadline, After(a, op, now).substrate.deadline) <==>
            a.substrate.subject != "" || (op.expiry.At? && 0.0 < op.expiry.seconds <= a.substrate.deadline)
  {
  }

  lemma AnonymousRepushMovesDeadlineLater()
    ensures exists a: Rec, op: Op, now: real ::
      && op.UpdateToken? && op.newToken == a.substrate.token && op.newToken.Jwe? && a.substrate.deadline > 0.0
      && SubjectAfter(a.substrate, op.newToken, op.capturedSubject) == a.substrate.subject
      && Apply(a, op, now).Stored? && After(a, op, now).substrate.deadline > a.substrate.deadline
  {
    var a := BLANK.(substrate := NO_SUBSTRATE.(token := Jwe("t"), deadline := 10.0));
    var op := UpdateToken(Jwe("t"), None, true, None, None, At(20.0));
    assert Apply(a, op, 1.0).Stored? && After(a, op, 1.0).substrate.deadline == 20.0;
  }

  // ------------------------------------------------------- runs of one account

  datatype Timed = Timed(op: Op, now: real)

  // The successive records of one account between its creation and its removal.
  ghost predicate IsRun(states: seq<Rec>, calls: seq<Timed>) {
    && |states| == |calls| + 1
    && forall i :: 0 <= i < |calls| ==> states[i + 1] == After(states[i], calls[i].op, calls[i].now)
  }

  // One step: the epoch only grows, and grows whenever the provider changes or
  // a filled slot is pinned to another subject.
  lemma EpochDatesChanges(a: Rec, op: Op, now: real)
    ensures var b := After(a, op, now);
      && a.epoch <= b.epoch
      && (a.provider != b.provider ==> a.epoch < b.epoch)
      && (a.substrate.token != NoToken && a.substrate.subject != b.substrate.subject ==> a.epoch < b.epoch)
      && (a.consumer.token != "" && a.consumer.subject != b.consumer.subject ==> a.epoch < b.epoch)
  {
  }

  lemma {:induction false} EpochMonotone(states: seq<Rec>, calls: seq<Timed>, i: nat, j: nat)
    requires IsRun(states, calls) && i <= j < |states|
    ensures states[i].epoch <= states[j].epoch
    decreases j - i
  {
    if i < j {
      EpochMonotone(states, calls, i, j - 1);
      EpochDatesChanges(states[j - 1], calls[j - 1].op, calls[j - 1].now);
    }
  }

  // Equal epochs at two moments: no switch happened between them, and a slot
  // that stayed filled stayed pinned to the same subject.
  lemma {:induction false} SameEpochSameIdentity(states: seq<Rec>, calls: seq<Timed>, i: nat, k: nat, j: nat)
    requires IsRun(states, calls) && i <= k <= j < |states|
    requires states[i].epoch == states[j].epoch
    ensures states[k].epoch == states[i].epoch && states[k].provider == states[i].provider
    ensures (forall m :: i <= m <= k ==> states[m].substrate.token != NoToken)
            ==> states[k].substrate.subject == states[i].substrate.subject
    ensures (forall m :: i <= m <= k ==> states[m].consumer.token != "")
            ==> states[k].consumer.subject == states[i].consumer.subject
    decreases k - i
  {
    EpochMonotone(states, calls, i, k);
    EpochMonotone(states, calls, k, j);
    if i < k {
      SameEpochSameIdentity(states, calls, i, k - 1, j);
      EpochDatesChanges(states[k - 1], calls[k - 1].op, calls[k - 1].now);
    }
  }

  // Along any run that keeps one JWE under one known subject, a known issuer
  // deadline never moves later and is never forgotten. The plain RT commit is
  // excluded: it only ever stores a JWT.
  lemma {:induction false} DeadlineOnlyTightens(states: seq<Rec>, calls: seq<Timed>, i: nat, j: nat)
    requires IsRun(states, calls) && i <= j < |states|
    requires states[i].substrate.token.Jwe? && states[i].substrate.subject != "" && states[i].substrate.deadline > 0.0
    requires forall k :: i <= k <= j ==>
      states[k].substrate.token == states[i].substrate.token && states[k].substrate.subject == states[i].substrate.subject
    requires forall k :: i <= k < j && calls[k].op.ApplyRefreshTokenResult? ==> calls[k].op.newToken.Jwt?
    ensures states[j].substrate.deadline > 0.0 && NotLater(states[i].substrate.deadline, states[j].substrate.deadline)
    decreases j - i
  {
    if i < j {
      DeadlineOnlyTightens(states, calls, i, j - 1);
    }
  }

  // ------------------------------------------------------- throttle and backoff

  // The calls that may lift or replace the throttle of `a`: setting another one,
  // a turn of the same identity and mode that started after it, a new Consumer
  // subject, or forgetting every credential.
  predicate Lifts(a: Rec, op: Op) {
    match op
    case SetThrottledUntil(_, _, _, _) => true
    case ClearThrottledUntil(mode, startedAt, identity, _) =>
      && identity == (a.provider, a.consumer.subject) && startedAt > a.throttle.at
      && (a.throttle.mode == "" || a.throttle.mode == mode)
    case SetConsumerAuth(_, _, _, subject, _, _, _, _, _, _, _) => subject.Some? && subject.value != a.consumer.subject
    case ClearCredentials => true
    case _ => false
  }

  // A throttle in force stays exactly as it was set until one of those calls.
  lemma {:induction false} ThrottleStaysUntilLifted(states: seq<Rec>, calls: seq<Timed>, i: nat, j: nat)
    requires IsRun(states, calls) && i <= j < |states| && states[i].throttle.until != 0.0
    requires forall k :: i <= k < j ==> !Lifts(states[k], calls[k].op)
    ensures states[j].throttle == states[i].throttle
    decreases j - i
  {
    if i < j {
      ThrottleStaysUntilLifted(states, calls, i, j - 1);
      assert !Lifts(states[j - 1], calls[j - 1].op);
    }
  }

  predicate ReplacesGrant(op: Op) {
    op.SetRefreshToken? || op.ApplyRefreshTokenResult? || op.ClearCredentials?
  }

  predicate ReplacesConsumerGrant(op: Op) {
    op.SetConsumerAuth? || op.SetConsumerRefreshToken? || op.ApplyConsumerRefreshResult? || op.ClearCredentials?
  }

  // Until a grant is stored, spent or forgotten it stays the same grant, and the
  // pause before its next use is only ever extended.
  lemma {:induction false} BackoffOnlyGrows(states: seq<Rec>, calls: seq<Timed>, i: nat, j: nat)
    requires IsRun(states, calls) && i <= j < |states|
    ensures (forall k :: i <= k < j ==> !ReplacesGrant(calls[k].op)) ==>
              states[j].grant.text == states[i].grant.text && states[j].grant.retryAfter >= states[i].grant.retryAfter
    ensures (forall k :: i <= k < j ==> !ReplacesConsumerGrant(calls[k].op)) ==>
              states[j].consumerGrant.text == states[i].consumerGrant.text
              && states[j].consumerGrant.retryAfter >= states[i].consumerGrant.retryAfter
    decreases j - i
  {
    if i < j {
      BackoffOnlyGrows(states, calls, i, j - 1);
      assert states[j] == After(states[j - 1], calls[j - 1].op, calls[j - 1].now);
    }
  }
}
