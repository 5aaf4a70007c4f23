// The renewals that run outside the store lock: each takes a snapshot of the
// record, waits for Microsoft or for a browser, and comes back to a record that
// pushes, switches and clears may have changed (consumer_refresh_via_rt.py,
// refresh_via_rt.py, refresh_scheduler.py).
module Renewals {
  import opened Prelude
  import opened AccountRecord
  import opened AccountInvariants

  const BACKOFF := 900.0

  // ------------------------------------------------------- Consumer grant

  datatype ConsumerRenewal = ConsumerRenewal(epoch: nat, grant: string, client: string, scope: string,
                                             token: string, subject: string)

  // The answer of one token request. `Unusable` covers a body that does not
  // parse, is not an object, or carries no access token.
  datatype ConsumerExchange =
    | NetworkFailure
    | Declined(terminal: bool, reason: string)
    | Unusable
    | Minted(subject: string, accessToken: string, rotated: string, expiresIn: int)

  datatype ConsumerStart = NoShortcut(rec: Rec) | Exchanging(renewal: ConsumerRenewal)

  predicate Replayable(grant: string) {
    40 <= |grant| <= 8192 && forall i :: 0 <= i < |grant| ==> !IsSpace(grant[i])
  }

  predicate Current(a: Rec, epoch: nat, provider: Provider) {
    a.epoch == epoch && a.provider == provider
  }

  function BeginConsumer(a: Rec, now: real): ConsumerStart {
    if a.provider != Consumer || !Replayable(a.consumerGrant.text) || a.consumerGrant.retryAfter > now then NoShortcut(a)
    else if a.consumerBinding.client == "" || a.consumerBinding.scope == "" then
      NoShortcut(After(a, SetConsumerRefreshToken("", None, None, Some(a.consumerGrant.text), "consumer_rt_unbound"), now))
    else if a.consumer.subject == "" then NoShortcut(a)
    else Exchanging(ConsumerRenewal(a.epoch, a.consumerGrant.text, a.consumerBinding.client, a.consumerBinding.scope,
                                    a.consumer.token, a.consumer.subject))
  }

  // The store call an answer leads to, and whether it is the renewal's commit.
  function ConsumerClosing(r: ConsumerRenewal, x: ConsumerExchange, now: real): Option<(Op, bool)> {
    var pause := DeferConsumerRefreshToken(r.grant, now + BACKOFF);
    match x
    case NetworkFailure => Some((pause, false))
    case Declined(terminal, reason) =>
      Some((if terminal then SetConsumerRefreshToken("", None, None, Some(r.grant), reason) else pause, false))
    case Unusable => None
    case Minted(subject, accessToken, rotated, expiresIn) =>
      if accessToken == "" then None
      else if subject != r.subject then
        Some((SetConsumerRefreshToken("", None, None, Some(r.grant), "consumer_rt_subject_mismatch"), false))
      else
        var expiry := if expiresIn > 0 then Some(now + expiresIn as real) else Some(0.0);
        Some((ApplyConsumerRefreshResult(r.grant, r.token, accessToken, rotated, expiry, Some(r.epoch)), true))
  }

  function CompleteConsumer(a: Rec, r: ConsumerRenewal, x: ConsumerExchange, now: real): (Rec, bool) {
    var closing := ConsumerClosing(r, x, now);
    if !Current(a, r.epoch, Consumer) || closing.None? then (a, false)
    else (After(a, closing.value.0, now), closing.value.1 && Apply(a, closing.value.0, now).Stored?)
  }

  // The whole snapshot is still current.
  predicate ConsumerUntouched(a: Rec, r: ConsumerRenewal) {
    Current(a, r.epoch, Consumer) && a.consumerGrant.text == r.grant && a.consumer.token == r.token
  }

  // A renewal succeeds exactly on an untouched snapshot and a token minted for
  // the pinned subject; then, and only then, the stored token becomes that one.
  lemma ConsumerCommitsOnlyOnItsSnapshot(a: Rec, r: ConsumerRenewal, x: ConsumerExchange, now: real)
    ensures var (b, ok) := CompleteConsumer(a, r, x, now);
      && (ok <==> ConsumerUntouched(a, r) && x.Minted? && x.accessToken != "" && x.subject == r.subject)
      && b.consumer.token == (if ok then x.accessToken else a.consumer.token)
      && (ok ==> b.consumerGrant.text == if x.rotated != "" then x.rotated else r.grant)
      && (!ok && b.consumerGrant.text != a.consumerGrant.text ==> b.consumerGrant.text == "")
  {
  }

  // A different grant pushed during the exchange is neither replaced, discarded
  // nor paused, and a different token is never overwritten.
  lemma NewerConsumerCredentialsSurvive(a: Rec, r: ConsumerRenewal, x: ConsumerExchange, now: real)
    ensures a.consumerGrant.text != r.grant ==> CompleteConsumer(a, r, x, now) == (a, false)
    ensures a.consumer.token != r.token ==> CompleteConsumer(a, r, x, now).0.consumer.token == a.consumer.token
    ensures var b := CompleteConsumer(a, r, x, now).0;
      && b.substrate.token == a.substrate.token && b.substrate.subject == a.substrate.subject
      && b.substrate.session == a.substrate.session && b.grant.text == a.grant.text
      && b.provider == a.provider && b.epoch == a.epoch && b.consumer.subject == a.consumer.subject
  {
  }

  // The whole life of one Consumer renewal, whatever the store does meanwhile.
  // Switching away and back is always noticed; success means no switch at all,
  // and, for a slot that stayed filled, a token of the subject still pinned.
  lemma ConsumerRenewalOverARun(states: seq<Rec>, calls: seq<Timed>, started: real,
                                x: ConsumerExchange, now: real)
    requires IsRun(states, calls)
    requires BeginConsumer(states[0], started).Exchanging?
    ensures var r := BeginConsumer(states[0], started).renewal;
      var last := states[|states| - 1];
      var (b, ok) := CompleteConsumer(last, r, x, now);
      && ((exists k :: 0 <= k < |states| && states[k].provider != Consumer) ==> b == last && !ok)
      && ((ok && forall k :: 0 <= k < |states| ==> states[k].consumer.token != "")
          ==> x.subject == b.consumer.subject == states[0].consumer.subject)
  {
    var n := |states| - 1;
    var r := BeginConsumer(states[0], started).renewal;
    if states[n].epoch == r.epoch {
      forall k | 0 <= k < |states| ensures states[k].provider == Consumer {
        SameEpochSameIdentity(states, calls, 0, k, n);
      }
      SameEpochSameIdentity(states, calls, 0, n, n);
    }
  }

  // The renewal keeps the store consistent when it replaces a token, and also
  // when it fills an empty slot that may be paired.
  lemma ConsumerRenewalConsistent(a: Rec, r: ConsumerRenewal, x: ConsumerExchange, now: real)
    requires Consistent(a)
    ensures var (b, ok) := CompleteConsumer(a, r, x, now);
      Consistent(b) <==> !(ok && r.token == "" && !MayPairConsumer(a, a.consumer.subject))
  {
  }

  // ------------------------------------------------------- AAD grant

  datatype AadRenewal = AadRenewal(epoch: nat, grant: string, token: Token, tenantId: string, objectId: string)

  // `Unusable` answers are paused here, unlike on the Consumer path.
  datatype AadExchange =
    | AadNetworkFailure
    | AadDeclined(terminal: bool, reason: string)
    | AadUnusable
    | AadMinted(accessToken: Token, rotated: string)

  datatype AadStart = NoAadShortcut(rec: Rec) | AadExchanging(renewal: AadRenewal)

  // The stored binding names the very subject of the stored token.
  predicate BoundToItsToken(a: Rec) {
    && a.binding.clientId != "" && a.binding.authority != ""
    && a.binding.tenantId != "" && a.binding.objectId != ""
    && a.substrate.token.Jwt? && (a.substrate.token.tenant, a.substrate.token.objectId) == (a.binding.tenantId, a.binding.objectId)
  }

  function BeginAad(a: Rec, now: real): AadStart {
    if a.provider != M365 || a.grant.text == "" then NoAadShortcut(a)
    else if !BoundToItsToken(a) then
      NoAadShortcut(After(a, SetRefreshToken("", None, None, None, None, Some(a.grant.text), "unbound", ""), now))
    else AadExchanging(AadRenewal(a.epoch, a.grant.text, a.substrate.token, a.binding.tenantId, a.binding.objectId))
  }

  function AadClosing(r: AadRenewal, x: AadExchange, now: real): (Op, bool) {
    var pause := DeferRefreshToken(r.grant, now + BACKOFF);
    match x
    case AadNetworkFailure => (pause, false)
    case AadDeclined(terminal, reason) =>
      (if terminal then SetRefreshToken("", None, None, None, None, Some(r.grant), reason, "") else pause, false)
    case AadUnusable => (pause, false)
    case AadMinted(accessToken, rotated) =>
      if !accessToken.Jwt? then (pause, false)
      else if (accessToken.tenant, accessToken.objectId) != (r.tenantId, r.objectId) then
        (SetRefreshToken("", None, None, None, None, Some(r.grant), "subject_mismatch", ""), false)
      else (ApplyRefreshTokenResult(r.grant, r.token, accessToken, rotated, Some(r.epoch)), true)
  }

  function CompleteAad(a: Rec, r: AadRenewal, x: AadExchange, now: real): (Rec, bool) {
    if !Current(a, r.epoch, M365) then (a, false)
    else
      var (op, commits) := AadClosing(r, x, now);
      (After(a, op, now), commits && Apply(a, op, now).Stored?)
  }

  lemma AadCommitsOnlyOnItsSnapshot(a: Rec, r: AadRenewal, x: AadExchange, now: real)
    ensures var (b, ok) := CompleteAad(a, r, x, now);
      && (ok <==> && Current(a, r.epoch, M365) && a.grant.text == r.grant && a.substrate.token == r.token
                  && x.AadMinted? && x.accessToken.Jwt?
                  && (x.accessToken.tenant, x.accessToken.objectId) == (r.tenantId, r.objectId))
      && b.substrate.token == (if ok then x.accessToken else a.substrate.token)
      && (a.grant.text != r.grant ==> b == a)
  {
  }

  // What the caller checks before and after the exchange is what the commit
  // relies on: renewing through a bound grant never changes the token's subject,
  // so it keeps a consistent account consistent.
  lemma AadRenewalOverARun(states: seq<Rec>, calls: seq<Timed>, started: real, x: AadExchange, now: real)
    requires IsRun(states, calls)
    requires BeginAad(states[0], started).AadExchanging?
    ensures var r := BeginAad(states[0], started).renewal;
      var last := states[|states| - 1];
      var (b, ok) := CompleteAad(last, r, x, now);
      && ((exists k :: 0 <= k < |states| && states[k].provider != M365) ==> b == last && !ok)
      && (ok ==> StudioSubject(b.substrate.token) == StudioSubject(states[0].substrate.token))
      && (Consistent(last) ==> Consistent(b))
  {
    var n := |states| - 1;
    var r := BeginAad(states[0], started).renewal;
    if states[n].epoch == r.epoch {
      forall k | 0 <= k < |states| ensures states[k].provider == M365 {
        SameEpochSameIdentity(states, calls, 0, k, n);
      }
    }
  }

  // ------------------------------------------------------- pinned personal session

  datatype PersonalRenewal = PersonalRenewal(epoch: nat, token: Token, session: Option<Session>, proxyUrl: string)

  datatype PersonalAnswer =
    | PersonalFailure(code: string)
    | PersonalMinted(token: Token, subject: string, capture: Option<Capture>, expiry: Expiry)

  function PersonalSnapshot(a: Rec): PersonalRenewal {
    PersonalRenewal(a.epoch, a.substrate.token, a.substrate.session, a.proxyUrl)
  }

  function CompletePersonal(a: Rec, r: PersonalRenewal, x: PersonalAnswer, now: real): (Rec, bool) {
    match x
    case PersonalFailure(code) => (After(a, SetPersonalError(code, r.token, r.epoch, r.session), now), false)
    case PersonalMinted(token, subject, capture, expiry) =>
      if a.proxyUrl != r.proxyUrl then (a, false)
      else
        var commit := ApplyPersonalRefresh(r.token, r.epoch, r.session, token, subject, capture, expiry);
        (After(a, commit, now), Apply(a, commit, now).Stored?)
  }

  lemma PersonalRenewalOverARun(states: seq<Rec>, calls: seq<Timed>, x: PersonalAnswer, now: real)
    requires IsRun(states, calls) && states[0].provider == M365
    ensures var r := PersonalSnapshot(states[0]);
      var last := states[|states| - 1];
      var (b, ok) := CompletePersonal(last, r, x, now);
      && ((exists k :: 0 <= k < |states| && states[k].provider != M365) ==> b == last && !ok)
      && (b != last ==> PersonalSnapshot(last).(proxyUrl := r.proxyUrl) == r)
      && (ok ==> PersonalSnapshot(last) == r && x.PersonalMinted? && b.substrate.token == x.token != r.token
                 && b.substrate.subject == x.subject == last.substrate.subject != "")
      && (!ok ==> b.substrate.token == last.substrate.token && b.substrate.session == last.substrate.session)
      && (Consistent(last) ==> Consistent(b))
  {
    var n := |states| - 1;
    if states[n].epoch == states[0].epoch {
      forall k | 0 <= k < |states| ensures states[k].provider == M365 {
        SameEpochSameIdentity(states, calls, 0, k, n);
      }
    }
  }

  // ------------------------------------------------------- Consumer browser gate

  datatype GateRenewal = GateRenewal(epoch: nat, snapshot: ConsumerSnapshot, identityType: string)

  // What the browser brings back; `grant` is empty unless its own subject was read.
  datatype GateAnswer =
    | GateFailure
    | GateMinted(token: string, subject: string, cookies: seq<string>, reusable: bool, identityType: string,
                 grant: string, grantSubject: string, grantClient: string, grantScope: string)

  function GateSnapshot(a: Rec): GateRenewal {
    GateRenewal(a.epoch, SnapshotOf(a.consumer),
                a.consumer.identityType)
  }

  // A grant is carried over only with its binding and for the pinned subject.
  predicate CarriesGrant(r: GateRenewal, x: GateAnswer) {
    && x.GateMinted? && Replayable(x.grant) && x.grantSubject == r.snapshot.subject
    && x.grantClient != "" && x.grantScope != ""
  }

  predicate GateUsable(r: GateRenewal, x: GateAnswer) {
    && x.GateMinted? && x.token != "" && x.token != r.snapshot.token
    && x.subject == r.snapshot.subject && x.reusable
  }

  function GateCommit(r: GateRenewal, x: GateAnswer): Op
    requires GateUsable(r, x)
  {
    var carries := CarriesGrant(r, x);
    SetConsumerAuth(x.cookies, x.token, if x.identityType != "" then x.identityType else r.identityType,
                    Some(r.snapshot.subject), Some(r.snapshot), Some(r.epoch), None,
                    if carries then Some(x.grant) else None,
                    if carries then Some(x.grantClient) else None,
                    if carries then Some(x.grantScope) else None, false)
  }

  function CompleteGate(a: Rec, r: GateRenewal, x: GateAnswer, now: real): (Rec, bool) {
    if !GateUsable(r, x) then (a, false)
    else (After(a, GateCommit(r, x), now), Apply(a, GateCommit(r, x), now).Stored?)
  }

  // Success is exactly: an unchanged slot at an unchanged epoch, answered for
  // the pinned subject, and both slots still of one identity.
  lemma GateCommitsOnlyOnItsSnapshot(a: Rec, r: GateRenewal, x: GateAnswer, now: real)
    ensures var (b, ok) := CompleteGate(a, r, x, now);
      && (ok <==> GateUsable(r, x) && Current(a, r.epoch, Consumer)
                  && GateSnapshot(a).snapshot == r.snapshot && MayPairConsumer(a, a.consumer.subject))
      && b.consumer.token == (if ok then x.token else a.consumer.token)
      && (!ok ==> b == a)
      && (Consistent(a) ==> Consistent(b))
  {
  }

  lemma GateRenewalOverARun(states: seq<Rec>, calls: seq<Timed>, x: GateAnswer, now: real)
    requires IsRun(states, calls) && states[0].provider == Consumer
    ensures var r := GateSnapshot(states[0]);
      var last := states[|states| - 1];
      var (b, ok) := CompleteGate(last, r, x, now);
      && ((exists k :: 0 <= k < |states| && states[k].provider != Consumer) ==> b == last && !ok)
      && (ok ==> b.consumer.subject == x.subject == states[0].consumer.subject)
  {
    var n := |states| - 1;
    if states[n].epoch == states[0].epoch {
      forall k | 0 <= k < |states| ensures states[k].provider == Consumer {
        SameEpochSameIdentity(states, calls, 0, k, n);
      }
    }
  }

  // The snapshot of a browser renewal leaves the grant out. It is noticed all the
  // same: whatever else stores a grant also dates the slot.
  ghost predicate GateWouldNotice(a: Rec, b: Rec) {
    b.epoch > a.epoch || b.consumer.updatedAt != a.consumer.updatedAt
  }

  // This call stores the grant that is there now, and nothing else.
  ghost predicate StoresGrantAlone(op: Op, grant: string) {
    op.SetConsumerRefreshToken? && op.grantText == grant
  }

  lemma GrantChangeIsNoticed(a: Rec, b: Rec, op: Op, now: real)
    requires a.epoch <= b.epoch && now != a.consumer.updatedAt
    ensures var c := After(b, op, now);
      && (GateWouldNotice(a, b) ==> GateWouldNotice(a, c))
      && (c.consumerGrant.text != b.consumerGrant.text ==>
            c.consumerGrant.text == "" || StoresGrantAlone(op, c.consumerGrant.text) || GateWouldNotice(a, c))
  {
    EpochDatesChanges(b, op, now);
  }

  ghost predicate GrantAccountedFor(states: seq<Rec>, calls: seq<Timed>, i: nat)
    requires i < |states| == |calls| + 1
  {
    || states[i].consumerGrant.text in {states[0].consumerGrant.text, ""}
    || GateWouldNotice(states[0], states[i])
    || exists k :: 0 <= k < i && StoresGrantAlone(calls[k].op, states[i].consumerGrant.text)
  }

  lemma {:induction false} GrantsAccountedFor(states: seq<Rec>, calls: seq<Timed>, i: nat)
    requires IsRun(states, calls) && i < |states|
    requires forall k :: 0 <= k < |calls| ==> calls[k].now != states[0].consumer.updatedAt
    ensures GrantAccountedFor(states, calls, i)
  {
    if i > 0 {
      GrantsAccountedFor(states, calls, i - 1);
      EpochMonotone(states, calls, 0, i - 1);
      var op := calls[i - 1].op;
      GrantChangeIsNoticed(states[0], states[i - 1], op, calls[i - 1].now);
      if StoresGrantAlone(op, states[i].consumerGrant.text) {
        assert exists k :: 0 <= k < i && StoresGrantAlone(calls[k].op, states[i].consumerGrant.text);
      } else if states[i].consumerGrant.text == states[i - 1].consumerGrant.text
                && exists k :: 0 <= k < i - 1 && StoresGrantAlone(calls[k].op, states[i - 1].consumerGrant.text) {
        var k :| 0 <= k < i - 1 && StoresGrantAlone(calls[k].op, states[i - 1].consumerGrant.text);
        assert StoresGrantAlone(calls[k].op, states[i].consumerGrant.text);
      }
    }
  }

  // Over any run: a browser renewal that succeeds replaces only the grant it
  // started from, or none, or one that a call stored by itself meanwhile.
  lemma GateReplacesOnlyItsGrant(states: seq<Rec>, calls: seq<Timed>, x: GateAnswer, now: real)
    requires IsRun(states, calls)
    requires forall k :: 0 <= k < |calls| ==> calls[k].now != states[0].consumer.updatedAt
    requires CompleteGate(states[|states| - 1], GateSnapshot(states[0]), x, now).1
    ensures var grant := states[|states| - 1].consumerGrant.text;
      grant in {states[0].consumerGrant.text, ""} || exists k :: 0 <= k < |calls| && StoresGrantAlone(calls[k].op, grant)
  {
    GrantsAccountedFor(states, calls, |states| - 1);
  }

  // The program stores no grant by itself, it only discards them that way; so a
  // grant pushed while the browser runs is never overwritten.
  lemma PushedGrantSurvivesTheGate(states: seq<Rec>, calls: seq<Timed>, x: GateAnswer, now: real)
    requires IsRun(states, calls)
    requires forall k :: 0 <= k < |calls| ==> calls[k].now != states[0].consumer.updatedAt
    requires forall k :: 0 <= k < |calls| && calls[k].op.SetConsumerRefreshToken? ==> calls[k].op.grantText == ""
    requires states[|states| - 1].consumerGrant.text !in {states[0].consumerGrant.text, ""}
    ensures CompleteGate(states[|states| - 1], GateSnapshot(states[0]), x, now) == (states[|states| - 1], false)
  {
    var last := states[|states| - 1];
    GateCommitsOnlyOnItsSnapshot(last, GateSnapshot(states[0]), x, now);
    if CompleteGate(last, GateSnapshot(states[0]), x, now).1 {
      GateReplacesOnlyItsGrant(states, calls, x, now);
    }
  }

  // A remark on the bare store call, which the program only uses to discard: a
  // grant it stored while the browser runs would survive exactly when the browser
  // brought no other one.
  lemma GateKeepsPushedGrantExactly(a: Rec, r: GateRenewal, x: GateAnswer, now: real)
    requires CompleteGate(a, r, x, now).1
    ensures CompleteGate(a, r, x, now).0.consumerGrant.text == a.consumerGrant.text
            <==> !CarriesGrant(r, x) || x.grant == a.consumerGrant.text
  {
  }

  lemma GateCanOverwritePushedGrant(pushed: string, found: string)
    requires Replayable(found) && pushed != found && pushed != ""
    ensures exists a0: Rec, op: Op, x: GateAnswer ::
      var a := After(a0, op, 1.0);
      var (b, ok) := CompleteGate(a, GateSnapshot(a0), x, 2.0);
      op.SetConsumerRefreshToken? && a.consumerGrant.text == pushed && ok && b.consumerGrant.text == found
  {
    var a0 := BLANK.(provider := Consumer, consumer := NO_CONSUMER.(subject := "home:1", token := "old"));
    var op := SetConsumerRefreshToken(pushed, Some("id"), Some("scope"), None, "");
    var x := GateMinted("new", "home:1", ["c"], true, "", found, "home:1", "id", "scope");
    var a := After(a0, op, 1.0);
    assert CompleteGate(a, GateSnapshot(a0), x, 2.0).1;
    assert CompleteGate(a, GateSnapshot(a0), x, 2.0).0.consumerGrant.text == found;
  }
}
