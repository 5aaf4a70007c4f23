// One pooled account and the effect of every store operation on it
// (account_store.py). An account has two protocol slots, Substrate and
// Consumer; the operations are total functions of the record, so that a run of
// the store is a run of these functions.
module AccountRecord {
  import opened Prelude

  // ------------------------------------------------------------ vocabulary

  // A bearer credential as the store's classifiers see it. Empty JWT claims
  // are possible, and then the token has no usable subject.
  datatype Token =
    | NoToken
    | Jwe(text: string)
    | Jwt(tenant: string, objectId: string, text: string)
    | Unclassified(text: string)

  const PERSONAL_TENANT := "84df9e7f-e9f6-40af-b435-aaaaaaaaaaaa"

  function StudioSubject(t: Token): (string, string) {
    if t.Jwt? && t.tenant != "" && t.objectId != "" then (t.tenant, t.objectId) else ("", "")
  }

  predicate Personal(t: Token) {
    t.Jwe? || StudioSubject(t).0 == PERSONAL_TENANT
  }

  datatype Provider = M365 | Consumer

  // A normalized browser session, and the capture it is made from. `acceptable`
  // stands for the field-by-field checks on cookies, storage and broker grant.
  datatype Session = Session(subject: string, material: string)
  datatype Capture = Capture(subject: string, material: string, acceptable: bool)

  function NormalizeSession(capture: Option<Capture>, subject: string): Option<Session> {
    if capture.Some? && capture.value.acceptable && subject != "" && capture.value.subject == subject
    then Some(Session(subject, capture.value.material))
    else None
  }

  datatype Expiry = Unreported | At(seconds: real) | Malformed

  const MAX_EXPIRY := 253402300799.0

  function NormalizeExpiry(e: Expiry): Option<real> {
    match e
    case Unreported => Some(0.0)
    case At(s) => if 0.0 <= s <= MAX_EXPIRY then Some(s) else None
    case Malformed => None
  }

  // The Consumer side never rejects an expiry; an unusable one means "unknown".
  function KnownOrZero(e: Option<real>): real {
    if e.Some? && e.value > 0.0 then e.value else 0.0
  }

  datatype Binding = Binding(clientId: string, authority: string, tenantId: string, objectId: string)
  const UNBOUND := Binding("", "", "", "")

  // A refresh grant with its backoff and its post-mortem.
  datatype Grant = Grant(text: string, updatedAt: real, retryAfter: real, disabledReason: string, disabledAt: real)
  const NO_GRANT := Grant("", 0.0, 0.0, "", 0.0)

  datatype ConsumerBinding = ConsumerBinding(client: string, scope: string)
  const NO_CONSUMER_BINDING := ConsumerBinding("", "")

  datatype SubstrateSlot = SubstrateSlot(token: Token, updatedAt: real, subject: string,
                                         session: Option<Session>, deadline: real, refreshError: string)
  const NO_SUBSTRATE := SubstrateSlot(NoToken, 0.0, "", None, 0.0, "")

  datatype ConsumerSlot = ConsumerSlot(token: string, identityType: string, subject: string,
                                       cookies: seq<string>, updatedAt: real, deadline: real)
  const NO_CONSUMER := ConsumerSlot("", "", "", [], 0.0, 0.0)

  datatype Throttle = Throttle(until: real, mode: string, at: real)
  const NO_THROTTLE := Throttle(0.0, "", 0.0)

  // The record itself: two protocol slots with their grants, and the switch.
  datatype Rec = Rec(
    substrate: SubstrateSlot, grant: Grant, binding: Binding,
    consumer: ConsumerSlot, consumerGrant: Grant, consumerBinding: ConsumerBinding,
    throttle: Throttle, proxyUrl: string, provider: Provider, epoch: nat)

  const BLANK := Rec(NO_SUBSTRATE, NO_GRANT, UNBOUND, NO_CONSUMER, NO_GRANT, NO_CONSUMER_BINDING,
                     NO_THROTTLE, "", M365, 0)

  // What a store call reports: the new record, the silent `None`, or ValueError.
  datatype Outcome = Stored(rec: Rec) | Stale | Raised

  // ------------------------------------------------------------ operations

  datatype ConsumerSnapshot = ConsumerSnapshot(updatedAt: real, token: string, subject: string)

  datatype Op =
    | ActivateProtocol(target: Provider)
    | UpdateToken(newToken: Token, capturedSubject: Option<string>, activate: bool,
                  expectedEpoch: Option<nat>, capture: Option<Capture>, expiry: Expiry)
    | ApplyPersonalRefresh(expectedToken: Token, atEpoch: nat, expectedSession: Option<Session>,
                           newToken: Token, newSubject: string, capture: Option<Capture>, expiry: Expiry)
    | SetPersonalError(code: string, expectedToken: Token, atEpoch: nat, expectedSession: Option<Session>)
    | ClearToken
    | SetConsumerAuth(cookies: seq<string>, accessToken: string, identityType: string,
                      newConsumerSubject: Option<string>, expectedSnapshot: Option<ConsumerSnapshot>,
                      expectedEpoch: Option<nat>, expiresAt: Option<real>,
                      newGrant: Option<string>, newClient: Option<string>, newScope: Option<string>,
                      activate: bool)
    | SetThrottledUntil(until: real, mode: string, expectedIdentity: Option<(Provider, string)>,
                        expectedEpoch: Option<nat>)
    | ClearThrottledUntil(mode: string, startedAt: real, identity: (Provider, string),
                          expectedEpoch: Option<nat>)
    | SetRefreshToken(grantText: string, clientId: Option<string>, authority: Option<string>,
                      tenantId: Option<string>, objectId: Option<string>,
                      expectedGrant: Option<string>, reason: string, preserveClient: string)
    | DeferRefreshToken(grantText: string, retryAfter: real)
    | ApplyRefreshTokenResult(grantText: string, expectedToken: Token, newToken: Token,
                              rotated: string, expectedEpoch: Option<nat>)
    | SetConsumerRefreshToken(grantText: string, client: Option<string>, scope: Option<string>,
                              expectedGrant: Option<string>, reason: string)
    | DeferConsumerRefreshToken(grantText: string, retryAfter: real)
    | ApplyConsumerRefreshResult(grantText: string, expectedAccess: string, accessToken: string,
                                 rotated: string, expiresAt: Option<real>, expectedEpoch: Option<nat>)
    | ClearCredentials
    | SetProxyUrl(url: string)

  predicate EpochMatches(a: Rec, expected: Option<nat>) {
    expected.None? || expected.value == a.epoch
  }

  function OrElse(o: Option<string>, previous: string): string {
    if o.Some? then o.value else previous
  }

  // Both slots filled is allowed only for one captured personal identity.
  predicate MayPairSubstrate(a: Rec, subject: string, t: Token) {
    a.consumer.token == "" || (Personal(t) && subject != "" && subject == a.consumer.subject)
  }

  predicate MayPairConsumer(a: Rec, consumerSubject: string) {
    a.substrate.token == NoToken
    || (Personal(a.substrate.token) && consumerSubject != "" && consumerSubject == a.substrate.subject)
  }

  predicate CanActivate(a: Rec, target: Provider) {
    var paired := a.substrate.token != NoToken && a.consumer.token != "";
    var matching := a.substrate.subject != "" && a.substrate.subject == a.consumer.subject && Personal(a.substrate.token);
    && (if target == M365 then a.substrate.token != NoToken else a.consumer.token != "" && a.consumer.subject != "")
    && (paired ==> matching)
  }

  function Switch(a: Rec, target: Provider): Rec {
    if a.provider == target then a else a.(provider := target, epoch := a.epoch + 1)
  }

  // The pinned subject a token update leaves behind. Without a new capture a
  // renewed token keeps it only when both identity claims are readable and equal.
  function SubjectAfter(s: SubstrateSlot, newToken: Token, captured: Option<string>): string {
    if captured.Some? then captured.value
    else if newToken == s.token then s.subject
    else if StudioSubject(s.token).0 != "" && StudioSubject(s.token) == StudioSubject(newToken) then s.subject
    else ""
  }

  // A known issuer deadline belongs to one JWE of one known subject; a re-push
  // may only bring it forward.
  function DeadlineAfter(s: SubstrateSlot, newToken: Token, subject: string, expiry: real): real {
    var kept := if subject != "" && subject == s.subject then s.deadline else 0.0;
    if !newToken.Jwe? then 0.0
    else if newToken != s.token then expiry
    else if expiry != 0.0 && (kept == 0.0 || expiry < kept) then expiry
    else kept
  }

  // The slot after a stored update: `material` is the normalized new capture, if
  // one came along; otherwise the old session survives only with its subject.
  function SubstrateAfter(s: SubstrateSlot, newToken: Token, subject: string, material: Option<Session>,
                          captured: bool, expiry: real, now: real): SubstrateSlot {
    var kept := subject != "" && subject == s.subject && newToken.Jwe?;
    SubstrateSlot(
      newToken,
      if newToken == s.token && newToken.Jwe? then s.updatedAt else now,
      subject,
      if captured then material else if kept then s.session else None,
      DeadlineAfter(s, newToken, subject, expiry),
      if kept && newToken == s.token then s.refreshError else "")
  }

  function ApplyUpdateToken(a: Rec, op: Op, now: real): Outcome
    requires op.UpdateToken?
  {
    var subject := SubjectAfter(a.substrate, op.newToken, op.capturedSubject);
    if !EpochMatches(a, op.expectedEpoch) then Stale
    else if op.capture.Some? && (!op.newToken.Jwe? || NormalizeSession(op.capture, subject).None?) then Raised
    else if op.newToken.Jwe? && NormalizeExpiry(op.expiry).None? then Raised
    else if !MayPairSubstrate(a, subject, op.newToken) then Raised
    else
      var repinned := a.substrate.token != NoToken && a.substrate.subject != subject;
      var switched := op.activate && a.provider != M365;
      Stored(a.(
        substrate := SubstrateAfter(a.substrate, op.newToken, subject, NormalizeSession(op.capture, subject), op.capture.Some?,
                                    if NormalizeExpiry(op.expiry).Some? then NormalizeExpiry(op.expiry).value else 0.0, now),
        provider := if op.activate then M365 else a.provider,
        epoch := a.epoch + (if repinned then 1 else 0) + (if switched then 1 else 0)))
  }

  function ApplyPersonal(a: Rec, op: Op, now: real): Outcome
    requires op.ApplyPersonalRefresh?
  {
    var session := NormalizeSession(op.capture, op.newSubject);
    var expiry := NormalizeExpiry(op.expiry);
    if || a.provider != M365 || a.epoch != op.atEpoch
       || a.substrate.token != op.expectedToken || a.substrate.session != op.expectedSession
       || !op.expectedToken.Jwe? || !op.newToken.Jwe? || op.newToken == op.expectedToken
       || a.substrate.subject == "" || op.newSubject != a.substrate.subject
       || session.None? || expiry.None? || !MayPairSubstrate(a, op.newSubject, op.newToken)
    then Stale
    else Stored(a.(substrate := SubstrateSlot(op.newToken, now, a.substrate.subject, session, expiry.value, "")))
  }

  function SnapshotOf(c: ConsumerSlot): ConsumerSnapshot {
    ConsumerSnapshot(c.updatedAt, c.token, c.subject)
  }

  function ApplyConsumerAuth(a: Rec, op: Op, now: real): Outcome
    requires op.SetConsumerAuth?
  {
    var subject := OrElse(op.newConsumerSubject, a.consumer.subject);
    if !EpochMatches(a, op.expectedEpoch) then Stale
    else if op.expectedSnapshot.Some? && (a.provider != Consumer || SnapshotOf(a.consumer) != op.expectedSnapshot.value)
    then Stale
    else if !MayPairConsumer(a, subject) then Raised
    else
      var repinned := subject != a.consumer.subject;
      var bumps := (if repinned && a.consumer.token != "" then 1 else 0)
                   + (if op.activate && a.provider != Consumer then 1 else 0);
      var grant := op.newGrant;
      Stored(a.(
        provider := if op.activate then Consumer else a.provider,
        epoch := a.epoch + bumps,
        throttle := if repinned then NO_THROTTLE else a.throttle,
        consumer := ConsumerSlot(op.accessToken, op.identityType, subject, op.cookies, now, KnownOrZero(op.expiresAt)),
        consumerGrant := if grant.Some? then FreshGrant(grant.value, now) else a.consumerGrant,
        consumerBinding := if grant.Some? then ConsumerRebind(a.consumerBinding, grant.value, op.newClient, op.newScope)
                           else a.consumerBinding))
  }

  // A stored grant starts without backoff and without a post-mortem.
  function FreshGrant(text: string, now: real): Grant {
    Grant(text, if text != "" then now else 0.0, 0.0, "", 0.0)
  }

  // Clearing a grant keeps the previous post-mortem unless it names a new one.
  function Cleared(g: Grant, reason: string, now: real): Grant {
    Grant("", 0.0, 0.0, if reason != "" then reason else g.disabledReason, if reason != "" then now else g.disabledAt)
  }

  function Rotated(g: Grant, rotated: string, now: real): Grant {
    if rotated != "" && rotated != g.text then g.(text := rotated, updatedAt := now, retryAfter := 0.0)
    else g.(retryAfter := 0.0)
  }

  function ConsumerRebind(b: ConsumerBinding, grant: string, client: Option<string>, scope: Option<string>): ConsumerBinding {
    if grant == "" then NO_CONSUMER_BINDING else ConsumerBinding(OrElse(client, b.client), OrElse(scope, b.scope))
  }

  function ApplySetThrottled(a: Rec, op: Op, now: real): Outcome
    requires op.SetThrottledUntil?
  {
    if !EpochMatches(a, op.expectedEpoch) then Stale
    else if op.expectedIdentity.Some? && op.expectedIdentity.value != (a.provider, a.consumer.subject) then Stale
    else Stored(a.(throttle := if op.until > 0.0 then Throttle(op.until, op.mode, now) else NO_THROTTLE))
  }

  function ApplyClearThrottled(a: Rec, op: Op): Outcome
    requires op.ClearThrottledUntil?
  {
    if op.identity != (a.provider, a.consumer.subject) || !EpochMatches(a, op.expectedEpoch) then Stale
    else if || a.throttle.until == 0.0
            || (a.throttle.mode != "" && a.throttle.mode != op.mode)
            || op.startedAt <= a.throttle.at
    then Stored(a)
    else Stored(a.(throttle := NO_THROTTLE))
  }

  function Rebind(b: Binding, clientId: Option<string>, authority: Option<string>,
                  tenantId: Option<string>, objectId: Option<string>): Binding {
    Binding(OrElse(clientId, b.clientId), OrElse(authority, b.authority),
            OrElse(tenantId, b.tenantId), OrElse(objectId, b.objectId))
  }

  function ApplySetRefreshToken(a: Rec, op: Op, now: real): Outcome
    requires op.SetRefreshToken?
  {
    var incoming, protected := Lower(OrElse(op.clientId, "")), Lower(op.preserveClient);
    if op.expectedGrant.Some? && op.expectedGrant.value != a.grant.text then Stale
    else if && op.grantText != "" && incoming != "" && protected != "" && incoming != protected
            && a.grant.text != "" && Lower(a.binding.clientId) == protected
    then Stored(a)
    else if op.grantText == "" then Stored(a.(grant := Cleared(a.grant, op.reason, now), binding := UNBOUND))
    else Stored(a.(grant := FreshGrant(op.grantText, now),
                        binding := Rebind(a.binding, op.clientId, op.authority, op.tenantId, op.objectId)))
  }

  function ApplyAadResult(a: Rec, op: Op, now: real): Outcome
    requires op.ApplyRefreshTokenResult?
  {
    if || a.grant.text != op.grantText || a.substrate.token != op.expectedToken || a.provider != M365
       || !EpochMatches(a, op.expectedEpoch)
    then Stale
    else Stored(a.(grant := Rotated(a.grant, op.rotated, now),
                   substrate := SubstrateSlot(op.newToken, now, a.substrate.subject, None, 0.0, "")))
  }

  function ApplySetConsumerGrant(a: Rec, op: Op, now: real): Outcome
    requires op.SetConsumerRefreshToken?
  {
    if op.expectedGrant.Some? && op.expectedGrant.value != a.consumerGrant.text then Stale
    else Stored(a.(
      consumerGrant := if op.grantText == "" then Cleared(a.consumerGrant, op.reason, now) else FreshGrant(op.grantText, now),
      consumerBinding := ConsumerRebind(a.consumerBinding, op.grantText, op.client, op.scope)))
  }

  function ApplyConsumerResult(a: Rec, op: Op, now: real): Outcome
    requires op.ApplyConsumerRefreshResult?
  {
    if || a.provider != Consumer || a.consumerGrant.text != op.grantText
       || a.consumer.token != op.expectedAccess || !EpochMatches(a, op.expectedEpoch)
       || op.accessToken == ""
    then Stale
    else Stored(a.(
      consumerGrant := Rotated(a.consumerGrant, op.rotated, now),
      consumer := a.consumer.(token := op.accessToken, deadline := KnownOrZero(op.expiresAt), updatedAt := now)))
  }

  // Everything but the proxy, the epoch and the AAD post-mortem is forgotten.
  function WithoutCredentials(a: Rec): Rec {
    BLANK.(epoch := a.epoch + 1, proxyUrl := a.proxyUrl,
           grant := NO_GRANT.(disabledReason := a.grant.disabledReason, disabledAt := a.grant.disabledAt))
  }

  function Defer(g: Grant, retryAfter: real): Grant {
    if g.retryAfter < retryAfter then g.(retryAfter := retryAfter) else g
  }

  function Apply(a: Rec, op: Op, now: real): Outcome {
    match op
    case ActivateProtocol(target) =>
      if CanActivate(a, target) then Stored(Switch(a, target)) else Raised
    case UpdateToken(_, _, _, _, _, _) => ApplyUpdateToken(a, op, now)
    case ApplyPersonalRefresh(_, _, _, _, _, _, _) => ApplyPersonal(a, op, now)
    case SetPersonalError(code, expectedToken, atEpoch, expectedSession) =>
      if || code == "" || a.provider != M365 || a.epoch != atEpoch || a.substrate.token != expectedToken
         || a.substrate.session != expectedSession || !a.substrate.token.Jwe?
      then Stale else Stored(a.(substrate := a.substrate.(refreshError := code)))
    case ClearToken => Stored(a.(substrate := NO_SUBSTRATE, epoch := a.epoch + 1))
    case SetConsumerAuth(_, _, _, _, _, _, _, _, _, _, _) => ApplyConsumerAuth(a, op, now)
    case SetThrottledUntil(_, _, _, _) => ApplySetThrottled(a, op, now)
    case ClearThrottledUntil(_, _, _, _) => ApplyClearThrottled(a, op)
    case SetRefreshToken(_, _, _, _, _, _, _, _) => ApplySetRefreshToken(a, op, now)
    case DeferRefreshToken(grantText, retryAfter) =>
      if a.grant.text != grantText then Stale else Stored(a.(grant := Defer(a.grant, retryAfter)))
    case ApplyRefreshTokenResult(_, _, _, _, _) => ApplyAadResult(a, op, now)
    case SetConsumerRefreshToken(_, _, _, _, _) => ApplySetConsumerGrant(a, op, now)
    case DeferConsumerRefreshToken(grantText, retryAfter) =>
      if a.consumerGrant.text != grantText then Stale else Stored(a.(consumerGrant := Defer(a.consumerGrant, retryAfter)))
    case ApplyConsumerRefreshResult(_, _, _, _, _, _) => ApplyConsumerResult(a, op, now)
    case ClearCredentials => Stored(WithoutCredentials(a))
    case SetProxyUrl(url) => Stored(a.(proxyUrl := url))
  }

  // The record after a call, whatever the call reported.
  function After(a: Rec, op: Op, now: real): Rec {
    var o := Apply(a, op, now);
    if o.Stored? then o.rec else a
  }

  // ------------------------------------------------------------ the pool

  type Pool = map<string, Rec>

  datatype Reply = Updated | Missing | Refused | Failed

  function ReplyOf(o: Outcome): Reply {
    match o
    case Stored(_) => Updated
    case Stale => Refused
    case Raised => Failed
  }

  function Commit(p: Pool, id: string, op: Op, now: real): (Reply, Pool) {
    if id !in p then (Missing, p)
    else (ReplyOf(Apply(p[id], op, now)), p[id := After(p[id], op, now)])
  }

  // A new account from a pushed token, or None when its session or expiry is unusable.
  function NewAccount(t: Token, subject: string, capture: Option<Capture>, expiry: Expiry, now: real): Option<Rec> {
    var session := NormalizeSession(capture, subject);
    if capture.Some? && (!t.Jwe? || session.None?) then None
    else if t.Jwe? && NormalizeExpiry(expiry).None? then None
    else Some(BLANK.(substrate := SubstrateSlot(
      t, if t != NoToken then now else 0.0, subject,
      if capture.Some? then session else None,
      if t.Jwe? then NormalizeExpiry(expiry).value else 0.0, "")))
  }
}
