// What a stored call leaves behind, for how long, and what it never touches:
// the last write to each part of the record is the one that is there
// (account_store.py). The laws name the arguments of the calls, not the way the
// record is put together.
module StoreLaws {
  import opened Prelude
  import opened AccountRecord
  import opened AccountInvariants

  predicate Stores(a: Rec, op: Op, now: real) {
    Apply(a, op, now).Stored?
  }

  // ------------------------------------------------------- who may write what

  predicate WritesSubstrate(op: Op) {
    || op.UpdateToken? || op.ApplyPersonalRefresh? || op.ApplyRefreshTokenResult?
    || op.ClearToken? || op.ClearCredentials?
  }

  predicate WritesConsumer(op: Op) {
    op.SetConsumerAuth? || op.ApplyConsumerRefreshResult? || op.ClearCredentials?
  }

  predicate WritesProvider(op: Op) {
    || op.ActivateProtocol? || op.ClearCredentials?
    || (op.UpdateToken? && op.activate) || (op.SetConsumerAuth? && op.activate)
  }

  predicate StoresConsumerGrant(op: Op) {
    (op.SetConsumerAuth? && op.newGrant.Some?) || op.SetConsumerRefreshToken? || op.ApplyConsumerRefreshResult? || op.ClearCredentials?
  }

  predicate WritesThrottle(op: Op) {
    op.SetThrottledUntil? || op.ClearThrottledUntil? || op.SetConsumerAuth? || op.ClearCredentials?
  }

  // The Substrate slot but for the note of its last error.
  function Slot(a: Rec): SubstrateSlot {
    a.substrate.(refreshError := "")
  }

  // Each part of the record, as a pair with its writers.
  lemma OnlyWritersWrite(a: Rec, op: Op, now: real)
    ensures var b := After(a, op, now);
      && (Slot(b) != Slot(a) ==> WritesSubstrate(op) && Stores(a, op, now))
      && (b.consumer != a.consumer ==> WritesConsumer(op) && Stores(a, op, now))
      && (b.provider != a.provider ==> WritesProvider(op) && Stores(a, op, now))
      && (b.grant.text != a.grant.text || b.binding != a.binding ==> ReplacesGrant(op) && Stores(a, op, now))
      && (b.consumerGrant.text != a.consumerGrant.text || b.consumerBinding != a.consumerBinding ==>
            StoresConsumerGrant(op) && Stores(a, op, now))
      && (b.throttle != a.throttle ==> WritesThrottle(op) && Stores(a, op, now))
      && (b.proxyUrl != a.proxyUrl ==> op.SetProxyUrl? && Stores(a, op, now))
  {
  }

  // No stored call of the run between the two moments is a writer.
  ghost predicate Unwritten(states: seq<Rec>, calls: seq<Timed>, writes: Op -> bool, i: nat, j: nat)
    requires |states| == |calls| + 1 && j < |states|
  {
    forall k :: i <= k < j && writes(calls[k].op) ==> !Stores(states[k], calls[k].op, calls[k].now)
  }

  lemma {:induction false} SlotStays(states: seq<Rec>, calls: seq<Timed>, i: nat, j: nat)
    requires IsRun(states, calls) && i <= j < |states| && Unwritten(states, calls, WritesSubstrate, i, j)
    ensures Slot(states[j]) == Slot(states[i])
    decreases j - i
  {
    if i < j {
      SlotStays(states, calls, i, j - 1);
      OnlyWritersWrite(states[j - 1], calls[j - 1].op, calls[j - 1].now);
    }
  }

  lemma {:induction false} ConsumerStays(states: seq<Rec>, calls: seq<Timed>, i: nat, j: nat)
    requires IsRun(states, calls) && i <= j < |states| && Unwritten(states, calls, WritesConsumer, i, j)
    ensures states[j].consumer == states[i].consumer
    decreases j - i
  {
    if i < j {
      ConsumerStays(states, calls, i, j - 1);
      OnlyWritersWrite(states[j - 1], calls[j - 1].op, calls[j - 1].now);
    }
  }

  lemma {:induction false} ProviderStays(states: seq<Rec>, calls: seq<Timed>, i: nat, j: nat)
    requires IsRun(states, calls) && i <= j < |states| && Unwritten(states, calls, WritesProvider, i, j)
    ensures states[j].provider == states[i].provider
    decreases j - i
  {
    if i < j {
      ProviderStays(states, calls, i, j - 1);
      OnlyWritersWrite(states[j - 1], calls[j - 1].op, calls[j - 1].now);
    }
  }

  lemma {:induction false} GrantStays(states: seq<Rec>, calls: seq<Timed>, i: nat, j: nat)
    requires IsRun(states, calls) && i <= j < |states| && Unwritten(states, calls, ReplacesGrant, i, j)
    ensures states[j].grant.text == states[i].grant.text && states[j].binding == states[i].binding
    decreases j - i
  {
    if i < j {
      GrantStays(states, calls, i, j - 1);
      OnlyWritersWrite(states[j - 1], calls[j - 1].op, calls[j - 1].now);
    }
  }

  lemma {:induction false} ConsumerGrantStays(states: seq<Rec>, calls: seq<Timed>, i: nat, j: nat)
    requires IsRun(states, calls) && i <= j < |states| && Unwritten(states, calls, StoresConsumerGrant, i, j)
    ensures states[j].consumerGrant.text == states[i].consumerGrant.text && states[j].consumerBinding == states[i].consumerBinding
    decreases j - i
  {
    if i < j {
      ConsumerGrantStays(states, calls, i, j - 1);
      OnlyWritersWrite(states[j - 1], calls[j - 1].op, calls[j - 1].now);
    }
  }

  // ------------------------------------------------------- pushing a Substrate token

  // The subject a push leaves: the captured one, or without a capture the old one
  // while both tokens can be seen to be of one person.
  ghost predicate PushedSubject(s: SubstrateSlot, op: Op, subject: string)
    requires op.UpdateToken?
  {
    match op.capturedSubject
    case Some(captured) => subject == captured
    case None =>
      var readable := s.token.Jwt? && op.newToken.Jwt? && s.token.tenant != "" && s.token.objectId != "";
      var same := s.token == op.newToken
                  || (readable && s.token.tenant == op.newToken.tenant && s.token.objectId == op.newToken.objectId);
      subject == if same then s.subject else ""
  }

  predicate UsableExpiry(e: Expiry) {
    e.Unreported? || (e.At? && 0.0 <= e.seconds <= MAX_EXPIRY)
  }

  function Reported(e: Expiry): real {
    if e.At? then e.seconds else 0.0
  }

  // A browser capture belongs to the subject it is pushed for.
  predicate UsableCapture(c: Capture, t: Token, subject: string) {
    t.Jwe? && c.acceptable && subject != "" && c.subject == subject
  }

  // A push is stale exactly on another epoch, and is stored exactly if its
  // capture and expiry are usable and the two slots stay one identity.
  lemma PushAcceptedExactly(a: Rec, op: Op, now: real, subject: string)
    requires op.UpdateToken? && PushedSubject(a.substrate, op, subject)
    ensures Apply(a, op, now).Stale? <==> op.expectedEpoch.Some? && op.expectedEpoch.value != a.epoch
    ensures Stores(a, op, now) <==>
            && (op.expectedEpoch.Some? ==> op.expectedEpoch.value == a.epoch)
            && (op.capture.Some? ==> UsableCapture(op.capture.value, op.newToken, subject))
            && (op.newToken.Jwe? ==> UsableExpiry(op.expiry))
            && (op.newToken == NoToken ==> a.consumer.token == "")
            && PairedIdentity(a.(substrate := a.substrate.(token := op.newToken, subject := subject)))
  {
  }

  // The earlier of two deadlines, where 0 means none is known.
  function EarlierKnown(a: real, b: real): real {
    if a == 0.0 then b else if b == 0.0 then a else if a < b then a else b
  }

  // What a stored push leaves in the slot.
  lemma PushFillsTheSlot(a: Rec, op: Op, now: real)
    requires op.UpdateToken? && Stores(a, op, now)
    ensures var b := After(a, op, now);
      && b.substrate.token == op.newToken
      && PushedSubject(a.substrate, op, b.substrate.subject)
      && (op.newToken != a.substrate.token ==>
            && b.substrate.updatedAt == now && b.substrate.refreshError == ""
            && b.substrate.deadline == if op.newToken.Jwe? then Reported(op.expiry) else 0.0)
      && (op.newToken == a.substrate.token ==>
            && b.substrate.updatedAt == (if op.newToken.Jwe? then a.substrate.updatedAt else now)
            && b.substrate.deadline == (if !op.newToken.Jwe? then 0.0
                                        else if b.substrate.subject == "" || b.substrate.subject != a.substrate.subject
                                        then Reported(op.expiry)
                                        else EarlierKnown(a.substrate.deadline, Reported(op.expiry))))
      && (op.capture.Some? ==> b.substrate.session == Some(Session(op.capture.value.subject, op.capture.value.material)))
      && (op.capture.None? && (b.substrate.subject == "" || b.substrate.subject != a.substrate.subject || !op.newToken.Jwe?) ==>
            b.substrate.session == None)
      && (op.capture.None? && b.substrate.subject != "" && b.substrate.subject == a.substrate.subject && op.newToken.Jwe? ==>
            b.substrate.session == a.substrate.session)
      && b.provider == (if op.activate then M365 else a.provider)
      && b == a.(substrate := b.substrate, provider := b.provider, epoch := b.epoch)
  {
  }

  // The last stored push is the token that is there, of the subject it was
  // captured for; a new JWE has the deadline reported with it.
  lemma LastPushIsThere(states: seq<Rec>, calls: seq<Timed>, i: nat, j: nat)
    requires IsRun(states, calls) && i < j < |states|
    requires calls[i].op.UpdateToken? && Stores(states[i], calls[i].op, calls[i].now)
    requires Unwritten(states, calls, WritesSubstrate, i + 1, j)
    ensures var op, slot := calls[i].op, states[j].substrate;
      && slot.token == op.newToken && PushedSubject(states[i].substrate, op, slot.subject)
      && (op.newToken != states[i].substrate.token ==> slot.updatedAt == calls[i].now)
      && (op.newToken.Jwe? && op.newToken != states[i].substrate.token ==> slot.deadline == Reported(op.expiry))
      && (op.capture.Some? ==> slot.session == Some(Session(op.capture.value.subject, op.capture.value.material)))
  {
    PushFillsTheSlot(states[i], calls[i].op, calls[i].now);
    SlotStays(states, calls, i + 1, j);
    assert Slot(states[j]) == Slot(states[i + 1]);
  }

  // An activating push or switch holds until another stored one.
  lemma LastSwitchHolds(states: seq<Rec>, calls: seq<Timed>, i: nat, j: nat)
    requires IsRun(states, calls) && i < j < |states|
    requires WritesProvider(calls[i].op) && Stores(states[i], calls[i].op, calls[i].now)
    requires Unwritten(states, calls, WritesProvider, i + 1, j)
    ensures match calls[i].op
      case ActivateProtocol(target) => states[j].provider == target
      case SetConsumerAuth(_, _, _, _, _, _, _, _, _, _, _) => states[j].provider == Consumer
      case _ => states[j].provider == M365
  {
    ProviderStays(states, calls, i + 1, j);
  }

  // Switching is refused exactly for an empty or unnamed target or two
  // identities, and moves the provider and the epoch alone.
  lemma SwitchExactly(a: Rec, target: Provider, now: real)
    ensures var op := ActivateProtocol(target);
      && (Stores(a, op, now) <==>
            && (target == M365 ==> a.substrate.token != NoToken)
            && (target == Consumer ==> a.consumer.token != "" && a.consumer.subject != "")
            && PairedIdentity(a))
      && (Stores(a, op, now) ==>
            After(a, op, now) == a.(provider := target, epoch := a.epoch + if target != a.provider then 1 else 0))
  {
  }

  // ------------------------------------------------------- pushing a Consumer token

  ghost predicate PushedConsumerSubject(a: Rec, op: Op, subject: string)
    requires op.SetConsumerAuth?
  {
    subject == if op.newConsumerSubject.Some? then op.newConsumerSubject.value else a.consumer.subject
  }

  function KnownExpiry(e: Option<real>): real {
    match e
    case Some(at) => if at > 0.0 then at else 0.0
    case None => 0.0
  }

  // Stored exactly on the expected epoch and snapshot, when the two slots would
  // be one identity with any Consumer token in place.
  lemma ConsumerPushAcceptedExactly(a: Rec, op: Op, now: real, subject: string)
    requires op.SetConsumerAuth? && PushedConsumerSubject(a, op, subject)
    ensures Stores(a, op, now) <==>
            && (op.expectedEpoch.Some? ==> op.expectedEpoch.value == a.epoch)
            && (op.expectedSnapshot.Some? ==>
                  a.provider == Consumer
                  && op.expectedSnapshot.value == ConsumerSnapshot(a.consumer.updatedAt, a.consumer.token, a.consumer.subject))
            && PairedIdentity(a.(consumer := a.consumer.(token := "any", subject := subject)))
  {
  }

  lemma ConsumerPushFillsTheSlot(a: Rec, op: Op, now: real)
    requires op.SetConsumerAuth? && Stores(a, op, now)
    ensures var b := After(a, op, now);
      && b.consumer.token == op.accessToken && b.consumer.identityType == op.identityType && b.consumer.cookies == op.cookies
      && b.consumer.updatedAt == now && b.consumer.deadline == KnownExpiry(op.expiresAt)
      && PushedConsumerSubject(a, op, b.consumer.subject)
      && (op.newGrant.Some? ==>
            && b.consumerGrant.text == op.newGrant.value && b.consumerGrant.retryAfter == 0.0
            && b.consumerGrant.disabledReason == ""
            && (op.newGrant.value == "" ==> b.consumerBinding == NO_CONSUMER_BINDING)
            && (op.newGrant.value != "" && op.newClient.Some? ==> b.consumerBinding.client == op.newClient.value)
            && (op.newGrant.value != "" && op.newScope.Some? ==> b.consumerBinding.scope == op.newScope.value))
      && (op.newGrant.None? ==> b.consumerGrant == a.consumerGrant && b.consumerBinding == a.consumerBinding)
      && b.throttle == (if b.consumer.subject != a.consumer.subject then NO_THROTTLE else a.throttle)
      && b.provider == (if op.activate then Consumer else a.provider)
      && b.substrate == a.substrate && b.grant == a.grant && b.binding == a.binding && b.proxyUrl == a.proxyUrl
  {
  }

  // The last stored push is what the slot holds.
  lemma LastConsumerPushIsThere(states: seq<Rec>, calls: seq<Timed>, i: nat, j: nat)
    requires IsRun(states, calls) && i < j < |states|
    requires calls[i].op.SetConsumerAuth? && Stores(states[i], calls[i].op, calls[i].now)
    requires Unwritten(states, calls, WritesConsumer, i + 1, j)
    ensures var op, slot := calls[i].op, states[j].consumer;
      && slot.token == op.accessToken && slot.identityType == op.identityType && slot.cookies == op.cookies
      && slot.updatedAt == calls[i].now && slot.deadline == KnownExpiry(op.expiresAt)
      && PushedConsumerSubject(states[i], op, slot.subject)
  {
    ConsumerPushFillsTheSlot(states[i], calls[i].op, calls[i].now);
    ConsumerStays(states, calls, i + 1, j);
  }

  // ------------------------------------------------------- forgetting

  // Clearing the token leaves nothing of the slot, and nothing comes back until
  // a writer stores again.
  lemma ClearedTokenIsGone(states: seq<Rec>, calls: seq<Timed>, i: nat, j: nat)
    requires IsRun(states, calls) && i < j < |states| && calls[i].op.ClearToken?
    requires Unwritten(states, calls, WritesSubstrate, i + 1, j)
    ensures Slot(states[j]) == SubstrateSlot(NoToken, 0.0, "", None, 0.0, "")
    ensures states[i + 1] == states[i].(substrate := states[i + 1].substrate, epoch := states[i].epoch + 1)
  {
    SlotStays(states, calls, i + 1, j);
  }

  // Clearing everything leaves neither slot, no grant and no throttle; the proxy
  // and the reason the AAD grant died stay.
  lemma ClearedCredentialsAreGone(a: Rec, now: real)
    ensures Stores(a, ClearCredentials, now)
    ensures var b := After(a, ClearCredentials, now);
      && b.substrate.token == NoToken && b.substrate.subject == "" && b.substrate.session == None && b.substrate.deadline == 0.0
      && b.consumer.token == "" && b.consumer.subject == "" && b.consumer.cookies == [] && b.consumer.deadline == 0.0
      && b.grant.text == "" && b.binding == UNBOUND && b.consumerGrant.text == "" && b.consumerBinding == NO_CONSUMER_BINDING
      && b.throttle.until == 0.0 && b.provider == M365 && b.epoch == a.epoch + 1
      && b.proxyUrl == a.proxyUrl && b.grant.disabledReason == a.grant.disabledReason && b.grant.disabledAt == a.grant.disabledAt
  {
  }

  lemma ClearedCredentialsStayGone(states: seq<Rec>, calls: seq<Timed>, i: nat, j: nat)
    requires IsRun(states, calls) && i < j < |states| && calls[i].op.ClearCredentials?
    ensures Unwritten(states, calls, WritesSubstrate, i + 1, j) ==> states[j].substrate.token == NoToken
    ensures Unwritten(states, calls, WritesConsumer, i + 1, j) ==> states[j].consumer.token == "" && states[j].consumer.cookies == []
    ensures Unwritten(states, calls, ReplacesGrant, i + 1, j) ==> states[j].grant.text == ""
    ensures Unwritten(states, calls, StoresConsumerGrant, i + 1, j) ==> states[j].consumerGrant.text == ""
  {
    ClearedCredentialsAreGone(states[i], calls[i].now);
    if Unwritten(states, calls, WritesSubstrate, i + 1, j) {
      SlotStays(states, calls, i + 1, j);
      assert Slot(states[j]) == Slot(states[i + 1]);
    }
    if Unwritten(states, calls, WritesConsumer, i + 1, j) {
      ConsumerStays(states, calls, i + 1, j);
    }
    if Unwritten(states, calls, ReplacesGrant, i + 1, j) {
      GrantStays(states, calls, i + 1, j);
    }
    if Unwritten(states, calls, StoresConsumerGrant, i + 1, j) {
      ConsumerGrantStays(states, calls, i + 1, j);
    }
  }

  // ------------------------------------------------------- committed renewals

  // A personal renewal replaces the token, its session and its deadline, and
  // nothing outside the slot.
  lemma PersonalCommitLeaves(a: Rec, op: Op, now: real)
    requires op.ApplyPersonalRefresh? && Stores(a, op, now)
    ensures op.capture.Some? && UsableExpiry(op.expiry) && op.newSubject == a.substrate.subject
    ensures After(a, op, now) == a.(substrate := SubstrateSlot(op.newToken, now, a.substrate.subject,
                                                               Some(Session(op.newSubject, op.capture.value.material)),
                                                               Reported(op.expiry), ""))
  {
  }

  // A rotated grant replaces the old one, and a renewal lifts the pause.
  ghost predicate RotatedTo(before: Grant, after: Grant, rotated: string, now: real) {
    && after.text == (if rotated == "" then before.text else rotated)
    && after.updatedAt == (if rotated == "" || rotated == before.text then before.updatedAt else now)
    && after.retryAfter == 0.0 && after.disabledReason == before.disabledReason && after.disabledAt == before.disabledAt
  }

  lemma AadCommitLeaves(a: Rec, op: Op, now: real)
    requires op.ApplyRefreshTokenResult? && Stores(a, op, now)
    ensures var b := After(a, op, now);
      && b.substrate == SubstrateSlot(op.newToken, now, a.substrate.subject, None, 0.0, "")
      && RotatedTo(a.grant, b.grant, op.rotated, now)
      && b == a.(substrate := b.substrate, grant := b.grant)
  {
  }

  lemma ConsumerCommitLeaves(a: Rec, op: Op, now: real)
    requires op.ApplyConsumerRefreshResult? && Stores(a, op, now)
    ensures var b := After(a, op, now);
      && b.consumer == ConsumerSlot(op.accessToken, a.consumer.identityType, a.consumer.subject, a.consumer.cookies, now,
                                    KnownExpiry(op.expiresAt))
      && RotatedTo(a.consumerGrant, b.consumerGrant, op.rotated, now)
      && b == a.(consumer := b.consumer, consumerGrant := b.consumerGrant)
  {
  }

  // ------------------------------------------------------- grants

  // A grant of another client does not displace the protected client's.
  ghost predicate Displaces(a: Rec, op: Op)
    requires op.SetRefreshToken?
  {
    && op.grantText != "" && op.clientId.Some? && op.clientId.value != "" && op.preserveClient != ""
    && Lower(op.clientId.value) != Lower(op.preserveClient)
    && a.grant.text != "" && Lower(a.binding.clientId) == Lower(op.preserveClient)
  }

  function Given(o: Option<string>, before: string): string {
    match o
    case Some(value) => value
    case None => before
  }

  // Storing a grant over the expected one: kept out, discarded with a reason, or
  // stored without pause and without the post-mortem of the last.
  lemma GrantStored(a: Rec, op: Op, now: real)
    requires op.SetRefreshToken?
    ensures Stores(a, op, now) <==> (op.expectedGrant.Some? ==> op.expectedGrant.value == a.grant.text)
    ensures var b := After(a, op, now);
      Stores(a, op, now) ==>
        && b == a.(grant := b.grant, binding := b.binding)
        && (Displaces(a, op) ==> b == a)
        && (op.grantText == "" ==>
              && b.grant.text == "" && b.binding == UNBOUND && b.grant.retryAfter == 0.0
              && b.grant.disabledReason == (if op.reason == "" then a.grant.disabledReason else op.reason)
              && b.grant.disabledAt == (if op.reason == "" then a.grant.disabledAt else now))
        && (op.grantText != "" && !Displaces(a, op) ==>
              && b.grant == Grant(op.grantText, now, 0.0, "", 0.0)
              && b.binding == Binding(Given(op.clientId, a.binding.clientId), Given(op.authority, a.binding.authority),
                                      Given(op.tenantId, a.binding.tenantId), Given(op.objectId, a.binding.objectId)))
  {
    if op.clientId.Some? && op.clientId.value != "" {
      assert |Lower(op.clientId.value)| > 0;
    }
    if op.preserveClient != "" {
      assert |Lower(op.preserveClient)| > 0;
    }
  }

  lemma LastGrantIsThere(states: seq<Rec>, calls: seq<Timed>, i: nat, j: nat)
    requires IsRun(states, calls) && i < j < |states|
    requires calls[i].op.SetRefreshToken? && Stores(states[i], calls[i].op, calls[i].now) && !Displaces(states[i], calls[i].op)
    requires Unwritten(states, calls, ReplacesGrant, i + 1, j)
    ensures states[j].grant.text == calls[i].op.grantText
  {
    GrantStored(states[i], calls[i].op, calls[i].now);
    GrantStays(states, calls, i + 1, j);
  }

  lemma ConsumerGrantStored(a: Rec, op: Op, now: real)
    requires op.SetConsumerRefreshToken?
    ensures Stores(a, op, now) <==> (op.expectedGrant.Some? ==> op.expectedGrant.value == a.consumerGrant.text)
    ensures var b := After(a, op, now);
      Stores(a, op, now) ==>
        && b == a.(consumerGrant := b.consumerGrant, consumerBinding := b.consumerBinding)
        && (op.grantText == "" ==>
              && b.consumerGrant.text == "" && b.consumerBinding == ConsumerBinding("", "") && b.consumerGrant.retryAfter == 0.0
              && b.consumerGrant.disabledReason == (if op.reason == "" then a.consumerGrant.disabledReason else op.reason))
        && (op.grantText != "" ==>
              && b.consumerGrant == Grant(op.grantText, now, 0.0, "", 0.0)
              && b.consumerBinding == ConsumerBinding(Given(op.client, a.consumerBinding.client), Given(op.scope, a.consumerBinding.scope)))
  {
  }

  // A pause reaches only the grant it names, and the later of two pauses counts.
  lemma PauseCounts(a: Rec, text: string, until: real, now: real)
    ensures var op := DeferRefreshToken(text, until);
      && (Stores(a, op, now) <==> text == a.grant.text)
      && (Stores(a, op, now) ==>
            var b := After(a, op, now);
            b == a.(grant := a.grant.(retryAfter := b.grant.retryAfter))
            && b.grant.retryAfter in {until, a.grant.retryAfter} && b.grant.retryAfter >= until && b.grant.retryAfter >= a.grant.retryAfter)
    ensures var op := DeferConsumerRefreshToken(text, until);
      && (Stores(a, op, now) <==> text == a.consumerGrant.text)
      && (Stores(a, op, now) ==>
            var b := After(a, op, now);
            b == a.(consumerGrant := a.consumerGrant.(retryAfter := b.consumerGrant.retryAfter))
            && b.consumerGrant.retryAfter in {until, a.consumerGrant.retryAfter}
            && b.consumerGrant.retryAfter >= until && b.consumerGrant.retryAfter >= a.consumerGrant.retryAfter)
  {
  }

  // ------------------------------------------------------- throttle, error, proxy

  // A throttle that is stored is in force until it is lifted.
  lemma LastThrottleHolds(states: seq<Rec>, calls: seq<Timed>, i: nat, j: nat)
    requires IsRun(states, calls) && i < j < |states|
    requires calls[i].op.SetThrottledUntil? && Stores(states[i], calls[i].op, calls[i].now) && calls[i].op.until > 0.0
    requires forall k :: i < k < j ==> !Lifts(states[k], calls[k].op)
    ensures states[j].throttle == Throttle(calls[i].op.until, calls[i].op.mode, calls[i].now)
  {
    ThrottleStaysUntilLifted(states, calls, i + 1, j);
  }

  // It is set for the expected identity and epoch alone, and a limit that is not
  // positive removes it.
  lemma ThrottleSetExactly(a: Rec, op: Op, now: real)
    requires op.SetThrottledUntil?
    ensures Stores(a, op, now) <==>
            && (op.expectedEpoch.Some? ==> op.expectedEpoch.value == a.epoch)
            && (op.expectedIdentity.Some? ==> op.expectedIdentity.value == (a.provider, a.consumer.subject))
    ensures Stores(a, op, now) ==>
              After(a, op, now) == a.(throttle := if op.until > 0.0 then Throttle(op.until, op.mode, now) else Throttle(0.0, "", 0.0))
  {
  }

  // A turn that ended well lifts a throttle in force exactly if it is of the same
  // identity, epoch and mode and started after it was set.
  lemma ThrottleLiftedExactly(a: Rec, op: Op, now: real)
    requires op.ClearThrottledUntil? && a.throttle.until != 0.0
    ensures var lifted := && op.identity == (a.provider, a.consumer.subject)
                          && (op.expectedEpoch.Some? ==> op.expectedEpoch.value == a.epoch)
                          && (a.throttle.mode == "" || a.throttle.mode == op.mode) && op.startedAt > a.throttle.at;
      After(a, op, now) == if lifted then a.(throttle := Throttle(0.0, "", 0.0)) else a
  {
  }

  lemma ErrorNotedExactly(a: Rec, op: Op, now: real)
    requires op.SetPersonalError?
    ensures Stores(a, op, now) <==>
            && op.code != "" && a.provider == M365 && a.epoch == op.atEpoch && a.substrate.token == op.expectedToken
            && a.substrate.session == op.expectedSession && a.substrate.token.Jwe?
    ensures Stores(a, op, now) ==> After(a, op, now) == a.(substrate := a.substrate.(refreshError := op.code))
  {
  }

  lemma {:induction false} LastProxyIsThere(states: seq<Rec>, calls: seq<Timed>, i: nat, j: nat)
    requires IsRun(states, calls) && i < j < |states| && calls[i].op.SetProxyUrl?
    requires forall k :: i < k < j ==> !calls[k].op.SetProxyUrl?
    ensures states[j].proxyUrl == calls[i].op.url
    ensures states[i + 1] == states[i].(proxyUrl := calls[i].op.url)
    decreases j - i
  {
    if i + 1 < j {
      LastProxyIsThere(states, calls, i, j - 1);
      OnlyWritersWrite(states[j - 1], calls[j - 1].op, calls[j - 1].now);
    }
  }

  // ------------------------------------------------------- new accounts

  // A new account holds the pushed token alone, or is refused with its capture
  // or its expiry.
  lemma NewAccountHolds(t: Token, subject: string, capture: Option<Capture>, expiry: Expiry, now: real)
    ensures var made := NewAccount(t, subject, capture, expiry, now);
      && (made.Some? <==> (capture.Some? ==> UsableCapture(capture.value, t, subject)) && (t.Jwe? ==> UsableExpiry(expiry)))
      && (made.Some? ==>
            made.value == BLANK.(substrate := SubstrateSlot(
              t, if t == NoToken then 0.0 else now, subject,
              if capture.Some? then Some(Session(subject, capture.value.material)) else None,
              if t.Jwe? then Reported(expiry) else 0.0, "")))
  {
  }
}
