// What a renewal leaves behind, answer by answer: what becomes of the grant that
// was refused, when it may be tried again, and what a successful answer stores
// (consumer_refresh_via_rt.py, refresh_via_rt.py, refresh_scheduler.py).
module RenewalLaws {
  import opened Prelude
  import opened AccountRecord
  import opened AccountInvariants
  import opened StoreLaws
  import opened Renewals

  // ------------------------------------------------------- when a grant is tried

  // A stored Consumer grant that can be replayed and is bound and pinned.
  predicate TriableConsumer(a: Rec) {
    && a.provider == Consumer
    && 40 <= |a.consumerGrant.text| <= 8192 && (forall i :: 0 <= i < |a.consumerGrant.text| ==> !IsSpace(a.consumerGrant.text[i]))
    && a.consumerBinding.client != "" && a.consumerBinding.scope != "" && a.consumer.subject != ""
  }

  // An exchange starts exactly for such a grant whose pause is over, and takes
  // the record's own grant, binding, token and subject along.
  lemma ConsumerTriedExactly(a: Rec, now: real)
    ensures BeginConsumer(a, now).Exchanging? <==> TriableConsumer(a) && a.consumerGrant.retryAfter <= now
    ensures BeginConsumer(a, now).Exchanging? ==>
              BeginConsumer(a, now).renewal == ConsumerRenewal(a.epoch, a.consumerGrant.text, a.consumerBinding.client,
                                                               a.consumerBinding.scope, a.consumer.token, a.consumer.subject)
  {
  }

  // Without an exchange the record is left alone, but for a grant that could be
  // replayed and is not bound: that one is discarded, with the reason.
  lemma UnboundConsumerGrantDiscarded(a: Rec, now: real)
    requires BeginConsumer(a, now).NoShortcut?
    ensures var b := BeginConsumer(a, now).rec;
      var unbound := && a.provider == Consumer && Replayable(a.consumerGrant.text) && a.consumerGrant.retryAfter <= now
                     && (a.consumerBinding.client == "" || a.consumerBinding.scope == "");
      if unbound then
        && b == a.(consumerGrant := b.consumerGrant, consumerBinding := ConsumerBinding("", ""))
        && b.consumerGrant.text == "" && b.consumerGrant.disabledReason == "consumer_rt_unbound" && b.consumerGrant.disabledAt == now
      else b == a
  {
  }

  // ------------------------------------------------------- refused Consumer exchanges

  // The record an answer comes back to still holds the grant that was sent.
  predicate StillTheGrant(a: Rec, r: ConsumerRenewal) {
    a.epoch == r.epoch && a.provider == Consumer && a.consumerGrant.text == r.grant
  }

  // What becomes of the grant, whatever else happened to the record meanwhile: a
  // terminal refusal or a mint for somebody else discards it with the reason, a
  // passing failure pauses it for a quarter of an hour, an unusable body changes
  // nothing.
  lemma RefusedConsumerGrant(a: Rec, r: ConsumerRenewal, x: ConsumerExchange, now: real)
    requires StillTheGrant(a, r) && !CompleteConsumer(a, r, x, now).1
    ensures var b := CompleteConsumer(a, r, x, now).0;
      match x
      case NetworkFailure => PausedConsumer(a, b, now + 900.0)
      case Declined(terminal, reason) => if terminal then DiscardedConsumer(a, b, reason, now) else PausedConsumer(a, b, now + 900.0)
      case Unusable => b == a
      case Minted(subject, accessToken, _, _) =>
        if accessToken != "" && subject != r.subject then DiscardedConsumer(a, b, "consumer_rt_subject_mismatch", now) else b == a
  {
  }

  ghost predicate PausedConsumer(a: Rec, b: Rec, until: real) {
    && b == a.(consumerGrant := a.consumerGrant.(retryAfter := b.consumerGrant.retryAfter))
    && b.consumerGrant.retryAfter == if a.consumerGrant.retryAfter < until then until else a.consumerGrant.retryAfter
  }

  ghost predicate DiscardedConsumer(a: Rec, b: Rec, reason: string, now: real) {
    && b == a.(consumerGrant := b.consumerGrant, consumerBinding := ConsumerBinding("", ""))
    && b.consumerGrant.text == "" && b.consumerGrant.retryAfter == 0.0
    && (reason != "" ==> b.consumerGrant.disabledReason == reason && b.consumerGrant.disabledAt == now)
  }

  // When the same grant may be tried again after its answer.
  lemma ConsumerRetriedExactly(a: Rec, x: ConsumerExchange, started: real, now: real, later: real)
    requires BeginConsumer(a, started).Exchanging? && started <= now
    ensures var r := BeginConsumer(a, started).renewal;
      var (b, ok) := CompleteConsumer(a, r, x, now);
      var again := BeginConsumer(b, later).Exchanging?;
      match x
      case NetworkFailure => again <==> now + 900.0 <= later
      case Declined(terminal, _) => again <==> !terminal && now + 900.0 <= later
      case Unusable => started <= later ==> again
      case Minted(subject, accessToken, rotated, _) =>
        if accessToken == "" then started <= later ==> again
        else if subject != a.consumer.subject then !again
        else ok && (rotated == "" && 0.0 <= later ==> again)
  {
  }

  // What a successful exchange stores: the minted token with its lifetime and
  // the rotated grant, free of any pause.
  lemma ConsumerMintStored(a: Rec, r: ConsumerRenewal, x: ConsumerExchange, now: real)
    requires CompleteConsumer(a, r, x, now).1
    ensures x.Minted? && x.subject == r.subject
    ensures var b := CompleteConsumer(a, r, x, now).0;
      && b.consumer == ConsumerSlot(x.accessToken, a.consumer.identityType, a.consumer.subject, a.consumer.cookies, now,
                                    if x.expiresIn > 0 && now + x.expiresIn as real > 0.0 then now + x.expiresIn as real else 0.0)
      && RotatedTo(a.consumerGrant, b.consumerGrant, x.rotated, now)
      && b == a.(consumer := b.consumer, consumerGrant := b.consumerGrant)
  {
  }

  // It is another token than before exactly if the answer carries another one
  // than the exchange started from; the exchange itself does not compare them, so
  // whatever the account, an answer with its own token counts as a success.
  lemma MintChangesTokenExactly(a: Rec, r: ConsumerRenewal, x: ConsumerExchange, now: real)
    requires CompleteConsumer(a, r, x, now).1
    ensures x.Minted?
    ensures CompleteConsumer(a, r, x, now).0.consumer.token != a.consumer.token <==> x.accessToken != r.token
  {
  }

  lemma OwnTokenMayBeMintedAgain(a: Rec, started: real, now: real)
    requires BeginConsumer(a, started).Exchanging? && a.consumer.token != ""
    ensures var x := Minted(a.consumer.subject, a.consumer.token, "", 3600);
      var (b, ok) := CompleteConsumer(a, BeginConsumer(a, started).renewal, x, now);
      ok && b.consumer.token == a.consumer.token
  {
  }

  // ------------------------------------------------------- AAD grants

  // The caller does not try a paused grant; the exchange itself looks at the
  // binding.
  predicate TriesAad(a: Rec, now: real) {
    a.grant.retryAfter <= now && BeginAad(a, now).AadExchanging?
  }

  lemma AadTriedExactly(a: Rec, now: real)
    ensures BeginAad(a, now).AadExchanging? <==>
            && a.provider == M365 && a.grant.text != "" && a.binding.clientId != "" && a.binding.authority != ""
            && a.binding.tenantId != "" && a.binding.objectId != ""
            && a.substrate.token.Jwt? && a.substrate.token.tenant == a.binding.tenantId && a.substrate.token.objectId == a.binding.objectId
    ensures BeginAad(a, now).AadExchanging? ==>
              BeginAad(a, now).renewal == AadRenewal(a.epoch, a.grant.text, a.substrate.token, a.binding.tenantId, a.binding.objectId)
    ensures BeginAad(a, now).NoAadShortcut? ==>
              var b := BeginAad(a, now).rec;
              if a.provider == M365 && a.grant.text != "" then
                && b == a.(grant := b.grant, binding := UNBOUND)
                && b.grant.text == "" && b.grant.disabledReason == "unbound" && b.grant.disabledAt == now
              else b == a
  {
  }

  ghost predicate PausedAad(a: Rec, b: Rec, until: real) {
    && b == a.(grant := a.grant.(retryAfter := b.grant.retryAfter))
    && b.grant.retryAfter == if a.grant.retryAfter < until then until else a.grant.retryAfter
  }

  ghost predicate DiscardedAad(a: Rec, b: Rec, reason: string, now: real) {
    && b == a.(grant := b.grant, binding := UNBOUND)
    && b.grant.text == "" && b.grant.retryAfter == 0.0
    && (reason != "" ==> b.grant.disabledReason == reason && b.grant.disabledAt == now)
  }

  // Here an unusable body, and a token that cannot be read, pause the grant.
  lemma RefusedAadGrant(a: Rec, r: AadRenewal, x: AadExchange, now: real)
    requires a.epoch == r.epoch && a.provider == M365 && a.grant.text == r.grant && !CompleteAad(a, r, x, now).1
    ensures var b := CompleteAad(a, r, x, now).0;
      match x
      case AadNetworkFailure => PausedAad(a, b, now + 900.0)
      case AadDeclined(terminal, reason) => if terminal then DiscardedAad(a, b, reason, now) else PausedAad(a, b, now + 900.0)
      case AadUnusable => PausedAad(a, b, now + 900.0)
      case AadMinted(token, _) =>
        if !token.Jwt? then PausedAad(a, b, now + 900.0)
        else if token.tenant != r.tenantId || token.objectId != r.objectId then DiscardedAad(a, b, "subject_mismatch", now)
        else b == a
  {
  }

  lemma AadRetriedExactly(a: Rec, x: AadExchange, started: real, now: real, later: real)
    requires TriesAad(a, started) && started <= now
    ensures var r := BeginAad(a, started).renewal;
      var (b, ok) := CompleteAad(a, r, x, now);
      var again := TriesAad(b, later);
      match x
      case AadNetworkFailure => again <==> now + 900.0 <= later
      case AadDeclined(terminal, _) => again <==> !terminal && now + 900.0 <= later
      case AadUnusable => again <==> now + 900.0 <= later
      case AadMinted(token, _) =>
        if !token.Jwt? then again <==> now + 900.0 <= later
        else if token.tenant != a.binding.tenantId || token.objectId != a.binding.objectId then !again
        else ok && (0.0 <= later ==> again)
  {
  }

  lemma AadMintStored(a: Rec, r: AadRenewal, x: AadExchange, now: real)
    requires CompleteAad(a, r, x, now).1
    ensures x.AadMinted?
    ensures var b := CompleteAad(a, r, x, now).0;
      && b.substrate == SubstrateSlot(x.accessToken, now, a.substrate.subject, None, 0.0, "")
      && RotatedTo(a.grant, b.grant, x.rotated, now)
      && b == a.(substrate := b.substrate, grant := b.grant)
  {
  }

  // ------------------------------------------------------- personal sessions

  // A failure is noted on the very session it happened on and changes nothing
  // else; a success stores token, session and deadline together.
  lemma PersonalAnswerStored(a: Rec, r: PersonalRenewal, x: PersonalAnswer, now: real)
    ensures var (b, ok) := CompletePersonal(a, r, x, now);
      match x
      case PersonalFailure(code) =>
        !ok && b == (if code != "" && a.provider == M365 && a.epoch == r.epoch && a.substrate.token == r.token
                        && a.substrate.session == r.session && r.token.Jwe?
                     then a.(substrate := a.substrate.(refreshError := code)) else a)
      case PersonalMinted(token, subject, capture, expiry) =>
        if ok then
          && capture.Some?
          && b == a.(substrate := SubstrateSlot(token, now, a.substrate.subject, Some(Session(subject, capture.value.material)),
                                                Reported(expiry), ""))
        else b == a
  {
  }

  // It succeeds exactly on its own snapshot and proxy, with a new JWE and a usable
  // capture of the same subject.
  lemma PersonalCommitsExactly(a: Rec, r: PersonalRenewal, x: PersonalAnswer, now: real)
    ensures CompletePersonal(a, r, x, now).1 <==>
            && x.PersonalMinted? && a.provider == M365
            && a.epoch == r.epoch && a.substrate.token == r.token && a.substrate.session == r.session && a.proxyUrl == r.proxyUrl
            && r.token.Jwe? && x.token.Jwe? && x.token != r.token && x.subject == a.substrate.subject && x.subject != ""
            && x.capture.Some? && UsableCapture(x.capture.value, x.token, x.subject) && UsableExpiry(x.expiry)
            && PairedIdentity(a.(substrate := a.substrate.(token := x.token)))
  {
  }

  // ------------------------------------------------------- browser gate

  // It succeeds exactly on an unchanged Consumer slot and epoch, with a new token of
  // the pinned subject, reusable cookies, and two slots that stay one identity.
  lemma GateCommitsExactly(a: Rec, r: GateRenewal, x: GateAnswer, now: real)
    ensures CompleteGate(a, r, x, now).1 <==>
            && a.epoch == r.epoch && a.provider == Consumer
            && r.snapshot == ConsumerSnapshot(a.consumer.updatedAt, a.consumer.token, a.consumer.subject)
            && x.GateMinted? && x.token != "" && x.token != a.consumer.token && x.subject == a.consumer.subject && x.reusable
            && PairedIdentity(a.(consumer := a.consumer.(token := x.token)))
  {
  }

  // A successful browser renewal stores what the browser brought, keeps the
  // identity type when it brought none, and takes its grant over only when that
  // is replayable, bound and of the pinned subject.
  lemma GateAnswerStored(a: Rec, r: GateRenewal, x: GateAnswer, now: real)
    requires CompleteGate(a, r, x, now).1
    ensures x.GateMinted? && x.token != r.snapshot.token
    ensures var b := CompleteGate(a, r, x, now).0;
      var carries := && 40 <= |x.grant| <= 8192 && (forall i :: 0 <= i < |x.grant| ==> !IsSpace(x.grant[i]))
                     && x.grantSubject == a.consumer.subject && x.grantClient != "" && x.grantScope != "";
      && b.consumer == ConsumerSlot(x.token, if x.identityType != "" then x.identityType else r.identityType,
                                    a.consumer.subject, x.cookies, now, 0.0)
      && (carries ==> b.consumerGrant == Grant(x.grant, now, 0.0, "", 0.0)
                      && b.consumerBinding == ConsumerBinding(x.grantClient, x.grantScope))
      && (!carries ==> b.consumerGrant == a.consumerGrant && b.consumerBinding == a.consumerBinding)
      && b == a.(consumer := b.consumer, consumerGrant := b.consumerGrant, consumerBinding := b.consumerBinding)
  {
  }
}
