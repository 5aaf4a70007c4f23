// One account as the program keeps it: a mutable record whose fields the store
// methods assign one at a time (account_store.py). Every method is proved to
// have exactly the effect that AccountRecord gives its operation, and to leave
// the record alone when it refuses or raises.
module AccountClass {
  import opened Prelude
  import opened AccountRecord

  class Account {
    var substrate: SubstrateSlot
    var grant: Grant
    var binding: Binding
    var consumer: ConsumerSlot
    var consumerGrant: Grant
    var consumerBinding: ConsumerBinding
    var throttle: Throttle
    var proxyUrl: string
    var provider: Provider
    var epoch: nat

    ghost function View(): Rec
      reads this
    {
      Rec(substrate, grant, binding, consumer, consumerGrant, consumerBinding, throttle, proxyUrl, provider, epoch)
    }

    method Read() returns (rec: Rec)
      ensures rec == View()
    {
      rec := Rec(substrate, grant, binding, consumer, consumerGrant, consumerBinding, throttle, proxyUrl, provider, epoch);
    }

    // The call reported `r` and left the record that outcome `o` describes.
    twostate predicate Had(r: Reply, o: Outcome)
      reads this
    {
      r == ReplyOf(o) && View() == (if o.Stored? then o.rec else old(View()))
    }

    constructor (slot: SubstrateSlot)
      ensures View() == BLANK.(substrate := slot)
    {
      substrate := slot;
      grant, binding := NO_GRANT, UNBOUND;
      consumer, consumerGrant, consumerBinding := NO_CONSUMER, NO_GRANT, NO_CONSUMER_BINDING;
      throttle, proxyUrl, provider, epoch := NO_THROTTLE, "", M365, 0;
    }

    method ActivateProtocol(target: Provider, now: real) returns (r: Reply)
      modifies this
      ensures Had(r, Apply(old(View()), Op.ActivateProtocol(target), now))
    {
      var paired := substrate.token != NoToken && consumer.token != "";
      var matching := substrate.subject != "" && substrate.subject == consumer.subject && Personal(substrate.token);
      var stored := if target == M365 then substrate.token != NoToken else consumer.token != "" && consumer.subject != "";
      if !stored || (paired && !matching) { return Failed; }
      if provider != target {
        provider := target;
        epoch := epoch + 1;
      }
      return Updated;
    }

    // A filled slot pinned anew and a switch each open a new epoch.
    method Redate(repinned: bool, activate: bool, target: Provider)
      modifies `epoch, `provider
      ensures provider == if activate then target else old(provider)
      ensures epoch == old(epoch) + (if repinned then 1 else 0) + (if activate && old(provider) != target then 1 else 0)
    {
      if repinned {
        epoch := epoch + 1;
      }
      if activate && provider != target {
        provider := target;
        epoch := epoch + 1;
      }
    }

    method StoreSubstrate(newToken: Token, pinned: string, material: Option<Session>, captured: bool,
                          expiry: real, now: real)
      modifies `substrate
      ensures substrate == SubstrateAfter(old(substrate), newToken, pinned, material, captured, expiry, now)
    {
      var sameToken := newToken == substrate.token;
      var sameSubject := pinned != "" && pinned == substrate.subject;
      var slot := substrate.(subject := pinned);
      if !sameSubject || !newToken.Jwe? {
        slot := slot.(session := None, deadline := 0.0, refreshError := "");
      }
      if captured {
        slot := slot.(session := material);
      }
      if newToken.Jwe? {
        if !sameToken {
          slot := slot.(deadline := expiry, refreshError := "");
        } else if expiry != 0.0 && (slot.deadline == 0.0 || expiry < slot.deadline) {
          slot := slot.(deadline := expiry);
        }
      }
      slot := slot.(token := newToken);
      if !sameToken || !newToken.Jwe? {
        slot := slot.(updatedAt := now);
      }
      substrate := slot;
    }

    // The checks of a token update, all made before the first field is assigned.
    method CheckUpdate(newToken: Token, capturedSubject: Option<string>, capture: Option<Capture>, expiry: Expiry)
      returns (pinned: string, material: Option<Session>, reported: real, ok: bool)
      ensures pinned == SubjectAfter(substrate, newToken, capturedSubject)
      ensures material == NormalizeSession(capture, pinned)
      ensures newToken.Jwe? && NormalizeExpiry(expiry).Some? ==> reported == NormalizeExpiry(expiry).value
      ensures ok <==> && (capture.Some? ==> newToken.Jwe? && material.Some?)
                      && (newToken.Jwe? ==> NormalizeExpiry(expiry).Some?)
                      && MayPairSubstrate(View(), pinned, newToken)
    {
      pinned := if capturedSubject.Some? then capturedSubject.value else substrate.subject;
      if capturedSubject.None? && newToken != substrate.token {
        var previous := StudioSubject(substrate.token);
        if previous.0 == "" || previous != StudioSubject(newToken) {
          pinned := "";
        }
      }
      material := NormalizeSession(capture, pinned);
      var normalized := if newToken.Jwe? then NormalizeExpiry(expiry) else Some(0.0);
      reported := if normalized.Some? then normalized.value else 0.0;
      var personal := Personal(newToken);
      ok := && !(capture.Some? && (!newToken.Jwe? || material.None?))
            && normalized.Some?
            && (consumer.token == "" || (personal && pinned != "" && pinned == consumer.subject));
    }

    method UpdateToken(newToken: Token, capturedSubject: Option<string>, activate: bool,
                       expectedEpoch: Option<nat>, capture: Option<Capture>, expiry: Expiry, now: real)
      returns (r: Reply)
      modifies this
      ensures Had(r, ApplyUpdateToken(old(View()), Op.UpdateToken(newToken, capturedSubject, activate, expectedEpoch,
                                                              capture, expiry), now))
    {
      if expectedEpoch.Some? && epoch != expectedEpoch.value { return Refused; }
      var pinned, material, reported, ok := CheckUpdate(newToken, capturedSubject, capture, expiry);
      if !ok { return Failed; }
      var repinned := substrate.token != NoToken && substrate.subject != pinned;
      StoreSubstrate(newToken, pinned, material, capture.Some?, reported, now);
      Redate(repinned, activate, M365);
      return Updated;
    }

    method ApplyPersonalRefresh(expectedToken: Token, atEpoch: nat, expectedSession: Option<Session>,
                                newToken: Token, newSubject: string, capture: Option<Capture>, expiry: Expiry, now: real)
      returns (r: Reply)
      modifies this
      ensures Had(r, ApplyPersonal(old(View()), Op.ApplyPersonalRefresh(expectedToken, atEpoch, expectedSession, newToken,
                                                                    newSubject, capture, expiry), now))
    {
      if || provider != M365 || epoch != atEpoch || substrate.token != expectedToken || substrate.session != expectedSession
         || !expectedToken.Jwe? || !newToken.Jwe? || newToken == expectedToken
         || substrate.subject == "" || newSubject != substrate.subject
      {
        return Refused;
      }
      var renewed := NormalizeSession(capture, newSubject);
      var reported := NormalizeExpiry(expiry);
      if renewed.None? || reported.None? || (consumer.token != "" && newSubject != consumer.subject) {
        return Refused;
      }
      substrate := substrate.(token := newToken, updatedAt := now, session := renewed, deadline := reported.value, refreshError := "");
      return Updated;
    }

    method SetPersonalError(code: string, expectedToken: Token, atEpoch: nat, expectedSession: Option<Session>, now: real)
      returns (r: Reply)
      modifies this
      ensures Had(r, Apply(old(View()), Op.SetPersonalError(code, expectedToken, atEpoch, expectedSession), now))
    {
      if code == "" { return Refused; }
      if || provider != M365 || epoch != atEpoch || substrate.token != expectedToken
         || substrate.session != expectedSession || !substrate.token.Jwe?
      {
        return Refused;
      }
      substrate := substrate.(refreshError := code);
      return Updated;
    }

    method ClearToken(now: real) returns (r: Reply)
      modifies this
      ensures Had(r, Apply(old(View()), Op.ClearToken, now))
    {
      substrate := substrate.(token := NoToken, updatedAt := 0.0, subject := "", session := None, deadline := 0.0, refreshError := "");
      epoch := epoch + 1;
      return Updated;
    }

    // Whether a guarded Consumer commit still meets the slot it was made for.
    method SnapshotHolds(expectedSnapshot: Option<ConsumerSnapshot>, expectedEpoch: Option<nat>) returns (holds: bool)
      ensures holds <==> && EpochMatches(View(), expectedEpoch)
                         && (expectedSnapshot.Some? ==> provider == Consumer && SnapshotOf(consumer) == expectedSnapshot.value)
    {
      if expectedEpoch.Some? && epoch != expectedEpoch.value { return false; }
      if expectedSnapshot.Some? {
        if provider != Consumer { return false; }
        if ConsumerSnapshot(consumer.updatedAt, consumer.token, consumer.subject) != expectedSnapshot.value { return false; }
      }
      return true;
    }

    method StoreConsumer(slot: ConsumerSlot, newGrant: Option<string>, newClient: Option<string>,
                         newScope: Option<string>, now: real)
      modifies `consumer, `consumerGrant, `consumerBinding, `throttle
      ensures consumer == slot
      ensures throttle == if slot.subject != old(consumer.subject) then NO_THROTTLE else old(throttle)
      ensures consumerGrant == if newGrant.Some? then FreshGrant(newGrant.value, now) else old(consumerGrant)
      ensures consumerBinding == if newGrant.Some? then ConsumerRebind(old(consumerBinding), newGrant.value, newClient, newScope)
                                 else old(consumerBinding)
    {
      if slot.subject != consumer.subject {
        throttle := NO_THROTTLE;
      }
      consumer := slot;
      if newGrant.Some? {
        StoreConsumerGrant(newGrant.value, newClient, newScope, now);
      }
    }

    method SetConsumerAuth(cookies: seq<string>, accessToken: string, identityType: string,
                           newConsumerSubject: Option<string>, expectedSnapshot: Option<ConsumerSnapshot>,
                           expectedEpoch: Option<nat>, expiresAt: Option<real>,
                           newGrant: Option<string>, newClient: Option<string>, newScope: Option<string>,
                           activate: bool, now: real)
      returns (r: Reply)
      modifies this
      ensures Had(r, ApplyConsumerAuth(old(View()), Op.SetConsumerAuth(cookies, accessToken, identityType,
                       newConsumerSubject, expectedSnapshot, expectedEpoch, expiresAt, newGrant, newClient, newScope,
                       activate), now))
    {
      var holds := SnapshotHolds(expectedSnapshot, expectedEpoch);
      if !holds { return Refused; }
      var pinned := OrElse(newConsumerSubject, consumer.subject);
      if substrate.token != NoToken && !(Personal(substrate.token) && pinned != "" && pinned == substrate.subject) {
        return Failed;
      }
      Redate(pinned != consumer.subject && consumer.token != "", activate, Consumer);
      StoreConsumer(ConsumerSlot(accessToken, identityType, pinned, cookies, now, KnownOrZero(expiresAt)),
                    newGrant, newClient, newScope, now);
      return Updated;
    }

    method StoreConsumerGrant(text: string, client: Option<string>, scope: Option<string>, now: real)
      modifies `consumerGrant, `consumerBinding
      ensures consumerGrant == FreshGrant(text, now)
      ensures consumerBinding == ConsumerRebind(old(consumerBinding), text, client, scope)
    {
      consumerGrant := Grant(text, if text != "" then now else 0.0, 0.0, "", 0.0);
      if text != "" {
        if client.Some? { consumerBinding := consumerBinding.(client := client.value); }
        if scope.Some? { consumerBinding := consumerBinding.(scope := scope.value); }
      } else {
        consumerBinding := NO_CONSUMER_BINDING;
      }
    }

    method SetThrottledUntil(until: real, mode: string, expectedIdentity: Option<(Provider, string)>,
                             expectedEpoch: Option<nat>, now: real)
      returns (r: Reply)
      modifies this
      ensures Had(r, ApplySetThrottled(old(View()), Op.SetThrottledUntil(until, mode, expectedIdentity, expectedEpoch), now))
    {
      if expectedEpoch.Some? && epoch != expectedEpoch.value { return Refused; }
      if expectedIdentity.Some? && (provider, consumer.subject) != expectedIdentity.value { return Refused; }
      throttle := throttle.(until := if until > 0.0 then until else 0.0);
      throttle := throttle.(mode := if throttle.until != 0.0 then mode else "");
      throttle := throttle.(at := if throttle.until != 0.0 then now else 0.0);
      return Updated;
    }

    method ClearThrottledUntil(mode: string, startedAt: real, identity: (Provider, string),
                               expectedEpoch: Option<nat>, now: real)
      returns (r: Reply)
      modifies this
      ensures Had(r, ApplyClearThrottled(old(View()), Op.ClearThrottledUntil(mode, startedAt, identity, expectedEpoch)))
    {
      if (provider, consumer.subject) != identity { return Refused; }
      if expectedEpoch.Some? && epoch != expectedEpoch.value { return Refused; }
      if throttle.until == 0.0 || (throttle.mode != "" && throttle.mode != mode) || startedAt <= throttle.at {
        return Updated;
      }
      throttle := NO_THROTTLE;
      return Updated;
    }

    method RebindGrant(clientId: Option<string>, authority: Option<string>,
                       tenantId: Option<string>, objectId: Option<string>)
      modifies `binding
      ensures binding == Rebind(old(binding), clientId, authority, tenantId, objectId)
    {
      var bound := binding;
      if clientId.Some? { bound := bound.(clientId := clientId.value); }
      if authority.Some? { bound := bound.(authority := authority.value); }
      if tenantId.Some? { bound := bound.(tenantId := tenantId.value); }
      if objectId.Some? { bound := bound.(objectId := objectId.value); }
      binding := bound;
    }

    method SetRefreshToken(text: string, clientId: Option<string>, authority: Option<string>,
                           tenantId: Option<string>, objectId: Option<string>,
                           expectedGrant: Option<string>, reason: string, preserveClient: string, now: real)
      returns (r: Reply)
      modifies this
      ensures Had(r, ApplySetRefreshToken(old(View()), Op.SetRefreshToken(text, clientId, authority, tenantId, objectId,
                                                                      expectedGrant, reason, preserveClient), now))
    {
      if expectedGrant.Some? && grant.text != expectedGrant.value { return Refused; }
      var incoming := Lower(if clientId.Some? then clientId.value else "");
      var protected := Lower(preserveClient);
      if && text != "" && incoming != "" && protected != "" && incoming != protected
         && grant.text != "" && Lower(binding.clientId) == protected
      {
        return Updated;
      }
      grant := grant.(text := text, updatedAt := if text != "" then now else 0.0, retryAfter := 0.0);
      if text == "" {
        binding := UNBOUND;
        if reason != "" {
          grant := grant.(disabledReason := reason, disabledAt := now);
        }
      } else {
        grant := grant.(disabledReason := "", disabledAt := 0.0);
        RebindGrant(clientId, authority, tenantId, objectId);
      }
      return Updated;
    }

    method DeferRefreshToken(text: string, retryAfter: real, now: real) returns (r: Reply)
      modifies this
      ensures Had(r, Apply(old(View()), Op.DeferRefreshToken(text, retryAfter), now))
    {
      if grant.text != text { return Refused; }
      if grant.retryAfter < retryAfter {
        grant := grant.(retryAfter := retryAfter);
      }
      return Updated;
    }

    method ApplyRefreshTokenResult(text: string, expectedToken: Token, newToken: Token, rotated: string,
                                   expectedEpoch: Option<nat>, now: real)
      returns (r: Reply)
      modifies this
      ensures Had(r, ApplyAadResult(old(View()), Op.ApplyRefreshTokenResult(text, expectedToken, newToken, rotated,
                                                                        expectedEpoch), now))
    {
      if || grant.text != text || substrate.token != expectedToken || provider != M365
         || (expectedEpoch.Some? && epoch != expectedEpoch.value)
      {
        return Refused;
      }
      if rotated != "" && rotated != text {
        grant := grant.(text := rotated, updatedAt := now);
      }
      grant := grant.(retryAfter := 0.0);
      substrate := substrate.(token := newToken, updatedAt := now, session := None, deadline := 0.0, refreshError := "");
      return Updated;
    }

    method SetConsumerRefreshToken(text: string, client: Option<string>, scope: Option<string>,
                                   expectedGrant: Option<string>, reason: string, now: real)
      returns (r: Reply)
      modifies this
      ensures Had(r, ApplySetConsumerGrant(old(View()), Op.SetConsumerRefreshToken(text, client, scope, expectedGrant, reason), now))
    {
      if expectedGrant.Some? && consumerGrant.text != expectedGrant.value { return Refused; }
      var diedOf, diedAt := consumerGrant.disabledReason, consumerGrant.disabledAt;
      StoreConsumerGrant(text, client, scope, now);
      if text == "" {
        consumerGrant := consumerGrant.(disabledReason := if reason != "" then reason else diedOf,
                                        disabledAt := if reason != "" then now else diedAt);
      }
      return Updated;
    }

    method DeferConsumerRefreshToken(text: string, retryAfter: real, now: real) returns (r: Reply)
      modifies this
      ensures Had(r, Apply(old(View()), Op.DeferConsumerRefreshToken(text, retryAfter), now))
    {
      if consumerGrant.text != text { return Refused; }
      if consumerGrant.retryAfter < retryAfter {
        consumerGrant := consumerGrant.(retryAfter := retryAfter);
      }
      return Updated;
    }

    method ApplyConsumerRefreshResult(text: string, expectedAccess: string, accessToken: string, rotated: string,
                                      expiresAt: Option<real>, expectedEpoch: Option<nat>, now: real)
      returns (r: Reply)
      modifies this
      ensures Had(r, ApplyConsumerResult(old(View()), Op.ApplyConsumerRefreshResult(text, expectedAccess, accessToken, rotated,
                                                                                expiresAt, expectedEpoch), now))
    {
      if || provider != Consumer || consumerGrant.text != text || consumer.token != expectedAccess
         || (expectedEpoch.Some? && epoch != expectedEpoch.value)
      {
        return Refused;
      }
      if accessToken == "" { return Refused; }
      if rotated != "" && rotated != text {
        consumerGrant := consumerGrant.(text := rotated, updatedAt := now);
      }
      consumerGrant := consumerGrant.(retryAfter := 0.0);
      consumer := consumer.(token := accessToken, deadline := KnownOrZero(expiresAt), updatedAt := now);
      return Updated;
    }

    method ClearCredentials(now: real) returns (r: Reply)
      modifies this
      ensures Had(r, Stored(WithoutCredentials(old(View()))))
    {
      substrate := NO_SUBSTRATE;
      epoch := epoch + 1;
      consumer := NO_CONSUMER;
      throttle := NO_THROTTLE;
      grant := grant.(text := "", updatedAt := 0.0, retryAfter := 0.0);
      binding := UNBOUND;
      consumerGrant := NO_GRANT;
      consumerBinding := NO_CONSUMER_BINDING;
      provider := M365;
      return Updated;
    }

    method SetProxyUrl(url: string, now: real) returns (r: Reply)
      modifies this
      ensures Had(r, Apply(old(View()), Op.SetProxyUrl(url), now))
    {
      proxyUrl := url;
      return Updated;
    }
  }
}
