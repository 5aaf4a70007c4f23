// The account pool: a dictionary of mutable accounts behind one lock, so that
// each call is one atomic step (account_store.py).
module AccountStore {
  import opened Prelude
  import opened AccountRecord
  import opened AccountClass

  class AccountStore {
    var accounts: map<string, Account>

    // No two ids share a record.
    ghost predicate Valid()
      reads this
    {
      forall i, j :: i in accounts && j in accounts && accounts[i] == accounts[j] ==> i == j
    }

    ghost function Records(): set<Account>
      reads this
    {
      set i | i in accounts :: accounts[i]
    }

    ghost function View(): Pool
      reads this, Records()
    {
      map i | i in accounts :: accounts[i].View()
    }

    constructor ()
      ensures Valid() && View() == map[]
    {
      accounts := map[];
    }

    // The record as it stands now.
    method Get(id: string) returns (rec: Rec)
      requires id in accounts
      ensures rec == View()[id]
    {
      rec := accounts[id].Read();
    }

    method Perform(id: string, op: Op, now: real) returns (r: Reply)
      requires Valid()
      modifies Records()
      ensures Valid() && accounts == old(accounts)
      ensures (r, View()) == Commit(old(View()), id, op, now)
    {
      if id !in accounts { return Missing; }
      r := Dispatch(accounts[id], op, now);
      assert accounts[id].View() == After(old(accounts[id].View()), op, now);
      assert forall j :: j in accounts && j != id ==> accounts[j].View() == old(accounts[j].View());
      assert View() == old(View())[id := After(old(View())[id], op, now)];
    }

    static method Dispatch(acc: Account, op: Op, now: real) returns (r: Reply)
      modifies acc
      ensures acc.Had(r, Apply(old(acc.View()), op, now))
    {
      match op
      case ActivateProtocol(target) =>
        r := acc.ActivateProtocol(target, now);
      case UpdateToken(newToken, capturedSubject, activate, expectedEpoch, capture, expiry) =>
        r := acc.UpdateToken(newToken, capturedSubject, activate, expectedEpoch, capture, expiry, now);
      case ApplyPersonalRefresh(expectedToken, atEpoch, expectedSession, newToken, newSubject, capture, expiry) =>
        r := acc.ApplyPersonalRefresh(expectedToken, atEpoch, expectedSession, newToken, newSubject, capture, expiry, now);
      case SetPersonalError(code, expectedToken, atEpoch, expectedSession) =>
        r := acc.SetPersonalError(code, expectedToken, atEpoch, expectedSession, now);
      case ClearToken =>
        r := acc.ClearToken(now);
      case SetConsumerAuth(cookies, accessToken, identityType, subject, snapshot, expectedEpoch, expiresAt, g, c, s, activate) =>
        r := acc.SetConsumerAuth(cookies, accessToken, identityType, subject, snapshot, expectedEpoch, expiresAt,
                                 g, c, s, activate, now);
      case SetThrottledUntil(until, mode, expectedIdentity, expectedEpoch) =>
        r := acc.SetThrottledUntil(until, mode, expectedIdentity, expectedEpoch, now);
      case ClearThrottledUntil(mode, startedAt, identity, expectedEpoch) =>
        r := acc.ClearThrottledUntil(mode, startedAt, identity, expectedEpoch, now);
      case SetRefreshToken(text, clientId, authority, tenantId, objectId, expectedGrant, reason, preserveClient) =>
        r := acc.SetRefreshToken(text, clientId, authority, tenantId, objectId, expectedGrant, reason, preserveClient, now);
      case DeferRefreshToken(text, retryAfter) =>
        r := acc.DeferRefreshToken(text, retryAfter, now);
      case ApplyRefreshTokenResult(text, expectedToken, newToken, rotated, expectedEpoch) =>
        r := acc.ApplyRefreshTokenResult(text, expectedToken, newToken, rotated, expectedEpoch, now);
      case SetConsumerRefreshToken(text, client, scope, expectedGrant, reason) =>
        r := acc.SetConsumerRefreshToken(text, client, scope, expectedGrant, reason, now);
      case DeferConsumerRefreshToken(text, retryAfter) =>
        r := acc.DeferConsumerRefreshToken(text, retryAfter, now);
      case ApplyConsumerRefreshResult(text, expectedAccess, accessToken, rotated, expiresAt, expectedEpoch) =>
        r := acc.ApplyConsumerRefreshResult(text, expectedAccess, accessToken, rotated, expiresAt, expectedEpoch, now);
      case ClearCredentials =>
        r := acc.ClearCredentials(now);
      case SetProxyUrl(url) =>
        r := acc.SetProxyUrl(url, now);
    }

    // `id` is the fresh account id drawn by the program; None is a ValueError.
    method Add(id: string, token: Token, subject: string, capture: Option<Capture>, expiry: Expiry, now: real)
      returns (added: bool)
      requires Valid() && id !in accounts
      modifies this
      ensures Valid()
      ensures added == NewAccount(token, subject, capture, expiry, now).Some?
      ensures !added ==> View() == old(View())
      ensures added ==> View() == old(View())[id := NewAccount(token, subject, capture, expiry, now).value]
    {
      var session: Option<Session> := None;
      if capture.Some? {
        session := NormalizeSession(capture, subject);
        if !token.Jwe? || session.None? { return false; }
      }
      var reported := if token.Jwe? then NormalizeExpiry(expiry) else Some(0.0);
      if reported.None? { return false; }
      var acc := new Account(SubstrateSlot(token, if token != NoToken then now else 0.0, subject,
                                           session, reported.value, ""));
      accounts := accounts[id := acc];
      return true;
    }

    method Remove(id: string) returns (removed: bool)
      requires Valid()
      modifies this
      ensures Valid() && removed == (id in old(accounts))
      ensures View() == old(View()) - {id}
    {
      removed := id in accounts;
      accounts := accounts - {id};
    }
  }
}
