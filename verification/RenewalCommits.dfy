// The store calls each renewal makes when its await returns, over the live
// account store (consumer_refresh_via_rt.py, refresh_scheduler.py).
module RenewalCommits {
  import opened Prelude
  import opened AccountRecord
  import opened Renewals
  import Store = AccountStore

  // The store calls behind each renewal's return from its await.
  class Commits {
    static method FinishConsumer(store: Store.AccountStore, id: string, r: ConsumerRenewal, x: ConsumerExchange, now: real)
      returns (ok: bool)
      requires store.Valid() && id in store.accounts
      modifies store.Records()
      ensures store.Valid() && store.accounts == old(store.accounts)
      ensures var (rec, done) := CompleteConsumer(old(store.View())[id], r, x, now);
        ok == done && store.View() == old(store.View())[id := rec]
    {
      ok := false;
      var rec := store.Get(id);
      ghost var was := store.View();
      assert was[id := was[id]] == was;
      if rec.epoch != r.epoch || rec.provider != Consumer { return; }
      var closing := ConsumerClosing(r, x, now);
      if closing.None? { return; }
      var reply := store.Perform(id, closing.value.0, now);
      ok := closing.value.1 && reply == Updated;
    }

    static method FinishPersonalRenewal(store: Store.AccountStore, id: string, r: PersonalRenewal, x: PersonalAnswer, now: real)
      returns (ok: bool)
      requires store.Valid() && id in store.accounts
      modifies store.Records()
      ensures store.Valid() && store.accounts == old(store.accounts)
      ensures var (rec, done) := CompletePersonal(old(store.View())[id], r, x, now);
        ok == done && store.View() == old(store.View())[id := rec]
    {
      ok := false;
      match x
      case PersonalFailure(code) =>
        var _ := store.Perform(id, SetPersonalError(code, r.token, r.epoch, r.session), now);
      case PersonalMinted(token, subject, capture, expiry) =>
        var rec := store.Get(id);
        if rec.proxyUrl == r.proxyUrl {
          var reply := store.Perform(id, ApplyPersonalRefresh(r.token, r.epoch, r.session, token, subject, capture, expiry), now);
          ok := reply == Updated;
        }
    }

    static method FinishGate(store: Store.AccountStore, id: string, r: GateRenewal, x: GateAnswer, now: real)
      returns (ok: bool)
      requires store.Valid() && id in store.accounts
      modifies store.Records()
      ensures store.Valid() && store.accounts == old(store.accounts)
      ensures var (rec, done) := CompleteGate(old(store.View())[id], r, x, now);
        ok == done && store.View() == old(store.View())[id := rec]
    {
      ok := false;
      if GateUsable(r, x) {
        var reply := store.Perform(id, GateCommit(r, x), now);
        ok := reply == Updated;
      }
    }
  }
}
