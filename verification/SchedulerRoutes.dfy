// Which way an attempt goes from one await to the next: over HTTP first, then
// through the browser, and back out with both locks free (refresh_scheduler.py).
module SchedulerRoutes {
  import opened Prelude
  import opened AccountRecord
  import opened AccountInvariants
  import opened Renewals
  import opened SchedulerModel
  import opened SchedulerProofs
  import opened SchedulerSharing
  import opened SchedulerResults

  // An account that a browser could renew for its pinned person.
  predicate Gateable(p: Pool, account: string) {
    account in p && p[account].provider == Consumer && p[account].consumer.subject != ""
  }

  // A Consumer attempt asks over HTTP exactly if its grant can be exchanged now.
  lemma ConsumerExchangesFirst(s: Sys, t: Task, now: real)
    requires Reachable(s) && MayEnter(s, t) && s.tasks[t].call.kind.ConsumerRefresh?
    requires OwnAttempt(EnterConsumer(s, t, now), t)
    ensures var account := s.tasks[t].call.account;
      && account in s.pool
      && (EnterConsumer(s, t, now).tasks[t].phase.OnHttp? <==> BeginConsumer(s.pool[account], now).Exchanging?)
      && (BeginConsumer(s.pool[account], now).Exchanging? ==>
            EnterConsumer(s, t, now).tasks[t].phase == OnHttp(ConsumerHttp(BeginConsumer(s.pool[account], now).renewal)))
  {
  }

  lemma GateRoute(m: Sys, t: Task)
    requires t in m.tasks
    ensures var n := TowardsGate(m, t);
      n.pool == m.pool && n.tasks[t].phase ==
        if Gateable(m.pool, m.tasks[t].call.account) then WaitingForBrowser(ConsumerGate(GateSnapshot(m.pool[m.tasks[t].call.account])))
        else Returned(false, Own)
  {
  }

  // What happens to a Consumer attempt that goes on without a token.
  ghost predicate Routed(n: Sys, t: Task)
    requires t in n.tasks
  {
    var account := n.tasks[t].call.account;
    n.tasks[t].phase ==
      if Gateable(n.pool, account) then WaitingForBrowser(ConsumerGate(GateSnapshot(n.pool[account]))) else Returned(false, Own)
  }

  lemma DoorToTheBrowser(s: Sys, t: Task, now: real)
    requires MayEnter(s, t) && OwnAttempt(EnterConsumer(s, t, now), t) && !EnterConsumer(s, t, now).tasks[t].phase.OnHttp?
    ensures Routed(EnterConsumer(s, t, now), t)
  {
    var account, begun := s.tasks[t].call.account, Begun(s, t);
    var start := BeginConsumer(s.pool[account], now);
    assert start.NoShortcut?;
    GateRoute(To(begun.(pool := begun.pool[account := start.rec]), t, OnHttp(Plain)), t);
  }

  lemma HttpToTheBrowser(s: Sys, t: Task, answer: HttpAnswer, now: real)
    requires t in s.tasks && s.tasks[t].phase.OnHttp? && AnswersWork(s.tasks[t].phase.work, answer)
    requires s.tasks[t].phase.work.ConsumerHttp? && t in AfterHttp(s, t, answer, now).tasks
    requires AfterHttp(s, t, answer, now).tasks[t].phase != Returned(true, Own)
    ensures Routed(AfterHttp(s, t, answer, now), t)
  {
    var account := s.tasks[t].call.account;
    if account !in s.pool {
      GateRoute(s, t);
    } else {
      var (rec, ok) := CompleteConsumer(s.pool[account], s.tasks[t].phase.work.renewal, answer.exchange, now);
      GateRoute(s.(pool := s.pool[account := rec]), t);
    }
  }

  // Without a token from HTTP a Consumer attempt goes on to the browser, with the
  // record as it is then, exactly if there is a pinned Consumer account to renew;
  // otherwise it ends there, with false.
  lemma ConsumerGoesToTheBrowserExactly(s: Sys, step: Step)
    requires Reachable(s) && Enabled(s, step) && (step.Enter? || step.HttpDone?)
    requires s.tasks[step.task].call.kind.ConsumerRefresh? && OwnAttempt(Next(s, step), step.task)
    requires !Next(s, step).tasks[step.task].phase.OnHttp? && Next(s, step).tasks[step.task].phase != Returned(true, Own)
    ensures Routed(Next(s, step), step.task)
  {
    if step.Enter? {
      DoorToTheBrowser(s, step.task, step.now);
    } else {
      ReachableFits(s);
      assert WorkFits(s.tasks[step.task]);
      HttpToTheBrowser(s, step.task, step.http, step.now);
    }
  }

  // A personal attempt starts over HTTP with the record it found, and goes to the
  // browser with that same record exactly if HTTP brought no answer.
  lemma PersonalStartsOnItsState(s: Sys, t: Task, ready: bool, usable: bool)
    requires Reachable(s) && MayEnter(s, t) && s.tasks[t].call.kind.PersonalRefresh?
    requires OwnAttempt(EnterPersonal(s, t, ready, usable), t)
    ensures var account := s.tasks[t].call.account;
      && account in s.pool
      && EnterPersonal(s, t, ready, usable).tasks[t].phase
         == OnHttp(PersonalWork(PersonalSnapshot(s.pool[account]), StateOf(PersonalRefresh, s.pool, account)))
  {
  }

  lemma PersonalGoesToTheBrowserExactly(s: Sys, step: Step)
    requires Reachable(s) && Enabled(s, step) && step.HttpDone? && s.tasks[step.task].call.kind.PersonalRefresh?
    ensures step.http.PersonalAnswered?
    ensures var phase := Next(s, step).tasks[step.task].phase;
      && (step.http.minted.None? ==> phase == WaitingForBrowser(s.tasks[step.task].phase.work))
      && (step.http.minted.Some? ==> phase.Returned? && phase.origin == Own)
  {
    ReachableFits(s);
    assert WorkFits(s.tasks[step.task]);
  }

  // Whoever takes the browser for anything but a personal session launches it.
  lemma OthersAlwaysLaunch(s: Sys, t: Task)
    requires Enabled(s, TakeBrowser(t)) && !s.tasks[t].phase.work.PersonalWork?
    ensures var n := Next(s, TakeBrowser(t));
      n.tasks[t].phase == InBrowser(s.tasks[t].phase.work) && n.browserLock == Some(t) && n.pool == s.pool
  {
  }

  // A browser that has answered leaves both locks free, whatever it brought.
  lemma BrowserAnswerEnds(s: Sys, step: Step)
    requires Reachable(s) && Enabled(s, step) && step.BrowserDone?
    ensures var n := Next(s, step);
      && n.tasks[step.task].phase.Returned? && n.tasks[step.task].phase.origin == Own
      && n.browserLock == None && s.tasks[step.task].call.account !in n.accountLocks
  {
    ReachableFits(s);
    assert WorkFits(s.tasks[step.task]);
  }

  // A call that is turned away at the door is told false, and by the CDP fallback
  // whether the stored token is usable.
  predicate TurnedAway(n: Sys, t: Task) {
    t in n.tasks && n.tasks[t].phase.Returned? && n.tasks[t].phase.origin == NotDue
  }

  lemma ConsumerTurnedAway(s: Sys, t: Task, now: real)
    requires t in s.tasks
    ensures var n := EnterConsumer(s, t, now);
      TurnedAway(n, t) ==> n.pool == s.pool && !n.tasks[t].phase.result
  {
    var account := s.tasks[t].call.account;
    if account in s.pool && s.pool[account].provider == Consumer && !Shares(s, t) {
      assert !TurnedAway(AttemptConsumer(s, t, BeginConsumer(s.pool[account], now)), t);
    }
  }

  lemma PersonalTurnedAway(s: Sys, t: Task, ready: bool, usable: bool)
    requires t in s.tasks
    ensures var n := EnterPersonal(s, t, ready, usable);
      TurnedAway(n, t) ==> n.pool == s.pool && !n.tasks[t].phase.result
  {
  }

  lemma CdpTurnedAway(s: Sys, t: Task, usable: bool, drift: Drift)
    requires t in s.tasks
    ensures var n := EnterCdp(s, t, usable, drift);
      TurnedAway(n, t) ==> n.pool == s.pool && n.tasks[t].phase.result == (s.tasks[t].call.account in s.pool && usable)
  {
  }
}
