// The scheduler object: dictionaries and locks updated in place, one stretch
// between two awaits per method (refresh_scheduler.py). Every stretch is proved
// to take exactly the step of SchedulerModel, so the object stays within the
// reachable states and the theorems about them hold of it. `pool` stands for the records of the account store, whose calls are
// atomic; AccountStore and RenewalCommits show the store making them.
module RefreshScheduler {
  import opened Prelude
  import opened AccountRecord
  import opened AccountInvariants
  import opened Renewals
  import opened SchedulerModel
  import opened SchedulerProofs

  class RefreshScheduler {
    var pool: Pool
    var accountLocks: map<string, Task>
    var browserLock: Option<Task>
    var tasks: map<Task, Worker>
    var slots: map<Key, Slot>
    ghost var log: map<Key, seq<Ended>>
    var clock: nat  // counts stretches; dates arrivals and ended attempts

    ghost function View(): Sys
      reads this
    {
      Sys(pool, accountLocks, browserLock, tasks, slots, log, clock)
    }

    // Some execution from the start led here.
    ghost predicate Valid()
      reads this
    {
      Reachable(View())
    }

    constructor ()
      ensures Valid() && View() == START
    {
      StartIsReachable();
      pool, accountLocks, browserLock, tasks, slots, log, clock := map[], map[], None, map[], map[], map[], 0;
    }

    method Finish(t: Task, result: bool)
      requires t in tasks
      modifies this
      ensures View() == SchedulerModel.Finish(old(View()), t, result)
    {
      var k := KeyOf(tasks[t]);
      if Coalesced(k.kind) {
        var slot := if k in slots then slots[k] else NEVER;
        var recorded := if result then StateOf(k.kind, pool, k.account) else slot.recorded;
        slots := slots[k := Slot(slot.generation + 1, recorded, result)];
        log := log[k := (if k in log then log[k] else []) + [Ended(recorded, result, clock)]];
      }
      accountLocks := accountLocks - {k.account};
      tasks := tasks[t := tasks[t].(phase := Returned(result, Own))];
    }

    method TowardsGate(t: Task)
      requires t in tasks
      modifies this
      ensures View() == SchedulerModel.TowardsGate(old(View()), t)
    {
      var k := KeyOf(tasks[t]);
      if k.account !in pool || pool[k.account].provider != Consumer {
        Finish(t, false);
      } else {
        slots := slots[k := (if k in slots then slots[k] else NEVER).(recorded := StateOf(k.kind, pool, k.account))];
        if pool[k.account].consumer.subject == "" {
          Finish(t, false);
        } else {
          tasks := tasks[t := tasks[t].(phase := WaitingForBrowser(ConsumerGate(GateSnapshot(pool[k.account]))))];
        }
      }
    }

    method Begin(t: Task)
      requires t in tasks
      modifies `slots, `accountLocks
      ensures View() == Begun(old(View()), t)
    {
      var k := KeyOf(tasks[t]);
      slots := slots[k := (if k in slots then slots[k] else NEVER).(recorded := StateOf(k.kind, pool, k.account))];
      accountLocks := accountLocks[k.account := t];
    }

    method Settle(t: Task, result: bool, origin: Origin)
      requires t in tasks
      modifies `tasks
      ensures View() == To(old(View()), t, Returned(result, origin))
    {
      tasks := tasks[t := tasks[t].(phase := Returned(result, origin))];
    }

    method EnterConsumer(t: Task, now: real)
      requires t in tasks
      modifies this
      ensures View() == SchedulerModel.EnterConsumer(old(View()), t, now)
    {
      var k := KeyOf(tasks[t]);
      if k.account !in pool || pool[k.account].provider != Consumer {
        Settle(t, false, NotDue);
        return;
      }
      var a := pool[k.account];
      var slot := if k in slots then slots[k] else NEVER;
      if slot.generation != tasks[t].call.queued && slot.recorded == StateOf(k.kind, pool, k.account) {
        Settle(t, a.consumer.token != "" && slot.result, Shared);
        return;
      }
      Begin(t);
      match BeginConsumer(a, now)
      case Exchanging(renewal) =>
        tasks := tasks[t := tasks[t].(phase := OnHttp(ConsumerHttp(renewal)))];
      case NoShortcut(rec) =>
        pool := pool[k.account := rec];
        tasks := tasks[t := tasks[t].(phase := OnHttp(Plain))];
        TowardsGate(t);
    }

    method EnterPersonal(t: Task, ready: bool, usable: bool)
      requires t in tasks
      modifies this
      ensures View() == SchedulerModel.EnterPersonal(old(View()), t, ready, usable)
    {
      var k := KeyOf(tasks[t]);
      if k.account !in pool || !UsablePersonal(pool[k.account], usable) {
        Settle(t, false, NotDue);
        return;
      }
      var slot := if k in slots then slots[k] else NEVER;
      var key := StateOf(k.kind, pool, k.account);
      if slot.generation != tasks[t].call.queued && slot.recorded == key {
        Settle(t, slot.result, Shared);
      } else if !tasks[t].call.force && !ready {
        Settle(t, false, NotDue);
      } else {
        Begin(t);
        tasks := tasks[t := tasks[t].(phase := OnHttp(PersonalWork(PersonalSnapshot(pool[k.account]), key)))];
      }
    }

    method EnterCdp(t: Task, usable: bool, drift: Drift)
      requires t in tasks
      modifies this
      ensures View() == SchedulerModel.EnterCdp(old(View()), t, usable, drift)
    {
      var k := KeyOf(tasks[t]);
      if k.account !in pool {
        Settle(t, false, NotDue);
        return;
      }
      var slot := if k in slots then slots[k] else NEVER;
      if slot.generation != tasks[t].call.queued {
        Settle(t, (drift == TokenMoved && usable) || slot.result, Shared);
      } else if drift != Same || (!tasks[t].call.force && usable) {
        Settle(t, usable, NotDue);
      } else {
        TakeAccount(t, WaitingForBrowser(Plain));
      }
    }

    method TakeAccount(t: Task, phase: Phase)
      requires t in tasks
      modifies `accountLocks, `tasks
      ensures View() == To(Lock(old(View()), t), t, phase)
    {
      accountLocks := accountLocks[tasks[t].call.account := t];
      tasks := tasks[t := tasks[t].(phase := phase)];
    }

    method FinishPersonal(t: Task, session: PersonalRenewal, answer: PersonalAnswer, now: real)
      requires t in tasks
      modifies this
      ensures View() == SchedulerModel.FinishPersonal(old(View()), t, session, answer, now)
    {
      var account := tasks[t].call.account;
      var ok := false;
      if account in pool {
        var outcome := CompletePersonal(pool[account], session, answer, now);
        pool := pool[account := outcome.0];
        ok := outcome.1;
      }
      Finish(t, ok);
    }

    method AfterHttp(t: Task, answer: HttpAnswer, now: real)
      requires t in tasks && tasks[t].phase.OnHttp? && AnswersWork(tasks[t].phase.work, answer)
      modifies this
      ensures View() == SchedulerModel.AfterHttp(old(View()), t, answer, now)
    {
      var account := tasks[t].call.account;
      var work := tasks[t].phase.work;
      if work.ConsumerHttp? {
        var ok := false;
        if account in pool {
          var outcome := CompleteConsumer(pool[account], work.renewal, answer.exchange, now);
          pool := pool[account := outcome.0];
          ok := outcome.1;
        }
        if ok {
          Finish(t, true);
        } else {
          TowardsGate(t);
        }
      } else if work.PersonalWork? {
        if answer.minted.None? {
          tasks := tasks[t := tasks[t].(phase := WaitingForBrowser(work))];
        } else {
          FinishPersonal(t, work.session, answer.minted.value, now);
        }
      } else {
        Finish(t, answer.ok);
      }
    }

    method TakeBrowser(t: Task)
      requires t in tasks && tasks[t].phase.WaitingForBrowser? && browserLock == None
      modifies this
      ensures View() == TakeOrGiveUp(old(View()), t)
    {
      var account := tasks[t].call.account;
      var work := tasks[t].phase.work;
      if work.PersonalWork? {
        if account !in pool || StateOf(PersonalRefresh, pool, account) != work.key || pool[account].provider != M365 {
          Finish(t, false);
          return;
        }
      }
      browserLock := Some(t);
      tasks := tasks[t := tasks[t].(phase := InBrowser(work))];
    }

    method AfterBrowser(t: Task, answer: BrowserAnswer, now: real)
      requires t in tasks && tasks[t].phase.InBrowser? && AnswersBrowser(tasks[t].phase.work, answer)
      modifies this
      ensures View() == SchedulerModel.AfterBrowser(ReleaseBrowser(old(View())), t, answer, now)
    {
      var account := tasks[t].call.account;
      var work := tasks[t].phase.work;
      browserLock := None;
      if work.ConsumerGate? {
        var ok := false;
        if account in pool {
          var outcome := CompleteGate(pool[account], work.gate, answer.gate, now);
          pool := pool[account := outcome.0];
          ok := outcome.1;
        }
        Finish(t, ok);
      } else if work.PersonalWork? {
        FinishPersonal(t, work.session, answer.answer, now);
      } else {
        Finish(t, answer.ok);
      }
    }

    method Cancel(t: Task)
      requires t in tasks && !tasks[t].phase.Returned?
      modifies this
      ensures View() == SchedulerModel.Perform(old(View()), Step.Cancel(t))
    {
      if tasks[t].phase.Queued? {
        Settle(t, false, Cancelled);
      } else {
        if tasks[t].phase.InBrowser? {
          browserLock := None;
        }
        Finish(t, false);
      }
    }

    method Enter(t: Task, now: real, ready: bool, usable: bool, drift: Drift)
      requires t in tasks && tasks[t].phase.Queued? && tasks[t].call.account !in accountLocks
      modifies this
      ensures View() == SchedulerModel.Perform(old(View()), Step.Enter(t, now, ready, usable, drift))
    {
      match tasks[t].call.kind
      case ConsumerRefresh => EnterConsumer(t, now);
      case PersonalRefresh => EnterPersonal(t, ready, usable);
      case CdpRefresh => EnterCdp(t, usable, drift);
      case BrowserJob => TakeAccount(t, WaitingForBrowser(Plain));
      case HttpJob => TakeAccount(t, OnHttp(Plain));
    }

    method Arrive(t: Task, kind: Kind, account: string, force: bool)
      requires t !in tasks
      modifies `tasks
      ensures View() == SchedulerModel.Perform(old(View()), Step.Arrive(t, kind, account, force))
    {
      var k := Key(kind, account);
      var queued := if k in slots then slots[k].generation else 0;
      tasks := tasks[t := Worker(Request(kind, account, force, queued, clock), Queued)];
    }

    // One stretch of the event loop: any enabled step, and exactly that step.
    method Run(step: Step)
      requires Valid() && Enabled(View(), step)
      modifies this
      ensures Valid() && View() == Next(old(View()), step)
    {
      ReachableNext(View(), step);
      var tick := clock;
      match step {
        case Arrive(t, kind, account, force) => Arrive(t, kind, account, force);
        case Enter(t, now, ready, usable, drift) => Enter(t, now, ready, usable, drift);
        case HttpDone(t, answer, now) => AfterHttp(t, answer, now);
        case TakeBrowser(t) => TakeBrowser(t);
        case BrowserDone(t, answer, now) => AfterBrowser(t, answer, now);
        case Cancel(t) => Cancel(t);
        case Outside(event) => pool := PoolAfter(pool, event);
      }
      clock := tick + 1;
    }
  }

  // Whenever nobody is in the middle of a stretch, the object runs at most one
  // browser.
  lemma ObjectRunsOneBrowser(scheduler: RefreshScheduler, t: Task, u: Task)
    requires scheduler.Valid() && t in scheduler.tasks && u in scheduler.tasks
    requires scheduler.tasks[t].phase.InBrowser? && scheduler.tasks[u].phase.InBrowser?
    ensures t == u && scheduler.browserLock == Some(t)
  {
    OneBrowser(scheduler.View(), t, u);
    ReachableInv(scheduler.View());
  }

  // And while a call is pending, there is a stretch to run.
  lemma ObjectNeverStuck(scheduler: RefreshScheduler, t: Task)
    requires scheduler.Valid() && t in scheduler.tasks && !scheduler.tasks[t].phase.Returned?
    ensures exists step: Step :: CanGoOn(scheduler.View(), step)
  {
    NoDeadlock(scheduler.View(), t);
  }
}
