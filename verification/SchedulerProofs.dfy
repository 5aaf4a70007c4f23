// Safety and sharing of the refresh scheduler, over every interleaving.
module SchedulerProofs {
  import opened Prelude
  import opened AccountRecord
  import opened AccountInvariants
  import opened Renewals
  import opened SchedulerModel

  // ------------------------------------------------------------ locks

  // A locked account has exactly one worker inside, and the browser lock is held
  // by the one worker in the browser, who holds its account as well.
  ghost predicate LocksMatch(s: Sys) {
    && (forall a :: a in s.accountLocks ==>
          && s.accountLocks[a] in s.tasks
          && HoldsAccount(s.tasks[s.accountLocks[a]]) && s.tasks[s.accountLocks[a]].call.account == a)
    && (forall t :: t in s.tasks && HoldsAccount(s.tasks[t]) ==>
          s.tasks[t].call.account in s.accountLocks && s.accountLocks[s.tasks[t].call.account] == t)
    && (s.browserLock.Some? ==> s.browserLock.value in s.tasks && s.tasks[s.browserLock.value].phase.InBrowser?)
    && (forall t :: t in s.tasks && s.tasks[t].phase.InBrowser? ==> s.browserLock == Some(t))
  }

  // ------------------------------------------------------------ history

  ghost predicate Busy(s: Sys, k: Key) {
    k.account in s.accountLocks && s.accountLocks[k.account] in s.tasks
    && KeyOf(s.tasks[s.accountLocks[k.account]]) == k
  }

  // The dictionaries tell the history: one generation per ended attempt, and
  // between attempts the snapshot and result of the latest one.
  ghost predicate SlotMatches(s: Sys, k: Key) {
    var log := LogAt(s, k);
    && SlotAt(s, k).generation == |log|
    && (forall i :: 0 <= i < |log| ==> log[i].at < s.clock)
    && (|log| > 0 && !Busy(s, k) ==>
          SlotAt(s, k).result == log[|log| - 1].result && SlotAt(s, k).recorded == log[|log| - 1].recorded)
  }

  ghost predicate SlotsMatch(s: Sys) {
    forall k: Key :: Coalesced(k.kind) ==> SlotMatches(s, k)
  }

  // The generation a call read when it arrived separates the attempts that had
  // ended by then from the ones that ended later.
  ghost predicate ArrivalMatches(s: Sys, t: Task)
    requires t in s.tasks
  {
    var log := LogAt(s, KeyOf(s.tasks[t]));
    && s.tasks[t].call.arrived < s.clock
    && s.tasks[t].call.queued <= |log|
    && forall i :: 0 <= i < |log| ==> (log[i].at >= s.tasks[t].call.arrived <==> i >= s.tasks[t].call.queued)
  }

  ghost predicate ArrivalsMatch(s: Sys) {
    forall t :: t in s.tasks && s.tasks[t].phase.Queued? && Coalesced(s.tasks[t].call.kind) ==> ArrivalMatches(s, t)
  }

  ghost predicate Inv(s: Sys) {
    LocksMatch(s) && SlotsMatch(s) && ArrivalsMatch(s)
  }

  // ------------------------------------------------------------ one step

  ghost predicate Untouched(s: Sys, n: Sys, k: Key) {
    SlotAt(n, k) == SlotAt(s, k) && LogAt(n, k) == LogAt(s, k)
  }

  ghost predicate Rebound(s: Sys, n: Sys, k: Key) {
    SlotAt(n, k).generation == SlotAt(s, k).generation && LogAt(n, k) == LogAt(s, k)
  }

  ghost predicate Published(s: Sys, n: Sys, k: Key) {
    && SlotAt(n, k).generation == SlotAt(s, k).generation + 1
    && LogAt(n, k) == LogAt(s, k) + [Ended(SlotAt(n, k).recorded, SlotAt(n, k).result, s.clock)]
  }

  // What a step by worker `t` can do to anything the other workers see: it takes
  // or releases its own locks, and publishes exactly when its attempt ends.
  ghost predicate Moved(s: Sys, n: Sys, t: Task)
  {
    && t in s.tasks && t in n.tasks
    && n.tasks == s.tasks[t := n.tasks[t]] && n.tasks[t].call == s.tasks[t].call
    && n.clock == s.clock
    && var k := KeyOf(s.tasks[t]);
    && (n.slots == s.slots || n.slots == s.slots[k := SlotAt(n, k)])
    && (n.log == s.log || n.log == s.log[k := LogAt(n, k)])
    && (if HoldsAccount(n.tasks[t])
        then && n.accountLocks == s.accountLocks[k.account := t]
             && (HoldsAccount(s.tasks[t]) || k.account !in s.accountLocks)
             && Rebound(s, n, k)
        else && n.accountLocks == (if HoldsAccount(s.tasks[t]) then s.accountLocks - {k.account} else s.accountLocks)
             && n.tasks[t].phase.Returned? && (HoldsAccount(s.tasks[t]) ==> n.tasks[t].phase.origin == Own)
             && (if n.tasks[t].phase.origin != Own then Untouched(s, n, k)
                 else if Coalesced(k.kind) then Published(s, n, k) && SlotAt(n, k).result == n.tasks[t].phase.result
                 else Rebound(s, n, k)))
    && (if n.tasks[t].phase.InBrowser? then s.browserLock == None && n.browserLock == Some(t)
        else n.browserLock == if s.tasks[t].phase.InBrowser? then None else s.browserLock)
  }

  // `m` is `s` in the middle of a step: `t` is inside its account, off the
  // browser, and may have rebound its snapshot or committed to the pool.
  ghost predicate Inside(s: Sys, m: Sys, t: Task) {
    && t in s.tasks && t in m.tasks
    && m.tasks == s.tasks[t := m.tasks[t]] && m.tasks[t].call == s.tasks[t].call
    && m.clock == s.clock
    && var k := KeyOf(s.tasks[t]);
    && (m.slots == s.slots || m.slots == s.slots[k := SlotAt(m, k)])
    && m.log == s.log && Rebound(s, m, k)
    && m.accountLocks == s.accountLocks[k.account := t]
    && (HoldsAccount(s.tasks[t]) <==> k.account in s.accountLocks)
    && m.browserLock == if s.tasks[t].phase.InBrowser? then None else s.browserLock
  }

  lemma InsideFinish(s: Sys, m: Sys, t: Task, result: bool)
    requires Inside(s, m, t)
    ensures Moved(s, Finish(m, t, result), t)
  {
    var k := KeyOf(s.tasks[t]);
    var n := Finish(m, t, result);
    assert n.tasks == s.tasks[t := n.tasks[t]];
    assert s.accountLocks[k.account := t] - {k.account} == s.accountLocks - {k.account};
    if k.account !in s.accountLocks {
      assert s.accountLocks - {k.account} == s.accountLocks;
    }
    if Coalesced(k.kind) {
      assert n.slots == s.slots[k := SlotAt(n, k)];
    }
  }

  lemma InsideStay(s: Sys, m: Sys, t: Task, phase: Phase)
    requires Inside(s, m, t) && (phase.OnHttp? || phase.WaitingForBrowser?)
    ensures Inside(s, To(m, t, phase), t) && Moved(s, To(m, t, phase), t)
  {
    assert m.tasks[t := m.tasks[t].(phase := phase)] == s.tasks[t := m.tasks[t].(phase := phase)];
  }

  lemma InsideGate(s: Sys, m: Sys, t: Task)
    requires Inside(s, m, t)
    ensures Moved(s, TowardsGate(m, t), t)
  {
    var k := KeyOf(s.tasks[t]);
    if k.account !in m.pool || m.pool[k.account].provider != Consumer {
      InsideFinish(s, m, t, false);
    } else {
      var bound := Record(m, k, StateOf(k.kind, m.pool, k.account));
      assert bound.slots == s.slots[k := SlotAt(bound, k)];
      if m.pool[k.account].consumer.subject == "" {
        InsideFinish(s, bound, t, false);
      } else {
        InsideStay(s, bound, t, WaitingForBrowser(ConsumerGate(GateSnapshot(m.pool[k.account]))));
      }
    }
  }

  lemma DeclineMoves(s: Sys, t: Task, result: bool, origin: Origin)
    requires t in s.tasks && s.tasks[t].phase.Queued? && origin != Own
    ensures Moved(s, To(s, t, Returned(result, origin)), t)
  {
  }

  ghost predicate MayEnter(s: Sys, t: Task) {
    t in s.tasks && s.tasks[t].phase.Queued? && s.tasks[t].call.account !in s.accountLocks
  }

  lemma BegunInside(s: Sys, t: Task)
    requires MayEnter(s, t)
    ensures Inside(s, Begun(s, t), t) && Inside(s, Lock(s, t), t)
  {
  }

  lemma AttemptMoves(s: Sys, t: Task, start: ConsumerStart)
    requires MayEnter(s, t)
    ensures Moved(s, AttemptConsumer(s, t, start), t)
  {
    BegunInside(s, t);
    match start
    case Exchanging(renewal) => InsideStay(s, Begun(s, t), t, OnHttp(ConsumerHttp(renewal)));
    case NoShortcut(rec) =>
      var begun := Begun(s, t);
      var moved := begun.(pool := begun.pool[s.tasks[t].call.account := rec]);
      InsideStay(s, moved, t, OnHttp(Plain));
      InsideGate(s, To(moved, t, OnHttp(Plain)), t);
  }

  lemma EnterConsumerMoves(s: Sys, t: Task, now: real)
    requires MayEnter(s, t)
    ensures Moved(s, EnterConsumer(s, t, now), t)
  {
    var k := KeyOf(s.tasks[t]);
    DeclineMoves(s, t, false, NotDue);
    if k.account in s.pool {
      DeclineMoves(s, t, s.pool[k.account].consumer.token != "" && SlotAt(s, k).result, Shared);
      AttemptMoves(s, t, BeginConsumer(s.pool[k.account], now));
    }
  }

  lemma EnterPersonalMoves(s: Sys, t: Task, ready: bool, usable: bool)
    requires MayEnter(s, t)
    ensures Moved(s, EnterPersonal(s, t, ready, usable), t)
  {
    var k := KeyOf(s.tasks[t]);
    DeclineMoves(s, t, false, NotDue);
    DeclineMoves(s, t, SlotAt(s, k).result, Shared);
    if k.account in s.pool {
      BegunInside(s, t);
      InsideStay(s, Begun(s, t), t,
                 OnHttp(PersonalWork(PersonalSnapshot(s.pool[k.account]), StateOf(k.kind, s.pool, k.account))));
    }
  }

  lemma EnterMoves(s: Sys, t: Task, now: real, ready: bool, usable: bool, drift: Drift)
    requires MayEnter(s, t)
    ensures Moved(s, Perform(s, Enter(t, now, ready, usable, drift)), t)
  {
    BegunInside(s, t);
    match s.tasks[t].call.kind
    case ConsumerRefresh => EnterConsumerMoves(s, t, now);
    case PersonalRefresh => EnterPersonalMoves(s, t, ready, usable);
    case CdpRefresh =>
      forall r, o: Origin | o != Own ensures Moved(s, To(s, t, Returned(r, o)), t) {
        DeclineMoves(s, t, r, o);
      }
      InsideStay(s, Lock(s, t), t, WaitingForBrowser(Plain));
    case BrowserJob => InsideStay(s, Lock(s, t), t, WaitingForBrowser(Plain));
    case HttpJob => InsideStay(s, Lock(s, t), t, OnHttp(Plain));
  }

  lemma StepMoves(s: Sys, step: Step)
    requires LocksMatch(s) && Enabled(s, step) && !step.Arrive? && !step.Outside?
    ensures Moved(s, Perform(s, step), step.task)
  {
    var t := step.task;
    var k := KeyOf(s.tasks[t]);
    if HoldsAccount(s.tasks[t]) {
      assert s.accountLocks == s.accountLocks[k.account := t];
    }
    match step
    case Enter(_, now, ready, usable, drift) => EnterMoves(s, t, now, ready, usable, drift);
    case HttpDone(_, answer, now) => HttpMoves(s, s, t, answer, now);
    case TakeBrowser(_) => InsideFinish(s, s, t, false);
    case BrowserDone(_, answer, now) => BrowserMoves(s, ReleaseBrowser(s), t, answer, now);
    case Cancel(_) =>
      if s.tasks[t].phase.Queued? {
        DeclineMoves(s, t, false, Cancelled);
      } else {
        InsideFinish(s, if s.tasks[t].phase.InBrowser? then ReleaseBrowser(s) else s, t, false);
      }
  }

  lemma PersonalMoves(s: Sys, m: Sys, t: Task, session: PersonalRenewal, answer: PersonalAnswer, now: real)
    requires Inside(s, m, t)
    ensures Moved(s, FinishPersonal(m, t, session, answer, now), t)
  {
    var a := s.tasks[t].call.account;
    if a !in m.pool {
      InsideFinish(s, m, t, false);
    } else {
      var (rec, ok) := CompletePersonal(m.pool[a], session, answer, now);
      InsideFinish(s, m.(pool := m.pool[a := rec]), t, ok);
    }
  }

  lemma HttpMoves(s: Sys, m: Sys, t: Task, answer: HttpAnswer, now: real)
    requires Inside(s, m, t) && m.tasks[t].phase.OnHttp? && AnswersWork(m.tasks[t].phase.work, answer)
    ensures Moved(s, AfterHttp(m, t, answer, now), t)
  {
    var a := s.tasks[t].call.account;
    match m.tasks[t].phase.work
    case ConsumerHttp(renewal) =>
      if a !in m.pool {
        InsideGate(s, m, t);
      } else {
        var (rec, ok) := CompleteConsumer(m.pool[a], renewal, answer.exchange, now);
        var committed := m.(pool := m.pool[a := rec]);
        InsideFinish(s, committed, t, true);
        InsideGate(s, committed, t);
      }
    case PersonalWork(session, key) =>
      InsideStay(s, m, t, WaitingForBrowser(PersonalWork(session, key)));
      if answer.minted.Some? {
        PersonalMoves(s, m, t, session, answer.minted.value, now);
      }
    case _ => InsideFinish(s, m, t, answer.ok);
  }

  lemma BrowserMoves(s: Sys, m: Sys, t: Task, answer: BrowserAnswer, now: real)
    requires Inside(s, m, t) && m.tasks[t].phase.InBrowser? && AnswersBrowser(m.tasks[t].phase.work, answer)
    ensures Moved(s, AfterBrowser(m, t, answer, now), t)
  {
    var a := s.tasks[t].call.account;
    match m.tasks[t].phase.work
    case ConsumerGate(gate) =>
      if a !in m.pool {
        InsideFinish(s, m, t, false);
      } else {
        var (rec, ok) := CompleteGate(m.pool[a], gate, answer.gate, now);
        InsideFinish(s, m.(pool := m.pool[a := rec]), t, ok);
      }
    case PersonalWork(session, _) => PersonalMoves(s, m, t, session, answer.answer, now);
    case _ => InsideFinish(s, m, t, answer.ok);
  }

  // ------------------------------------------------------------ invariance

  lemma MovedLocks(s: Sys, n: Sys, t: Task)
    requires LocksMatch(s) && Moved(s, n, t)
    ensures LocksMatch(n.(clock := n.clock + 1))
  {
  }

  lemma MovedOtherSlot(s: Sys, n: Sys, t: Task, j: Key)
    requires LocksMatch(s) && SlotMatches(s, j) && Moved(s, n, t) && j != KeyOf(s.tasks[t])
    ensures SlotMatches(n.(clock := n.clock + 1), j)
  {
    assert Untouched(s, n, j);
    assert Busy(n, j) == Busy(s, j);
  }

  lemma MovedOwnSlot(s: Sys, n: Sys, t: Task)
    requires LocksMatch(s) && Moved(s, n, t)
    requires Coalesced(s.tasks[t].call.kind) && SlotMatches(s, KeyOf(s.tasks[t]))
    ensures SlotMatches(n.(clock := n.clock + 1), KeyOf(s.tasks[t]))
  {
    var k := KeyOf(s.tasks[t]);
    if !HoldsAccount(n.tasks[t]) && n.tasks[t].phase.origin != Own {
      assert Busy(n, k) == Busy(s, k);
    }
  }

  lemma MovedSlots(s: Sys, n: Sys, t: Task)
    requires LocksMatch(s) && SlotsMatch(s) && Moved(s, n, t)
    ensures SlotsMatch(n.(clock := n.clock + 1))
  {
    forall j: Key | Coalesced(j.kind) ensures SlotMatches(n.(clock := n.clock + 1), j) {
      assert SlotMatches(s, j);
      if j != KeyOf(s.tasks[t]) {
        MovedOtherSlot(s, n, t, j);
      } else {
        MovedOwnSlot(s, n, t);
      }
    }
  }

  lemma MovedArrivals(s: Sys, n: Sys, t: Task)
    requires LocksMatch(s) && SlotsMatch(s) && ArrivalsMatch(s) && Moved(s, n, t)
    ensures ArrivalsMatch(n.(clock := n.clock + 1))
  {
    var later := n.(clock := n.clock + 1);
    forall u | u in later.tasks && later.tasks[u].phase.Queued? && Coalesced(later.tasks[u].call.kind)
      ensures ArrivalMatches(later, u) {
      assert u != t && ArrivalMatches(s, u);
      assert SlotMatches(s, KeyOf(s.tasks[u]));
    }
  }

  lemma ArrivedSlots(s: Sys, step: Step)
    requires LocksMatch(s) && SlotsMatch(s) && step.Arrive? && Enabled(s, step)
    ensures SlotsMatch(Next(s, step))
  {
    var n := Next(s, step);
    forall j: Key | Coalesced(j.kind) ensures SlotMatches(n, j) {
      assert SlotMatches(s, j);
      assert Untouched(s, n, j) && Busy(n, j) == Busy(s, j);
    }
  }

  lemma ArrivedArrivals(s: Sys, step: Step)
    requires SlotsMatch(s) && ArrivalsMatch(s) && step.Arrive? && Enabled(s, step)
    ensures ArrivalsMatch(Next(s, step))
  {
    var n := Next(s, step);
    forall u | u in n.tasks && n.tasks[u].phase.Queued? && Coalesced(n.tasks[u].call.kind)
      ensures ArrivalMatches(n, u)
    {
      if u == step.task {
        assert SlotMatches(s, KeyOf(n.tasks[u]));
      } else {
        assert ArrivalMatches(s, u);
      }
    }
  }

  lemma ArriveKept(s: Sys, step: Step)
    requires Inv(s) && step.Arrive? && Enabled(s, step)
    ensures Inv(Next(s, step))
  {
    ArrivedSlots(s, step);
    ArrivedArrivals(s, step);
  }

  lemma OutsideKept(s: Sys, step: Step)
    requires Inv(s) && step.Outside?
    ensures Inv(Next(s, step))
  {
    var n := Next(s, step);
    forall j: Key | Coalesced(j.kind) ensures SlotMatches(n, j) {
      assert SlotMatches(s, j);
      assert Untouched(s, n, j) && Busy(n, j) == Busy(s, j);
    }
    forall u | u in n.tasks && n.tasks[u].phase.Queued? && Coalesced(n.tasks[u].call.kind)
      ensures ArrivalMatches(n, u)
    {
      assert ArrivalMatches(s, u);
    }
  }

  lemma MovedInv(s: Sys, n: Sys, t: Task)
    requires Inv(s) && Moved(s, n, t)
    ensures Inv(n.(clock := s.clock + 1))
  {
    MovedLocks(s, n, t);
    MovedSlots(s, n, t);
    MovedArrivals(s, n, t);
  }

  lemma InvKept(s: Sys, step: Step)
    requires Inv(s) && Enabled(s, step)
    ensures Inv(Next(s, step))
  {
    if step.Arrive? {
      ArriveKept(s, step);
    } else if step.Outside? {
      OutsideKept(s, step);
    } else {
      StepMoves(s, step);
      MovedInv(s, Perform(s, step), step.task);
    }
  }

  lemma {:induction false} ExecutionsKeepInv(states: seq<Sys>, steps: seq<Step>, i: nat)
    requires IsExecution(states, steps) && Inv(states[0]) && i < |states|
    ensures Inv(states[i])
  {
    if i > 0 {
      ExecutionsKeepInv(states, steps, i - 1);
      InvKept(states[i - 1], steps[i - 1]);
    }
  }

  ghost predicate Reachable(s: Sys) {
    exists states: seq<Sys>, steps: seq<Step> ::
      IsExecution(states, steps) && states[0] == START && states[|states| - 1] == s
  }

  lemma ReachableInv(s: Sys)
    requires Reachable(s)
    ensures Inv(s)
  {
    var states, steps :| IsExecution(states, steps) && states[0] == START && states[|states| - 1] == s;
    ExecutionsKeepInv(states, steps, |states| - 1);
  }

  // ------------------------------------------------------------ one browser, no deadlock

  ghost predicate Browsing(s: Sys, t: Task) {
    t in s.tasks && s.tasks[t].phase.InBrowser?
  }

  ghost predicate Pending(s: Sys, t: Task) {
    t in s.tasks && !s.tasks[t].phase.Returned?
  }

  // A step some pending call can take by itself, cancellation aside.
  ghost predicate CanGoOn(s: Sys, step: Step) {
    !step.Arrive? && !step.Outside? && !step.Cancel? && Enabled(s, step)
  }

  // A reachable state stays reachable through every step.
  lemma ReachableNext(s: Sys, step: Step)
    requires Reachable(s) && Enabled(s, step)
    ensures Reachable(Next(s, step))
  {
    var states, steps :| IsExecution(states, steps) && states[0] == START && states[|states| - 1] == s;
    var n := Next(s, step);
    var longer, more := states + [n], steps + [step];
    forall i | 0 <= i < |more| ensures Enabled(longer[i], more[i]) && longer[i + 1] == Next(longer[i], more[i]) {
      if i < |steps| {
        assert longer[i] == states[i] && longer[i + 1] == states[i + 1] && more[i] == steps[i];
      } else {
        assert longer[i] == s && longer[i + 1] == n && more[i] == step;
      }
    }
    assert IsExecution(longer, more) && longer[0] == START && longer[|longer| - 1] == n;
  }

  lemma StartIsReachable()
    ensures Reachable(START)
  {
    assert IsExecution([START], []);
  }

  // At most one browser is alive, whichever path launched it.
  lemma OneBrowser(s: Sys, t: Task, u: Task)
    requires Reachable(s) && Browsing(s, t) && Browsing(s, u)
    ensures t == u
  {
    ReachableInv(s);
  }

  // Whenever a call is pending, some pending call can go on.
  lemma NoDeadlock(s: Sys, t: Task)
    requires Reachable(s) && Pending(s, t)
    ensures exists step: Step :: CanGoOn(s, step)
  {
    ReachableInv(s);
    SomeoneCanGoOn(s, t);
  }

  // Who can go on: the browser's worker, else a worker waiting for the free
  // browser, else an exchange in flight, else the call itself.
  lemma SomeoneCanGoOn(s: Sys, t: Task)
    requires Inv(s) && Pending(s, t)
    ensures exists step: Step :: CanGoOn(s, step)
  {
    if s.tasks[t].phase.Queued? {
      var a := s.tasks[t].call.account;
      if a in s.accountLocks {
        HolderCanGoOn(s, s.accountLocks[a]);
      } else {
        assert CanGoOn(s, Enter(t, 0.0, true, true, Same));
      }
    } else {
      HolderCanGoOn(s, t);
    }
  }

  lemma HolderCanGoOn(s: Sys, t: Task)
    requires Inv(s) && t in s.tasks && HoldsAccount(s.tasks[t])
    ensures exists step: Step :: CanGoOn(s, step)
  {
    var u := if s.tasks[t].phase.WaitingForBrowser? && s.browserLock.Some? then s.browserLock.value else t;
    match s.tasks[u].phase
    case OnHttp(work) =>
      var answer := match work
        case ConsumerHttp(_) => ConsumerAnswer(NetworkFailure)
        case PersonalWork(_, _) => PersonalAnswered(None)
        case _ => PlainAnswer(false);
      assert CanGoOn(s, HttpDone(u, answer, 0.0));
    case WaitingForBrowser(_) =>
      assert CanGoOn(s, TakeBrowser(u));
    case InBrowser(work) =>
      var answer := match work
        case ConsumerGate(_) => GateAnswered(GateFailure)
        case PersonalWork(_, _) => SessionAnswered(PersonalFailure("browser_unavailable"))
        case _ => PlainBrowser(false);
      assert CanGoOn(s, BrowserDone(u, answer, 0.0));
  }

  // ------------------------------------------------------------ sharing

  // A call at the door of its account is told a shared result only when its
  // generation is out of date and, for the pinned renewals, nothing has changed
  // since the latest attempt.
  lemma ConsumerDoor(s: Sys, t: Task, now: real)
    requires MayEnter(s, t) && s.tasks[t].call.kind.ConsumerRefresh?
    ensures var n := EnterConsumer(s, t, now);
      var k := KeyOf(s.tasks[t]);
      && t in n.tasks
      && (n.tasks[t].phase.Returned? && n.tasks[t].phase.origin == Shared ==>
            && k.account in s.pool && Shares(s, t)
            && n.tasks[t].phase.result == (s.pool[k.account].consumer.token != "" && SlotAt(s, k).result))
  {
  }

  lemma PersonalDoor(s: Sys, t: Task, ready: bool, usable: bool)
    requires MayEnter(s, t) && s.tasks[t].call.kind.PersonalRefresh?
    ensures var n := EnterPersonal(s, t, ready, usable);
      && t in n.tasks
      && (n.tasks[t].phase.Returned? && n.tasks[t].phase.origin == Shared ==>
            Shares(s, t) && n.tasks[t].phase.result == SlotAt(s, KeyOf(s.tasks[t])).result)
  {
  }

  // The latest ended attempt for the key of `t`, ended after `t` arrived.
  ghost predicate LatestIsNews(s: Sys, t: Task)
    requires t in s.tasks
  {
    var log := LogAt(s, KeyOf(s.tasks[t]));
    |log| > 0 && s.tasks[t].call.arrived <= log[|log| - 1].at < s.clock
  }

  function Latest(s: Sys, k: Key): Ended
    requires |LogAt(s, k)| > 0
  {
    LogAt(s, k)[|LogAt(s, k)| - 1]
  }

  lemma OutOfDate(s: Sys, t: Task)
    requires Inv(s) && MayEnter(s, t) && Coalesced(s.tasks[t].call.kind)
    requires SlotAt(s, KeyOf(s.tasks[t])).generation != s.tasks[t].call.queued
    ensures LatestIsNews(s, t)
    ensures Latest(s, KeyOf(s.tasks[t])).result == SlotAt(s, KeyOf(s.tasks[t])).result
    ensures Latest(s, KeyOf(s.tasks[t])).recorded == SlotAt(s, KeyOf(s.tasks[t])).recorded
  {
    assert SlotMatches(s, KeyOf(s.tasks[t]));
    assert ArrivalMatches(s, t);
  }

  // In every interleaving a Consumer call that does not make its own attempt
  // returns the result of the latest one, which ended after the call arrived and
  // whose recorded state (its input, or what it committed) is the one stored now.
  lemma ConsumerSharesTheLatest(s: Sys, t: Task, now: real)
    requires Reachable(s) && MayEnter(s, t) && s.tasks[t].call.kind.ConsumerRefresh?
    ensures var n := EnterConsumer(s, t, now);
      var k := KeyOf(s.tasks[t]);
      && t in n.tasks
      && (n.tasks[t].phase.Returned? && n.tasks[t].phase.origin == Shared ==>
            && LatestIsNews(s, t)
            && Latest(s, k).recorded == StateOf(k.kind, s.pool, k.account)
            && n.tasks[t].phase.result == (s.pool[k.account].consumer.token != "" && Latest(s, k).result))
  {
    ReachableInv(s);
    ConsumerDoor(s, t, now);
    if Shares(s, t) {
      OutOfDate(s, t);
    }
  }

  lemma PersonalSharesTheLatest(s: Sys, t: Task, ready: bool, usable: bool)
    requires Reachable(s) && MayEnter(s, t) && s.tasks[t].call.kind.PersonalRefresh?
    ensures var n := EnterPersonal(s, t, ready, usable);
      var k := KeyOf(s.tasks[t]);
      && t in n.tasks
      && (n.tasks[t].phase.Returned? && n.tasks[t].phase.origin == Shared ==>
            && LatestIsNews(s, t)
            && Latest(s, k).recorded == StateOf(k.kind, s.pool, k.account)
            && n.tasks[t].phase.result == Latest(s, k).result)
  {
    ReachableInv(s);
    PersonalDoor(s, t, ready, usable);
    if Shares(s, t) {
      OutOfDate(s, t);
    }
  }

  // The CDP fallback shares without looking at the state, but still only the
  // result of an attempt that ended after the call arrived.
  lemma CdpSharesNews(s: Sys, t: Task, usable: bool, drift: Drift)
    requires Reachable(s) && MayEnter(s, t) && s.tasks[t].call.kind.CdpRefresh?
    ensures var n := EnterCdp(s, t, usable, drift);
      n.tasks[t].phase.Returned? && n.tasks[t].phase.origin == Shared ==>
        && LatestIsNews(s, t)
        && n.tasks[t].phase.result == (Latest(s, KeyOf(s.tasks[t])).result || (drift == TokenMoved && usable))
  {
    ReachableInv(s);
    if SlotAt(s, KeyOf(s.tasks[t])).generation != s.tasks[t].call.queued {
      OutOfDate(s, t);
    }
  }
}
