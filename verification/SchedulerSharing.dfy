// How many attempts concurrent calls cost: while nobody else changes the input
// of a pinned renewal, all the calls that arrived before one attempt ends cost
// exactly that attempt. The CDP fallback shares whatever its input.
module SchedulerSharing {
  import opened Prelude
  import opened AccountRecord
  import opened AccountInvariants
  import opened Renewals
  import opened SchedulerModel
  import opened SchedulerProofs

  predicate Pinned(k: Kind) {
    k.ConsumerRefresh? || k.PersonalRefresh?
  }

  // The snapshot of the latest attempt, running or ended, is the stored state.
  ghost predicate Covered(s: Sys, k: Key) {
    SlotAt(s, k).recorded == StateOf(k.kind, s.pool, k.account)
  }

  // What a call needs to find in order to share: for the CDP fallback, nothing.
  ghost predicate Shareable(s: Sys, k: Key) {
    Pinned(k.kind) ==> Covered(s, k)
  }

  ghost predicate StepOf(s: Sys, step: Step, k: Key) {
    !step.Arrive? && !step.Outside? && step.task in s.tasks && KeyOf(s.tasks[step.task]) == k
  }

  // No push: only the attempts themselves may change the renewal's input. The CDP
  // fallback has no input of its own, so every step is quiet for it.
  ghost predicate Quiet(s: Sys, step: Step, k: Key)
    requires Enabled(s, step)
  {
    StepOf(s, step, k) || StateOf(k.kind, Next(s, step).pool, k.account) == StateOf(k.kind, s.pool, k.account)
  }

  // ------------------------------------------------------------ one step

  lemma FinishCovers(s: Sys, t: Task, result: bool)
    requires t in s.tasks && Pinned(s.tasks[t].call.kind)
    requires result || Covered(s, KeyOf(s.tasks[t]))
    ensures Covered(Finish(s, t, result), KeyOf(s.tasks[t]))
  {
  }

  lemma GateCovers(s: Sys, t: Task)
    requires t in s.tasks && Pinned(s.tasks[t].call.kind)
    requires var k := KeyOf(s.tasks[t]);
      Covered(s, k) || (k.account in s.pool && s.pool[k.account].provider == Consumer)
    ensures Covered(TowardsGate(s, t), KeyOf(s.tasks[t]))
  {
    var k := KeyOf(s.tasks[t]);
    if k.account !in s.pool || s.pool[k.account].provider != Consumer {
      FinishCovers(s, t, false);
    } else {
      FinishCovers(Record(s, k, StateOf(k.kind, s.pool, k.account)), t, false);
    }
  }

  lemma AttemptCovers(s: Sys, t: Task, now: real)
    requires MayEnter(s, t) && s.tasks[t].call.kind.ConsumerRefresh?
    requires s.tasks[t].call.account in s.pool && s.pool[s.tasks[t].call.account].provider == Consumer
    ensures Covered(AttemptConsumer(s, t, BeginConsumer(s.pool[s.tasks[t].call.account], now)), KeyOf(s.tasks[t]))
  {
    var k := KeyOf(s.tasks[t]);
    match BeginConsumer(s.pool[k.account], now)
    case Exchanging(renewal) =>
    case NoShortcut(rec) =>
      var begun := Begun(s, t);
      GateCovers(To(begun.(pool := begun.pool[k.account := rec]), t, OnHttp(Plain)), t);
  }

  lemma HttpCovers(s: Sys, t: Task, answer: HttpAnswer, now: real)
    requires t in s.tasks && s.tasks[t].phase.OnHttp? && AnswersWork(s.tasks[t].phase.work, answer)
    requires Pinned(s.tasks[t].call.kind) && WorkFits(s.tasks[t]) && Covered(s, KeyOf(s.tasks[t]))
    ensures Covered(AfterHttp(s, t, answer, now), KeyOf(s.tasks[t]))
  {
    var k := KeyOf(s.tasks[t]);
    var work := s.tasks[t].phase.work;
    if work.ConsumerHttp? {
      if k.account !in s.pool {
        GateCovers(s, t);
      } else {
        var (rec, ok) := CompleteConsumer(s.pool[k.account], work.renewal, answer.exchange, now);
        var committed := s.(pool := s.pool[k.account := rec]);
        if ok {
          FinishCovers(committed, t, true);
        } else {
          if s.pool[k.account].provider != Consumer {
            assert rec == s.pool[k.account];
            assert committed.pool == s.pool;
          }
          GateCovers(committed, t);
        }
      }
    } else if work.PersonalWork? {
      if answer.minted.Some? {
        PersonalCovers(s, t, work.session, answer.minted.value, now);
      }
    }
  }

  lemma PersonalCovers(s: Sys, t: Task, session: PersonalRenewal, answer: PersonalAnswer, now: real)
    requires t in s.tasks && s.tasks[t].call.kind.PersonalRefresh? && Covered(s, KeyOf(s.tasks[t]))
    ensures Covered(FinishPersonal(s, t, session, answer, now), KeyOf(s.tasks[t]))
  {
    var k := KeyOf(s.tasks[t]);
    if k.account in s.pool {
      var (rec, ok) := CompletePersonal(s.pool[k.account], session, answer, now);
      FinishCovers(s.(pool := s.pool[k.account := rec]), t, ok);
    }
  }

  lemma BrowserCovers(s: Sys, t: Task, answer: BrowserAnswer, now: real)
    requires t in s.tasks && s.tasks[t].phase.InBrowser? && AnswersBrowser(s.tasks[t].phase.work, answer)
    requires Pinned(s.tasks[t].call.kind) && WorkFits(s.tasks[t]) && Covered(s, KeyOf(s.tasks[t]))
    ensures Covered(AfterBrowser(s, t, answer, now), KeyOf(s.tasks[t]))
  {
    var k := KeyOf(s.tasks[t]);
    var work := s.tasks[t].phase.work;
    if work.ConsumerGate? {
      if k.account in s.pool {
        var (rec, ok) := CompleteGate(s.pool[k.account], work.gate, answer.gate, now);
        if !ok {
          GateCommitsOnlyOnItsSnapshot(s.pool[k.account], work.gate, answer.gate, now);
          assert s.pool[k.account := rec] == s.pool;
        }
        FinishCovers(s.(pool := s.pool[k.account := rec]), t, ok);
      }
    } else if work.PersonalWork? {
      PersonalCovers(s, t, work.session, answer.answer, now);
    }
  }

  // Workers carry the work of their own kind.
  ghost predicate WorkFits(w: Worker) {
    HoldsAccount(w) ==>
      match w.call.kind
      case ConsumerRefresh => if w.phase.OnHttp? then w.phase.work.ConsumerHttp? else w.phase.work.ConsumerGate?
      case PersonalRefresh => w.phase.work.PersonalWork?
      case _ => w.phase.work.Plain?
  }

  ghost predicate AllWorkFits(s: Sys) {
    forall t :: t in s.tasks ==> WorkFits(s.tasks[t])
  }

  lemma FitKept(s: Sys, step: Step)
    requires LocksMatch(s) && AllWorkFits(s) && Enabled(s, step)
    ensures AllWorkFits(Next(s, step))
  {
    if !step.Arrive? && !step.Outside? {
      StepMoves(s, step);
      OwnWorkFits(s, step);
    }
  }

  lemma OwnWorkFits(s: Sys, step: Step)
    requires LocksMatch(s) && AllWorkFits(s) && Enabled(s, step) && !step.Arrive? && !step.Outside?
    requires step.task in Perform(s, step).tasks
    ensures WorkFits(Perform(s, step).tasks[step.task])
  {
    var t := step.task;
    match step
    case Enter(_, _, _, _, _) => DoorFits(s, step);
    case HttpDone(_, answer, now) => HttpFits(s, t, answer, now);
    case TakeBrowser(_) =>
    case BrowserDone(_, answer, now) =>
    case Cancel(_) =>
  }

  lemma DoorFits(s: Sys, step: Step)
    requires Enabled(s, step) && step.Enter? && step.task in Perform(s, step).tasks
    ensures WorkFits(Perform(s, step).tasks[step.task])
  {
    var t := step.task;
    match s.tasks[t].call.kind
    case ConsumerRefresh => ConsumerFits(s, t, step.now);
    case PersonalRefresh => PersonalFits(s, t, step.ready, step.usable);
    case CdpRefresh => CdpFits(s, t, step.usable, step.drift);
    case BrowserJob =>
    case HttpJob =>
  }

  lemma ConsumerFits(s: Sys, t: Task, now: real)
    requires MayEnter(s, t) && s.tasks[t].call.kind.ConsumerRefresh?
    ensures t in EnterConsumer(s, t, now).tasks && WorkFits(EnterConsumer(s, t, now).tasks[t])
  {
  }

  lemma PersonalFits(s: Sys, t: Task, ready: bool, usable: bool)
    requires MayEnter(s, t) && s.tasks[t].call.kind.PersonalRefresh?
    ensures t in EnterPersonal(s, t, ready, usable).tasks && WorkFits(EnterPersonal(s, t, ready, usable).tasks[t])
  {
    var n := EnterPersonal(s, t, ready, usable);
    assert n.tasks[t].phase.Returned? || (n.tasks[t].phase.OnHttp? && n.tasks[t].phase.work.PersonalWork?);
  }

  lemma CdpFits(s: Sys, t: Task, usable: bool, drift: Drift)
    requires MayEnter(s, t) && s.tasks[t].call.kind.CdpRefresh?
    ensures t in EnterCdp(s, t, usable, drift).tasks && WorkFits(EnterCdp(s, t, usable, drift).tasks[t])
  {
    var n := EnterCdp(s, t, usable, drift);
    assert n.tasks[t].phase.Returned? || n.tasks[t].phase == WaitingForBrowser(Plain);
  }

  lemma HttpFits(s: Sys, t: Task, answer: HttpAnswer, now: real)
    requires t in s.tasks && s.tasks[t].phase.OnHttp? && AnswersWork(s.tasks[t].phase.work, answer)
    requires WorkFits(s.tasks[t])
    ensures t in AfterHttp(s, t, answer, now).tasks && WorkFits(AfterHttp(s, t, answer, now).tasks[t])
  {
  }

  // The latest snapshot stays the stored state through every quiet step.
  lemma CoveredKept(s: Sys, step: Step, k: Key)
    requires Inv(s) && AllWorkFits(s) && Pinned(k.kind) && Enabled(s, step)
    requires Covered(s, k) && Quiet(s, step, k)
    ensures Covered(Next(s, step), k)
  {
    if step.Arrive? || step.Outside? {
    } else if !StepOf(s, step, k) {
      StepMoves(s, step);
    } else {
      OwnStepCovers(s, step);
    }
  }

  lemma DoorCovers(s: Sys, t: Task, now: real, ready: bool, usable: bool)
    requires MayEnter(s, t) && Pinned(s.tasks[t].call.kind) && Covered(s, KeyOf(s.tasks[t]))
    ensures s.tasks[t].call.kind.ConsumerRefresh? ==> Covered(EnterConsumer(s, t, now), KeyOf(s.tasks[t]))
    ensures s.tasks[t].call.kind.PersonalRefresh? ==> Covered(EnterPersonal(s, t, ready, usable), KeyOf(s.tasks[t]))
  {
    var k := KeyOf(s.tasks[t]);
    if k.kind.ConsumerRefresh? && k.account in s.pool && s.pool[k.account].provider == Consumer {
      AttemptCovers(s, t, now);
    }
  }

  lemma OwnStepCovers(s: Sys, step: Step)
    requires LocksMatch(s) && AllWorkFits(s) && Enabled(s, step) && !step.Arrive? && !step.Outside?
    requires Pinned(s.tasks[step.task].call.kind) && Covered(s, KeyOf(s.tasks[step.task]))
    ensures Covered(Perform(s, step), KeyOf(s.tasks[step.task]))
  {
    var t := step.task;
    var k := KeyOf(s.tasks[t]);
    match step
    case Enter(_, now, ready, usable, _) => DoorCovers(s, t, now, ready, usable);
    case HttpDone(_, answer, now) => HttpCovers(s, t, answer, now);
    case TakeBrowser(_) => FinishCovers(s, t, false);
    case BrowserDone(_, answer, now) => BrowserCovers(ReleaseBrowser(s), t, answer, now);
    case Cancel(_) =>
      if !s.tasks[t].phase.Queued? {
        FinishCovers(if s.tasks[t].phase.InBrowser? then ReleaseBrowser(s) else s, t, false);
      }
  }

  // ------------------------------------------------------------ runs

  // From here on nobody but the key's own attempts changes its input.
  ghost predicate QuietExecution(states: seq<Sys>, steps: seq<Step>, k: Key) {
    IsExecution(states, steps) && forall i :: 0 <= i < |steps| ==> Quiet(states[i], steps[i], k)
  }

  // Attempt number `g` is running, or it has been published and nobody has
  // started another one.
  ghost predicate OnlyAttempt(s: Sys, k: Key, g: nat) {
    Attempts(s, k) == g + 1
  }

  // The calls that may still enter had arrived before attempt `g` ended.
  ghost predicate EarlyCalls(s: Sys, step: Step, k: Key, g: nat) {
    StepOf(s, step, k) && step.Enter? ==> s.tasks[step.task].call.queued <= g
  }

  // The entering call returns at once, without an attempt of its own.
  ghost predicate ToldAtTheDoor(s: Sys, step: Step)
    requires Enabled(s, step) && step.Enter?
  {
    var n := Next(s, step);
    step.task in n.tasks && n.tasks[step.task].phase.Returned? && n.tasks[step.task].phase.origin != Own
  }

  lemma EarlyCallShares(s: Sys, step: Step, k: Key, g: nat)
    requires Inv(s) && Enabled(s, step) && step.Enter? && StepOf(s, step, k) && Coalesced(k.kind)
    requires Shareable(s, k) && OnlyAttempt(s, k, g) && EarlyCalls(s, step, k, g)
    ensures ToldAtTheDoor(s, step)
  {
    var t := step.task;
    if k.kind.ConsumerRefresh? {
      assert Next(s, step).tasks == EnterConsumer(s, t, step.now).tasks;
    } else if k.kind.PersonalRefresh? {
      assert Next(s, step).tasks == EnterPersonal(s, t, step.ready, step.usable).tasks;
    } else {
      assert Next(s, step).tasks == EnterCdp(s, t, step.usable, step.drift).tasks;
    }
  }

  lemma OthersMove(s: Sys, m: Sys, t: Task, k: Key)
    requires LocksMatch(s) && Moved(s, m, t) && KeyOf(s.tasks[t]) != k
    ensures SlotAt(m, k) == SlotAt(s, k) && Busy(m, k) == Busy(s, k)
  {
  }

  lemma ArrivalsMove(s: Sys, m: Sys, t: Task, w: Worker, k: Key)
    requires LocksMatch(s) && t !in s.tasks && m.tasks == s.tasks[t := w] && m.accountLocks == s.accountLocks
    ensures Busy(m, k) == Busy(s, k)
  {
  }

  lemma OthersKeepOnly(s: Sys, step: Step, k: Key, g: nat)
    requires Inv(s) && Enabled(s, step) && !StepOf(s, step, k) && OnlyAttempt(s, k, g)
    ensures OnlyAttempt(Next(s, step), k, g)
  {
    var m := Perform(s, step);
    if step.Arrive? {
      ArrivalsMove(s, m, step.task, m.tasks[step.task], k);
    } else if !step.Outside? {
      StepMoves(s, step);
      OthersMove(s, m, step.task, k);
    }
    ClockIsIdle(m, s.clock + 1, k);
  }

  lemma OnlyAttemptKept(s: Sys, step: Step, k: Key, g: nat)
    requires Inv(s) && AllWorkFits(s) && Enabled(s, step) && Coalesced(k.kind)
    requires Shareable(s, k) && OnlyAttempt(s, k, g) && EarlyCalls(s, step, k, g)
    ensures OnlyAttempt(Next(s, step), k, g)
  {
    if !StepOf(s, step, k) {
      OthersKeepOnly(s, step, k, g);
    } else {
      StepMoves(s, step);
      if step.Enter? {
        EarlyCallShares(s, step, k, g);
        ToldKeepsOnly(s, step, k, g);
      } else {
        InsideOrQueued(s, step);
      }
    }
  }

  lemma ToldKeepsOnly(s: Sys, step: Step, k: Key, g: nat)
    requires LocksMatch(s) && Enabled(s, step) && step.Enter? && StepOf(s, step, k) && OnlyAttempt(s, k, g)
    requires ToldAtTheDoor(s, step) && Moved(s, Perform(s, step), step.task)
    ensures OnlyAttempt(Next(s, step), k, g)
  {
    assert Busy(Next(s, step), k) == Busy(s, k);
  }

  // Attempts published or running, counted together.
  ghost function Attempts(s: Sys, k: Key): nat {
    SlotAt(s, k).generation + (if Busy(s, k) then 1 else 0)
  }

  lemma MovedAttempts(s: Sys, m: Sys, t: Task)
    requires LocksMatch(s) && Moved(s, m, t) && Coalesced(s.tasks[t].call.kind)
    requires HoldsAccount(s.tasks[t]) || (m.tasks[t].phase.Returned? && m.tasks[t].phase.origin != Own)
    ensures Attempts(m, KeyOf(s.tasks[t])) == Attempts(s, KeyOf(s.tasks[t]))
  {
  }

  // A step by a worker of the key that is not an entry is a cancelled wait or
  // a stretch of the running attempt.
  lemma InsideOrQueued(s: Sys, step: Step)
    requires LocksMatch(s) && Enabled(s, step) && !step.Arrive? && !step.Outside? && !step.Enter?
    requires Coalesced(s.tasks[step.task].call.kind)
    requires Moved(s, Perform(s, step), step.task)
    ensures Attempts(Next(s, step), KeyOf(s.tasks[step.task])) == Attempts(s, KeyOf(s.tasks[step.task]))
  {
    CancelledWhileQueued(s, step);
    StretchAttempts(s, Perform(s, step), step.task, s.clock + 1);
  }

  lemma StretchAttempts(s: Sys, m: Sys, t: Task, clock: nat)
    requires LocksMatch(s) && Moved(s, m, t) && Coalesced(s.tasks[t].call.kind)
    requires HoldsAccount(s.tasks[t]) || (m.tasks[t].phase.Returned? && m.tasks[t].phase.origin != Own)
    ensures Attempts(m.(clock := clock), KeyOf(s.tasks[t])) == Attempts(s, KeyOf(s.tasks[t]))
  {
    MovedAttempts(s, m, t);
    ClockIsIdle(m, clock, KeyOf(s.tasks[t]));
  }

  lemma CancelledWhileQueued(s: Sys, step: Step)
    requires Enabled(s, step) && !step.Arrive? && !step.Outside? && !step.Enter?
    ensures HoldsAccount(s.tasks[step.task]) || Perform(s, step) == To(s, step.task, Returned(false, Cancelled))
  {
    if !HoldsAccount(s.tasks[step.task]) {
      assert step.Cancel? && s.tasks[step.task].phase.Queued?;
    }
  }

  lemma ClockIsIdle(m: Sys, clock: nat, k: Key)
    ensures Attempts(m.(clock := clock), k) == Attempts(m, k)
  {
  }

  lemma BeginningCovers(s: Sys, step: Step)
    requires Inv(s) && Enabled(s, step) && step.Enter? && Pinned(s.tasks[step.task].call.kind)
    requires !ToldAtTheDoor(s, step)
    ensures Covered(Next(s, step), KeyOf(s.tasks[step.task]))
  {
    WorkerStays(s, step);
    if s.tasks[step.task].call.kind.ConsumerRefresh? {
      ConsumerBeginningCovers(s, step.task, step.now);
    } else {
      PersonalBeginningCovers(s, step.task, step.ready, step.usable);
    }
  }

  lemma ConsumerBeginningCovers(s: Sys, t: Task, now: real)
    requires MayEnter(s, t) && s.tasks[t].call.kind.ConsumerRefresh?
    requires t in EnterConsumer(s, t, now).tasks
    ensures var n := EnterConsumer(s, t, now);
      (n.tasks[t].phase.Returned? && n.tasks[t].phase.origin != Own) || Covered(n, KeyOf(s.tasks[t]))
  {
    var k := KeyOf(s.tasks[t]);
    if k.account in s.pool && s.pool[k.account].provider == Consumer {
      AttemptCovers(s, t, now);
    }
  }

  lemma PersonalBeginningCovers(s: Sys, t: Task, ready: bool, usable: bool)
    requires MayEnter(s, t) && s.tasks[t].call.kind.PersonalRefresh?
    requires t in EnterPersonal(s, t, ready, usable).tasks
    ensures var n := EnterPersonal(s, t, ready, usable);
      (n.tasks[t].phase.Returned? && n.tasks[t].phase.origin != Own) || Covered(n, KeyOf(s.tasks[t]))
  {
  }

  lemma BeginningIsOnly(s: Sys, step: Step)
    requires Inv(s) && Enabled(s, step) && step.Enter? && Coalesced(s.tasks[step.task].call.kind)
    ensures ToldAtTheDoor(s, step)
            || OnlyAttempt(Next(s, step), KeyOf(s.tasks[step.task]), SlotAt(s, KeyOf(s.tasks[step.task])).generation)
  {
    StepMoves(s, step);
  }

  lemma WorkerStays(s: Sys, step: Step)
    requires Inv(s) && Enabled(s, step) && step.Enter?
    ensures step.task in Next(s, step).tasks
  {
    StepMoves(s, step);
  }

  lemma {:induction false} OnlyAttemptThroughout(states: seq<Sys>, steps: seq<Step>, k: Key, g: nat, i: nat)
    requires QuietExecution(states, steps, k) && Coalesced(k.kind) && i < |states|
    requires Inv(states[0]) && AllWorkFits(states[0]) && Shareable(states[0], k) && OnlyAttempt(states[0], k, g)
    requires forall j :: 0 <= j < |steps| ==> EarlyCalls(states[j], steps[j], k, g)
    ensures Inv(states[i]) && AllWorkFits(states[i]) && Shareable(states[i], k) && OnlyAttempt(states[i], k, g)
  {
    if i > 0 {
      OnlyAttemptThroughout(states, steps, k, g, i - 1);
      InvKept(states[i - 1], steps[i - 1]);
      FitKept(states[i - 1], steps[i - 1]);
      if Pinned(k.kind) {
        CoveredKept(states[i - 1], steps[i - 1], k);
      }
      OnlyAttemptKept(states[i - 1], steps[i - 1], k, g);
    }
  }

  lemma {:induction false} ExecutionsFit(states: seq<Sys>, steps: seq<Step>, i: nat)
    requires IsExecution(states, steps) && states[0] == START && i < |states|
    ensures Inv(states[i]) && AllWorkFits(states[i])
  {
    if i > 0 {
      ExecutionsFit(states, steps, i - 1);
      InvKept(states[i - 1], steps[i - 1]);
      FitKept(states[i - 1], steps[i - 1]);
    }
  }

  // Call `first` starts attempt number `g` from a reachable state; then no push
  // touches its input, and every call let in arrived before that attempt ended.
  // However the calls interleave, and whether the attempt succeeds, fails or is
  // cancelled, they cost that one attempt: no other one is ever published, and
  // each of them is told at the door. This holds of all three renewals.
  lemma ConcurrentCallsCostOneAttempt(s: Sys, first: Step, states: seq<Sys>, steps: seq<Step>, i: nat)
    requires Reachable(s) && Enabled(s, first) && first.Enter? && Coalesced(s.tasks[first.task].call.kind)
    requires !ToldAtTheDoor(s, first)
    requires QuietExecution(states, steps, KeyOf(s.tasks[first.task])) && states[0] == Next(s, first) && i < |states|
    requires forall j :: 0 <= j < |steps| ==>
      EarlyCalls(states[j], steps[j], KeyOf(s.tasks[first.task]), |LogAt(s, KeyOf(s.tasks[first.task]))|)
    ensures var k := KeyOf(s.tasks[first.task]);
      && |LogAt(states[i], k)| <= |LogAt(s, k)| + 1
      && (i < |steps| && StepOf(states[i], steps[i], k) && steps[i].Enter? ==> ToldAtTheDoor(states[i], steps[i]))
  {
    var k := KeyOf(s.tasks[first.task]);
    var before, taken :| IsExecution(before, taken) && before[0] == START && before[|before| - 1] == s;
    ExecutionsFit(before, taken, |before| - 1);
    assert SlotMatches(s, k);
    var g := |LogAt(s, k)|;
    InvKept(s, first);
    FitKept(s, first);
    if Pinned(k.kind) {
      BeginningCovers(s, first);
    }
    BeginningIsOnly(s, first);
    OnlyAttemptThroughout(states, steps, k, g, i);
    assert SlotMatches(states[i], k);
    if i < |steps| && StepOf(states[i], steps[i], k) && steps[i].Enter? {
      EarlyCallShares(states[i], steps[i], k, g);
    }
  }

  // For the CDP fallback no push needs excluding: every execution is quiet.
  lemma CdpIsAlwaysQuiet(states: seq<Sys>, steps: seq<Step>, k: Key)
    requires IsExecution(states, steps) && k.kind.CdpRefresh?
    ensures QuietExecution(states, steps, k)
  {
  }
}
