// What the result of a renewal means: true exactly when a minted token was
// stored, and shared only from an attempt that stored one (refresh_scheduler.py).
module SchedulerResults {
  import opened Prelude
  import opened AccountRecord
  import opened AccountInvariants
  import opened Renewals
  import opened RenewalLaws
  import opened SchedulerModel
  import opened SchedulerProofs
  import opened SchedulerSharing

  // ------------------------------------------------------------ tokens

  function ConsumerToken(p: Pool, account: string): string {
    if account in p then p[account].consumer.token else ""
  }

  function SubstrateToken(p: Pool, account: string): Token {
    if account in p then p[account].substrate.token else NoToken
  }

  // The token in the answer a step brings, if there is one.
  function MintedConsumer(step: Step): Option<string> {
    match step
    case HttpDone(_, ConsumerAnswer(Minted(_, token, _, _)), _) => Some(token)
    case BrowserDone(_, GateAnswered(GateMinted(token, _, _, _, _, _, _, _, _)), _) => Some(token)
    case _ => None
  }

  function MintedPersonal(step: Step): Option<Token> {
    match step
    case HttpDone(_, PersonalAnswered(Some(PersonalMinted(token, _, _, _))), _) => Some(token)
    case BrowserDone(_, SessionAnswered(PersonalMinted(token, _, _, _)), _) => Some(token)
    case _ => None
  }

  // From `p` to `q` nothing happens to any token of any account.
  ghost predicate TokensKept(p: Pool, q: Pool) {
    && q.Keys == p.Keys
    && forall a :: a in p ==> q[a].consumer.token == p[a].consumer.token && q[a].substrate.token == p[a].substrate.token
  }

  // The token of one renewal is stored, and no other token moves.
  ghost predicate Committed(p: Pool, q: Pool, step: Step, k: Key) {
    && k.account in p && q.Keys == p.Keys && (forall a :: a in p && a != k.account ==> q[a] == p[a])
    && match k.kind
       case ConsumerRefresh =>
         && MintedConsumer(step) == Some(ConsumerToken(q, k.account)) && ConsumerToken(q, k.account) != ""
         && (step.BrowserDone? ==> ConsumerToken(q, k.account) != ConsumerToken(p, k.account))
         && SubstrateToken(q, k.account) == SubstrateToken(p, k.account)
       case PersonalRefresh =>
         && MintedPersonal(step) == Some(SubstrateToken(q, k.account))
         && SubstrateToken(q, k.account) != SubstrateToken(p, k.account)
         && ConsumerToken(q, k.account) == ConsumerToken(p, k.account)
       case _ => false
  }

  ghost predicate AttemptEnds(s: Sys, n: Sys, t: Task, result: bool) {
    t in s.tasks && t in n.tasks && !s.tasks[t].phase.Returned? && n.tasks[t].phase == Returned(result, Own)
  }

  // A step of `t` either ends its attempt well and commits, or keeps all tokens.
  ghost predicate Tells(s: Sys, m: Sys, t: Task, step: Step) {
    && t in s.tasks && t in m.tasks
    && if m.tasks[t].phase == Returned(true, Own) then Committed(s.pool, m.pool, step, KeyOf(s.tasks[t]))
       else TokensKept(s.pool, m.pool)
  }

  // ------------------------------------------------------------ one step

  lemma GateTells(s: Sys, m: Sys, t: Task, step: Step)
    requires t in s.tasks && t in m.tasks && TokensKept(s.pool, m.pool)
    ensures Tells(s, TowardsGate(m, t), t, step)
  {
  }

  lemma OneRecordKept(p: Pool, account: string, rec: Rec)
    requires account in p && rec.consumer.token == p[account].consumer.token && rec.substrate.token == p[account].substrate.token
    ensures TokensKept(p, p[account := rec])
  {
  }

  lemma AttemptTells(s: Sys, t: Task, start: ConsumerStart, step: Step)
    requires t in s.tasks && s.tasks[t].call.account in s.pool
    requires start.NoShortcut? ==> TokensKept(s.pool, s.pool[s.tasks[t].call.account := start.rec])
    ensures Tells(s, AttemptConsumer(s, t, start), t, step)
  {
    if start.NoShortcut? {
      var begun := Begun(s, t);
      GateTells(s, To(begun.(pool := begun.pool[s.tasks[t].call.account := start.rec]), t, OnHttp(Plain)), t, step);
    }
  }

  lemma StartTells(s: Sys, t: Task, now: real, step: Step)
    requires t in s.tasks && s.tasks[t].call.account in s.pool
    ensures Tells(s, AttemptConsumer(s, t, BeginConsumer(s.pool[s.tasks[t].call.account], now)), t, step)
  {
    var account := s.tasks[t].call.account;
    var start := BeginConsumer(s.pool[account], now);
    if start.NoShortcut? {
      UnboundConsumerGrantDiscarded(s.pool[account], now);
      OneRecordKept(s.pool, account, start.rec);
    }
    AttemptTells(s, t, start, step);
  }

  lemma ConsumerDoorTells(s: Sys, t: Task, now: real, step: Step)
    requires MayEnter(s, t) && s.tasks[t].call.kind.ConsumerRefresh?
    ensures Tells(s, EnterConsumer(s, t, now), t, step)
  {
    if s.tasks[t].call.account in s.pool {
      StartTells(s, t, now, step);
    }
  }

  lemma ConsumerHttpTells(s: Sys, t: Task, step: Step)
    requires Enabled(s, step) && step.HttpDone? && step.task == t && s.tasks[t].call.kind.ConsumerRefresh?
    requires s.tasks[t].phase.work.ConsumerHttp?
    ensures Tells(s, AfterHttp(s, t, step.http, step.now), t, step)
  {
    var account, renewal, x := s.tasks[t].call.account, s.tasks[t].phase.work.renewal, step.http.exchange;
    if account !in s.pool {
      GateTells(s, s, t, step);
    } else {
      var (rec, ok) := CompleteConsumer(s.pool[account], renewal, x, step.now);
      ConsumerCommitsOnlyOnItsSnapshot(s.pool[account], renewal, x, step.now);
      NewerConsumerCredentialsSurvive(s.pool[account], renewal, x, step.now);
      if !ok {
        OneRecordKept(s.pool, account, rec);
        GateTells(s, s.(pool := s.pool[account := rec]), t, step);
      }
    }
  }

  // What a personal answer does to the pool, and what it returns.
  lemma PersonalPool(p: Pool, account: string, session: PersonalRenewal, answer: PersonalAnswer, now: real, step: Step)
    requires account in p && (answer.PersonalMinted? ==> MintedPersonal(step) == Some(answer.token))
    ensures var (rec, ok) := CompletePersonal(p[account], session, answer, now);
      if ok then Committed(p, p[account := rec], step, Key(PersonalRefresh, account)) else TokensKept(p, p[account := rec])
  {
    var (rec, ok) := CompletePersonal(p[account], session, answer, now);
    PersonalAnswerStored(p[account], session, answer, now);
    PersonalCommitsExactly(p[account], session, answer, now);
    if !ok {
      OneRecordKept(p, account, rec);
    }
  }

  lemma PersonalTells(s: Sys, m: Sys, t: Task, session: PersonalRenewal, answer: PersonalAnswer, now: real, step: Step)
    requires t in s.tasks && t in m.tasks && m.tasks[t].call == s.tasks[t].call && m.pool == s.pool
    requires s.tasks[t].call.kind.PersonalRefresh?
    requires answer.PersonalMinted? ==> MintedPersonal(step) == Some(answer.token)
    ensures Tells(s, FinishPersonal(m, t, session, answer, now), t, step)
  {
    var account := s.tasks[t].call.account;
    if account in s.pool {
      PersonalPool(s.pool, account, session, answer, now, step);
      assert KeyOf(s.tasks[t]) == Key(PersonalRefresh, account);
    }
  }

  lemma GateAnswerTells(s: Sys, t: Task, step: Step)
    requires Enabled(s, step) && step.BrowserDone? && step.task == t && s.tasks[t].call.kind.ConsumerRefresh?
    requires s.tasks[t].phase.work.ConsumerGate?
    ensures Tells(s, AfterBrowser(ReleaseBrowser(s), t, step.browser, step.now), t, step)
  {
    var account, gate, x := s.tasks[t].call.account, s.tasks[t].phase.work.gate, step.browser.gate;
    if account in s.pool {
      var (rec, ok) := CompleteGate(s.pool[account], gate, x, step.now);
      GateCommitsOnlyOnItsSnapshot(s.pool[account], gate, x, step.now);
      if ok {
        GateAnswerStored(s.pool[account], gate, x, step.now);
      } else {
        OneRecordKept(s.pool, account, rec);
      }
    }
  }

  lemma PinnedHttpTells(s: Sys, step: Step)
    requires AllWorkFits(s) && Enabled(s, step) && step.HttpDone? && Pinned(s.tasks[step.task].call.kind)
    ensures Tells(s, Perform(s, step), step.task, step)
  {
    var t := step.task;
    assert WorkFits(s.tasks[t]);
    if s.tasks[t].call.kind.ConsumerRefresh? {
      ConsumerHttpTells(s, t, step);
    } else if step.http.minted.Some? {
      PersonalTells(s, s, t, s.tasks[t].phase.work.session, step.http.minted.value, step.now, step);
    }
  }

  lemma PinnedBrowserTells(s: Sys, step: Step)
    requires AllWorkFits(s) && Enabled(s, step) && step.BrowserDone? && Pinned(s.tasks[step.task].call.kind)
    ensures Tells(s, Perform(s, step), step.task, step)
  {
    var t := step.task;
    assert WorkFits(s.tasks[t]);
    if s.tasks[t].call.kind.ConsumerRefresh? {
      GateAnswerTells(s, t, step);
    } else {
      PersonalTells(s, ReleaseBrowser(s), t, s.tasks[t].phase.work.session, step.browser.answer, step.now, step);
    }
  }

  lemma StepTells(s: Sys, step: Step)
    requires AllWorkFits(s) && Enabled(s, step) && !step.Arrive? && !step.Outside? && Pinned(s.tasks[step.task].call.kind)
    ensures Tells(s, Perform(s, step), step.task, step)
  {
    var t := step.task;
    match step
    case Enter(_, now, ready, usable, _) =>
      if s.tasks[t].call.kind.ConsumerRefresh? {
        ConsumerDoorTells(s, t, now, step);
      }
    case HttpDone(_, _, _) => PinnedHttpTells(s, step);
    case TakeBrowser(_) =>
    case BrowserDone(_, _, _) => PinnedBrowserTells(s, step);
    case Cancel(_) =>
  }

  lemma ReachableFits(s: Sys)
    requires Reachable(s)
    ensures Inv(s) && AllWorkFits(s)
  {
    var states, steps :| IsExecution(states, steps) && states[0] == START && states[|states| - 1] == s;
    ExecutionsFit(states, steps, |states| - 1);
  }

  // In every reachable state, whatever the step: an attempt of a pinned renewal
  // that ends with true has stored the token its answer minted, another one than
  // before unless a plain Consumer exchange minted the same again, and one that
  // ends otherwise, or goes on, has left every token of every account alone.
  lemma ResultMeansCommit(s: Sys, step: Step)
    requires Reachable(s) && Enabled(s, step) && !step.Arrive? && !step.Outside? && Pinned(s.tasks[step.task].call.kind)
    ensures var n, t := Next(s, step), step.task;
      && t in n.tasks
      && (AttemptEnds(s, n, t, true) ==> Committed(s.pool, n.pool, step, KeyOf(s.tasks[t])))
      && (!AttemptEnds(s, n, t, true) ==> TokensKept(s.pool, n.pool))
  {
    ReachableFits(s);
    StepTells(s, step);
  }

  lemma CdpDoorKeeps(s: Sys, t: Task, usable: bool, drift: Drift)
    requires t in s.tasks
    ensures EnterCdp(s, t, usable, drift).pool == s.pool && t in EnterCdp(s, t, usable, drift).tasks
  {
  }

  lemma OtherDoorKeeps(s: Sys, step: Step)
    requires Enabled(s, step) && step.Enter? && !Pinned(s.tasks[step.task].call.kind)
    ensures Perform(s, step).pool == s.pool && step.task in Perform(s, step).tasks
  {
    if s.tasks[step.task].call.kind.CdpRefresh? {
      CdpDoorKeeps(s, step.task, step.usable, step.drift);
    }
  }

  lemma OtherCancelKeeps(s: Sys, step: Step)
    requires Enabled(s, step) && step.Cancel?
    ensures Next(s, step).pool == s.pool && step.task in Next(s, step).tasks
    ensures Next(s, step).tasks[step.task].phase.Returned? && !Next(s, step).tasks[step.task].phase.result
  {
  }

  // The other callers of the locks return what their exchange or browser said,
  // and change no record.
  lemma OtherJobsReturnTheirAnswer(s: Sys, step: Step)
    requires Reachable(s) && Enabled(s, step) && !step.Arrive? && !step.Outside? && !Pinned(s.tasks[step.task].call.kind)
    ensures var n, t := Next(s, step), step.task;
      && n.pool == s.pool && t in n.tasks
      && (step.HttpDone? ==> step.http.PlainAnswer? && n.tasks[t].phase == Returned(step.http.ok, Own))
      && (step.BrowserDone? ==> step.browser.PlainBrowser? && n.tasks[t].phase == Returned(step.browser.ok, Own))
      && (step.Cancel? ==> n.tasks[t].phase.Returned? && !n.tasks[t].phase.result)
  {
    ReachableFits(s);
    assert WorkFits(s.tasks[step.task]);
    if step.Enter? {
      OtherDoorKeeps(s, step);
    } else if step.Cancel? {
      OtherCancelKeeps(s, step);
    } else {
      assert s.tasks[step.task].phase.work == Plain;
    }
  }

  // ------------------------------------------------------------ history

  // The step taken at moment `at` ended an attempt for `k` with this result, and
  // a true one stored its token.
  ghost predicate EndedAt(states: seq<Sys>, steps: seq<Step>, k: Key, at: nat, result: bool)
    requires |states| == |steps| + 1
  {
    && at < |steps| && StepOf(states[at], steps[at], k)
    && AttemptEnds(states[at], states[at + 1], steps[at].task, result)
    && (result ==> Committed(states[at].pool, states[at + 1].pool, steps[at], k))
  }

  lemma {:induction false} ClockCounts(states: seq<Sys>, steps: seq<Step>, i: nat)
    requires IsExecution(states, steps) && states[0] == START && i < |states|
    ensures states[i].clock == i
  {
    if i > 0 {
      ClockCounts(states, steps, i - 1);
    }
  }

  // Publishing an attempt adds exactly the result its worker returns with.
  lemma MovedLogs(s: Sys, m: Sys, t: Task, k: Key)
    requires Moved(s, m, t) && Pinned(k.kind) && !s.tasks[t].phase.Returned?
    ensures LogAt(m, k) == LogAt(s, k)
            || (&& KeyOf(s.tasks[t]) == k && |LogAt(m, k)| == |LogAt(s, k)| + 1 && LogAt(m, k)[..|LogAt(s, k)|] == LogAt(s, k)
                && LogAt(m, k)[|LogAt(s, k)|].at == s.clock && AttemptEnds(s, m, t, LogAt(m, k)[|LogAt(s, k)|].result))
  {
    if KeyOf(s.tasks[t]) == k && LogAt(m, k) != LogAt(s, k) {
      assert Published(s, m, k);
    }
  }

  // A step adds to the log exactly the attempt it ends.
  lemma StepLogs(s: Sys, step: Step, k: Key)
    requires Inv(s) && Enabled(s, step) && Pinned(k.kind)
    ensures var n := Next(s, step);
      || LogAt(n, k) == LogAt(s, k)
      || (&& StepOf(s, step, k) && |LogAt(n, k)| == |LogAt(s, k)| + 1 && LogAt(n, k)[..|LogAt(s, k)|] == LogAt(s, k)
          && LogAt(n, k)[|LogAt(s, k)|].at == s.clock && AttemptEnds(s, n, step.task, LogAt(n, k)[|LogAt(s, k)|].result))
  {
    if !step.Arrive? && !step.Outside? {
      StepMoves(s, step);
      StillRunning(s, step);
      MovedLogs(s, Perform(s, step), step.task, k);
    }
  }

  lemma StillRunning(s: Sys, step: Step)
    requires Enabled(s, step) && !step.Arrive? && !step.Outside?
    ensures !s.tasks[step.task].phase.Returned?
  {
  }

  lemma NewEntryTells(states: seq<Sys>, steps: seq<Step>, k: Key, i: nat, result: bool)
    requires IsExecution(states, steps) && i < |steps| && Pinned(k.kind) && AllWorkFits(states[i])
    requires StepOf(states[i], steps[i], k) && AttemptEnds(states[i], states[i + 1], steps[i].task, result)
    ensures EndedAt(states, steps, k, i, result)
  {
    StepTells(states[i], steps[i]);
  }

  // One step of an execution adds at most the attempt it ends, dated by it.
  ghost predicate LogGrew(states: seq<Sys>, steps: seq<Step>, k: Key, i: nat)
    requires |states| == |steps| + 1 && i < |steps|
  {
    var was, log := LogAt(states[i], k), LogAt(states[i + 1], k);
    || log == was
    || (&& |log| == |was| + 1 && log[..|was|] == was && log[|was|].at == i
        && EndedAt(states, steps, k, i, log[|was|].result))
  }

  lemma LogGrows(states: seq<Sys>, steps: seq<Step>, k: Key, i: nat)
    requires IsExecution(states, steps) && states[0] == START && i < |steps| && Pinned(k.kind)
    ensures LogGrew(states, steps, k, i)
  {
    ExecutionsFit(states, steps, i);
    ClockCounts(states, steps, i);
    StepLogs(states[i], steps[i], k);
    var was, log := LogAt(states[i], k), LogAt(states[i + 1], k);
    if log != was {
      NewEntryTells(states, steps, k, i, log[|was|].result);
    }
  }

  lemma {:induction false} EntriesTell(states: seq<Sys>, steps: seq<Step>, k: Key, i: nat, e: nat)
    requires |states| == |steps| + 1 && i < |states| && LogAt(states[0], k) == [] && e < |LogAt(states[i], k)|
    requires forall j :: 0 <= j < |steps| ==> LogGrew(states, steps, k, j)
    ensures LogAt(states[i], k)[e].at < i
    ensures EndedAt(states, steps, k, LogAt(states[i], k)[e].at, LogAt(states[i], k)[e].result)
  {
    assert i > 0;
    var was, log := LogAt(states[i - 1], k), LogAt(states[i], k);
    assert LogGrew(states, steps, k, i - 1);
    if e < |was| {
      EntriesTell(states, steps, k, i - 1, e);
      assert log[e] == log[..|was|][e] == was[e];
    }
  }

  // The log tells the truth: each entry is an attempt that ended then, in that
  // way.
  lemma LogTells(states: seq<Sys>, steps: seq<Step>, k: Key, i: nat, e: nat)
    requires IsExecution(states, steps) && states[0] == START && i < |states| && Pinned(k.kind) && e < |LogAt(states[i], k)|
    ensures LogAt(states[i], k)[e].at < i
    ensures EndedAt(states, steps, k, LogAt(states[i], k)[e].at, LogAt(states[i], k)[e].result)
  {
    forall j | 0 <= j < |steps| ensures LogGrew(states, steps, k, j) {
      LogGrows(states, steps, k, j);
    }
    EntriesTell(states, steps, k, i, e);
  }

  // What a shared true rests on, at the door.
  lemma SharedTrueIsLatest(s: Sys, step: Step)
    requires Reachable(s) && Enabled(s, step) && step.Enter? && Pinned(s.tasks[step.task].call.kind)
    requires step.task in Next(s, step).tasks && Next(s, step).tasks[step.task].phase == Returned(true, Shared)
    ensures LatestIsNews(s, step.task) && Latest(s, KeyOf(s.tasks[step.task])).result
  {
    if s.tasks[step.task].call.kind.ConsumerRefresh? {
      ConsumerSharesTheLatest(s, step.task, step.now);
    } else {
      PersonalSharesTheLatest(s, step.task, step.ready, step.usable);
    }
  }

  // Whoever is told a shared true has an attempt behind it that ended after the
  // call arrived and stored a token.
  lemma SharedTrueWasCommitted(states: seq<Sys>, steps: seq<Step>, i: nat)
    requires IsExecution(states, steps) && states[0] == START && i < |steps|
    requires steps[i].Enter? && Pinned(states[i].tasks[steps[i].task].call.kind)
    requires steps[i].task in states[i + 1].tasks && states[i + 1].tasks[steps[i].task].phase == Returned(true, Shared)
    ensures var w := states[i].tasks[steps[i].task];
      exists at :: w.call.arrived <= at < i && EndedAt(states, steps, KeyOf(w), at, true)
  {
    var w := states[i].tasks[steps[i].task];
    var log := LogAt(states[i], KeyOf(w));
    PrefixReachable(states, steps, i);
    SharedTrueIsLatest(states[i], steps[i]);
    LogTells(states, steps, KeyOf(w), i, |log| - 1);
    assert EndedAt(states, steps, KeyOf(w), log[|log| - 1].at, true);
  }

  lemma PrefixReachable(states: seq<Sys>, steps: seq<Step>, i: nat)
    requires IsExecution(states, steps) && states[0] == START && i < |states|
    ensures Reachable(states[i])
  {
    var before, taken := states[..i + 1], steps[..i];
    assert IsExecution(before, taken) && before[0] == START && before[|before| - 1] == states[i];
  }

  // ------------------------------------------------------------ at the door

  // No attempt for this renewal has ended since the call arrived.
  lemma UpToDate(s: Sys, t: Task)
    requires Inv(s) && MayEnter(s, t) && Coalesced(s.tasks[t].call.kind)
    ensures LatestIsNews(s, t) <==> SlotAt(s, KeyOf(s.tasks[t])).generation != s.tasks[t].call.queued
  {
    assert SlotMatches(s, KeyOf(s.tasks[t]));
    assert ArrivalMatches(s, t);
  }

  // The latest attempt is news to the call, and nothing has changed since.
  ghost predicate AlreadyTried(s: Sys, t: Task)
    requires t in s.tasks
  {
    var k := KeyOf(s.tasks[t]);
    LatestIsNews(s, t) && Latest(s, k).recorded == StateOf(k.kind, s.pool, k.account)
  }

  ghost predicate OwnAttempt(n: Sys, t: Task) {
    t in n.tasks && (!n.tasks[t].phase.Returned? || n.tasks[t].phase.origin == Own)
  }

  lemma TriedMeansShares(s: Sys, t: Task)
    requires Inv(s) && MayEnter(s, t) && Pinned(s.tasks[t].call.kind)
    ensures AlreadyTried(s, t) <==> Shares(s, t)
  {
    UpToDate(s, t);
    if LatestIsNews(s, t) {
      OutOfDate(s, t);
    }
  }

  // A Consumer call makes an attempt of its own exactly if the account is a
  // Consumer one and its input has not been tried since the call arrived.
  lemma ConsumerTriesExactly(s: Sys, t: Task, now: real)
    requires Reachable(s) && MayEnter(s, t) && s.tasks[t].call.kind.ConsumerRefresh?
    ensures var account := s.tasks[t].call.account;
      OwnAttempt(EnterConsumer(s, t, now), t) <==> account in s.pool && s.pool[account].provider == Consumer && !AlreadyTried(s, t)
  {
    ReachableInv(s);
    TriedMeansShares(s, t);
  }

  // A personal call does so with a usable session, an untried input, and, unless
  // it is forced, its retry time come.
  lemma PersonalTriesExactly(s: Sys, t: Task, ready: bool, usable: bool)
    requires Reachable(s) && MayEnter(s, t) && s.tasks[t].call.kind.PersonalRefresh?
    ensures var account := s.tasks[t].call.account;
      OwnAttempt(EnterPersonal(s, t, ready, usable), t) <==>
        && account in s.pool && UsablePersonal(s.pool[account], usable) && !AlreadyTried(s, t)
        && (s.tasks[t].call.force || ready)
  {
    ReachableInv(s);
    TriedMeansShares(s, t);
  }

  // The CDP fallback launches exactly if no attempt ended meanwhile, the account
  // is as it was, and, unless forced, its token is not usable.
  lemma CdpTriesExactly(s: Sys, t: Task, usable: bool, drift: Drift)
    requires Reachable(s) && MayEnter(s, t) && s.tasks[t].call.kind.CdpRefresh?
    ensures OwnAttempt(EnterCdp(s, t, usable, drift), t) <==>
            && s.tasks[t].call.account in s.pool && !LatestIsNews(s, t) && drift == Same && (s.tasks[t].call.force || !usable)
  {
    ReachableInv(s);
    UpToDate(s, t);
  }

  // A personal browser is launched only on the record the attempt started from.
  lemma PersonalLaunchesOnItsState(s: Sys, t: Task)
    requires Enabled(s, TakeBrowser(t)) && s.tasks[t].phase.work.PersonalWork?
    ensures var n := Next(s, TakeBrowser(t));
      Browsing(n, t) <==>
        && s.tasks[t].call.account in s.pool && s.pool[s.tasks[t].call.account].provider == M365
        && StateOf(PersonalRefresh, s.pool, s.tasks[t].call.account) == s.tasks[t].phase.work.key
  {
  }
}
