// The refresh scheduler as a state machine over its awaits
// (refresh_scheduler.py). Between two awaits a coroutine runs alone, so each
// step below is one such stretch of one call, or one store operation made by
// code outside the scheduler.
module SchedulerModel {
  import opened Prelude
  import opened AccountRecord
  import opened AccountInvariants
  import opened Renewals

  type Task = nat

  // The three coalesced renewals, and the other callers of the two locks: image
  // fetch, cookie injection and seed capture need a browser, minting a media
  // token or exchanging the AAD grant only needs HTTP.
  datatype Kind = ConsumerRefresh | PersonalRefresh | CdpRefresh | BrowserJob | HttpJob

  predicate Coalesced(k: Kind) {
    k.ConsumerRefresh? || k.PersonalRefresh? || k.CdpRefresh?
  }

  // A renewal input, as the scheduler digests it. SHA-256 is taken as injective.
  datatype StateKey =
    | NoRecord
    | ConsumerKey(slot: ConsumerSlot, grant: string, binding: ConsumerBinding, proxyUrl: string, epoch: nat)
    | PersonalKey(token: Token, subject: string, epoch: nat, session: Option<Session>, proxyUrl: string)

  // The digest leaves out the Consumer deadline.
  function StateOf(k: Kind, p: Pool, account: string): StateKey {
    if account !in p then NoRecord
    else
      var a := p[account];
      match k
      case ConsumerRefresh =>
        ConsumerKey(a.consumer.(deadline := 0.0), a.consumerGrant.text, a.consumerBinding, a.proxyUrl, a.epoch)
      case PersonalRefresh =>
        PersonalKey(a.substrate.token, a.substrate.subject, a.epoch, a.substrate.session, a.proxyUrl)
      case _ => NoRecord
  }

  datatype Request = Request(kind: Kind, account: string, force: bool, queued: nat, arrived: nat)

  // What an attempt carries across an await.
  datatype Work =
    | ConsumerHttp(renewal: ConsumerRenewal)
    | ConsumerGate(gate: GateRenewal)
    | PersonalWork(session: PersonalRenewal, key: StateKey)
    | Plain

  datatype Origin = Own | Shared | NotDue | Cancelled

  datatype Phase =
    | Queued
    | OnHttp(work: Work)
    | WaitingForBrowser(work: Work)
    | InBrowser(work: Work)
    | Returned(result: bool, origin: Origin)

  datatype Worker = Worker(call: Request, phase: Phase)

  predicate HoldsAccount(w: Worker) {
    w.phase.OnHttp? || w.phase.WaitingForBrowser? || w.phase.InBrowser?
  }

  datatype Key = Key(kind: Kind, account: string)

  // The generation, snapshot and result dictionaries, one entry per key.
  datatype Slot = Slot(generation: nat, recorded: StateKey, result: bool)
  const NEVER := Slot(0, NoRecord, false)

  // An ended attempt: history only, no step reads it.
  datatype Ended = Ended(recorded: StateKey, result: bool, at: nat)

  datatype Sys = Sys(pool: Pool, accountLocks: map<string, Task>, browserLock: Option<Task>,
                     tasks: map<Task, Worker>, slots: map<Key, Slot>,
                     log: map<Key, seq<Ended>>, clock: nat)

  function KeyOf(w: Worker): Key {
    Key(w.call.kind, w.call.account)
  }

  function SlotAt(s: Sys, k: Key): Slot {
    if k in s.slots then s.slots[k] else NEVER
  }

  function LogAt(s: Sys, k: Key): seq<Ended> {
    if k in s.log then s.log[k] else []
  }

  // ------------------------------------------------------------ steps

  datatype HttpAnswer =
    | ConsumerAnswer(exchange: ConsumerExchange)
    | PersonalAnswered(minted: Option<PersonalAnswer>)
    | PlainAnswer(ok: bool)
  datatype BrowserAnswer =
    | GateAnswered(gate: GateAnswer)
    | SessionAnswered(answer: PersonalAnswer)
    | PlainBrowser(ok: bool)

  // How the CDP state read before queueing differs from the one found inside.
  datatype Drift = Same | CookieMoved | TokenMoved

  // Clock readings and token lifetimes enter as parameters: `ready` is the retry
  // backoff, `usable` the token or session check.
  datatype Step =
    | Arrive(task: Task, kind: Kind, account: string, force: bool)
    | Enter(task: Task, now: real, ready: bool, usable: bool, drift: Drift)
    | HttpDone(task: Task, http: HttpAnswer, now: real)
    | TakeBrowser(task: Task)
    | BrowserDone(task: Task, browser: BrowserAnswer, now: real)
    | Cancel(task: Task)
    | Outside(event: Event)

  predicate AnswersWork(w: Work, a: HttpAnswer) {
    match w
    case ConsumerHttp(_) => a.ConsumerAnswer?
    case PersonalWork(_, _) => a.PersonalAnswered?
    case _ => a.PlainAnswer?
  }

  predicate AnswersBrowser(w: Work, a: BrowserAnswer) {
    match w
    case ConsumerGate(_) => a.GateAnswered?
    case PersonalWork(_, _) => a.SessionAnswered?
    case _ => a.PlainBrowser?
  }

  predicate Enabled(s: Sys, step: Step) {
    match step
    case Arrive(t, _, _, _) => t !in s.tasks
    case Enter(t, _, _, _, _) => t in s.tasks && s.tasks[t].phase.Queued? && s.tasks[t].call.account !in s.accountLocks
    case HttpDone(t, a, _) => t in s.tasks && s.tasks[t].phase.OnHttp? && AnswersWork(s.tasks[t].phase.work, a)
    case TakeBrowser(t) => t in s.tasks && s.tasks[t].phase.WaitingForBrowser? && s.browserLock == None
    case BrowserDone(t, a, _) => t in s.tasks && s.tasks[t].phase.InBrowser? && AnswersBrowser(s.tasks[t].phase.work, a)
    case Cancel(t) => t in s.tasks && !s.tasks[t].phase.Returned?
    case Outside(_) => true
  }

  function To(s: Sys, t: Task, phase: Phase): Sys
    requires t in s.tasks
  {
    s.(tasks := s.tasks[t := s.tasks[t].(phase := phase)])
  }

  function Record(s: Sys, k: Key, recorded: StateKey): Sys {
    s.(slots := s.slots[k := SlotAt(s, k).(recorded := recorded)])
  }

  function Lock(s: Sys, t: Task): Sys
    requires t in s.tasks
  {
    s.(accountLocks := s.accountLocks[s.tasks[t].call.account := t])
  }

  function ReleaseBrowser(s: Sys): Sys {
    s.(browserLock := None)
  }

  // The `finally` of an attempt: publish it for the waiters, release the account.
  function Finish(s: Sys, t: Task, result: bool): (n: Sys)
    requires t in s.tasks
    ensures t in n.tasks && n.tasks[t] == s.tasks[t].(phase := Returned(result, Own))
  {
    var k := KeyOf(s.tasks[t]);
    var slot := SlotAt(s, k);
    var recorded := if result then StateOf(k.kind, s.pool, k.account) else slot.recorded;
    s.(slots := if Coalesced(k.kind) then s.slots[k := Slot(slot.generation + 1, recorded, result)] else s.slots,
       log := if Coalesced(k.kind) then s.log[k := LogAt(s, k) + [Ended(recorded, result, s.clock)]] else s.log,
       accountLocks := s.accountLocks - {k.account},
       tasks := s.tasks[t := s.tasks[t].(phase := Returned(result, Own))])
  }

  // After the HTTP shortcut missed: bind the failure to the input the browser gets.
  function TowardsGate(s: Sys, t: Task): (n: Sys)
    requires t in s.tasks
    ensures t in n.tasks && n.tasks[t].call == s.tasks[t].call
    ensures var phase := n.tasks[t].phase;
      (phase.Returned? && phase.origin == Own) || (phase.WaitingForBrowser? && phase.work.ConsumerGate?)
  {
    var k := KeyOf(s.tasks[t]);
    if k.account !in s.pool || s.pool[k.account].provider != Consumer then Finish(s, t, false)
    else
      var bound := Record(s, k, StateOf(k.kind, s.pool, k.account));
      if s.pool[k.account].consumer.subject == "" then Finish(bound, t, false)
      else To(bound, t, WaitingForBrowser(ConsumerGate(GateSnapshot(s.pool[k.account]))))
  }

  predicate Shares(s: Sys, t: Task)
    requires t in s.tasks
  {
    var k := KeyOf(s.tasks[t]);
    && SlotAt(s, k).generation != s.tasks[t].call.queued
    && SlotAt(s, k).recorded == StateOf(k.kind, s.pool, k.account)
  }

  // Take the account and note the input of the attempt.
  function Begun(s: Sys, t: Task): Sys
    requires t in s.tasks
  {
    var k := KeyOf(s.tasks[t]);
    Lock(Record(s, k, StateOf(k.kind, s.pool, k.account)), t)
  }

  function AttemptConsumer(s: Sys, t: Task, start: ConsumerStart): (n: Sys)
    requires t in s.tasks
    ensures t in n.tasks && n.tasks[t].call == s.tasks[t].call
    ensures var phase := n.tasks[t].phase;
      || (phase.Returned? && phase.origin == Own)
      || (phase.OnHttp? && phase.work.ConsumerHttp?)
      || (phase.WaitingForBrowser? && phase.work.ConsumerGate?)
  {
    match start
    case Exchanging(renewal) => To(Begun(s, t), t, OnHttp(ConsumerHttp(renewal)))
    case NoShortcut(rec) =>
      var begun := Begun(s, t);
      TowardsGate(To(begun.(pool := begun.pool[s.tasks[t].call.account := rec]), t, OnHttp(Plain)), t)
  }

  function EnterConsumer(s: Sys, t: Task, now: real): Sys
    requires t in s.tasks
  {
    var k := KeyOf(s.tasks[t]);
    if k.account !in s.pool || s.pool[k.account].provider != Consumer then To(s, t, Returned(false, NotDue))
    else if Shares(s, t) then
      To(s, t, Returned(s.pool[k.account].consumer.token != "" && SlotAt(s, k).result, Shared))
    else AttemptConsumer(s, t, BeginConsumer(s.pool[k.account], now))
  }

  predicate UsablePersonal(a: Rec, usable: bool) {
    a.provider == M365 && a.substrate.token.Jwe? && a.substrate.session.Some?
    && a.substrate.session.value.subject == a.substrate.subject && usable
  }

  function EnterPersonal(s: Sys, t: Task, ready: bool, usable: bool): Sys
    requires t in s.tasks
  {
    var k := KeyOf(s.tasks[t]);
    if k.account !in s.pool || !UsablePersonal(s.pool[k.account], usable) then To(s, t, Returned(false, NotDue))
    else if Shares(s, t) then To(s, t, Returned(SlotAt(s, k).result, Shared))
    else if !s.tasks[t].call.force && !ready then To(s, t, Returned(false, NotDue))
    else To(Begun(s, t), t, OnHttp(PersonalWork(PersonalSnapshot(s.pool[k.account]), StateOf(k.kind, s.pool, k.account))))
  }

  function EnterCdp(s: Sys, t: Task, usable: bool, drift: Drift): Sys
    requires t in s.tasks
  {
    var k := KeyOf(s.tasks[t]);
    var slot := SlotAt(s, k);
    if k.account !in s.pool then To(s, t, Returned(false, NotDue))
    else if slot.generation != s.tasks[t].call.queued then
      To(s, t, Returned((drift == TokenMoved && usable) || slot.result, Shared))
    else if drift != Same || (!s.tasks[t].call.force && usable) then To(s, t, Returned(usable, NotDue))
    else To(Lock(s, t), t, WaitingForBrowser(Plain))
  }

  function AfterHttp(s: Sys, t: Task, answer: HttpAnswer, now: real): Sys
    requires t in s.tasks && s.tasks[t].phase.OnHttp? && AnswersWork(s.tasks[t].phase.work, answer)
  {
    var account := s.tasks[t].call.account;
    match s.tasks[t].phase.work
    case ConsumerHttp(renewal) =>
      if account !in s.pool then TowardsGate(s, t)
      else
        var (rec, ok) := CompleteConsumer(s.pool[account], renewal, answer.exchange, now);
        var committed := s.(pool := s.pool[account := rec]);
        if ok then Finish(committed, t, true) else TowardsGate(committed, t)
    case PersonalWork(session, key) =>
      if answer.minted.None? then To(s, t, WaitingForBrowser(PersonalWork(session, key)))
      else FinishPersonal(s, t, session, answer.minted.value, now)
    case _ => Finish(s, t, answer.ok)
  }

  function FinishPersonal(s: Sys, t: Task, session: PersonalRenewal, answer: PersonalAnswer, now: real): (n: Sys)
    requires t in s.tasks
    ensures t in n.tasks && n.tasks[t].call == s.tasks[t].call && n.tasks[t].phase.Returned?
  {
    var account := s.tasks[t].call.account;
    if account !in s.pool then Finish(s, t, false)
    else
      var (rec, ok) := CompletePersonal(s.pool[account], session, answer, now);
      Finish(s.(pool := s.pool[account := rec]), t, ok)
  }

  // The personal path looks at the record once more before launching.
  function TakeOrGiveUp(s: Sys, t: Task): Sys
    requires t in s.tasks && s.tasks[t].phase.WaitingForBrowser?
  {
    var w := s.tasks[t];
    var account := w.call.account;
    if w.phase.work.PersonalWork?
       && (account !in s.pool || StateOf(PersonalRefresh, s.pool, account) != w.phase.work.key
           || s.pool[account].provider != M365)
    then Finish(s, t, false)
    else To(s.(browserLock := Some(t)), t, InBrowser(w.phase.work))
  }

  function AfterBrowser(s: Sys, t: Task, answer: BrowserAnswer, now: real): Sys
    requires t in s.tasks && s.tasks[t].phase.InBrowser? && AnswersBrowser(s.tasks[t].phase.work, answer)
  {
    var account := s.tasks[t].call.account;
    match s.tasks[t].phase.work
    case ConsumerGate(gate) =>
      if account !in s.pool then Finish(s, t, false)
      else
        var (rec, ok) := CompleteGate(s.pool[account], gate, answer.gate, now);
        Finish(s.(pool := s.pool[account := rec]), t, ok)
    case PersonalWork(session, _) => FinishPersonal(s, t, session, answer.answer, now)
    case _ => Finish(s, t, answer.ok)
  }

  function Perform(s: Sys, step: Step): Sys
    requires Enabled(s, step)
  {
    match step
    case Arrive(t, kind, account, force) =>
      s.(tasks := s.tasks[t := Worker(Request(kind, account, force, SlotAt(s, Key(kind, account)).generation, s.clock), Queued)])
    case Enter(t, now, ready, usable, drift) =>
      (match s.tasks[t].call.kind
       case ConsumerRefresh => EnterConsumer(s, t, now)
       case PersonalRefresh => EnterPersonal(s, t, ready, usable)
       case CdpRefresh => EnterCdp(s, t, usable, drift)
       case BrowserJob => To(Lock(s, t), t, WaitingForBrowser(Plain))
       case HttpJob => To(Lock(s, t), t, OnHttp(Plain)))
    case HttpDone(t, answer, now) => AfterHttp(s, t, answer, now)
    case TakeBrowser(t) => TakeOrGiveUp(s, t)
    case BrowserDone(t, answer, now) => AfterBrowser(ReleaseBrowser(s), t, answer, now)
    case Cancel(t) =>
      if s.tasks[t].phase.Queued? then To(s, t, Returned(false, Cancelled))
      else Finish(if s.tasks[t].phase.InBrowser? then ReleaseBrowser(s) else s, t, false)
    case Outside(event) => s.(pool := PoolAfter(s.pool, event))
  }

  function Next(s: Sys, step: Step): Sys
    requires Enabled(s, step)
  {
    var n := Perform(s, step);
    n.(clock := s.clock + 1)
  }

  const START := Sys(map[], map[], None, map[], map[], map[], 0)

  // The states of a run; each step is enabled where it is taken.
  ghost predicate IsExecution(states: seq<Sys>, steps: seq<Step>) {
    && |states| == |steps| + 1
    && forall i :: 0 <= i < |steps| ==> Enabled(states[i], steps[i]) && states[i + 1] == Next(states[i], steps[i])
  }
}
