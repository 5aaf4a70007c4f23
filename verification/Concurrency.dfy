// The per-account ceiling on simultaneous turns (account_concurrency.py), with
// `hold` split where it can be suspended or cancelled.  Semaphores are named by
// the order in which they were installed.
module Concurrency {
  import opened Prelude

  datatype Semaphore = Semaphore(limit: int, value: int)

  // A turn inside `hold`: queued on a gate, or running its body.
  datatype Turn =
    | Queued(account: string, gate: Option<nat>)
    | Running(account: string, gate: Option<nat>)

  datatype Gates = Gates(
    installed: map<string, (int, nat)>,
    semaphores: seq<Semaphore>,
    inflight: map<string, int>,
    waiting: map<string, int>,
    turns: map<nat, Turn>)

  const EMPTY := Gates(map[], [], map[], map[], map[])

  datatype Step =
    | Hold(turn: nat, account: string, limit: int)
    | Acquire(turn: nat)
    | Cancel(turn: nat)   // while queued
    | Leave(turn: nat)    // the body returned, failed or was cancelled

  function Get(counts: map<string, int>, account: string): int {
    if account in counts then counts[account] else 0
  }

  predicate Enabled(s: Gates, step: Step) {
    match step
    case Hold(t, _, _) => t !in s.turns
    case Acquire(t) =>
      && t in s.turns && s.turns[t].Queued? && s.turns[t].gate.Some? && s.turns[t].gate.value < |s.semaphores|
      && s.semaphores[s.turns[t].gate.value].value > 0
    case Cancel(t) => t in s.turns && s.turns[t].Queued?
    case Leave(t) =>
      && t in s.turns && s.turns[t].Running?
      && (s.turns[t].gate.Some? ==> s.turns[t].gate.value < |s.semaphores|)
  }

  predicate Fits(s: Gates, account: string, limit: int) {
    account in s.installed && s.installed[account].0 == limit
  }

  // A limit that differs from the installed one installs a fresh semaphore.
  function WithGate(s: Gates, account: string, limit: int): Gates {
    if Fits(s, account, limit) then s
    else s.(semaphores := s.semaphores + [Semaphore(limit, limit)],
            installed := s.installed[account := (limit, |s.semaphores|)])
  }

  function Next(s: Gates, step: Step): Gates
    requires Enabled(s, step)
  {
    match step
    case Hold(t, account, limit) =>
      if limit <= 0 then
        s.(inflight := s.inflight[account := Get(s.inflight, account) + 1],
           turns := s.turns[t := Running(account, None)])
      else
        var n := WithGate(s, account, limit);
        n.(waiting := n.waiting[account := Get(n.waiting, account) + 1],
           turns := n.turns[t := Queued(account, Some(n.installed[account].1))])
    case Acquire(t) =>
      var account, g := s.turns[t].account, s.turns[t].gate.value;
      s.(semaphores := s.semaphores[g := s.semaphores[g].(value := s.semaphores[g].value - 1)],
         waiting := s.waiting[account := Get(s.waiting, account) - 1],
         inflight := s.inflight[account := Get(s.inflight, account) + 1],
         turns := s.turns[t := Running(account, Some(g))])
    case Cancel(t) =>
      var account := s.turns[t].account;
      s.(waiting := s.waiting[account := Get(s.waiting, account) - 1], turns := s.turns - {t})
    case Leave(t) =>
      var account, gate := s.turns[t].account, s.turns[t].gate;
      s.(semaphores := if gate.None? then s.semaphores
                       else s.semaphores[gate.value := s.semaphores[gate.value].(value := s.semaphores[gate.value].value + 1)],
         inflight := s.inflight[account := Get(s.inflight, account) - 1],
         turns := s.turns - {t})
  }

  // ------------------------------------------------------------ counting

  function Which(turns: map<nat, Turn>, p: Turn -> bool): set<nat> {
    set t | t in turns && p(turns[t])
  }

  function Count(turns: map<nat, Turn>, p: Turn -> bool): nat {
    |Which(turns, p)|
  }

  function RunningOf(account: string): Turn -> bool {
    (x: Turn) => x.Running? && x.account == account
  }

  function QueuedOf(account: string): Turn -> bool {
    (x: Turn) => x.Queued? && x.account == account
  }

  function HolderOf(gate: nat): Turn -> bool {
    (x: Turn) => x.Running? && x.gate == Some(gate)
  }

  function One(b: bool): nat {
    if b then 1 else 0
  }

  lemma CountWithout(turns: map<nat, Turn>, t: nat, p: Turn -> bool)
    ensures Count(turns, p) == Count(turns - {t}, p) + One(t in turns && p(turns[t]))
  {
    assert Which(turns - {t}, p) == Which(turns, p) - {t};
  }

  lemma CountSet(turns: map<nat, Turn>, t: nat, v: Turn, p: Turn -> bool)
    ensures Count(turns[t := v], p) == Count(turns, p) - One(t in turns && p(turns[t])) + One(p(v))
  {
    CountWithout(turns, t, p);
    CountWithout(turns[t := v], t, p);
    assert turns[t := v] - {t} == turns - {t};
  }

  lemma CountNone(turns: map<nat, Turn>, p: Turn -> bool)
    requires forall t :: t in turns ==> !p(turns[t])
    ensures Count(turns, p) == 0
  {
    assert Which(turns, p) == {};
  }

  lemma CountLess(turns: map<nat, Turn>, p: Turn -> bool, q: Turn -> bool)
    requires forall t :: t in turns && p(turns[t]) ==> q(turns[t])
    ensures Count(turns, p) <= Count(turns, q)
  {
    assert Which(turns, q) == Which(turns, p) + (Which(turns, q) - Which(turns, p));
  }

  // ------------------------------------------------------------ every run

  ghost predicate Counted(s: Gates) {
    forall a :: Get(s.inflight, a) == Count(s.turns, RunningOf(a)) && Get(s.waiting, a) == Count(s.turns, QueuedOf(a))
  }

  ghost predicate SlotsAddUp(s: Gates) {
    forall g :: 0 <= g < |s.semaphores| ==>
      && s.semaphores[g].limit > 0 && s.semaphores[g].value >= 0
      && s.semaphores[g].value + Count(s.turns, HolderOf(g)) == s.semaphores[g].limit
  }

  // Each account has one installed gate, its own, built for the installed limit.
  ghost predicate GatesInstalled(s: Gates) {
    && (forall a :: a in s.installed ==>
         s.installed[a].1 < |s.semaphores| && s.semaphores[s.installed[a].1].limit == s.installed[a].0)
    && (forall a, b :: a in s.installed && b in s.installed && s.installed[a].1 == s.installed[b].1 ==> a == b)
  }

  ghost predicate TurnsOnGates(s: Gates) {
    && (forall t :: t in s.turns && s.turns[t].Queued? ==> s.turns[t].gate.Some?)
    && (forall t :: t in s.turns && s.turns[t].gate.Some? ==> s.turns[t].gate.value < |s.semaphores|)
  }

  ghost predicate GatesPrivate(s: Gates) {
    forall t, a :: t in s.turns && a in s.installed && s.turns[t].gate == Some(s.installed[a].1) ==> s.turns[t].account == a
  }

  ghost predicate GatesKnown(s: Gates) {
    GatesInstalled(s) && TurnsOnGates(s) && GatesPrivate(s)
  }

  ghost predicate Inv(s: Gates) {
    Counted(s) && SlotsAddUp(s) && GatesKnown(s)
  }

  lemma CountedKept(s: Gates, step: Step)
    requires Enabled(s, step) && Counted(s)
    ensures Counted(Next(s, step))
  {
    var n := Next(s, step);
    forall a
      ensures Get(n.inflight, a) == Count(n.turns, RunningOf(a)) && Get(n.waiting, a) == Count(n.turns, QueuedOf(a))
    {
      CountShift(s, step, RunningOf(a));
      CountShift(s, step, QueuedOf(a));
    }
  }

  // How one step moves any count of turns.
  lemma CountShift(s: Gates, step: Step, p: Turn -> bool)
    requires Enabled(s, step)
    ensures var n := Next(s, step);
      Count(n.turns, p) == Count(s.turns, p) - One(step.turn in s.turns && p(s.turns[step.turn]))
                           + One(step.turn in n.turns && p(n.turns[step.turn]))
  {
    var n := Next(s, step);
    if step.turn in n.turns {
      assert n.turns == s.turns[step.turn := n.turns[step.turn]];
      CountSet(s.turns, step.turn, n.turns[step.turn], p);
    } else {
      CountWithout(s.turns, step.turn, p);
    }
  }

  lemma SlotsKept(s: Gates, step: Step)
    requires Enabled(s, step) && SlotsAddUp(s) && GatesKnown(s)
    ensures SlotsAddUp(Next(s, step))
  {
    var n := Next(s, step);
    forall g | 0 <= g < |n.semaphores|
      ensures n.semaphores[g].limit > 0 && n.semaphores[g].value >= 0
      ensures n.semaphores[g].value + Count(n.turns, HolderOf(g)) == n.semaphores[g].limit
    {
      CountShift(s, step, HolderOf(g));
      if g == |s.semaphores| {
        CountNone(s.turns, HolderOf(g));
      }
    }
  }

  lemma WithGateKnown(s: Gates, account: string, limit: int)
    requires GatesKnown(s)
    ensures GatesKnown(WithGate(s, account, limit))
  {
  }

  lemma QueuedKnown(w: Gates, n: Gates, t: nat, account: string)
    requires GatesKnown(w) && account in w.installed
    requires n.installed == w.installed && n.semaphores == w.semaphores
    requires n.turns == w.turns[t := Queued(account, Some(w.installed[account].1))]
    ensures GatesKnown(n)
  {
    assert GatesInstalled(n);
    assert TurnsOnGates(n);
  }

  lemma FewerKnown(s: Gates, n: Gates, t: nat)
    requires GatesKnown(s) && n.installed == s.installed && |n.semaphores| == |s.semaphores|
    requires forall g :: 0 <= g < |s.semaphores| ==> n.semaphores[g].limit == s.semaphores[g].limit
    requires forall u :: u in n.turns && u != t ==> u in s.turns && n.turns[u] == s.turns[u]
    requires t in n.turns ==> n.turns[t].Running?
                              && (|| n.turns[t].gate.None?
                                  || (t in s.turns && n.turns[t].gate == s.turns[t].gate
                                      && n.turns[t].account == s.turns[t].account))
    ensures GatesKnown(n)
  {
    assert GatesInstalled(n);
    assert TurnsOnGates(n);
  }

  lemma GatesStayKnown(s: Gates, step: Step)
    requires Enabled(s, step) && GatesKnown(s)
    ensures GatesKnown(Next(s, step))
  {
    var n := Next(s, step);
    if step.Hold? && step.limit > 0 {
      WithGateKnown(s, step.account, step.limit);
      var w := WithGate(s, step.account, step.limit);
      QueuedKnown(w, n, step.turn, step.account);
    } else {
      FewerKnown(s, n, step.turn);
    }
  }

  ghost predicate IsRun(s: Gates, steps: seq<Step>)
    decreases |steps|
  {
    steps == [] || (Enabled(s, steps[0]) && IsRun(Next(s, steps[0]), steps[1..]))
  }

  ghost function After(s: Gates, steps: seq<Step>): Gates
    requires IsRun(s, steps)
    decreases |steps|
  {
    if steps == [] then s else After(Next(s, steps[0]), steps[1..])
  }

  // The counters and slots are right after any interleaving of entering,
  // queueing, cancelling, failing and leaving.
  lemma {:induction false} CountersAlwaysRight(s: Gates, steps: seq<Step>)
    requires Inv(s) && IsRun(s, steps)
    ensures Inv(After(s, steps))
    decreases |steps|
  {
    if steps != [] {
      CountedKept(s, steps[0]);
      SlotsKept(s, steps[0]);
      GatesStayKnown(s, steps[0]);
      CountersAlwaysRight(Next(s, steps[0]), steps[1..]);
    }
  }

  lemma StartIsRight()
    ensures Inv(EMPTY)
  {
    forall a ensures Count(EMPTY.turns, RunningOf(a)) == 0 && Count(EMPTY.turns, QueuedOf(a)) == 0 {
      CountNone(EMPTY.turns, RunningOf(a));
      CountNone(EMPTY.turns, QueuedOf(a));
    }
  }

  // When every turn has ended nothing is counted and every slot is free again.
  lemma NothingLeaks(steps: seq<Step>, account: string)
    requires IsRun(EMPTY, steps) && After(EMPTY, steps).turns == map[]
    ensures var s := After(EMPTY, steps);
      && Get(s.inflight, account) == 0 && Get(s.waiting, account) == 0
      && (forall g :: 0 <= g < |s.semaphores| ==> s.semaphores[g].value == s.semaphores[g].limit)
  {
    StartIsRight();
    CountersAlwaysRight(EMPTY, steps);
    var s := After(EMPTY, steps);
    CountNone(s.turns, RunningOf(account));
    CountNone(s.turns, QueuedOf(account));
    forall g | 0 <= g < |s.semaphores| ensures Count(s.turns, HolderOf(g)) == 0 {
      CountNone(s.turns, HolderOf(g));
    }
  }

  // A queued turn always has a slot to take or a running turn to wait for.
  lemma NobodyWaitsForNothing(steps: seq<Step>, t: nat)
    requires IsRun(EMPTY, steps)
    requires t in After(EMPTY, steps).turns && After(EMPTY, steps).turns[t].Queued?
    ensures var s := After(EMPTY, steps);
      Enabled(s, Acquire(t)) || exists u :: u in s.turns && s.turns[u].gate == s.turns[t].gate && Enabled(s, Leave(u))
  {
    StartIsRight();
    CountersAlwaysRight(EMPTY, steps);
    var s := After(EMPTY, steps);
    var g := s.turns[t].gate.value;
    if s.semaphores[g].value == 0 {
      assert Count(s.turns, HolderOf(g)) > 0;
      var u :| u in Which(s.turns, HolderOf(g));
      assert Enabled(s, Leave(u));
    }
  }

  // ------------------------------------------------------------ the ceiling

  ghost predicate SteadyLimit(steps: seq<Step>, account: string, limit: int) {
    forall i :: 0 <= i < |steps| && steps[i].Hold? && steps[i].account == account ==> steps[i].limit == limit
  }

  ghost predicate OneGate(s: Gates, account: string, limit: int) {
    && (account in s.installed ==> s.installed[account].0 == limit)
    && (forall t :: t in s.turns && s.turns[t].account == account ==>
         account in s.installed && s.turns[t].gate == Some(s.installed[account].1))
  }

  lemma {:induction false} OneGateKept(s: Gates, steps: seq<Step>, account: string, limit: int)
    requires limit > 0 && SteadyLimit(steps, account, limit)
    requires IsRun(s, steps) && OneGate(s, account, limit)
    ensures OneGate(After(s, steps), account, limit)
    decreases |steps|
  {
    if steps != [] {
      assert OneGate(Next(s, steps[0]), account, limit);
      assert forall i :: 0 <= i < |steps[1..]| ==> steps[1..][i] == steps[i + 1];
      OneGateKept(Next(s, steps[0]), steps[1..], account, limit);
    }
  }

  // With an unchanged positive limit no more than that many turns run.
  lemma NeverAboveASteadyLimit(steps: seq<Step>, account: string, limit: int)
    requires limit > 0 && SteadyLimit(steps, account, limit) && IsRun(EMPTY, steps)
    ensures Get(After(EMPTY, steps).inflight, account) <= limit
  {
    StartIsRight();
    CountersAlwaysRight(EMPTY, steps);
    OneGateKept(EMPTY, steps, account, limit);
    var s := After(EMPTY, steps);
    if account in s.installed {
      CountLess(s.turns, RunningOf(account), HolderOf(s.installed[account].1));
    } else {
      CountNone(s.turns, RunningOf(account));
    }
  }

  // Turns of the account that hold no slot of the installed gate: unlimited
  // ones, and those still on a gate that a new limit has replaced.
  function StrayOf(account: string, gate: nat): Turn -> bool {
    (x: Turn) => x.Running? && x.account == account && x.gate != Some(gate)
  }

  // In general the account is above its installed limit exactly when more turns
  // are running outside the installed gate than that gate has free slots.
  lemma AboveTheLimitExactly(steps: seq<Step>, account: string)
    requires IsRun(EMPTY, steps) && account in After(EMPTY, steps).installed
    ensures var s := After(EMPTY, steps);
      var (limit, gate) := s.installed[account];
      && gate < |s.semaphores|
      && (Get(s.inflight, account) > limit <==> Count(s.turns, StrayOf(account, gate)) > s.semaphores[gate].value)
  {
    StartIsRight();
    CountersAlwaysRight(EMPTY, steps);
    var s := After(EMPTY, steps);
    RunningSplit(s.turns, account, s.installed[account].1);
  }

  lemma RunningSplit(turns: map<nat, Turn>, account: string, gate: nat)
    requires forall t :: t in turns && turns[t].gate == Some(gate) ==> turns[t].account == account
    ensures Count(turns, RunningOf(account)) == Count(turns, StrayOf(account, gate)) + Count(turns, HolderOf(gate))
  {
    var stray, holders := Which(turns, StrayOf(account, gate)), Which(turns, HolderOf(gate));
    assert Which(turns, RunningOf(account)) == stray + holders;
    assert stray !! holders;
  }

  lemma RunOf(s: Gates, steps: seq<Step>)
    requires steps != [] && Enabled(s, steps[0]) && IsRun(Next(s, steps[0]), steps[1..])
    ensures IsRun(s, steps) && After(s, steps) == After(Next(s, steps[0]), steps[1..])
  {
  }

  // Whether the account is above its installed limit.
  predicate Above(s: Gates, account: string) {
    account in s.installed && Get(s.inflight, account) > s.installed[account].0
  }

  // What takes an account above its limit, told before the step: a new limit
  // below the turns now running, or one more turn, queued or unlimited, while as
  // many are running as the installed limit allows.
  predicate Crosses(s: Gates, step: Step, account: string) {
    match step
    case Hold(_, of, limit) =>
      && of == account
      && if limit > 0 then Get(s.inflight, account) > limit
         else account in s.installed && Get(s.inflight, account) >= s.installed[account].0
    case Acquire(t) =>
      && t in s.turns && s.turns[t].account == account
      && account in s.installed && Get(s.inflight, account) >= s.installed[account].0
    case _ => false
  }

  lemma AboveAfterStep(s: Gates, step: Step, account: string)
    requires Enabled(s, step) && GatesKnown(s) && !Above(s, account)
    ensures Above(Next(s, step), account) <==> Crosses(s, step, account)
  {
  }

  ghost predicate EverAbove(s: Gates, steps: seq<Step>, account: string)
    requires IsRun(s, steps)
    decreases |steps|
  {
    Above(s, account) || (steps != [] && EverAbove(Next(s, steps[0]), steps[1..], account))
  }

  ghost predicate EverCrosses(s: Gates, steps: seq<Step>, account: string)
    requires IsRun(s, steps)
    decreases |steps|
  {
    steps != [] && (Crosses(s, steps[0], account) || EverCrosses(Next(s, steps[0]), steps[1..], account))
  }

  lemma {:induction false} AboveIfCrossed(s: Gates, steps: seq<Step>, account: string)
    requires IsRun(s, steps) && GatesKnown(s) && !Above(s, account)
    ensures EverAbove(s, steps, account) <==> EverCrosses(s, steps, account)
    decreases |steps|
  {
    if steps != [] {
      AboveAfterStep(s, steps[0], account);
      GatesStayKnown(s, steps[0]);
      if !Crosses(s, steps[0], account) {
        AboveIfCrossed(Next(s, steps[0]), steps[1..], account);
      }
    }
  }

  // Over a whole run an account is ever above its limit exactly if some step
  // crosses it.
  lemma AboveOnlyByCrossing(steps: seq<Step>, account: string)
    requires IsRun(EMPTY, steps)
    ensures EverAbove(EMPTY, steps, account) <==> EverCrosses(EMPTY, steps, account)
  {
    AboveIfCrossed(EMPTY, steps, account);
  }

  // A start on the installed gate can only cross while some turn runs outside it.
  lemma StartCrossesBesideStrays(steps: seq<Step>, t: nat, account: string)
    requires IsRun(EMPTY, steps) && Enabled(After(EMPTY, steps), Acquire(t)) && account in After(EMPTY, steps).installed
    requires After(EMPTY, steps).turns[t].gate == Some(After(EMPTY, steps).installed[account].1)
    requires Crosses(After(EMPTY, steps), Acquire(t), account)
    ensures Count(After(EMPTY, steps).turns, StrayOf(account, After(EMPTY, steps).installed[account].1)) > 0
  {
    StartIsRight();
    CountersAlwaysRight(EMPTY, steps);
    RunningSplit(After(EMPTY, steps).turns, account, After(EMPTY, steps).installed[account].1);
  }

  // Lowering the limit while a turn runs lets the account exceed the new limit.
  lemma ALoweredLimitCanBeExceeded()
    ensures exists steps :: IsRun(EMPTY, steps) && "a" in After(EMPTY, steps).installed
                            && Get(After(EMPTY, steps).inflight, "a") > After(EMPTY, steps).installed["a"].0
  {
    var steps := [Hold(0, "a", 2), Acquire(0), Hold(1, "a", 1), Acquire(1)];
    var s1 := Next(EMPTY, steps[0]);
    var s2 := Next(s1, steps[1]);
    var s3 := Next(s2, steps[2]);
    var s4 := Next(s3, steps[3]);
    RunOf(s3, [steps[3]]);
    RunOf(s2, [steps[2], steps[3]]);
    RunOf(s1, [steps[1], steps[2], steps[3]]);
    RunOf(EMPTY, steps);
    assert s4.inflight["a"] == 2 && s4.installed["a"].0 == 1;
  }

  // ------------------------------------------------------------ stats

  datatype Busy = Busy(inflight: int, waiting: int)

  function Stats(s: Gates): map<string, Busy> {
    map a | a in s.inflight && (s.inflight[a] != 0 || Get(s.waiting, a) != 0) :: Busy(s.inflight[a], Get(s.waiting, a))
  }

  ghost predicate EverRan(s: Gates) {
    forall t :: t in s.turns && s.turns[t].Running? ==> s.turns[t].account in s.inflight
  }

  lemma {:induction false} EverRanKept(s: Gates, steps: seq<Step>)
    requires IsRun(s, steps) && EverRan(s)
    ensures EverRan(After(s, steps))
    decreases |steps|
  {
    if steps != [] {
      assert EverRan(Next(s, steps[0]));
      EverRanKept(Next(s, steps[0]), steps[1..]);
    }
  }

  // The report shows the true numbers of turns, only of busy accounts, and
  // misses none that has a running turn.
  lemma StatsAreTrue(steps: seq<Step>, account: string)
    requires IsRun(EMPTY, steps)
    ensures var s := After(EMPTY, steps);
      var running, queued := Count(s.turns, RunningOf(account)), Count(s.turns, QueuedOf(account));
      && (account in Stats(s) ==> Stats(s)[account] == Busy(running, queued) && running + queued > 0)
      && (running > 0 ==> account in Stats(s))
  {
    StartIsRight();
    CountersAlwaysRight(EMPTY, steps);
    EverRanKept(EMPTY, steps);
  }

  // ------------------------------------------------------------ the object

  class AccountConcurrency {
    var installed: map<string, (int, nat)>
    var semaphores: seq<Semaphore>
    var inflight: map<string, int>
    var waiting: map<string, int>
    ghost var turns: map<nat, Turn>

    ghost function View(): Gates
      reads this
    {
      Gates(installed, semaphores, inflight, waiting, turns)
    }

    constructor ()
      ensures View() == EMPTY
    {
      installed, semaphores, inflight, waiting := map[], [], map[], map[];
      turns := map[];
    }

    method Gate(account: string, limit: int) returns (gate: nat)
      requires limit > 0
      modifies this`installed, this`semaphores
      ensures View() == WithGate(old(View()), account, limit)
      ensures account in installed && gate == installed[account].1
    {
      if account !in installed || installed[account].0 != limit {
        installed := installed[account := (limit, |semaphores|)];
        semaphores := semaphores + [Semaphore(limit, limit)];
      }
      gate := installed[account].1;
    }

    // Entering `hold`, up to the wait for a slot or into the body.
    method Enter(ghost t: nat, account: string, limit: int) returns (gate: Option<nat>)
      requires Enabled(View(), Hold(t, account, limit))
      modifies this
      ensures View() == Next(old(View()), Hold(t, account, limit))
      ensures gate == turns[t].gate
    {
      if limit > 0 {
        var g := Gate(account, limit);
        gate := Some(g);
        waiting := waiting[account := Get(waiting, account) + 1];
        turns := turns[t := Queued(account, gate)];
      } else {
        gate := None;
        inflight := inflight[account := Get(inflight, account) + 1];
        turns := turns[t := Running(account, gate)];
      }
    }

    // The wait ends with a slot, and the body starts.
    method Start(ghost t: nat, account: string, gate: nat)
      requires Enabled(View(), Acquire(t)) && turns[t] == Queued(account, Some(gate))
      modifies this
      ensures View() == Next(old(View()), Acquire(t))
    {
      semaphores := semaphores[gate := semaphores[gate].(value := semaphores[gate].value - 1)];
      waiting := waiting[account := Get(waiting, account) - 1];
      inflight := inflight[account := Get(inflight, account) + 1];
      turns := turns[t := Running(account, Some(gate))];
    }

    // The wait is cancelled: no slot was taken.
    method GiveUp(ghost t: nat, account: string)
      requires Enabled(View(), Cancel(t)) && turns[t].account == account
      modifies this
      ensures View() == Next(old(View()), Cancel(t))
    {
      waiting := waiting[account := Get(waiting, account) - 1];
      turns := turns - {t};
    }

    // The body ends, in whatever way.
    method Exit(ghost t: nat, account: string, gate: Option<nat>)
      requires Enabled(View(), Leave(t)) && turns[t] == Running(account, gate)
      modifies this
      ensures View() == Next(old(View()), Leave(t))
    {
      inflight := inflight[account := Get(inflight, account) - 1];
      if gate.Some? {
        semaphores := semaphores[gate.value := semaphores[gate.value].(value := semaphores[gate.value].value + 1)];
      }
      turns := turns - {t};
    }

    method Report() returns (busy: map<string, Busy>)
      ensures busy == Stats(View())
    {
      busy := map a | a in inflight && (inflight[a] != 0 || Get(waiting, a) != 0) :: Busy(inflight[a], Get(waiting, a));
    }
  }
}
