/** Executing one plan: level by level, each step retried a bounded number of times, stopping at
    the first step that exhausts its retries. */
module PlanExecution {
  import opened Prelude
  import opened PlanModel
  import opened PlanLevels
  import opened PlanFilter
  import opened PlanCascade

  /** One assignment to a step's status. */
  datatype Change = Change(step: nat, to: Status)

  /** One completed attempt at a step, in the given round of execution. */
  datatype Attempt = Attempt(round: nat, step: nat, id: string, ok: bool)

  /** The outside world: permission guard, tool sandbox and abort signal, which may depend on what
      happened before. */
  datatype World = World(
    wired: bool,
    guard: (seq<Attempt>, PlanStep) -> Option<string>,
    sandbox: (seq<Attempt>, PlanStep) -> (bool, string),
    aborted: int -> bool)

  /** What one attempt at a step observes. The tool is called only if there is one, everything is wired
      and the guard allows it. */
  function Observed(world: World, history: seq<Attempt>, step: PlanStep): Observation {
    match step.tool
    case None => NoToolAssigned
    case Some("") => NoToolAssigned
    case Some(_) =>
      if !world.wired then NotWired
      else
        match world.guard(history, step)
        case Some(reason) => Denied(reason)
        case None =>
          var (success, payload) := world.sandbox(history, step);
          ToolResult(success, payload)
  }

  predicate IsGood(seen: Observation) {
    seen.NoToolAssigned? || (seen.ToolResult? && seen.success)
  }

  datatype Outcome = AllSettled | Partial | Aborted | ReplanNeeded(failed: nat, attempts: nat)

  /** The abort signal is down at these polls, the last one excluded. */
  ghost predicate NoSignal(world: World, from: nat, to: nat) {
    forall k: nat | from <= k < to :: !world.aborted(k)
  }

  /** Statuses after a log of changes. */
  ghost function Replay(initial: seq<Status>, log: seq<Change>): (r: seq<Status>)
    requires forall k | 0 <= k < |log| :: log[k].step < |initial|
    ensures |r| == |initial|
  {
    if log == [] then initial
    else
      var last := log[|log| - 1];
      Replay(initial, log[..|log| - 1])[last.step := last.to]
  }

  /** Whenever a step was set running, all its dependencies had succeeded at that time. */
  ghost predicate RunSafe(plan: Plan, initial: seq<Status>, log: seq<Change>)
    requires |initial| == |plan| && forall k | 0 <= k < |log| :: log[k].step < |initial|
  {
    forall k | 0 <= k < |log| && log[k].to == Running ::
      Met(plan, Replay(initial, log[..k]), log[k].step)
  }

  lemma {:induction false} RunSafeAppend(plan: Plan, initial: seq<Status>, log: seq<Change>, c: Change)
    requires |initial| == |plan| && (forall k | 0 <= k < |log| :: log[k].step < |initial|) && c.step < |initial|
    requires RunSafe(plan, initial, log) && (c.to == Running ==> Met(plan, Replay(initial, log), c.step))
    ensures RunSafe(plan, initial, log + [c])
  {
    forall k | 0 <= k < |log + [c]| && (log + [c])[k].to == Running
      ensures Met(plan, Replay(initial, (log + [c])[..k]), (log + [c])[k].step)
    {
      assert (log + [c])[..k] == log[..k];
      assert log[..|log|] == log;
    }
  }

  /** How the attempts at step `i` went, in order. */
  function Trace(history: seq<Attempt>, i: nat): seq<bool> {
    if history == [] then []
    else
      var last := history[|history| - 1];
      Trace(history[..|history| - 1], i) + if last.step == i then [last.ok] else []
  }

  lemma {:induction false} TraceAppend(history: seq<Attempt>, a: Attempt, i: nat)
    ensures Trace(history + [a], i) == Trace(history, i) + if a.step == i then [a.ok] else []
  {
    assert (history + [a])[..|history|] == history;
  }

  /** `n` failures in a row. */
  function Failures(n: nat): (r: seq<bool>)
    ensures |r| == n && forall k | 0 <= k < n :: !r[k]
  {
    seq(n, _ => false)
  }

  /** `after` has one attempt more than `before`. */
  ghost predicate OneMore(before: seq<Attempt>, after: seq<Attempt>, a: Attempt) {
    && after == before + [a]
    && forall j: nat {:trigger Trace(after, j)} ::
         Trace(after, j) == Trace(before, j) + if j == a.step then [a.ok] else []
  }

  lemma {:induction false} OneMoreHolds(before: seq<Attempt>, a: Attempt)
    ensures OneMore(before, before + [a], a)
  {
    forall j: nat
      ensures Trace(before + [a], j) == Trace(before, j) + if j == a.step then [a.ok] else []
    {
      TraceAppend(before, a, j);
    }
  }

  /** A step is not its own dependency here, so its own status does not matter. */
  lemma MetIgnoresSelf(plan: Plan, status: seq<Status>, i: nat, s: Status)
    requires i < |plan| == |status| && Met(plan, status, i)
    ensures Met(plan, status[i := s], i)
  {
    forall d | d in plan[i].dependsOn ensures DependencyMet(plan, status[i := s], i, d) {
      assert DependencyMet(plan, status, i, d);
    }
  }

  /** What settling step `i` takes: failures and then one success, or one failure more than there are
      retries; nothing is tried after a success. */
  ghost predicate SettledBy(before: seq<Attempt>, after: seq<Attempt>, i: nat, retryLimit: nat, s: Status) {
    var tried := |Trace(after, i)| - |Trace(before, i)|;
    match s
    case Success =>
      1 <= tried <= retryLimit + 1 && Trace(after, i) == Trace(before, i) + Failures(tried - 1) + [true]
    case Failed => tried == retryLimit + 1 && Trace(after, i) == Trace(before, i) + Failures(tried)
    case _ => false
  }

  ghost predicate Untouched(before: seq<Attempt>, after: seq<Attempt>, i: nat) {
    Trace(after, i) == Trace(before, i)
  }

  ghost predicate OthersUntouched(before: seq<Attempt>, after: seq<Attempt>, i: nat) {
    forall j: nat | j != i :: Untouched(before, after, j)
  }

  /** Since `start`, only step `i` has been tried. */
  ghost predicate OnlyTried(start: seq<Attempt>, after: seq<Attempt>, i: nat) {
    && start <= after && OthersUntouched(start, after, i)
    && forall a | |start| <= a < |after| :: after[a].step == i
  }

  /** One more try at a step that has failed `n` times in a row. */
  lemma {:induction false} NextTry(start: seq<Attempt>, before: seq<Attempt>, after: seq<Attempt>, n: nat,
                                   retryLimit: nat, a: Attempt)
    requires OnlyTried(start, before, a.step) && OneMore(before, after, a) && n <= retryLimit
    requires Trace(before, a.step) == Trace(start, a.step) + Failures(n)
    ensures OnlyTried(start, after, a.step)
    ensures if a.ok then SettledBy(start, after, a.step, retryLimit, Success)
            else Trace(after, a.step) == Trace(start, a.step) + Failures(n + 1)
  {
    forall j: nat | j != a.step ensures Untouched(start, after, j) {
      assert Untouched(start, before, j);
    }
    assert Failures(n) + [false] == Failures(n + 1);
  }

  /** Of the attempts since `from`, those before an attempt at the `m`-th of the steps are at steps up to
      the `m`-th. */
  ghost predicate InOrder(runnable: seq<nat>, from: nat, history: seq<Attempt>) {
    forall m: nat, b: nat | m < |runnable| && from <= b < |history| && history[b].step == runnable[m] ::
      AllWithin(runnable[..m + 1], from, history[..b])
  }

  ghost predicate AllWithin(positions: seq<nat>, from: nat, history: seq<Attempt>) {
    forall a | from <= a < |history| :: history[a].step in positions
  }

  lemma {:induction false} OrderGrows(runnable: seq<nat>, k: nat, from: nat, before: seq<Attempt>,
                                      after: seq<Attempt>)
    requires k < |runnable| && Distinct(runnable) && from <= |before| && before <= after
    requires InOrder(runnable, from, before) && AllWithin(runnable[..k], from, before)
    requires forall a | |before| <= a < |after| :: after[a].step == runnable[k]
    ensures InOrder(runnable, from, after) && AllWithin(runnable[..k + 1], from, after)
  {
    assert runnable[..k + 1] == runnable[..k] + [runnable[k]];
    forall m: nat, b: nat | m < |runnable| && from <= b < |after| && after[b].step == runnable[m]
      ensures AllWithin(runnable[..m + 1], from, after[..b])
    {
      if b < |before| {
        assert after[b] == before[b] && after[..b] == before[..b];
      } else {
        assert m == k;
      }
    }
  }

  /** What one round of execution may do to one step: nothing, skip it, or settle it. */
  ghost predicate RoundStep(before: seq<Attempt>, after: seq<Attempt>, i: nat, retryLimit: nat,
                            from: Status, to: Status)
  {
    || (to == from && Untouched(before, after, i))
    || (from == Pending && to == Skipped && Untouched(before, after, i))
    || (from == Pending && SettledBy(before, after, i, retryLimit, to))
  }

  /** In the course of a level: a step has been run to success, or not been touched. */
  ghost predicate Progressed(before: seq<Attempt>, after: seq<Attempt>, i: nat, retryLimit: nat,
                             from: Status, to: Status, ran: bool)
  {
    if ran then from == Pending && to == Success && SettledBy(before, after, i, retryLimit, Success)
    else to == from && Untouched(before, after, i)
  }

  /** A step of a concurrently executed level: not part of it, about to start an attempt after
      `made` failed ones, waiting for the attempt's result, or settled. */
  datatype Runner = Bystander | Waiting(made: nat) | InFlight(made: nat) | Finished

  predicate Active(r: Runner) {
    r.Waiting? || r.InFlight?
  }

  /** Moves a runner can still make. */
  function Fuel(r: Runner, retryLimit: nat): nat {
    match r
    case Waiting(made) => if made <= retryLimit then 2 * (retryLimit + 1 - made) else 0
    case InFlight(made) => if made <= retryLimit then 2 * (retryLimit + 1 - made) - 1 else 0
    case _ => 0
  }

  function TotalFuel(runners: seq<Runner>, retryLimit: nat): nat {
    if runners == [] then 0 else Fuel(runners[0], retryLimit) + TotalFuel(runners[1..], retryLimit)
  }

  /** Exactly the steps to be run have a runner. */
  ghost predicate Manned(runners: seq<Runner>, runnable: seq<nat>) {
    forall i: nat | i < |runners| :: runners[i].Bystander? <==> i !in runnable
  }

  lemma {:induction false} StillManned(runners: seq<Runner>, runnable: seq<nat>, i: nat, next: Runner)
    requires Manned(runners, runnable) && i < |runners| && Active(runners[i]) && !next.Bystander?
    ensures Manned(runners[i := next], runnable)
  {
    assert !runners[i].Bystander?;
  }

  lemma {:induction false} FuelUpdate(runners: seq<Runner>, i: nat, r: Runner, retryLimit: nat)
    requires i < |runners|
    ensures TotalFuel(runners[i := r], retryLimit)
         == TotalFuel(runners, retryLimit) - Fuel(runners[i], retryLimit) + Fuel(r, retryLimit)
  {
    if i == 0 {
      assert runners[i := r][1..] == runners[1..];
    } else {
      assert runners[i := r][1..] == runners[1..][i - 1 := r];
      FuelUpdate(runners[1..], i - 1, r, retryLimit);
    }
  }

  /** How far a runner has come, in attempts and status. */
  ghost predicate InPlay(before: seq<Attempt>, after: seq<Attempt>, i: nat, retryLimit: nat,
                         from: Status, to: Status, r: Runner)
  {
    match r
    case Bystander => to == from && Untouched(before, after, i)
    case Finished => from == Pending && SettledBy(before, after, i, retryLimit, to)
    case _ =>
      && from == Pending && (to == Pending || to == Running)
      && r.made <= retryLimit && Trace(after, i) == Trace(before, i) + Failures(r.made)
  }

  /** One move of a runner, seen from its own step. */
  ghost predicate Moved(before: seq<Attempt>, after: seq<Attempt>, i: nat, retryLimit: nat,
                        r: Runner, next: Runner, to: Status)
    requires Active(r) && r.made <= retryLimit
  {
    match next
    case Bystander => false
    case Finished => r.InFlight? && SettledBy(before, after, i, retryLimit - r.made, to)
    case _ =>
      && (to == Pending || to == Running) && r.made <= next.made <= retryLimit
      && Trace(after, i) == Trace(before, i) + Failures(next.made - r.made)
  }

  lemma MoveKeepsInPlay(start: seq<Attempt>, before: seq<Attempt>, after: seq<Attempt>, i: nat, retryLimit: nat,
                        from: Status, was: Status, to: Status, r: Runner, next: Runner)
    requires InPlay(start, before, i, retryLimit, from, was, r) && Active(r)
    requires Moved(before, after, i, retryLimit, r, next, to)
    ensures InPlay(start, after, i, retryLimit, from, to, next)
  {
    var was := Trace(start, i);
    if next.Finished? {
      var tried := |Trace(after, i)| - |was|;
      if to == Success {
        assert Trace(after, i) == was + Failures(tried - 1) + [true];
      } else {
        assert Trace(after, i) == was + Failures(tried);
      }
    } else {
      assert Trace(after, i) == was + Failures(next.made);
    }
  }

  lemma RestKeepsInPlay(start: seq<Attempt>, before: seq<Attempt>, after: seq<Attempt>, i: nat, retryLimit: nat,
                        from: Status, to: Status, r: Runner)
    requires InPlay(start, before, i, retryLimit, from, to, r) && Untouched(before, after, i)
    ensures InPlay(start, after, i, retryLimit, from, to, r)
  {
  }

  /** Statuses that agree on all succeeded steps leave met steps met. */
  lemma MetMonotone(plan: Plan, before: seq<Status>, after: seq<Status>, i: nat)
    requires i < |plan| == |before| == |after| && Met(plan, before, i)
    requires forall j | 0 <= j < |plan| && before[j] == Success :: after[j] == Success
    ensures Met(plan, after, i)
  {
    forall d | d in plan[i].dependsOn ensures DependencyMet(plan, after, i, d) {
      assert DependencyMet(plan, before, i, d);
    }
  }

  /** In the course of a round: the levels done hold only successes and skips. */
  ghost predicate AtLevel(before: seq<Attempt>, after: seq<Attempt>, i: nat, retryLimit: nat,
                          from: Status, to: Status, done: bool)
  {
    if done then RoundStep(before, after, i, retryLimit, from, to) && (to == Success || to == Skipped)
    else to == from && Untouched(before, after, i)
  }

  /** Filter and run composed, seen from one step. */
  lemma PositionAfterLevel(plan: Plan, start: seq<Attempt>, before: seq<Attempt>, after: seq<Attempt>, i: nat,
                           retryLimit: nat, from: Status, arrived: seq<Status>, filtered: seq<Status>, to: Status,
                           done: bool, inLevel: bool, runs: bool)
    requires i < |plan| == |arrived| == |filtered| && (from == Pending || from == Success)
    requires AtLevel(start, before, i, retryLimit, from, arrived[i], done) && !(done && inLevel)
    requires Filtered(plan, arrived, filtered, i, inLevel, runs)
    requires if runs then RoundStep(before, after, i, retryLimit, filtered[i], to) && to != Skipped
             else to == filtered[i] && Untouched(before, after, i)
    ensures RoundStep(start, after, i, retryLimit, from, to)
    ensures (runs ==> to == Success) ==> AtLevel(start, after, i, retryLimit, from, to, done || inLevel)
  {
  }

  class ActivePlan {
    const steps: Plan
    const round: nat
    var status: seq<Status>
    var observation: seq<Option<Observation>>
    /** All attempts of the run, those at earlier plans included. */
    var history: seq<Attempt>
    /** How often the abort signal has been polled. */
    var checks: nat
    ghost const initial: seq<Status>
    ghost const base: nat
    ghost var log: seq<Change>

    ghost predicate Valid()
      reads this
    {
      && |status| == |steps| == |observation| == |initial|
      && (forall k | 0 <= k < |log| :: log[k].step < |initial|)
      && status == Replay(initial, log)
      && base <= |history|
      && (forall k {:trigger OwnAttempt(history[k])} | base <= k < |history| :: OwnAttempt(history[k]))
    }

    /** An attempt at a step of this plan. */
    ghost predicate OwnAttempt(a: Attempt) {
      a.round == round && a.step < |steps| && a.id == steps[a.step].id
    }

    ghost predicate Safe()
      requires Valid()
      reads this
    {
      RunSafe(steps, initial, log)
    }

    constructor (steps: Plan, round: nat, status: seq<Status>, observation: seq<Option<Observation>>,
                 history: seq<Attempt>, checks: nat)
      requires |status| == |steps| == |observation|
      ensures Valid() && Safe() && this.steps == steps && this.initial == status && this.status == status
      ensures this.observation == observation && this.history == history && this.checks == checks && log == []
      ensures this.round == round && base == |history|
    {
      this.steps, this.status, this.observation := steps, status, observation;
      this.history, this.checks := history, checks;
      this.round, this.base := round, |history|;
      this.initial, this.log := status, [];
    }

    /** Assigns a status. */
    method SetStatus(i: nat, to: Status)
      requires Valid() && i < |steps|
      modifies this`status, this`log
      ensures Valid() && status == old(status)[i := to]
      ensures old(Safe()) && (to == Running ==> Met(steps, old(status), i)) ==> Safe()
    {
      ghost var before := log;
      status := status[i := to];
      log := log + [Change(i, to)];
      assert log[..|log| - 1] == before;
      if RunSafe(steps, initial, before) && (to == Running ==> Met(steps, Replay(initial, before), i)) {
        RunSafeAppend(steps, initial, before, Change(i, to));
      }
    }

    /** One attempt. A step without a tool succeeds; an unwired or forbidden one fails. */
    method ExecuteStep(i: nat, world: World) returns (ok: bool)
      requires Valid() && i < |steps|
      modifies this`observation, this`history
      ensures Valid() && OneMore(old(history), history, Attempt(round, i, steps[i].id, ok))
      ensures observation == old(observation)[i := Some(Observed(world, old(history), steps[i]))]
      ensures ok <==> || steps[i].tool.None? || steps[i].tool.value == ""
                      || (world.wired && world.guard(old(history), steps[i]).None?
                          && world.sandbox(old(history), steps[i]).0)
      ensures var (tried, asked) := (old(history), steps[i].tool.Some? && steps[i].tool.value != "");
              && (observation[i] == Some(NoToolAssigned) <==> !asked)
              && (observation[i] == Some(NotWired) <==> asked && !world.wired)
              && (forall reason :: observation[i] == Some(Denied(reason)) <==>
                    asked && world.wired && world.guard(tried, steps[i]) == Some(reason))
              && (forall success, payload :: observation[i] == Some(ToolResult(success, payload)) <==>
                    asked && world.wired && world.guard(tried, steps[i]).None?
                    && world.sandbox(tried, steps[i]) == (success, payload))
    {
      var step := steps[i];
      var seen: Observation;
      if step.tool.None? || step.tool.value == "" {
        seen := NoToolAssigned;
      } else if !world.wired {
        seen := NotWired;
      } else {
        var denied := world.guard(history, step);
        if denied.Some? {
          seen := Denied(denied.value);
        } else {
          var (success, payload) := world.sandbox(history, step);
          seen := ToolResult(success, payload);
        }
      }
      ok := IsGood(seen);
      observation := observation[i := Some(seen)];
      OneMoreHolds(history, Attempt(round, i, step.id, ok));
      history := history + [Attempt(round, i, step.id, ok)];
    }

    /** One attempt, after `n` failed ones since `start`: the step is running while its tool is called. */
    method TryStep(i: nat, world: World, ghost start: seq<Attempt>, ghost n: nat, ghost retryLimit: nat)
      returns (ok: bool)
      requires Valid() && i < |steps| && n <= retryLimit
      requires OnlyTried(start, history, i) && Trace(history, i) == Trace(start, i) + Failures(n)
      modifies this`status, this`log, this`observation, this`history
      ensures Valid() && status == old(status)[i := Running] && OnlyTried(start, history, i)
      ensures if ok then SettledBy(start, history, i, retryLimit, Success)
              else Trace(history, i) == Trace(start, i) + Failures(n + 1)
      ensures old(Safe() && Met(steps, status, i)) ==> Safe() && Met(steps, status, i)
    {
      ghost var before := history;
      if Met(steps, status, i) {
        MetIgnoresSelf(steps, status, i, Running);
      }
      SetStatus(i, Running);
      ok := ExecuteStep(i, world);
      NextTry(start, before, history, n, retryLimit, Attempt(round, i, steps[i].id, ok));
    }

    /** Attempts a step until it succeeds or the retries are used up. */
    method RunStepWithRetries(i: nat, retryLimit: nat, world: World) returns (settled: Status)
      requires Valid() && i < |steps|
      modifies this`status, this`log, this`observation, this`history
      ensures Valid() && (settled == Success || settled == Failed) && status == old(status)[i := settled]
      ensures SettledBy(old(history), history, i, retryLimit, settled)
      ensures OnlyTried(old(history), history, i)
      ensures old(Safe() && Met(steps, status, i)) ==> Safe()
    {
      ghost var start, sound := history, Safe() && Met(steps, status, i);
      var totalAttempts := retryLimit + 1;
      var attempt := 1;
      while attempt <= totalAttempts
        invariant Valid() && status == old(status)[i := status[i]] && 1 <= attempt <= totalAttempts
        invariant OnlyTried(start, history, i) && Trace(history, i) == Trace(start, i) + Failures(attempt - 1)
        invariant sound ==> Safe() && Met(steps, status, i)
      {
        var ok := TryStep(i, world, start, attempt - 1, retryLimit);
        if ok {
          SetStatus(i, Success);
          return Success;
        }
        if attempt == totalAttempts {
          SetStatus(i, Failed);
          return Failed;
        }
        attempt := attempt + 1;
      }
      assert false;
    }

    /** Runs a level's runnable steps one after the other, in level order, and stops at the first that fails:
        those before it have succeeded, those behind it are untouched. */
    method RunLevelSequential(runnable: seq<nat>, retryLimit: nat, world: World) returns (failed: Option<nat>)
      requires Valid() && Within(steps, runnable) && Distinct(runnable)
      requires forall k | 0 <= k < |runnable| :: status[runnable[k]] == Pending
      modifies this`status, this`log, this`observation, this`history
      ensures LevelRan(runnable, retryLimit, old(status), old(history), failed)
      ensures failed.Some? ==> exists k: nat :: k < |runnable| && runnable[k] == failed.value
                                 && StoppedAt(runnable, k, old(status), old(history))
      ensures InOrder(runnable, |old(history)|, history)
      ensures old(Safe() && AllMet(runnable)) ==> Safe()
    {
      ghost var met := AllMet(runnable);
      ghost var ran: set<nat> := {};
      for k := 0 to |runnable|
        invariant Valid() && old(history) <= history
        invariant forall m | k <= m < |runnable| :: runnable[m] !in ran
        invariant forall m | 0 <= m < k :: runnable[m] in ran
        invariant forall i <- ran :: i in runnable
        invariant AllProgressed(ran, retryLimit, old(status), old(history))
        invariant InOrder(runnable, |old(history)|, history)
        invariant AllWithin(runnable[..k], |old(history)|, history)
        invariant old(Safe()) && met ==> Safe()
      {
        var i := runnable[k];
        assert i in runnable;
        ghost var before := history;
        var settled := SettleNext(i, retryLimit, world, ran, old(status), old(history));
        OrderGrows(runnable, k, |old(history)|, before, history);
        if settled == Failed {
          assert StoppedAt(runnable, k, old(status), old(history));
          return Some(i);
        }
        ran := ran + {i};
      }
      failed := None;
    }

    /** The steps before the `k`-th have succeeded, those behind it have not been touched. */
    ghost predicate StoppedAt(runnable: seq<nat>, k: nat, from: seq<Status>, start: seq<Attempt>)
      reads this
      requires Valid() && |from| == |steps| && Within(steps, runnable)
    {
      && (forall m | 0 <= m < k && m < |runnable| :: status[runnable[m]] == Success)
      && (forall m | k < m < |runnable| ::
            status[runnable[m]] == from[runnable[m]] && Untouched(start, history, runnable[m]))
    }

    ghost predicate AllProgressed(ran: set<nat>, retryLimit: nat, from: seq<Status>, start: seq<Attempt>)
      reads this
      requires |from| == |steps| == |status|
    {
      forall i: nat | i < |steps| :: Progressed(start, history, i, retryLimit, from[i], status[i], i in ran)
    }

    /** One step of a sequential level, after the steps in `ran` have succeeded. */
    method SettleNext(i: nat, retryLimit: nat, world: World,
                      ghost ran: set<nat>, ghost from: seq<Status>, ghost start: seq<Attempt>)
      returns (settled: Status)
      requires Valid() && i < |steps| == |from| && start <= history && i !in ran && from[i] == Pending
      requires AllProgressed(ran, retryLimit, from, start)
      modifies this`status, this`log, this`observation, this`history
      ensures Valid() && start <= history && old(history) <= history && (settled == Success || settled == Failed)
      ensures forall a | |old(history)| <= a < |history| :: history[a].step == i
      ensures settled == Success ==> AllProgressed(ran + {i}, retryLimit, from, start)
      ensures settled == Failed ==>
                && status[i] == Failed
                && forall j: nat | j < |steps| ::
                     if j == i then SettledBy(start, history, i, retryLimit, Failed)
                     else Progressed(start, history, j, retryLimit, from[j], status[j], j in ran)
      ensures old(Safe()) && Met(steps, from, i) ==> Safe()
    {
      ghost var statusBefore, before := status, history;
      if Met(steps, from, i) {
        MetMonotone(steps, from, status, i);
      }
      settled := RunStepWithRetries(i, retryLimit, world);
      forall j: nat | j < |steps|
        ensures if j == i then SettledBy(start, history, i, retryLimit, settled)
                else Progressed(start, history, j, retryLimit, from[j], status[j], j in ran)
      {
        assert Progressed(start, before, j, retryLimit, from[j], statusBefore[j], j in ran);
        assert j != i ==> Untouched(before, history, j);
      }
    }

    /** Runs a level's runnable steps concurrently. At every turn any unfinished one may move, so
        every interleaving is covered. Reports the first failed step in level order. */
    method RunLevelParallel(runnable: seq<nat>, retryLimit: nat, world: World) returns (failed: Option<nat>)
      requires Valid() && Within(steps, runnable) && Distinct(runnable)
      requires forall k | 0 <= k < |runnable| :: status[runnable[k]] == Pending
      modifies this`status, this`log, this`observation, this`history
      ensures LevelRan(runnable, retryLimit, old(status), old(history), failed)
      ensures IsFirstFailed(runnable, failed)
      ensures old(Safe() && AllMet(runnable)) ==> Safe()
    {
      ghost var met := AllMet(runnable);
      var runners := seq(|steps|, i requires 0 <= i < |steps| => if i in runnable then Waiting(0) else Bystander);
      while exists i :: 0 <= i < |runners| && Active(runners[i])
        invariant Valid() && old(history) <= history && |runners| == |steps|
        invariant Manned(runners, runnable)
        invariant AllInPlay(runners, retryLimit, old(status), old(history))
        invariant old(Safe()) && met ==> Safe()
        decreases TotalFuel(runners, retryLimit)
      {
        var i: nat :| i < |runners| && Active(runners[i]);
        var next := TakeTurn(runners, i, retryLimit, world, old(status), old(history));
        FuelUpdate(runners, i, next, retryLimit);
        StillManned(runners, runnable, i, next);
        runners := runners[i := next];
      }
      failed := FirstFailed(runnable);
      AllFinished(runners, runnable, retryLimit, old(status), old(history), failed);
    }

    ghost predicate AllInPlay(runners: seq<Runner>, retryLimit: nat, from: seq<Status>, start: seq<Attempt>)
      reads this
      requires |runners| == |from| == |steps| == |status|
    {
      forall i: nat | i < |steps| :: InPlay(start, history, i, retryLimit, from[i], status[i], runners[i])
    }

    /** Moves one runner; all the others stay where they are. */
    method TakeTurn(runners: seq<Runner>, i: nat, retryLimit: nat, world: World,
                    ghost from: seq<Status>, ghost start: seq<Attempt>)
      returns (next: Runner)
      requires Valid() && |runners| == |from| == |steps| && i < |runners| && Active(runners[i]) && start <= history
      requires AllInPlay(runners, retryLimit, from, start)
      modifies this`status, this`log, this`observation, this`history
      ensures Valid() && start <= history && !next.Bystander?
      ensures Fuel(next, retryLimit) < Fuel(runners[i], retryLimit)
      ensures AllInPlay(runners[i := next], retryLimit, from, start)
      ensures old(Safe()) && Met(steps, from, i) ==> Safe()
    {
      assert InPlay(start, history, i, retryLimit, from[i], status[i], runners[i]);
      ghost var statusBefore, before := status, history;
      if Met(steps, from, i) {
        assert forall j: nat | j < |steps| ::
          InPlay(start, history, j, retryLimit, from[j], status[j], runners[j]);
        MetMonotone(steps, from, status, i);
      }
      next := MoveRunner(i, runners[i], retryLimit, world);
      forall j: nat | j < |steps|
        ensures InPlay(start, history, j, retryLimit, from[j], status[j], runners[i := next][j])
      {
        assert InPlay(start, before, j, retryLimit, from[j], statusBefore[j], runners[j]);
        if j == i {
          MoveKeepsInPlay(start, before, history, i, retryLimit, from[i], statusBefore[i],
                          status[i], runners[i], next);
        } else {
          assert Untouched(before, history, j);
          RestKeepsInPlay(start, before, history, j, retryLimit, from[j], status[j], runners[j]);
        }
      }
    }

    /** One atomic move: an attempt starts, or its result arrives. */
    method MoveRunner(i: nat, r: Runner, retryLimit: nat, world: World) returns (next: Runner)
      requires Valid() && i < |steps| && Active(r) && r.made <= retryLimit
      requires status[i] == Pending || status[i] == Running
      modifies this`status, this`log, this`observation, this`history
      ensures Valid() && old(history) <= history && status == old(status)[i := status[i]]
      ensures forall j: nat | j != i :: Untouched(old(history), history, j)
      ensures Fuel(next, retryLimit) < Fuel(r, retryLimit)
      ensures Moved(old(history), history, i, retryLimit, r, next, status[i])
      ensures old(Safe()) && old(Met(steps, status, i)) ==> Safe()
    {
      if r.Waiting? {
        SetStatus(i, Running);
        return InFlight(r.made);
      }
      ghost var before := history;
      var ok := ExecuteStep(i, world);
      assert forall j: nat | j != i :: Untouched(before, history, j);
      if ok {
        SetStatus(i, Success);
        return Finished;
      }
      assert [false] == Failures(1);
      if r.made < retryLimit {
        return Waiting(r.made + 1);
      }
      SetStatus(i, Failed);
      return Finished;
    }

    method FirstFailed(runnable: seq<nat>) returns (failed: Option<nat>)
      requires Valid() && Within(steps, runnable)
      ensures IsFirstFailed(runnable, failed)
    {
      for k := 0 to |runnable|
        invariant forall m | 0 <= m < k :: status[runnable[m]] != Failed
      {
        if status[runnable[k]] == Failed {
          return Some(runnable[k]);
        }
      }
      failed := None;
    }

    ghost predicate AllMet(runnable: seq<nat>)
      reads this
      requires Valid() && Within(steps, runnable)
    {
      forall i: nat | i < |steps| && i in runnable :: Met(steps, status, i)
    }

    /** The first step of the level that has failed, if any. */
    ghost predicate IsFirstFailed(runnable: seq<nat>, failed: Option<nat>)
      reads this
      requires Valid() && Within(steps, runnable)
    {
      && (failed.None? ==> forall k | 0 <= k < |runnable| :: status[runnable[k]] != Failed)
      && (failed.Some? ==> exists k :: 0 <= k < |runnable| && runnable[k] == failed.value
                             && status[runnable[k]] == Failed
                             && forall m | 0 <= m < k :: status[runnable[m]] != Failed)
    }

    /** Once no runner is active, the level has been run. */
    lemma {:induction false} AllFinished(
      runners: seq<Runner>, runnable: seq<nat>, retryLimit: nat, before: seq<Status>, historyBefore: seq<Attempt>,
      failed: Option<nat>)
      requires Valid() && Within(steps, runnable) && historyBefore <= history
      requires |runners| == |steps| == |before| && forall i | 0 <= i < |runners| :: !Active(runners[i])
      requires Manned(runners, runnable) && AllInPlay(runners, retryLimit, before, historyBefore)
      requires IsFirstFailed(runnable, failed)
      ensures LevelRan(runnable, retryLimit, before, historyBefore, failed)
    {
      forall i: nat | i < |steps| && i !in runnable
        ensures status[i] == before[i] && Untouched(historyBefore, history, i)
      {
        assert InPlay(historyBefore, history, i, retryLimit, before[i], status[i], runners[i]);
      }
      forall k | 0 <= k < |runnable|
        ensures before[runnable[k]] == Pending
             && SettledBy(historyBefore, history, runnable[k], retryLimit, status[runnable[k]])
      {
        assert runnable[k] in runnable;
        assert InPlay(historyBefore, history, runnable[k], retryLimit, before[runnable[k]],
                      status[runnable[k]], runners[runnable[k]]);
      }
    }

    /** The effect of a level, in either mode. */
    ghost predicate LevelRan(runnable: seq<nat>, retryLimit: nat, before: seq<Status>,
                             historyBefore: seq<Attempt>, failed: Option<nat>)
      reads this
      requires |before| == |steps| && Within(steps, runnable)
    {
      && Valid() && historyBefore <= history
      && (forall i: nat | i < |steps| && i !in runnable ::
            status[i] == before[i] && Untouched(historyBefore, history, i))
      && (forall k | 0 <= k < |runnable| ::
            RoundStep(historyBefore, history, runnable[k], retryLimit, before[runnable[k]], status[runnable[k]])
            && !status[runnable[k]].Skipped?)
      && (failed.None? ==> forall k | 0 <= k < |runnable| :: status[runnable[k]] == Success)
      && (failed.Some? ==> failed.value < |steps| && failed.value in runnable && status[failed.value] == Failed)
    }

    /** Sets aside settled steps and skips exactly the doomed ones; the rest is runnable, in level order. */
    method Prefilter(level: seq<nat>) returns (runnable: seq<nat>)
      requires Valid() && Within(steps, level) && Distinct(level)
      requires forall k | 0 <= k < |level| :: status[level[k]] == Pending || IsSettled(status[level[k]])
      modifies this`status, this`log
      ensures Valid() && Within(steps, runnable) && Distinct(runnable)
      ensures forall k: nat | k < |level| ::
                status[level[k]] == if Doomed(steps, level, old(status), k) then Skipped else old(status)[level[k]]
      ensures forall i: nat | i < |steps| && i !in level :: status[i] == old(status)[i]
      ensures runnable == Runnable(steps, level, old(status), |level|)
      ensures forall i: nat | i < |steps| ::
                Filtered(steps, old(status), status, i, i in level, i in runnable)
      ensures forall i: nat | i < |steps| :: i in runnable ==> status[i] == Pending
      ensures old(Safe()) ==> Safe()
    {
      runnable := [];
      for k := 0 to |level|
        invariant Valid() && status == Sifted(steps, level, old(status), k)
        invariant runnable == Runnable(steps, level, old(status), k)
        invariant old(Safe()) ==> Safe()
      {
        var i := level[k];
        TestIff(steps, level, old(status), k);
        if IsSettled(status[i]) {
        } else if DepFailed(steps, status, i) {
          SetStatus(i, Skipped);
        } else {
          runnable := runnable + [i];
        }
      }
      FilterEnds(steps, level, old(status));
    }

    /** One round: executes the plan level by level. Each step is left alone, skipped, or settled
        once within its retries; the outcome says which of these happened. */
    method ExecutePlan(retryLimit: nat, parallelExecution: bool, world: World) returns (outcome: Outcome)
      requires Valid() && Safe()
      requires forall i | 0 <= i < |steps| :: status[i] == Pending || status[i] == Success
      modifies this
      ensures Valid() && old(history) <= history
      ensures forall i: nat | i < |steps| ::
                RoundStep(old(history), history, i, retryLimit, old(status)[i], status[i])
      ensures outcome != Partial
      ensures outcome.ReplanNeeded? ==>
                outcome.failed < |steps| && status[outcome.failed] == Failed && outcome.attempts == retryLimit + 1
      ensures outcome == AllSettled ==> forall i | 0 <= i < |steps| :: status[i] == Success || status[i] == Skipped
      ensures NoneSkipped(status) || SkippedExactly(steps, old(status), status)
      ensures outcome == AllSettled ==> SkippedExactly(steps, old(status), status)
      ensures old(checks) <= checks && NoSignal(world, old(checks) + 1, checks)
      ensures outcome == Aborted <==> old(checks) < checks && world.aborted(checks)
      ensures Closed(steps) ==> NoneSkipped(status)
      ensures WellFormed(steps) ==> Safe()
    {
      var levels := ComputeLevels(steps);
      ghost var at := LevelsLayout(steps);
      if WellFormed(steps) {
        forall i: nat | i < |steps| ensures DependenciesEarlier(steps, at, i) {
          LayoutOrders(steps, at, i);
        }
      }
      for k := 0 to |levels|
        invariant Valid() && old(history) <= history
        invariant forall i: nat | i < |steps| ::
                    AtLevel(old(history), history, i, retryLimit, old(status)[i], status[i], at[i] < k)
        invariant SkipsAfter(k, |levels|, old(status))
        invariant old(checks) <= checks && NoSignal(world, old(checks) + 1, checks + 1)
        invariant WellFormed(steps) ==> Safe()
      {
        checks := checks + 1;
        if world.aborted(checks) {
          return Aborted;
        }
        var failed := NextLevel(levels, k, retryLimit, parallelExecution, world, at, old(status), old(history));
        if failed.Some? {
          return ReplanNeeded(failed.value, retryLimit + 1);
        }
      }
      forall i | 0 <= i < |steps| ensures status[i] == Success || status[i] == Skipped {
        assert AtLevel(old(history), history, i, retryLimit, old(status)[i], status[i], true);
      }
      var anyFailed := exists i :: 0 <= i < |steps| && status[i] == Failed;
      outcome := if anyFailed then Partial else AllSettled;
    }

    /** Nothing is skipped before the last level; after it, exactly what was doomed. */
    ghost predicate SkipsAfter(k: nat, levels: nat, from: seq<Status>)
      reads this
      requires |from| == |steps| == |status|
    {
      && (k < levels ==> NoneSkipped(status))
      && (k == levels ==> SkippedExactly(steps, from, status))
      && (Closed(steps) ==> NoneSkipped(status))
    }

    /** One level of the plan, and what it adds to the skipped steps. */
    method NextLevel(levels: seq<seq<nat>>, k: nat, retryLimit: nat, parallelExecution: bool, world: World,
                     ghost at: seq<nat>, ghost from: seq<Status>, ghost start: seq<Attempt>)
      returns (failed: Option<nat>)
      requires Valid() && levels == Levels(steps, Positions(|steps|), {}) && k < |levels|
      requires |at| == |steps| == |from| && start <= history && Layout(steps, levels, at)
      requires forall i | 0 <= i < |steps| :: from[i] == Pending || from[i] == Success
      requires forall i: nat | i < |steps| :: AtLevel(start, history, i, retryLimit, from[i], status[i], at[i] < k)
      requires SkipsAfter(k, |levels|, from)
      requires WellFormed(steps) ==> Safe() && forall i: nat | i < |steps| :: DependenciesEarlier(steps, at, i)
      modifies this`status, this`log, this`observation, this`history
      ensures Valid() && old(history) <= history
      ensures forall i: nat | i < |steps| :: RoundStep(start, history, i, retryLimit, from[i], status[i])
      ensures failed.None? ==> forall i: nat | i < |steps| ::
                AtLevel(start, history, i, retryLimit, from[i], status[i], at[i] < k + 1)
      ensures failed.Some? ==> failed.value < |steps| && status[failed.value] == Failed
      ensures SkipsAfter(k + 1, |levels|, from)
      ensures WellFormed(steps) ==> Safe()
    {
      ghost var arrived := status;
      NothingLostYet(at, k, retryLimit, from, start);
      ArrivesAsStarted(levels[k], at, k, retryLimit, from, start);
      failed := RunLevel(levels[k], retryLimit, parallelExecution, world, at, k, from, start);
      LevelSkips(steps, from, arrived, status, k);
      if Closed(steps) && k == |levels| - 1 {
        ClosedSkipsNone(steps, from, status);
      }
    }

    /** The steps of the next level have not been touched in this round. */
    lemma {:induction false} ArrivesAsStarted(level: seq<nat>, at: seq<nat>, k: nat, retryLimit: nat,
                                              from: seq<Status>, start: seq<Attempt>)
      requires Valid() && |at| == |steps| == |from| && forall i: nat | i < |steps| :: i in level <==> at[i] == k
      requires forall i: nat | i < |steps| :: AtLevel(start, history, i, retryLimit, from[i], status[i], at[i] < k)
      ensures forall i: nat | i < |steps| && i in level :: status[i] == from[i]
    {
      forall i: nat | i < |steps| && i in level ensures status[i] == from[i] {
        assert AtLevel(start, history, i, retryLimit, from[i], status[i], at[i] < k);
      }
    }

    /** The body of the loop over levels: filter, then run what is runnable. */
    method RunLevel(level: seq<nat>, retryLimit: nat, parallelExecution: bool, world: World,
                    ghost at: seq<nat>, ghost k: nat, ghost from: seq<Status>, ghost start: seq<Attempt>)
      returns (failed: Option<nat>)
      requires Valid() && Within(steps, level) && Distinct(level) && |at| == |steps| == |from| && start <= history
      requires forall i: nat | i < |steps| :: i in level <==> at[i] == k
      requires forall i | 0 <= i < |steps| :: from[i] == Pending || from[i] == Success
      requires forall i: nat | i < |steps| ::
                 AtLevel(start, history, i, retryLimit, from[i], status[i], at[i] < k)
      requires NoneSkipped(status)
      requires WellFormed(steps) ==> Safe() && forall i: nat | i < |steps| :: DependenciesEarlier(steps, at, i)
      modifies this`status, this`log, this`observation, this`history
      ensures Valid() && old(history) <= history
      ensures forall i: nat | i < |steps| :: RoundStep(start, history, i, retryLimit, from[i], status[i])
      ensures failed.None? ==> forall i: nat | i < |steps| ::
                AtLevel(start, history, i, retryLimit, from[i], status[i], at[i] < k + 1)
      ensures failed.Some? ==> failed.value < |steps| && status[failed.value] == Failed
      ensures forall i: nat | i < |steps| :: status[i] == Skipped <==> DoomedAt(steps, level, old(status), i)
      ensures WellFormed(steps) ==> Safe()
    {
      ghost var arrived := status;
      NothingLostYet(at, k, retryLimit, from, start);
      var runnable := Prefilter(level);
      ghost var filtered, before := status, history;
      FilterSkips(steps, level, arrived, filtered);
      if WellFormed(steps) {
        forall i: nat | i < |steps| ensures !DoomedAt(steps, level, arrived, i) {
          KnownSkipsNone(steps, level, arrived, i);
        }
        RunnableMet(level, runnable, at, k, retryLimit, from, start);
      }
      failed := RunRunnable(runnable, retryLimit, parallelExecution, world);
      LevelDone(level, runnable, retryLimit, at, k, from, start, arrived, filtered, before, failed);
    }

    /** Filter and run composed, for all steps. */
    lemma {:induction false} LevelDone(
      level: seq<nat>, runnable: seq<nat>, retryLimit: nat, at: seq<nat>, k: nat, from: seq<Status>,
      start: seq<Attempt>, arrived: seq<Status>, filtered: seq<Status>, before: seq<Attempt>, failed: Option<nat>)
      requires |at| == |steps| == |from| == |arrived| == |filtered| && Within(steps, runnable)
      requires LevelRan(runnable, retryLimit, filtered, before, failed)
      requires forall i | 0 <= i < |steps| :: from[i] == Pending || from[i] == Success
      requires forall i: nat | i < |steps| :: i in level <==> at[i] == k
      requires forall i: nat | i < |steps| :: AtLevel(start, before, i, retryLimit, from[i], arrived[i], at[i] < k)
      requires forall i: nat | i < |steps| :: Filtered(steps, arrived, filtered, i, i in level, i in runnable)
      ensures forall i: nat | i < |steps| :: RoundStep(start, history, i, retryLimit, from[i], status[i])
      ensures failed.None? ==> forall i: nat | i < |steps| ::
                AtLevel(start, history, i, retryLimit, from[i], status[i], at[i] < k + 1)
      ensures forall i: nat | i < |steps| :: status[i] == Skipped <==> filtered[i] == Skipped
    {
      forall i: nat | i < |steps|
        ensures RoundStep(start, history, i, retryLimit, from[i], status[i])
        ensures failed.None? ==> AtLevel(start, history, i, retryLimit, from[i], status[i], at[i] < k + 1)
        ensures status[i] == Skipped <==> filtered[i] == Skipped
      {
        assert AtLevel(start, before, i, retryLimit, from[i], arrived[i], at[i] < k);
        assert Filtered(steps, arrived, filtered, i, i in level, i in runnable);
        RanOrNot(runnable, retryLimit, filtered, before, failed, i);
        PositionAfterLevel(steps, start, before, history, i, retryLimit, from[i], arrived, filtered, status[i],
                           at[i] < k, i in level, i in runnable);
      }
    }

    /** In parallel only if asked for and there is more than one step to run. */
    method RunRunnable(runnable: seq<nat>, retryLimit: nat, parallelExecution: bool, world: World)
      returns (failed: Option<nat>)
      requires Valid() && Within(steps, runnable) && Distinct(runnable)
      requires forall k | 0 <= k < |runnable| :: status[runnable[k]] == Pending
      modifies this`status, this`log, this`observation, this`history
      ensures LevelRan(runnable, retryLimit, old(status), old(history), failed)
      ensures old(Safe() && AllMet(runnable)) ==> Safe()
    {
      if runnable == [] {
        failed := None;
      } else if parallelExecution && |runnable| > 1 {
        failed := RunLevelParallel(runnable, retryLimit, world);
      } else {
        failed := RunLevelSequential(runnable, retryLimit, world);
      }
    }

    lemma RanOrNot(runnable: seq<nat>, retryLimit: nat, before: seq<Status>, historyBefore: seq<Attempt>,
                   failed: Option<nat>, i: nat)
      requires |before| == |steps| && Within(steps, runnable) && i < |steps|
      requires LevelRan(runnable, retryLimit, before, historyBefore, failed)
      ensures if i in runnable then RoundStep(historyBefore, history, i, retryLimit, before[i], status[i])
                                    && status[i] != Skipped && (failed.None? ==> status[i] == Success)
              else status[i] == before[i] && Untouched(historyBefore, history, i)
    {
      if i in runnable {
        var m :| 0 <= m < |runnable| && runnable[m] == i;
        assert RoundStep(historyBefore, history, runnable[m], retryLimit, before[runnable[m]], status[runnable[m]]);
      }
    }

    /** In the course of a round no step has failed. */
    lemma {:induction false} NothingLostYet(at: seq<nat>, k: nat, retryLimit: nat, from: seq<Status>,
                                            start: seq<Attempt>)
      requires Valid() && |at| == |steps| == |from|
      requires forall i | 0 <= i < |steps| :: from[i] == Pending || from[i] == Success
      requires forall i: nat | i < |steps| :: AtLevel(start, history, i, retryLimit, from[i], status[i], at[i] < k)
      requires forall i | 0 <= i < |steps| :: status[i] != Skipped
      ensures NothingLost(status)
    {
      forall j | 0 <= j < |steps| ensures !status[j].Failed? {
        assert AtLevel(start, history, j, retryLimit, from[j], status[j], at[j] < k);
      }
    }

    /** In a well-formed plan all dependencies of a level's steps have succeeded by then. */
    lemma RunnableMet(level: seq<nat>, runnable: seq<nat>, at: seq<nat>, k: nat, retryLimit: nat,
                      from: seq<Status>, start: seq<Attempt>)
      requires Valid() && Within(steps, runnable) && |at| == |steps| == |from|
      requires forall i: nat | i < |steps| :: (i in level <==> at[i] == k) && (i in runnable ==> i in level)
      requires forall i: nat | i < |steps| && at[i] < k ::
                 AtLevel(start, history, i, retryLimit, from[i], status[i], true)
      requires forall i | 0 <= i < |steps| :: status[i] != Skipped
      requires forall i: nat | i < |steps| :: DependenciesEarlier(steps, at, i)
      ensures AllMet(runnable)
    {
      forall i: nat, d | i < |steps| && i in runnable && d in steps[i].dependsOn
        ensures DependencyMet(steps, status, i, d)
      {
        assert DependenciesEarlier(steps, at, i);
        assert DependencyEarlier(steps, at, i, d);
        var j := StepById(steps, d).value;
        assert AtLevel(start, history, j, retryLimit, from[j], status[j], true);
      }
    }
  }
}
