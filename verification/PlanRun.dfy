/** A whole plan-and-execute run: plan, execute, replan a bounded number of times, then answer or
    hand over to the fallback. */
module PlanRun {
  import opened Prelude
  import opened PlanModel
  import opened PlanLevels
  import opened PlanExecution
  import opened PlanPreserve

  datatype Config = Config(retryLimit: nat, replanLimit: int, parallelExecution: bool)

  /** A planner call yields a plan or invalid output; it sees its number and what happened so far. */
  type Planner = (int, seq<Attempt>) -> Option<Plan>

  /** What the caller of a run sees: trace markers, the final event, or the fallback's whole stream,
      which brings its own final event. */
  datatype RunEvent = PlanMarker | ReplanMarker | Final(ending: Ending) | FallbackStream

  datatype Ending = UserAbort | HardError | FinalAnswer

  /** `checks` is the number of the last poll of the abort signal, the first being number 0. */
  datatype Report = Report(events: seq<RunEvent>, rounds: nat, plannerCalls: nat, history: seq<Attempt>,
                           finalStatus: seq<Status>, checks: nat)

  predicate IsFinal(e: RunEvent) {
    e.Final? || e.FallbackStream?
  }

  function Finals(events: seq<RunEvent>): nat {
    if events == [] then 0
    else Finals(events[..|events| - 1]) + if IsFinal(events[|events| - 1]) then 1 else 0
  }

  /** `e` is the one final event, and nothing follows it. */
  ghost predicate Concluded(events: seq<RunEvent>, e: RunEvent) {
    events != [] && events[|events| - 1] == e && IsFinal(e) && Finals(events) == 1
  }

  /** A marker, or two, on the way. */
  method Mark(events: seq<RunEvent>, e: RunEvent) returns (r: seq<RunEvent>)
    requires Finals(events) == 0 && !IsFinal(e)
    ensures Finals(r) == 0 && r == events + [e]
  {
    assert (events + [e])[..|events|] == events;
    r := events + [e];
  }

  method MarkReplan(events: seq<RunEvent>) returns (r: seq<RunEvent>)
    requires Finals(events) == 0
    ensures Finals(r) == 0 && r == events + [ReplanMarker] + [PlanMarker]
  {
    r := Mark(events, ReplanMarker);
    r := Mark(r, PlanMarker);
  }

  method Conclude(events: seq<RunEvent>, e: RunEvent) returns (r: seq<RunEvent>)
    requires Finals(events) == 0 && IsFinal(e)
    ensures Concluded(r, e) && r == events + [e]
  {
    assert (events + [e])[..|events|] == events;
    r := events + [e];
  }

  ghost predicate UniquePlans(planner: Planner) {
    forall n, history :: planner(n, history).Some? ==> UniqueIds(planner(n, history).value)
  }

  // ----- Attempts per round -----

  /** Attempts at steps below `n`. */
  function Count(history: seq<Attempt>, n: nat): nat {
    if n == 0 then 0
    else Count(history, n - 1) + |Trace(history, n - 1)|
  }

  lemma {:induction false} CountAppend(history: seq<Attempt>, a: Attempt, n: nat)
    ensures Count(history + [a], n) == Count(history, n) + if a.step < n then 1 else 0
  {
    if n > 0 {
      CountAppend(history, a, n - 1);
      TraceAppend(history, a, n - 1);
    }
  }

  lemma {:induction false} CountsAll(before: seq<Attempt>, after: seq<Attempt>, n: nat)
    requires before <= after && forall k | |before| <= k < |after| :: after[k].step < n
    ensures Count(after, n) - Count(before, n) == |after| - |before|
    decreases |after|
  {
    if |after| == |before| {
      assert after == before;
    } else {
      var shorter := after[..|after| - 1];
      CountsAll(before, shorter, n);
      CountAppend(shorter, after[|after| - 1], n);
      assert after == shorter + [after[|after| - 1]];
    }
  }

  lemma {:induction false} CountBound(before: seq<Attempt>, after: seq<Attempt>, n: nat, bound: nat)
    requires forall i: nat | i < n :: |Trace(after, i)| <= |Trace(before, i)| + bound
    ensures Count(after, n) <= Count(before, n) + n * bound
  {
    if n > 0 {
      CountBound(before, after, n - 1, bound);
      assert n * bound == (n - 1) * bound + bound;
    }
  }

  /** One round makes at most (retries + 1) attempts per step of the plan. */
  lemma RoundAttempts(before: seq<Attempt>, after: seq<Attempt>, from: seq<Status>, to: seq<Status>, retryLimit: nat)
    requires before <= after && |from| == |to|
    requires forall k | |before| <= k < |after| :: after[k].step < |from|
    requires forall i: nat | i < |from| :: RoundStep(before, after, i, retryLimit, from[i], to[i])
    ensures |after| - |before| <= |from| * (retryLimit + 1)
  {
    forall i: nat | i < |from|
      ensures |Trace(after, i)| <= |Trace(before, i)| + (retryLimit + 1)
    {
      assert RoundStep(before, after, i, retryLimit, from[i], to[i]);
    }
    CountsAll(before, after, |from|);
    CountBound(before, after, |from|, retryLimit + 1);
  }

  function TotalSteps(plans: seq<Plan>): nat {
    if plans == [] then 0 else TotalSteps(plans[..|plans| - 1]) + |plans[|plans| - 1]|
  }

  // ----- No step is executed again -----

  /** All plans after `round` have a step with this id. */
  ghost predicate KeptSince(plans: seq<Plan>, round: nat, id: string) {
    forall s | round < s < |plans| :: id in Ids(plans[s])
  }

  ghost predicate Succeeded(plan: Plan, status: seq<Status>, id: string)
    requires |plan| == |status|
  {
    exists i :: 0 <= i < |plan| && plan[i].id == id && status[i] == Success
  }

  /** An id that once succeeded and was kept by every plan since is marked as succeeded now. */
  ghost predicate Remembered(plans: seq<Plan>, history: seq<Attempt>, status: seq<Status>)
    requires plans != [] && |plans[|plans| - 1]| == |status|
  {
    forall a | 0 <= a < |history| && history[a].ok && KeptSince(plans, history[a].round, history[a].id) ::
      Succeeded(plans[|plans| - 1], status, history[a].id)
  }

  ghost predicate RoundsKnown(plans: seq<Plan>, history: seq<Attempt>) {
    forall a | 0 <= a < |history| :: history[a].round < |plans|
  }

  /** If an id is attempted again after it has succeeded, some plan adopted between dropped it. */
  ghost predicate NoRepeat(plans: seq<Plan>, history: seq<Attempt>) {
    forall a, b | 0 <= a < b < |history| && history[a].ok && history[a].id == history[b].id
      :: DroppedBetween(plans, history[a].round, history[b].round, history[a].id)
  }

  ghost predicate DroppedBetween(plans: seq<Plan>, from: nat, to: nat, id: string) {
    exists s :: from < s <= to && s < |plans| && id !in Ids(plans[s])
  }

  /** The `k`-th attempt has its place in the trace of its step. */
  lemma {:induction false} TraceHas(history: seq<Attempt>, k: nat)
    requires k < |history|
    ensures var p := |Trace(history[..k], history[k].step)|;
            p < |Trace(history, history[k].step)| && Trace(history, history[k].step)[p] == history[k].ok
    ensures |Trace(history[..k + 1], history[k].step)| == |Trace(history[..k], history[k].step)| + 1
  {
    assert history[..k + 1] == history[..k] + [history[k]];
    TraceAppend(history[..k], history[k], history[k].step);
    TraceGrows(history[..k + 1], history, history[k].step);
  }

  lemma {:induction false} TraceGrows(before: seq<Attempt>, after: seq<Attempt>, i: nat)
    requires before <= after
    ensures Trace(before, i) <= Trace(after, i)
    decreases |after|
  {
    if |after| > |before| {
      TraceGrows(before, after[..|after| - 1], i);
    } else {
      assert before == after;
    }
  }

  /** A step that was attempted in a round is settled by it; one that had succeeded is left alone. */
  lemma {:induction false} AttemptedIsSettled(
    before: seq<Attempt>, after: seq<Attempt>, k: nat, retryLimit: nat, from: Status, to: Status)
    requires before <= after && |before| <= k < |after|
    requires RoundStep(before, after, after[k].step, retryLimit, from, to)
    ensures from == Pending && (after[k].ok ==> to == Success)
  {
    TraceHas(after, k);
    assert before <= after[..k];
    TraceGrows(before, after[..k], after[k].step);
  }

  /** Within a round a step's success is its last attempt. */
  lemma {:induction false} SuccessIsLast(before: seq<Attempt>, after: seq<Attempt>, a: nat, b: nat, retryLimit: nat,
                                         from: Status, to: Status)
    requires before <= after && |before| <= a < b < |after| && after[a].step == after[b].step
    requires RoundStep(before, after, after[a].step, retryLimit, from, to)
    ensures !after[a].ok
  {
    TraceHas(after, a);
    TraceHas(after, b);
    assert before <= after[..a] && after[..a + 1] <= after[..b];
    TraceGrows(before, after[..a], after[a].step);
    TraceGrows(after[..a + 1], after[..b], after[a].step);
  }

  /** Executing a round keeps the memory, and repeats nothing it remembers. */
  lemma RoundKeepsMemory(plans: seq<Plan>, before: seq<Attempt>, after: seq<Attempt>,
                         from: seq<Status>, to: seq<Status>, retryLimit: nat)
    requires plans != [] && |plans[|plans| - 1]| == |from| == |to| && UniqueIds(plans[|plans| - 1])
    requires before <= after && RoundsKnown(plans, before)
    requires NoRepeat(plans, before) && Remembered(plans, before, from)
    requires forall k | |before| <= k < |after| ::
               after[k].round == |plans| - 1 && after[k].step < |from|
               && after[k].id == plans[|plans| - 1][after[k].step].id
    requires forall i: nat | i < |from| :: RoundStep(before, after, i, retryLimit, from[i], to[i])
    ensures NoRepeat(plans, after) && Remembered(plans, after, to) && RoundsKnown(plans, after)
  {
    var last := |plans| - 1;
    forall a, b | 0 <= a < b < |after| && after[a].ok && after[a].id == after[b].id
      ensures DroppedBetween(plans, after[a].round, after[b].round, after[a].id)
    {
      if b < |before| {
        assert after[a] == before[a] && after[b] == before[b];
      } else if a >= |before| {
        assert after[a].step == after[b].step;
        SuccessIsLast(before, after, a, b, retryLimit, from[after[a].step], to[after[a].step]);
      } else if KeptSince(plans, before[a].round, before[a].id) {
        var i :| 0 <= i < |from| && plans[last][i].id == before[a].id && from[i] == Success;
        assert i == after[b].step;
        AttemptedIsSettled(before, after, b, retryLimit, from[i], to[i]);
      } else {
        var s :| before[a].round < s < |plans| && before[a].id !in Ids(plans[s]);
        assert DroppedBetween(plans, after[a].round, after[b].round, after[a].id);
      }
    }
    forall a | 0 <= a < |after| && after[a].ok && KeptSince(plans, after[a].round, after[a].id)
      ensures Succeeded(plans[last], to, after[a].id)
    {
      if a < |before| {
        assert after[a] == before[a];
        var i :| 0 <= i < |from| && plans[last][i].id == before[a].id && from[i] == Success;
        assert RoundStep(before, after, i, retryLimit, from[i], to[i]);
      } else {
        AttemptedIsSettled(before, after, a, retryLimit, from[after[a].step], to[after[a].step]);
      }
    }
  }

  /** A new plan inherits the memory of every id it keeps. */
  lemma PlanKeepsMemory(plans: seq<Plan>, history: seq<Attempt>, status: seq<Status>, plan: Plan, next: seq<Status>)
    requires plans != [] && |plans[|plans| - 1]| == |status| && |plan| == |next|
    requires RoundsKnown(plans, history) && NoRepeat(plans, history) && Remembered(plans, history, status)
    requires forall i: nat | i < |plan| && Succeeded(plans[|plans| - 1], status, plan[i].id) :: next[i] == Success
    ensures var all := plans + [plan];
            RoundsKnown(all, history) && NoRepeat(all, history) && Remembered(all, history, next)
  {
    var all := plans + [plan];
    forall a, b | 0 <= a < b < |history| && history[a].ok && history[a].id == history[b].id
      ensures DroppedBetween(all, history[a].round, history[b].round, history[a].id)
    {
      assert DroppedBetween(plans, history[a].round, history[b].round, history[a].id);
      var s :| history[a].round < s <= history[b].round && s < |plans| && history[a].id !in Ids(plans[s]);
      assert all[s] == plans[s];
    }
    forall a | 0 <= a < |history| && history[a].ok && KeptSince(all, history[a].round, history[a].id)
      ensures Succeeded(plan, next, history[a].id)
    {
      assert KeptSince(plans, history[a].round, history[a].id) by {
        forall s | history[a].round < s < |plans| ensures history[a].id in Ids(plans[s]) {
          assert all[s] == plans[s];
        }
      }
      assert all[|plans|] == plan && history[a].id in Ids(plan);
      var i: nat :| i < |plan| && plan[i].id == history[a].id;
      assert Succeeded(plans[|plans| - 1], status, plan[i].id);
    }
  }

  // ----- The run -----

  /** What a round did to the statuses of its plan, change by change, and how many attempts had been made
      at its end. */
  datatype RoundLog = RoundLog(plan: Plan, initial: seq<Status>, log: seq<Change>, tried: nat)

  ghost function LogOf(active: ActivePlan): RoundLog
    reads active
  {
    RoundLog(active.steps, active.initial, active.log, |active.history|)
  }

  /** If the round's plan is well-formed, no step was set running before all its dependencies had succeeded. */
  ghost predicate RoundSafe(r: RoundLog) {
    && |r.initial| == |r.plan| && (forall k | 0 <= k < |r.log| :: r.log[k].step < |r.initial|)
    && (WellFormed(r.plan) ==> RunSafe(r.plan, r.initial, r.log))
  }

  /** The rounds of a run, each with its plan. */
  ghost predicate RoundsSafe(plans: seq<Plan>, logs: seq<RoundLog>) {
    && |logs| <= |plans|
    && forall r | 0 <= r < |logs| :: logs[r].plan == plans[r] && RoundSafe(logs[r])
  }

  /** The round left a step failed. */
  ghost predicate LeftFailed(r: RoundLog) {
    RoundSafe(r) && Failed in Replay(r.initial, r.log)
  }

  // ----- How a run is decided -----

  /** Each plan but the first was asked for after a round that had left a step failed. */
  ghost predicate AdoptedAt(planner: Planner, calls: nat, plans: seq<Plan>, logs: seq<RoundLog>,
                            history: seq<Attempt>, r: nat)
  {
    && r + 1 < |plans| && r < |logs| && LeftFailed(logs[r]) && logs[r].tried <= |history|
    && planner(calls + r, history[..logs[r].tried]) == Some(plans[r + 1])
  }

  ghost predicate Adopted(planner: Planner, calls: nat, plans: seq<Plan>, logs: seq<RoundLog>, history: seq<Attempt>) {
    forall r: nat {:trigger AdoptedAt(planner, calls, plans, logs, history, r)} | r + 1 < |plans| ::
      AdoptedAt(planner, calls, plans, logs, history, r)
  }

  /** How a run is decided that starts with a plan, after `calls` planner calls and `replans` replans: it aborts
      exactly if the signal is up at the last poll made. Otherwise every plan got its round, and the run answers
      exactly if the last round left no step failed. After a failed round the planner is called again as long as
      the limit allows, and the run is handed over exactly if it does not or the call yields nothing. */
  ghost predicate Decided(config: Config, world: World, planner: Planner, calls: nat, replans: nat, report: Report,
                          last: RunEvent, plans: seq<Plan>, logs: seq<RoundLog>)
  {
    && plans != [] && NoSignal(world, 0, report.checks) && Adopted(planner, calls, plans, logs, report.history)
    && (last == Final(UserAbort) <==> world.aborted(report.checks))
    && (last == Final(UserAbort) ==> report.plannerCalls == calls + |plans| - 1)
    && (last != Final(UserAbort) ==>
          && |logs| == |plans|
          && (last == Final(FinalAnswer) <==> Failed !in report.finalStatus)
          && (last == FallbackStream <==> Failed in report.finalStatus)
          && (last == Final(FinalAnswer) || replans + |plans| - 1 >= config.replanLimit ==>
                report.plannerCalls == calls + |plans| - 1)
          && (last == FallbackStream && replans + |plans| - 1 < config.replanLimit ==>
                && report.plannerCalls == calls + |plans|
                && planner(report.plannerCalls - 1, report.history) == None))
  }

  /** Whether a second plan is asked for before anything is executed. */
  predicate Refreshes(config: Config, refresh: bool) {
    refresh && config.replanLimit > 0
  }

  function CallsBefore(config: Config, refresh: bool): nat {
    if Refreshes(config, refresh) then 2 else 1
  }

  function ReplansBefore(config: Config, planner: Planner, refresh: bool): nat {
    if Refreshes(config, refresh) && planner(1, []).Some? then 1 else 0
  }

  /** The plan that is executed first: the refreshed one if there is one. */
  function StartPlan(config: Config, planner: Planner, refresh: bool): Option<Plan> {
    if ReplansBefore(config, planner, refresh) == 1 then planner(1, []) else planner(0, [])
  }

  /** How any run is decided. */
  ghost predicate RunDecided(config: Config, world: World, planner: Planner, refresh: bool, report: Report,
                             last: RunEvent, plans: seq<Plan>, logs: seq<RoundLog>)
  {
    if world.aborted(0) then last == Final(UserAbort) && plans == [] && report.plannerCalls == 0 && report.checks == 0
    else if planner(0, []).None? then last == FallbackStream && plans == [] && report.plannerCalls == 1
    else
      && plans != [] && Some(plans[0]) == StartPlan(config, planner, refresh)
      && Decided(config, world, planner, CallsBefore(config, refresh), ReplansBefore(config, planner, refresh),
                 report, last, plans, logs)
  }

  /** Statuses with which a plan may start. */
  ghost predicate Startable(status: seq<Status>) {
    forall i | 0 <= i < |status| :: status[i] == Pending || status[i] == Success
  }

  /** A new plan, all pending, after it has inherited the successes of an old one. */
  method Adopt(plan: Plan, status: seq<Status>, observation: seq<Option<Observation>>, next: Plan,
               matcher: Option<Matcher>)
    returns (nextStatus: seq<Status>, nextObservation: seq<Option<Observation>>)
    requires |plan| == |status| == |observation| && (matcher.Some? ==> Honest(matcher.value))
    ensures |nextStatus| == |nextObservation| == |next| && Startable(nextStatus)
    ensures UniqueIds(next) ==> forall i: nat | i < |next| && Succeeded(plan, status, next[i].id) ::
              nextStatus[i] == Success
  {
    var t := Transfer(plan, status, observation, next,
                      seq(|next|, i => Pending), seq(|next|, i => None));
    var preserved, used;
    ghost var bound, exact, semantic;
    nextStatus, nextObservation, preserved, used, bound, exact, semantic := PreservePriorSuccesses(t, matcher);
    forall i: nat | i < |next| ensures nextStatus[i] == Pending || nextStatus[i] == Success {
      assert InheritedAt(t.priorObservation, bound, t.status0, t.observation0, nextStatus, nextObservation, i);
    }
    if UniqueIds(next) {
      forall i: nat | i < |next| && Succeeded(plan, status, next[i].id) ensures nextStatus[i] == Success {
        assert NamedAt(plan, status, next, i, bound, used);
        assert InheritedAt(t.priorObservation, bound, t.status0, t.observation0, nextStatus, nextObservation, i);
      }
    }
  }

  /** What holds whenever a round is about to start with the last of `plans`. */
  ghost predicate ReadyForRound(planner: Planner, plans: seq<Plan>, active: ActivePlan, retryLimit: nat)
    reads active
  {
    && plans != [] && active.steps == plans[|plans| - 1] && active.round == |plans| - 1
    && active.Valid() && active.Safe() && Startable(active.status) && active.base == |active.history|
    && active.log == []
    && |active.history| <= TotalSteps(plans[..|plans| - 1]) * (retryLimit + 1)
    && (UniquePlans(planner) ==>
          && UniqueIds(active.steps)
          && RoundsKnown(plans, active.history)
          && NoRepeat(plans, active.history)
          && Remembered(plans, active.history, active.status))
  }

  /** What holds when a round is over. */
  ghost predicate AfterRound(planner: Planner, plans: seq<Plan>, active: ActivePlan, retryLimit: nat)
    reads active
  {
    && plans != [] && active.steps == plans[|plans| - 1] && active.Valid()
    && |active.observation| == |active.status| == |active.steps|
    && |active.history| <= TotalSteps(plans) * (retryLimit + 1)
    && (UniquePlans(planner) ==>
          && RoundsKnown(plans, active.history)
          && NoRepeat(plans, active.history)
          && Remembered(plans, active.history, active.status))
  }

  method Round(config: Config, world: World, planner: Planner, active: ActivePlan, ghost plans: seq<Plan>)
    returns (outcome: Outcome)
    requires ReadyForRound(planner, plans, active, config.retryLimit)
    modifies active
    ensures AfterRound(planner, plans, active, config.retryLimit) && outcome != Partial
    ensures outcome == AllSettled ==> Answerable(active.steps, active.status)
    ensures RoundSafe(LogOf(active)) && old(active.history) <= active.history
    ensures old(active.checks) <= active.checks && NoSignal(world, old(active.checks) + 1, active.checks)
    ensures outcome == Aborted <==> old(active.checks) < active.checks && world.aborted(active.checks)
    ensures outcome.ReplanNeeded? ==> Failed in active.status
  {
    ghost var before, from := active.history, active.status;
    outcome := active.ExecutePlan(config.retryLimit, config.parallelExecution, world);
    forall k | |before| <= k < |active.history|
      ensures active.history[k].step < |from| && active.history[k].round == |plans| - 1
           && active.history[k].id == active.steps[active.history[k].step].id
    {
      assert active.OwnAttempt(active.history[k]);
    }
    RoundAttempts(before, active.history, from, active.status, config.retryLimit);
    RoundCost(plans, |before|, |active.history|, config.retryLimit);
    if UniquePlans(planner) {
      RoundKeepsMemory(plans, before, active.history, from, active.status, config.retryLimit);
    }
  }

  lemma {:induction false} RoundCost(plans: seq<Plan>, before: nat, after: nat, retryLimit: nat)
    requires plans != [] && before <= TotalSteps(plans[..|plans| - 1]) * (retryLimit + 1)
    requires after - before <= |plans[|plans| - 1]| * (retryLimit + 1)
    ensures after <= TotalSteps(plans) * (retryLimit + 1)
  {
    Distribute(TotalSteps(plans[..|plans| - 1]), |plans[|plans| - 1]|, retryLimit + 1);
  }

  lemma Distribute(a: nat, b: nat, c: nat)
    ensures (a + b) * c == a * c + b * c
  {
  }

  /** The first plan, possibly refreshed once for new goals: nothing has been executed yet. */
  method FirstPlan(config: Config, planner: Planner, matcher: Option<Matcher>, first: Plan, refresh: bool)
    returns (active: ActivePlan, replanCount: nat, plannerCalls: nat)
    requires matcher.Some? ==> Honest(matcher.value)
    requires UniquePlans(planner) ==> UniqueIds(first)
    ensures fresh(active) && ReadyForRound(planner, [active.steps], active, config.retryLimit)
    ensures 1 <= plannerCalls <= replanCount + 2 && (replanCount == 0 || replanCount <= config.replanLimit)
    ensures plannerCalls == CallsBefore(config, refresh) && replanCount == ReplansBefore(config, planner, refresh)
    ensures active.steps == (if replanCount == 1 then planner(1, []).value else first) && active.checks == 0
  {
    var plan := first;
    var status: seq<Status> := seq(|plan|, i => Pending);
    var observation: seq<Option<Observation>> := seq(|plan|, i => None);
    replanCount, plannerCalls := 0, 1;
    if refresh && config.replanLimit > 0 {
      plannerCalls := 2;
      var refreshed := planner(1, []);
      if refreshed.Some? {
        status, observation := Adopt(plan, status, observation, refreshed.value, matcher);
        plan := refreshed.value;
        replanCount := 1;
      }
    }
    active := new ActivePlan(plan, 0, status, observation, [], 0);
  }

  /** What a run guarantees, whatever the planner, the tools and the matcher do: one final event, which
      comes last; at most `replanLimit` + 1 rounds, `replanLimit` + 2 planner calls, and (retries + 1)
      attempts per planned step; an answer of its own only when no step has failed, and for a closed plan
      only when all have succeeded; no step repeated that a kept id has already completed; and in rounds
      with a well-formed plan no step started before its dependencies had succeeded. */
  ghost predicate Guaranteed(config: Config, planner: Planner, report: Report, last: RunEvent, plans: seq<Plan>,
                             logs: seq<RoundLog>)
  {
    var replans := if config.replanLimit > 0 then config.replanLimit else 0;
    && Concluded(report.events, last)
    && report.rounds <= |plans| <= replans + 1
    && report.plannerCalls <= replans + 2
    && |report.history| <= TotalSteps(plans) * (config.retryLimit + 1)
    && last != Final(HardError)
    && (last == Final(FinalAnswer) ==> plans != [] && Answerable(plans[|plans| - 1], report.finalStatus))
    && (UniquePlans(planner) ==> NoRepeat(plans, report.history))
    && |logs| == report.rounds && RoundsSafe(plans, logs)
  }

  ghost predicate Answerable(plan: Plan, status: seq<Status>) {
    && |status| == |plan|
    && (forall i | 0 <= i < |status| :: status[i] != Failed)
    && (Closed(plan) ==> forall i | 0 <= i < |status| :: status[i] == Success)
  }

  /** A run that ends before its first round. */
  lemma NothingRan(config: Config, planner: Planner, report: Report, last: RunEvent)
    requires Concluded(report.events, last) && report.rounds == 0 && report.plannerCalls <= 1
    requires report.history == [] && last != Final(HardError) && last != Final(FinalAnswer)
    ensures Guaranteed(config, planner, report, last, [], [])
  {
  }

  /** The whole run. `refresh` tells whether new goals call for replanning once before execution. */
  method Run(config: Config, world: World, planner: Planner, matcher: Option<Matcher>, refresh: bool)
    returns (report: Report, last: RunEvent, ghost plans: seq<Plan>, ghost logs: seq<RoundLog>)
    requires matcher.Some? ==> Honest(matcher.value)
    ensures Concluded(report.events, last) && last != Final(HardError)
    ensures config.replanLimit >= 0 ==>
              report.rounds <= config.replanLimit + 1 && report.plannerCalls <= config.replanLimit + 2
    ensures last == Final(FinalAnswer) ==> Failed !in report.finalStatus
    ensures Guaranteed(config, planner, report, last, plans, logs)
    ensures RunDecided(config, world, planner, refresh, report, last, plans, logs)
  {
    plans, logs := [], [];
    var events: seq<RunEvent> := [];
    if world.aborted(0) {
      last := Final(UserAbort);
      events := Conclude(events, last);
      report := Report(events, 0, 0, [], [], 0);
      NothingRan(config, planner, report, last);
      return;
    }
    var first := planner(0, []);
    if first.None? {
      last := FallbackStream;
      events := Mark(events, ReplanMarker);
      events := Conclude(events, last);
      report := Report(events, 0, 1, [], [], 0);
      NothingRan(config, planner, report, last);
      return;
    }
    events := Mark(events, PlanMarker);
    report, last, plans, logs := RunPlanned(config, world, planner, matcher, refresh, first.value, events);
  }

  /** The run from its first plan on. */
  method RunPlanned(config: Config, world: World, planner: Planner, matcher: Option<Matcher>, refresh: bool,
                    first: Plan, eventsBefore: seq<RunEvent>)
    returns (report: Report, last: RunEvent, ghost plans: seq<Plan>, ghost logs: seq<RoundLog>)
    requires matcher.Some? ==> Honest(matcher.value)
    requires planner(0, []) == Some(first) && !world.aborted(0) && Finals(eventsBefore) == 0
    ensures Concluded(report.events, last)
    ensures Guaranteed(config, planner, report, last, plans, logs)
    ensures RunDecided(config, world, planner, refresh, report, last, plans, logs)
  {
    var events := eventsBefore;
    var active, replanCount, plannerCalls := FirstPlan(config, planner, matcher, first, refresh);
    if replanCount > 0 {
      events := MarkReplan(events);
    }
    report, last, plans, logs := Execute(config, world, planner, matcher, active, replanCount, plannerCalls, events);
  }

  /** What holds when the run stops with `last`. */
  ghost predicate Stopped(config: Config, planner: Planner, plans: seq<Plan>, active: ActivePlan, last: RunEvent)
    reads active
  {
    && |active.history| <= TotalSteps(plans) * (config.retryLimit + 1)
    && (UniquePlans(planner) ==> NoRepeat(plans, active.history))
    && IsFinal(last) && last != Final(HardError)
    && (last == Final(FinalAnswer) ==> plans != [] && Answerable(plans[|plans| - 1], active.status))
  }

  /** What holds before each turn of the loop; `calls` and `replans` were made before the first. */
  ghost predicate Underway(config: Config, world: World, planner: Planner, calls: nat, plans: seq<Plan>,
                           logs: seq<RoundLog>, active: ActivePlan)
    reads active
  {
    && ReadyForRound(planner, plans, active, config.retryLimit)
    && |logs| + 1 == |plans| && RoundsSafe(plans, logs) && Adopted(planner, calls, plans, logs, active.history)
    && NoSignal(world, 0, active.checks + 1)
  }

  /** What holds after a turn: the run stops, or a failed step asks for another plan. */
  ghost predicate Passed(config: Config, world: World, planner: Planner, calls: nat, plans: seq<Plan>,
                         logs: seq<RoundLog>, active: ActivePlan, stop: Option<RunEvent>)
    reads active
  {
    && plans != [] && |plans| - 1 <= |logs| <= |plans| && RoundsSafe(plans, logs)
    && Adopted(planner, calls, plans, logs, active.history)
    && NoSignal(world, 0, active.checks) && (stop == Some(Final(UserAbort)) <==> world.aborted(active.checks))
    && (stop.Some? ==> Stopped(config, planner, plans, active, stop.value))
    && (stop.None? ==> AfterRound(planner, plans, active, config.retryLimit) && active.round == |plans| - 1)
    && (stop != Some(Final(UserAbort)) ==> |logs| == |plans| && logs[|logs| - 1].tried == |active.history|)
    && (stop.None? ==> Failed in active.status && LeftFailed(logs[|logs| - 1]))
    && (stop.Some? && stop.value != Final(UserAbort) ==>
          stop.value == Final(FinalAnswer) && Failed !in active.status)
  }

  /** One round, unless the user has aborted. A settled plan answers; a failed step asks for another plan. */
  method Pass(config: Config, world: World, planner: Planner, ghost calls: nat, active: ActivePlan,
              ghost plans: seq<Plan>, ghost before: seq<RoundLog>)
    returns (ran: bool, stop: Option<RunEvent>, ghost logs: seq<RoundLog>)
    requires Underway(config, world, planner, calls, plans, before, active)
    modifies active
    ensures |logs| == |before| + (if ran then 1 else 0)
    ensures Passed(config, world, planner, calls, plans, logs, active, stop)
  {
    logs := before;
    ghost var tried := active.history;
    active.checks := active.checks + 1;
    if world.aborted(active.checks) {
      BeforeRoundCost(plans, |active.history|, config.retryLimit);
      return false, Some(Final(UserAbort)), logs;
    }
    var outcome := Round(config, world, planner, active, plans);
    logs := before + [LogOf(active)];
    AdoptedStays(planner, calls, plans, before, logs, tried, active.history);
    if outcome == Aborted {
      return true, Some(Final(UserAbort)), logs;
    }
    if outcome == AllSettled || outcome == Partial {
      var anyFailed := Failed in active.status;
      return true, Some(Final(if anyFailed then HardError else FinalAnswer)), logs;
    }
    return true, None, logs;
  }

  /** The next plan takes over the successes of the last one. */
  method Succeed(config: Config, world: World, planner: Planner, ghost calls: nat, active: ActivePlan, next: Plan,
                 matcher: Option<Matcher>, ghost plans: seq<Plan>, ghost logs: seq<RoundLog>)
    returns (successor: ActivePlan)
    requires Passed(config, world, planner, calls, plans, logs, active, None)
    requires planner(calls + |plans| - 1, active.history) == Some(next)
    requires matcher.Some? ==> Honest(matcher.value)
    ensures fresh(successor) && Underway(config, world, planner, calls, plans + [next], logs, successor)
  {
    var status, observation := Adopt(active.steps, active.status, active.observation, next, matcher);
    if UniquePlans(planner) {
      PlanKeepsMemory(plans, active.history, active.status, next, status);
    }
    successor := new ActivePlan(next, active.round + 1, status, observation, active.history, active.checks);
    assert (plans + [next])[..|plans|] == plans;
    AdoptNext(planner, calls, plans, logs, active.history, next);
  }

  /** Asks the planner again, unless the limit is used up. */
  method NextPlan(config: Config, planner: Planner, replanCount: nat, callsBefore: nat, history: seq<Attempt>)
    returns (next: Option<Plan>, plannerCalls: nat)
    ensures if replanCount >= config.replanLimit then next == None && plannerCalls == callsBefore
            else plannerCalls == callsBefore + 1 && next == planner(callsBefore, history)
  {
    if replanCount >= config.replanLimit {
      return None, callsBefore;
    }
    plannerCalls := callsBefore + 1;
    next := planner(plannerCalls - 1, history);
  }

  /** One turn of the loop: a round, and if a step has failed the next plan, if there is to be one. */
  method Turn(config: Config, world: World, planner: Planner, matcher: Option<Matcher>, ghost calls: nat,
              ghost replans: nat, active: ActivePlan, replanCount: nat, callsBefore: nat, ghost plansBefore: seq<Plan>,
              ghost logsBefore: seq<RoundLog>)
    returns (ran: bool, successor: Option<ActivePlan>, stop: Option<RunEvent>, plannerCalls: nat,
             ghost plans: seq<Plan>, ghost logs: seq<RoundLog>)
    requires matcher.Some? ==> Honest(matcher.value)
    requires Underway(config, world, planner, calls, plansBefore, logsBefore, active)
    requires callsBefore == calls + |logsBefore| && replanCount == replans + |logsBefore| && calls <= replans + 2
    requires replanCount == 0 || replanCount <= config.replanLimit
    modifies active
    ensures |logs| == |logsBefore| + if ran then 1 else 0
    ensures plansBefore <= plans && (stop.Some? ==> successor.None?)
    ensures successor.Some? ==>
              && fresh(successor.value) && ran && |plans| == |plansBefore| + 1
              && Underway(config, world, planner, calls, plans, logs, successor.value)
              && replanCount < config.replanLimit && plannerCalls == callsBefore + 1
    ensures successor.None? ==>
              && Passed(config, world, planner, calls, plans, logs, active, stop)
              && CountsFit(config, planner, calls, replans, |plans|, active.history, stop, plannerCalls)
  {
    plans, plannerCalls, successor := plansBefore, callsBefore, None;
    ran, stop, logs := Pass(config, world, planner, calls, active, plans, logsBefore);
    if stop.None? {
      var next;
      next, plannerCalls := NextPlan(config, planner, replanCount, callsBefore, active.history);
      if next.Some? {
        var newPlan := Succeed(config, world, planner, calls, active, next.value, matcher, plans, logs);
        successor, plans := Some(newPlan), plans + [next.value];
      }
    }
  }

  /** The loop: execute, and replan as long as the limit allows. */
  method Loop(config: Config, world: World, planner: Planner, matcher: Option<Matcher>, start: ActivePlan,
              replansBefore: nat, callsBefore: nat, eventsBefore: seq<RunEvent>)
    returns (active: ActivePlan, stop: Option<RunEvent>, rounds: nat, plannerCalls: nat, events: seq<RunEvent>,
             ghost plans: seq<Plan>, ghost logs: seq<RoundLog>)
    requires matcher.Some? ==> Honest(matcher.value)
    requires ReadyForRound(planner, [start.steps], start, config.retryLimit) && Finals(eventsBefore) == 0
    requires callsBefore <= replansBefore + 2 && (replansBefore == 0 || replansBefore <= config.replanLimit)
    requires NoSignal(world, 0, start.checks + 1)
    modifies start
    ensures Passed(config, world, planner, callsBefore, plans, logs, active, stop)
    ensures CountsFit(config, planner, callsBefore, replansBefore, |plans|, active.history, stop, plannerCalls)
    ensures rounds == |logs| && plans[0] == start.steps && Finals(events) == 0
  {
    active, events, plannerCalls, rounds := start, eventsBefore, callsBefore, 0;
    var replanCount: nat := replansBefore;
    plans, logs := [active.steps], [];
    while true
      invariant active == start || fresh(active)
      invariant Underway(config, world, planner, callsBefore, plans, logs, active)
      invariant |logs| == rounds && plans[0] == start.steps
      invariant replanCount == replansBefore + rounds && plannerCalls == callsBefore + rounds
      invariant replanCount == 0 || replanCount <= config.replanLimit
      invariant Finals(events) == 0
      decreases config.replanLimit - replanCount
    {
      var ran, successor;
      ran, successor, stop, plannerCalls, plans, logs :=
        Turn(config, world, planner, matcher, callsBefore, replansBefore, active, replanCount, plannerCalls, plans,
             logs);
      rounds := if ran then rounds + 1 else rounds;
      if successor.None? {
        return;
      }
      replanCount := replanCount + 1;
      active := successor.value;
      events := MarkReplan(events);
    }
  }

  /** The loop, and what is reported of it. Where nothing else can be done, the fallback takes over. */
  method Execute(config: Config, world: World, planner: Planner, matcher: Option<Matcher>,
                 start: ActivePlan, replansBefore: nat, callsBefore: nat, eventsBefore: seq<RunEvent>)
    returns (report: Report, last: RunEvent, ghost plans: seq<Plan>, ghost logs: seq<RoundLog>)
    requires matcher.Some? ==> Honest(matcher.value)
    requires ReadyForRound(planner, [start.steps], start, config.retryLimit) && Finals(eventsBefore) == 0
    requires callsBefore <= replansBefore + 2 && (replansBefore == 0 || replansBefore <= config.replanLimit)
    requires NoSignal(world, 0, start.checks + 1)
    modifies start
    ensures Guaranteed(config, planner, report, last, plans, logs)
    ensures Decided(config, world, planner, callsBefore, replansBefore, report, last, plans, logs)
    ensures plans[0] == start.steps
  {
    var active, stop, rounds, plannerCalls, events;
    active, stop, rounds, plannerCalls, events, plans, logs :=
      Loop(config, world, planner, matcher, start, replansBefore, callsBefore, eventsBefore);
    last := if stop.Some? then stop.value else FallbackStream;
    events := WindUp(events, last);
    report := Report(events, rounds, plannerCalls, active.history, active.status, active.checks);
    RunEnds(config, world, planner, callsBefore, replansBefore, plans, logs, active, stop, report, last);
  }

  lemma {:induction false} AdoptedStays(planner: Planner, calls: nat, plans: seq<Plan>, logs: seq<RoundLog>,
                                        more: seq<RoundLog>, history: seq<Attempt>, longer: seq<Attempt>)
    requires Adopted(planner, calls, plans, logs, history) && logs <= more && history <= longer
    ensures Adopted(planner, calls, plans, more, longer)
  {
    forall r: nat {:trigger AdoptedAt(planner, calls, plans, more, longer, r)} | r + 1 < |plans|
      ensures AdoptedAt(planner, calls, plans, more, longer, r)
    {
      assert AdoptedAt(planner, calls, plans, logs, history, r);
      assert longer[..logs[r].tried] == history[..logs[r].tried];
    }
  }

  lemma {:induction false} AdoptNext(planner: Planner, calls: nat, plans: seq<Plan>, logs: seq<RoundLog>,
                                     history: seq<Attempt>, next: Plan)
    requires Adopted(planner, calls, plans, logs, history) && |logs| == |plans| >= 1
    requires LeftFailed(logs[|logs| - 1]) && logs[|logs| - 1].tried == |history|
    requires planner(calls + |plans| - 1, history) == Some(next)
    ensures Adopted(planner, calls, plans + [next], logs, history)
  {
    var more := plans + [next];
    forall r: nat {:trigger AdoptedAt(planner, calls, more, logs, history, r)} | r + 1 < |more|
      ensures AdoptedAt(planner, calls, more, logs, history, r)
    {
      if r + 1 < |plans| {
        assert AdoptedAt(planner, calls, plans, logs, history, r);
      } else {
        assert history[..|history|] == history;
      }
    }
  }

  /** The last events of a run; handing over is announced. */
  method WindUp(before: seq<RunEvent>, last: RunEvent) returns (events: seq<RunEvent>)
    requires Finals(before) == 0 && IsFinal(last)
    ensures Concluded(events, last)
    ensures events == before + (if last == FallbackStream then [ReplanMarker] else []) + [last]
  {
    events := before;
    if last == FallbackStream {
      events := Mark(events, ReplanMarker);
    }
    events := Conclude(events, last);
  }

  /** Planner calls and replans after a run with `n` plans. */
  ghost predicate CountsFit(config: Config, planner: Planner, calls: nat, replans: nat, n: nat, history: seq<Attempt>,
                            stop: Option<RunEvent>, plannerCalls: nat)
  {
    && n >= 1 && calls <= replans + 2 && (replans + n - 1 == 0 || replans + n - 1 <= config.replanLimit)
    && if stop.None? && replans + n - 1 < config.replanLimit
       then plannerCalls == calls + n && planner(calls + n - 1, history) == None
       else plannerCalls == calls + n - 1
  }

  /** A run that stops after a turn keeps all promises. */
  lemma {:induction false} RunEnds(config: Config, world: World, planner: Planner, calls: nat, replans: nat,
                                   plans: seq<Plan>, logs: seq<RoundLog>, active: ActivePlan, stop: Option<RunEvent>,
                                   report: Report, last: RunEvent)
    requires Passed(config, world, planner, calls, plans, logs, active, stop) && Concluded(report.events, last)
    requires last == if stop.Some? then stop.value else FallbackStream
    requires report.history == active.history && report.finalStatus == active.status
    requires report.checks == active.checks && report.rounds == |logs|
    requires CountsFit(config, planner, calls, replans, |plans|, active.history, stop, report.plannerCalls)
    ensures Guaranteed(config, planner, report, last, plans, logs)
    ensures Decided(config, world, planner, calls, replans, report, last, plans, logs)
  {
    assert stop.None? ==> Stopped(config, planner, plans, active, last);
  }

  lemma {:induction false} BeforeRoundCost(plans: seq<Plan>, attempts: nat, retryLimit: nat)
    requires plans != [] && attempts <= TotalSteps(plans[..|plans| - 1]) * (retryLimit + 1)
    ensures attempts <= TotalSteps(plans) * (retryLimit + 1)
  {
    RoundCost(plans, attempts, attempts, retryLimit);
  }
}
