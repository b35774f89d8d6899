/** What becomes of steps with missing or cyclic dependencies in a round. They are flushed as the last level,
    and only there is anything ever skipped. */
module PlanCascade {
  import opened Prelude
  import opened PlanModel
  import opened PlanLevels
  import opened PlanFilter

  // ----- Levels that are not flushed -----

  /** Every dependency of the level's steps is the id of a step. */
  ghost predicate Known(plan: Plan, level: seq<nat>) {
    forall i: nat, d | i < |plan| && i in level && d in plan[i].dependsOn :: d in Ids(plan)
  }

  /** A level that is not flushed knows its dependencies. */
  lemma {:induction false} UnflushedIsKnown(plan: Plan, remaining: seq<nat>, placed: set<string>, j: nat)
    requires Within(plan, remaining) && placed <= Ids(plan) && j < |Levels(plan, remaining, placed)|
    requires Flushes(plan, remaining, placed) ==> j < |Levels(plan, remaining, placed)| - 1
    ensures Known(plan, Levels(plan, remaining, placed)[j])
    decreases |remaining|
  {
    var ready := Select(plan, remaining, placed, true);
    SelectShrinks(plan, remaining, placed);
    if ready != [] {
      var rest, after := Select(plan, remaining, placed, false), placed + IdsAt(plan, ready);
      assert Levels(plan, remaining, placed) == [ready] + Levels(plan, rest, after);
      if j > 0 {
        assert Levels(plan, remaining, placed)[j] == Levels(plan, rest, after)[j - 1];
        UnflushedIsKnown(plan, rest, after, j - 1);
      } else {
        assert forall i: nat | i < |plan| && i in ready :: Ready(plan[i], placed);
      }
    }
  }

  /** Where all dependencies are known, nothing is doomed while nothing is lost. */
  lemma {:induction false} KnownNeverDooms(plan: Plan, level: seq<nat>, status: seq<Status>, k: nat)
    requires Known(plan, level) && Within(plan, level) && |status| == |plan| && k < |level| && NothingLost(status)
    ensures !Doomed(plan, level, status, k)
  {
    forall d | d in plan[level[k]].dependsOn ensures !DoomedBy(plan, level, status, k, d) {
      assert level[k] in level;
      assert !Hopeless(plan, status, d);
      forall m: nat | EarlierInLevel(plan, level, k, d, m) ensures !Doomed(plan, level, status, m) {
        KnownNeverDooms(plan, level, status, m);
      }
    }
  }

  /** So nothing is skipped there. */
  lemma {:induction false} KnownSkipsNone(plan: Plan, level: seq<nat>, status: seq<Status>, i: nat)
    requires Known(plan, level) && Within(plan, level) && |status| == |plan| && NothingLost(status)
    ensures !DoomedAt(plan, level, status, i)
  {
    forall k: nat | k < |level| ensures !Doomed(plan, level, status, k) {
      KnownNeverDooms(plan, level, status, k);
    }
  }

  // ----- What is skipped in a round -----

  /** Step `i` is in the level and doomed. */
  ghost predicate DoomedAt(plan: Plan, level: seq<nat>, status: seq<Status>, i: nat)
    requires Within(plan, level) && |status| == |plan|
  {
    exists m: nat :: m < |level| && level[m] == i && Doomed(plan, level, status, m)
  }

  /** The level that is flushed, if any. */
  ghost function Flushed(plan: Plan): (r: seq<nat>)
    ensures Within(plan, r)
  {
    if !Flushes(plan, Positions(|plan|), {}) then []
    else
      FlushedWaits(plan, Positions(|plan|), {});
      var levels := Levels(plan, Positions(|plan|), {});
      levels[|levels| - 1]
  }

  /** Exactly those steps end up skipped that are doomed in the flushed level from the start. */
  ghost predicate SkippedExactly(plan: Plan, from: seq<Status>, to: seq<Status>)
    requires |from| == |to| == |plan|
  {
    forall i: nat | i < |plan| :: to[i] == Skipped <==> DoomedAt(plan, Flushed(plan), from, i)
  }

  ghost predicate NoneSkipped(status: seq<Status>) {
    forall i | 0 <= i < |status| :: status[i] != Skipped
  }

  /** The filter skips exactly the doomed steps, if none was skipped before. */
  lemma {:induction false} FilterSkips(plan: Plan, level: seq<nat>, before: seq<Status>, after: seq<Status>)
    requires Within(plan, level) && |before| == |after| == |plan| && NoneSkipped(before)
    requires forall k: nat | k < |level| ::
               after[level[k]] == if Doomed(plan, level, before, k) then Skipped else before[level[k]]
    requires forall i: nat | i < |plan| && i !in level :: after[i] == before[i]
    ensures forall i: nat | i < |plan| :: after[i] == Skipped <==> DoomedAt(plan, level, before, i)
  {
    forall i: nat | i < |plan| ensures after[i] == Skipped <==> DoomedAt(plan, level, before, i) {
      if i in level {
        var k: nat :| k < |level| && level[k] == i;
        assert after[level[k]] == if Doomed(plan, level, before, k) then Skipped else before[level[k]];
      }
    }
  }

  /** Statuses with nothing lost that agree on a level doom the same steps of it. */
  lemma {:induction false} SameDoom(plan: Plan, level: seq<nat>, a: seq<Status>, b: seq<Status>, k: nat)
    requires Within(plan, level) && |a| == |b| == |plan| && NothingLost(a) && NothingLost(b) && k < |level|
    requires forall i: nat | i < |plan| && i in level :: a[i] == b[i]
    ensures Doomed(plan, level, a, k) <==> Doomed(plan, level, b, k)
    decreases k
  {
    assert level[k] in level;
    forall d | d in plan[level[k]].dependsOn
      ensures DoomedBy(plan, level, a, k, d) <==> DoomedBy(plan, level, b, k, d)
    {
      assert Hopeless(plan, a, d) <==> Hopeless(plan, b, d);
      forall m: nat | m < k ensures Doomed(plan, level, a, m) <==> Doomed(plan, level, b, m) {
        SameDoom(plan, level, a, b, m);
      }
    }
  }

  /** One level of a round: nothing is skipped before the last, and after it exactly what was doomed. */
  lemma {:induction false} LevelSkips(plan: Plan, from: seq<Status>, arrived: seq<Status>, to: seq<Status>, k: nat)
    requires |from| == |arrived| == |to| == |plan| && NothingLost(from) && NothingLost(arrived)
    requires k < |Levels(plan, Positions(|plan|), {})|
    requires var level := Levels(plan, Positions(|plan|), {})[k];
             && (forall i: nat | i < |plan| && i in level :: arrived[i] == from[i])
             && (forall i: nat | i < |plan| :: to[i] == Skipped <==> DoomedAt(plan, level, arrived, i))
    ensures k < |Levels(plan, Positions(|plan|), {})| - 1 ==> NoneSkipped(to)
    ensures k == |Levels(plan, Positions(|plan|), {})| - 1 ==> SkippedExactly(plan, from, to)
  {
    var levels := Levels(plan, Positions(|plan|), {});
    if Flushes(plan, Positions(|plan|), {}) && k == |levels| - 1 {
      forall i: nat | i < |plan| ensures to[i] == Skipped <==> DoomedAt(plan, Flushed(plan), from, i) {
        forall m: nat | m < |levels[k]|
          ensures Doomed(plan, levels[k], arrived, m) <==> Doomed(plan, levels[k], from, m)
        {
          SameDoom(plan, levels[k], arrived, from, m);
        }
      }
    } else {
      UnflushedIsKnown(plan, Positions(|plan|), {}, k);
      forall i: nat | i < |plan| ensures to[i] != Skipped {
        KnownSkipsNone(plan, levels[k], arrived, i);
      }
    }
  }

  /** A closed plan ends without skipped steps. */
  lemma {:induction false} ClosedSkipsNone(plan: Plan, from: seq<Status>, to: seq<Status>)
    requires Closed(plan) && |from| == |to| == |plan| && NothingLost(from) && SkippedExactly(plan, from, to)
    ensures NoneSkipped(to)
  {
    forall i: nat | i < |plan| ensures to[i] != Skipped {
      KnownSkipsNone(plan, Flushed(plan), from, i);
    }
  }

  /** The whole flushed level ends skipped exactly if each of its steps starts pending and depends on a
      missing id or on an earlier step of the level. */
  lemma {:induction false} CascadeIff(plan: Plan, from: seq<Status>, to: seq<Status>)
    requires |from| == |to| == |plan| && SkippedExactly(plan, from, to)
    requires forall i | 0 <= i < |plan| :: from[i] == Pending || from[i] == Success
    ensures (forall k: nat | k < |Flushed(plan)| :: to[Flushed(plan)[k]] == Skipped)
       <==> (forall k: nat | k < |Flushed(plan)| ::
               from[Flushed(plan)[k]] == Pending && LooksBack(plan, Flushed(plan), k))
  {
    var level := Flushed(plan);
    FlushedDistinct(plan);
    forall k: nat | k < |level| ensures to[level[k]] == Skipped <==> Doomed(plan, level, from, k) {
      assert DoomedAt(plan, level, from, level[k]) <==> Doomed(plan, level, from, k);
    }
    if k: nat :| k < |level| && from[level[k]] != Pending {
      assert !Doomed(plan, level, from, k);
      assert to[level[k]] != Skipped;
    } else {
      forall k: nat | k < |level| ensures to[level[k]] == Skipped <==> Dangling(plan, level, k) {
        DoomedIffDangling(plan, level, from, k);
      }
      if k: nat :| k < |level| && to[level[k]] != Skipped {
        var free := FreeStep(plan, level, k);
      } else {
        forall k: nat | k < |level| ensures LooksBack(plan, level, k) {
          DanglingLooksBack(plan, level, k);
        }
      }
    }
  }

  lemma {:induction false} FlushedDistinct(plan: Plan)
    ensures Distinct(Flushed(plan))
  {
    var levels := Levels(plan, Positions(|plan|), {});
    if Flushes(plan, Positions(|plan|), {}) {
      FlushedWaits(plan, Positions(|plan|), {});
      LevelDistinct(plan, Positions(|plan|), {}, |levels| - 1);
    }
  }

  // ----- Told by the plan alone -----

  /** Told by the plan alone: the `k`-th step of the level depends on an id that the plan lacks, or on an
      earlier dangling step of the level. */
  ghost predicate Dangling(plan: Plan, level: seq<nat>, k: nat)
    requires Within(plan, level) && k < |level|
    decreases k, 1
  {
    exists d <- plan[level[k]].dependsOn :: DanglingBy(plan, level, k, d)
  }

  ghost predicate DanglingBy(plan: Plan, level: seq<nat>, k: nat, d: string)
    requires Within(plan, level) && k < |level|
    decreases k, 0
  {
    d !in Ids(plan) || exists m: nat :: EarlierInLevel(plan, level, k, d, m) && Dangling(plan, level, m)
  }

  /** As long as nothing is lost, an open step is skipped exactly if it is dangling. */
  lemma {:induction false} DoomedIffDangling(plan: Plan, level: seq<nat>, status: seq<Status>, k: nat)
    requires Within(plan, level) && |status| == |plan| && k < |level| && NothingLost(status)
    requires forall m | 0 <= m <= k :: status[level[m]] == Pending
    ensures Doomed(plan, level, status, k) <==> Dangling(plan, level, k)
    decreases k
  {
    forall m: nat | m < k ensures Doomed(plan, level, status, m) <==> Dangling(plan, level, m) {
      DoomedIffDangling(plan, level, status, m);
    }
    forall d | d in plan[level[k]].dependsOn
      ensures DoomedBy(plan, level, status, k, d) <==> DanglingBy(plan, level, k, d)
    {
      assert Hopeless(plan, status, d) <==> d !in Ids(plan);
      assert forall m: nat | EarlierInLevel(plan, level, k, d, m) ::
        Doomed(plan, level, status, m) <==> Dangling(plan, level, m);
    }
  }

  /** The step depends on an id that the plan lacks, or on any earlier step of the level. */
  ghost predicate LooksBack(plan: Plan, level: seq<nat>, k: nat)
    requires Within(plan, level) && k < |level|
  {
    exists d <- plan[level[k]].dependsOn ::
      d !in Ids(plan) || exists m: nat :: EarlierInLevel(plan, level, k, d, m)
  }

  /** If a step does not dangle, it or an earlier one does not look back. */
  lemma {:induction false} FreeStep(plan: Plan, level: seq<nat>, k: nat) returns (free: nat)
    requires Within(plan, level) && k < |level| && !Dangling(plan, level, k)
    ensures free <= k && !LooksBack(plan, level, free)
    decreases k
  {
    if LooksBack(plan, level, k) {
      var d :| d in plan[level[k]].dependsOn
               && (d !in Ids(plan) || exists m: nat :: EarlierInLevel(plan, level, k, d, m));
      assert !DanglingBy(plan, level, k, d);
      var m: nat :| EarlierInLevel(plan, level, k, d, m);
      free := FreeStep(plan, level, m);
    } else {
      free := k;
    }
  }

  lemma {:induction false} DanglingLooksBack(plan: Plan, level: seq<nat>, k: nat)
    requires Within(plan, level) && k < |level|
    ensures Dangling(plan, level, k) ==> LooksBack(plan, level, k)
  {
    if Dangling(plan, level, k) {
      var d :| d in plan[level[k]].dependsOn && DanglingBy(plan, level, k, d);
      assert d in Ids(plan) ==> exists m: nat :: EarlierInLevel(plan, level, k, d, m);
    }
  }

  /** In a closed plan nothing dangles. */
  lemma {:induction false} ClosedNeverDangles(plan: Plan, level: seq<nat>, k: nat)
    requires Closed(plan) && Within(plan, level) && k < |level|
    ensures !Dangling(plan, level, k)
  {
    forall d | d in plan[level[k]].dependsOn ensures !DanglingBy(plan, level, k, d) {
      assert d in Ids(plan);
      forall m: nat | EarlierInLevel(plan, level, k, d, m) ensures !Dangling(plan, level, m) {
        ClosedNeverDangles(plan, level, m);
      }
    }
  }

  // ----- Nobody in a flushed level has its dependencies met -----

  /** Each step of the level waits for a missing id or for a step of the same level. */
  ghost predicate WaitsInLevel(plan: Plan, level: seq<nat>) {
    forall i: nat | i in level && i < |plan| ::
      exists d <- plan[i].dependsOn :: StepById(plan, d).None? || StepById(plan, d).value in level
  }

  /** The last level of a plan that is flushed waits for itself. */
  lemma {:induction false} FlushedWaits(plan: Plan, remaining: seq<nat>, placed: set<string>)
    requires Within(plan, remaining) && Flushes(plan, remaining, placed)
    requires forall i: nat | i < |plan| :: i in remaining || plan[i].id in placed
    ensures var levels := Levels(plan, remaining, placed);
            levels != [] && WaitsInLevel(plan, levels[|levels| - 1])
    decreases |remaining|
  {
    SelectShrinks(plan, remaining, placed);
    var ready := Select(plan, remaining, placed, true);
    if ready == [] {
      forall i: nat | i in remaining && i < |plan|
        ensures exists d <- plan[i].dependsOn :: StepById(plan, d).None? || StepById(plan, d).value in remaining
      {
        assert i !in ready;
        var d :| d in plan[i].dependsOn && d !in placed;
        assert StepById(plan, d).Some? ==> plan[StepById(plan, d).value].id == d;
      }
    } else {
      var rest := Select(plan, remaining, placed, false);
      forall i: nat | i < |plan| ensures i in rest || plan[i].id in placed + IdsAt(plan, ready) {
        if i in ready {
          IdsAtHas(plan, ready, i);
        }
      }
      FlushedWaits(plan, rest, placed + IdsAt(plan, ready));
    }
  }

  lemma {:induction false} WaitingIsUnmet(plan: Plan, status: seq<Status>, level: seq<nat>, k: nat)
    requires |status| == |plan| && Within(plan, level) && WaitsInLevel(plan, level) && k < |level|
    requires forall i: nat | i < |plan| && i in level :: status[i] == Pending
    ensures !Met(plan, status, level[k])
  {
    var d :| d in plan[level[k]].dependsOn && (StepById(plan, d).None? || StepById(plan, d).value in level);
    assert !DependencyMet(plan, status, level[k], d);
  }

  lemma {:induction false} FlushedWaitsForItself(plan: Plan)
    ensures WaitsInLevel(plan, Flushed(plan))
  {
    if Flushes(plan, Positions(|plan|), {}) {
      FlushedWaits(plan, Positions(|plan|), {});
    }
  }

  /** When the flushed level of a plan comes up, what the filter does to it was settled at the start: it skips
      exactly the steps doomed then. If all its steps are pending, those are the dangling ones, and no step of
      the level has its dependencies met, so that all others run without. */
  lemma {:induction false} FlushedLevel(plan: Plan, from: seq<Status>, now: seq<Status>, k: nat)
    requires |from| == |now| == |plan| && NothingLost(from) && NothingLost(now) && k < |Flushed(plan)|
    requires forall i: nat | i < |plan| && i in Flushed(plan) :: now[i] == from[i]
    ensures Doomed(plan, Flushed(plan), now, k) <==> Doomed(plan, Flushed(plan), from, k)
    ensures Closed(plan) ==> !Doomed(plan, Flushed(plan), from, k)
    ensures (forall i: nat | i < |plan| && i in Flushed(plan) :: from[i] == Pending) ==>
              && (Doomed(plan, Flushed(plan), from, k) <==> Dangling(plan, Flushed(plan), k))
              && !Met(plan, now, Flushed(plan)[k])
  {
    var level := Flushed(plan);
    SameDoom(plan, level, now, from, k);
    if Closed(plan) {
      KnownNeverDooms(plan, level, from, k);
    }
    if forall i: nat | i < |plan| && i in level :: from[i] == Pending {
      DoomedIffDangling(plan, level, from, k);
      FlushedWaitsForItself(plan);
      WaitingIsUnmet(plan, now, level, k);
    }
  }

  // ----- Two plans that run unmet -----

  /** Two steps that depend on each other are flushed together, and neither is skipped: both run
      although their dependencies have not succeeded. */
  lemma {:induction false} CycleRunsUnmet(x: PlanStep, y: PlanStep)
    requires x.id != y.id && x.dependsOn == [y.id] && y.dependsOn == [x.id]
    ensures var plan := [x, y];
            var status := [Pending, Pending];
            && Closed(plan) && UniqueIds(plan) && !Acyclic(plan)
            && Levels(plan, Positions(2), {}) == [[0, 1]]
            && Runnable(plan, [0, 1], status, 2) == [0, 1]
            && forall i: nat | i < 2 :: !Met(plan, status, i)
  {
    var plan := [x, y];
    var status := [Pending, Pending];
    assert plan[0] == x && plan[1] == y;
    TwoCycle(x, y);
    assert y.id in x.dependsOn && x.id in y.dependsOn;
    FlushedTogether(plan);
    FlushedRuns(plan, [0, 1], status);
    assert !DependencyMet(plan, status, 0, y.id) && !DependencyMet(plan, status, 1, x.id);
  }

  lemma {:induction false} TwoCycle(x: PlanStep, y: PlanStep)
    requires x.id != y.id && x.dependsOn == [y.id] && y.dependsOn == [x.id]
    ensures var plan := [x, y]; Closed(plan) && UniqueIds(plan) && !Acyclic(plan)
  {
    var plan := [x, y];
    assert plan[0] == x && plan[1] == y;
    assert Ids(plan) == {x.id, y.id};
    assert Edge(plan, x.id, y.id) && Edge(plan, y.id, x.id);
    assert Cycle(plan, [x.id, y.id, x.id]);
  }

  /** Two steps that both have a dependency are flushed at once. */
  lemma {:induction false} FlushedTogether(plan: Plan)
    requires |plan| == 2 && plan[0].dependsOn != [] && plan[1].dependsOn != []
    ensures Levels(plan, Positions(2), {}) == [[0, 1]] && Flushed(plan) == [0, 1]
  {
    assert Positions(2) == [0, 1];
    assert plan[0].dependsOn[0] in plan[0].dependsOn && plan[1].dependsOn[0] in plan[1].dependsOn;
    assert !Ready(plan[0], {}) && !Ready(plan[1], {});
    assert Select(plan, [0, 1], {}, true) == [];
  }

  lemma {:induction false} FlushedRuns(plan: Plan, level: seq<nat>, status: seq<Status>)
    requires Closed(plan) && Within(plan, level) && |level| == 2 && |status| == |plan| && NothingLost(status)
    requires status[level[0]] == status[level[1]] == Pending
    ensures Runnable(plan, level, status, 2) == level
  {
    DoomedIffDangling(plan, level, status, 0);
    DoomedIffDangling(plan, level, status, 1);
    ClosedNeverDangles(plan, level, 0);
    ClosedNeverDangles(plan, level, 1);
    assert Runnable(plan, level, status, 0) == [];
    assert Runnable(plan, level, status, 1) == [level[0]];
  }

  /** Without any cycle: a step listed before the one it depends on, which in turn depends on a missing id.
      Only the second is skipped; the first runs although its dependency has not succeeded and never will. */
  lemma {:induction false} DanglingRunsUnmet(x: PlanStep, y: PlanStep, missing: string)
    requires x.id != y.id && x.dependsOn == [y.id] && y.dependsOn == [missing] && missing != x.id && missing != y.id
    ensures var plan := [x, y];
            var status := [Pending, Pending];
            && UniqueIds(plan) && Acyclic(plan)
            && Levels(plan, Positions(2), {}) == [[0, 1]]
            && Runnable(plan, [0, 1], status, 2) == [0] && Sifted(plan, [0, 1], status, 2) == [Pending, Skipped]
            && !Met(plan, status, 0)
  {
    var plan := [x, y];
    var status := [Pending, Pending];
    assert plan[0] == x && plan[1] == y;
    assert y.id in x.dependsOn;
    FlushedTogether(plan);
    NoWayBack(x, y, missing);
    SecondDangles(x, y, missing);
    FirstRuns(plan, [0, 1], status);
    assert !DependencyMet(plan, status, 0, y.id);
  }

  lemma {:induction false} SecondDangles(x: PlanStep, y: PlanStep, missing: string)
    requires x.id != y.id && x.dependsOn == [y.id] && y.dependsOn == [missing] && missing != x.id && missing != y.id
    ensures !Dangling([x, y], [0, 1], 0) && Dangling([x, y], [0, 1], 1)
  {
    var plan := [x, y];
    assert plan[0] == x && plan[1] == y;
    assert Ids(plan) == {x.id, y.id};
    assert DanglingBy(plan, [0, 1], 1, missing);
    assert !DanglingBy(plan, [0, 1], 0, y.id);
  }

  lemma {:induction false} FirstRuns(plan: Plan, level: seq<nat>, status: seq<Status>)
    requires Within(plan, level) && |level| == 2 && |status| == |plan| && NothingLost(status)
    requires status[level[0]] == status[level[1]] == Pending
    requires !Dangling(plan, level, 0) && Dangling(plan, level, 1)
    ensures Runnable(plan, level, status, 2) == [level[0]]
    ensures Sifted(plan, level, status, 2) == status[level[1] := Skipped]
  {
    DoomedIffDangling(plan, level, status, 0);
    DoomedIffDangling(plan, level, status, 1);
    assert Sifted(plan, level, status, 0) == status && Runnable(plan, level, status, 0) == [];
    assert !Doomed(plan, level, status, 0);
    assert Sifted(plan, level, status, 1) == status;
    assert Runnable(plan, level, status, 1) == [level[0]];
  }

  lemma {:induction false} NoWayBack(x: PlanStep, y: PlanStep, missing: string)
    requires x.id != y.id && x.dependsOn == [y.id] && y.dependsOn == [missing] && missing != x.id && missing != y.id
    ensures Acyclic([x, y])
  {
    var plan := [x, y];
    assert plan[0] == x && plan[1] == y;
    forall p | Path(plan, p) && |p| >= 2 ensures p[0] != p[|p| - 1] {
      assert |p| > 2 ==> Edge(plan, p[1], p[1 + 1]);
      assert Edge(plan, p[0], p[0 + 1]) && Edge(plan, p[|p| - 2], p[|p| - 2 + 1]);
    }
  }

  /** With a success inherited from an earlier plan: a step that depends on a missing id need not run again,
      and so the step that depends on it is not skipped, although the plan alone would have both dangle. */
  lemma {:induction false} InheritedSuccessRuns(x: PlanStep, y: PlanStep, missing: string)
    requires x.id != y.id && x.dependsOn == [missing] && y.dependsOn == [x.id] && missing != x.id && missing != y.id
    ensures var plan := [x, y];
            var status := [Success, Pending];
            && UniqueIds(plan) && Acyclic(plan)
            && Levels(plan, Positions(2), {}) == [[0, 1]] && Flushed(plan) == [0, 1]
            && (forall k: nat | k < 2 :: LooksBack(plan, [0, 1], k))
            && Runnable(plan, [0, 1], status, 2) == [1] && Met(plan, status, 1)
  {
    var plan := [x, y];
    assert plan[0] == x && plan[1] == y;
    FlushedTogether(plan);
    NoWayBack(y, x, missing);
    SwapAcyclic(y, x);
    BothLookBack(x, y, missing);
    DependencyDone(plan, [Success, Pending], x.id);
  }

  lemma {:induction false} BothLookBack(x: PlanStep, y: PlanStep, missing: string)
    requires x.id != y.id && x.dependsOn == [missing] && y.dependsOn == [x.id] && missing != x.id && missing != y.id
    ensures forall k: nat | k < 2 :: LooksBack([x, y], [0, 1], k)
  {
    var plan := [x, y];
    assert plan[0] == x && plan[1] == y;
    assert Ids(plan) == {x.id, y.id};
    assert missing in x.dependsOn && x.id in y.dependsOn;
    assert EarlierInLevel(plan, [0, 1], 1, x.id, 0);
    assert LooksBack(plan, [0, 1], 0) && LooksBack(plan, [0, 1], 1);
  }

  lemma {:induction false} DependencyDone(plan: Plan, status: seq<Status>, d: string)
    requires |plan| == |status| == 2 && plan[0].id == d != plan[1].id && plan[1].dependsOn == [d]
    requires status == [Success, Pending]
    ensures Runnable(plan, [0, 1], status, 2) == [1] && Met(plan, status, 1)
  {
    assert StepById(plan, d) == Some(0);
    assert !Doomed(plan, [0, 1], status, 0);
    assert !DoomedBy(plan, [0, 1], status, 1, d);
    assert Runnable(plan, [0, 1], status, 0) == [];
    assert Runnable(plan, [0, 1], status, 1) == [];
    assert DependencyMet(plan, status, 1, d);
  }

  /** The order of the steps does not matter for cycles. */
  lemma {:induction false} SwapAcyclic(x: PlanStep, y: PlanStep)
    requires Acyclic([x, y])
    ensures Acyclic([y, x])
  {
    forall p ensures !Cycle([y, x], p) {
      assert !Cycle([x, y], p);
      forall a, b ensures Edge([y, x], a, b) ==> Edge([x, y], a, b) {
        assert [y, x][0] == [x, y][1] && [y, x][1] == [x, y][0];
      }
    }
  }
}
