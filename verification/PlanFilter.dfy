/** The filter at the start of a level: a step is skipped if a dependency can no longer succeed. The filter
    goes through the level once, so it sees only what it has skipped before. */
module PlanFilter {
  import opened Prelude
  import opened PlanModel

  /** Every dependency of step `i` is another step, and that step has succeeded. */
  ghost predicate Met(plan: Plan, status: seq<Status>, i: nat)
    requires i < |plan| == |status|
  {
    forall d <- plan[i].dependsOn :: DependencyMet(plan, status, i, d)
  }

  ghost predicate DependencyMet(plan: Plan, status: seq<Status>, i: nat, d: string)
    requires i < |plan| == |status|
  {
    var j := StepById(plan, d);
    j.Some? && j.value != i && status[j.value] == Success
  }

  /** A dependency that will never succeed: unknown, failed or skipped. */
  predicate Hopeless(plan: Plan, status: seq<Status>, d: string)
    requires |status| == |plan|
  {
    var j := StepById(plan, d);
    j.None? || status[j.value].Failed? || status[j.value].Skipped?
  }

  predicate DepFailed(plan: Plan, status: seq<Status>, i: nat)
    requires i < |plan| == |status|
  {
    exists d <- plan[i].dependsOn :: Hopeless(plan, status, d)
  }

  predicate IsSettled(s: Status) {
    s.Success? || s.Failed? || s.Skipped?
  }

  /** No step has failed or been skipped yet. */
  ghost predicate NothingLost(status: seq<Status>) {
    forall j | 0 <= j < |status| :: !status[j].Failed? && !status[j].Skipped?
  }

  // ----- What the filter does to a level, told from the statuses before it -----

  /** Dependency `d` of the level's `k`-th step is the `m`-th step of the level. */
  predicate EarlierInLevel(plan: Plan, level: seq<nat>, k: nat, d: string, m: nat) {
    m < k <= |level| && StepById(plan, d) == Some(level[m])
  }

  /** The `k`-th step of the level is open and depends on something hopeless, or on an earlier doomed step
      of the level. */
  ghost predicate Doomed(plan: Plan, level: seq<nat>, status: seq<Status>, k: nat)
    requires Within(plan, level) && |status| == |plan| && k < |level|
    decreases k, 1
  {
    !IsSettled(status[level[k]]) && exists d <- plan[level[k]].dependsOn :: DoomedBy(plan, level, status, k, d)
  }

  ghost predicate DoomedBy(plan: Plan, level: seq<nat>, status: seq<Status>, k: nat, d: string)
    requires Within(plan, level) && |status| == |plan| && k < |level|
    decreases k, 0
  {
    || Hopeless(plan, status, d)
    || exists m: nat :: EarlierInLevel(plan, level, k, d, m) && Doomed(plan, level, status, m)
  }

  /** The statuses after the first `k` steps of the level have been filtered. */
  ghost function Sifted(plan: Plan, level: seq<nat>, status: seq<Status>, k: nat): (r: seq<Status>)
    requires Within(plan, level) && |status| == |plan| && k <= |level|
    ensures |r| == |plan|
  {
    if k == 0 then status
    else
      var r := Sifted(plan, level, status, k - 1);
      if Doomed(plan, level, status, k - 1) then r[level[k - 1] := Skipped] else r
  }

  /** The open steps among the first `k` of the level that are not doomed, in order. */
  ghost function Runnable(plan: Plan, level: seq<nat>, status: seq<Status>, k: nat): (r: seq<nat>)
    requires Within(plan, level) && |status| == |plan| && k <= |level|
    ensures Within(plan, r)
  {
    if k == 0 then []
    else
      var r := Runnable(plan, level, status, k - 1);
      var i := level[k - 1];
      if !IsSettled(status[i]) && !Doomed(plan, level, status, k - 1) then r + [i] else r
  }

  lemma {:induction false} SiftedOutside(plan: Plan, level: seq<nat>, status: seq<Status>, k: nat, i: nat)
    requires Within(plan, level) && |status| == |plan| && k <= |level| && i < |plan| && i !in level[..k]
    ensures Sifted(plan, level, status, k)[i] == status[i]
  {
    if k > 0 {
      assert level[..k] == level[..k - 1] + [level[k - 1]];
      SiftedOutside(plan, level, status, k - 1, i);
    }
  }

  /** A step of a level is set to skipped exactly if it is doomed. */
  lemma {:induction false} SiftedAt(plan: Plan, level: seq<nat>, status: seq<Status>, k: nat, m: nat)
    requires Within(plan, level) && Distinct(level) && |status| == |plan| && m < k <= |level|
    ensures Sifted(plan, level, status, k)[level[m]]
         == if Doomed(plan, level, status, m) then Skipped else status[level[m]]
  {
    if m == k - 1 {
      SiftedOutside(plan, level, status, m, level[m]);
    } else {
      SiftedAt(plan, level, status, k - 1, m);
    }
  }

  lemma {:induction false} HopelessIff(plan: Plan, level: seq<nat>, status: seq<Status>, k: nat, d: string)
    requires Within(plan, level) && Distinct(level) && |status| == |plan| && k < |level|
    ensures Hopeless(plan, Sifted(plan, level, status, k), d) <==> DoomedBy(plan, level, status, k, d)
  {
    var j := StepById(plan, d);
    if j.Some? {
      if j.value in level[..k] {
        var m: nat :| m < k && level[m] == j.value;
        SiftedAt(plan, level, status, k, m);
        assert EarlierInLevel(plan, level, k, d, m);
        assert forall n: nat | EarlierInLevel(plan, level, k, d, n) :: n == m;
      } else {
        SiftedOutside(plan, level, status, k, j.value);
        assert forall m: nat | m < k :: level[m] in level[..k];
      }
    }
  }

  /** What the filter tests when it comes to an open step tells whether that step is doomed. */
  lemma {:induction false} TestIff(plan: Plan, level: seq<nat>, status: seq<Status>, k: nat)
    requires Within(plan, level) && Distinct(level) && |status| == |plan| && k < |level|
    ensures var now := Sifted(plan, level, status, k);
            && now[level[k]] == status[level[k]]
            && (!IsSettled(status[level[k]]) && DepFailed(plan, now, level[k]) <==> Doomed(plan, level, status, k))
  {
    SiftedOutside(plan, level, status, k, level[k]);
    forall d | d in plan[level[k]].dependsOn
      ensures Hopeless(plan, Sifted(plan, level, status, k), d) <==> DoomedBy(plan, level, status, k, d)
    {
      HopelessIff(plan, level, status, k, d);
    }
  }

  lemma {:induction false} RunnableHas(plan: Plan, level: seq<nat>, status: seq<Status>, k: nat)
    requires Within(plan, level) && Distinct(level) && |status| == |plan| && k <= |level|
    ensures var r := Runnable(plan, level, status, k);
            && Distinct(r) && (forall i <- r :: i in level[..k])
            && forall m: nat | m < k ::
                 level[m] in r <==> !IsSettled(status[level[m]]) && !Doomed(plan, level, status, m)
  {
    if k > 0 {
      RunnableHas(plan, level, status, k - 1);
      assert level[..k] == level[..k - 1] + [level[k - 1]];
      assert level[k - 1] !in level[..k - 1];
      assert level[k - 1] !in Runnable(plan, level, status, k - 1);
    }
  }

  // ----- The same, step by step -----

  /** The filter skips something exactly if a dependency of an open step was hopeless beforehand. */
  lemma {:induction false} SomethingSkippedIff(plan: Plan, level: seq<nat>, status: seq<Status>)
    requires Within(plan, level) && |status| == |plan|
    ensures (exists k: nat :: k < |level| && Doomed(plan, level, status, k))
       <==> (exists k: nat :: k < |level| && Blamed(plan, level, status, k))
  {
    if k: nat :| k < |level| && Doomed(plan, level, status, k) {
      var m := Culprit(plan, level, status, k);
    }
    if k: nat :| k < |level| && Blamed(plan, level, status, k) {
      var d :| d in plan[level[k]].dependsOn && Hopeless(plan, status, d);
      assert DoomedBy(plan, level, status, k, d);
      assert Doomed(plan, level, status, k);
    }
  }

  ghost predicate Blamed(plan: Plan, level: seq<nat>, status: seq<Status>, k: nat)
    requires Within(plan, level) && |status| == |plan| && k < |level|
  {
    !IsSettled(status[level[k]]) && DepFailed(plan, status, level[k])
  }

  lemma {:induction false} Culprit(plan: Plan, level: seq<nat>, status: seq<Status>, k: nat) returns (m: nat)
    requires Within(plan, level) && |status| == |plan| && k < |level| && Doomed(plan, level, status, k)
    ensures m <= k && Blamed(plan, level, status, m)
    decreases k
  {
    if DepFailed(plan, status, level[k]) {
      m := k;
    } else {
      var d :| d in plan[level[k]].dependsOn && DoomedBy(plan, level, status, k, d);
      m :| EarlierInLevel(plan, level, k, d, m) && Doomed(plan, level, status, m);
      m := Culprit(plan, level, status, m);
    }
  }

  /** What the filter does to step `i` of a level: settled steps are left alone, the others run or
      are skipped; `seen` tells whether the filter has reached it. */
  ghost predicate Filtered(plan: Plan, before: seq<Status>, after: seq<Status>, i: nat, seen: bool, runs: bool)
    requires i < |plan| == |before| == |after|
  {
    if !seen || IsSettled(before[i]) then after[i] == before[i] && !runs
    else if runs then after[i] == before[i] && !DepFailed(plan, before, i)
    else after[i] == Skipped && DepFailed(plan, after, i)
  }

  lemma {:induction false} FilteredHolds(plan: Plan, level: seq<nat>, status: seq<Status>, i: nat)
    requires Within(plan, level) && Distinct(level) && |status| == |plan| && i < |plan|
    ensures Filtered(plan, status, Sifted(plan, level, status, |level|), i, i in level,
                     i in Runnable(plan, level, status, |level|))
  {
    RunnableHas(plan, level, status, |level|);
    assert level[..|level|] == level;
    if i in level {
      var k: nat :| k < |level| && level[k] == i;
      SiftedAt(plan, level, status, |level|, k);
      if Doomed(plan, level, status, k) {
        DoomedStays(plan, level, status, k);
      } else {
        assert forall d <- plan[i].dependsOn :: Hopeless(plan, status, d) ==> DoomedBy(plan, level, status, k, d);
      }
    } else {
      SiftedOutside(plan, level, status, |level|, i);
    }
  }

  lemma {:induction false} DoomedStays(plan: Plan, level: seq<nat>, status: seq<Status>, k: nat)
    requires Within(plan, level) && Distinct(level) && |status| == |plan| && k < |level|
    requires Doomed(plan, level, status, k)
    ensures DepFailed(plan, Sifted(plan, level, status, |level|), level[k])
  {
    var after := Sifted(plan, level, status, |level|);
    var d :| d in plan[level[k]].dependsOn && DoomedBy(plan, level, status, k, d);
    if Hopeless(plan, status, d) {
      var j := StepById(plan, d);
      if j.Some? {
        SettledStays(plan, level, status, |level|, j.value);
      }
    } else {
      var m: nat :| EarlierInLevel(plan, level, k, d, m) && Doomed(plan, level, status, m);
      SiftedAt(plan, level, status, |level|, m);
    }
    assert Hopeless(plan, after, d);
  }

  lemma {:induction false} SettledStays(plan: Plan, level: seq<nat>, status: seq<Status>, k: nat, i: nat)
    requires Within(plan, level) && |status| == |plan| && k <= |level| && i < |plan| && IsSettled(status[i])
    ensures Sifted(plan, level, status, k)[i] == status[i]
  {
    if k > 0 {
      SettledStays(plan, level, status, k - 1, i);
    }
  }

  /** The whole effect of the filter on the statuses and on the list of runnable steps. */
  lemma {:induction false} FilterEnds(plan: Plan, level: seq<nat>, status: seq<Status>)
    requires Within(plan, level) && Distinct(level) && |status| == |plan|
    requires forall k | 0 <= k < |level| :: status[level[k]] == Pending || IsSettled(status[level[k]])
    ensures var after, runnable := Sifted(plan, level, status, |level|), Runnable(plan, level, status, |level|);
            && Distinct(runnable)
            && (forall k: nat | k < |level| ::
                  after[level[k]] == if Doomed(plan, level, status, k) then Skipped else status[level[k]])
            && (forall i: nat | i < |plan| && i !in level :: after[i] == status[i])
            && (forall i: nat | i < |plan| :: Filtered(plan, status, after, i, i in level, i in runnable))
            && (forall i: nat | i < |plan| :: i in runnable ==> after[i] == Pending)
  {
    var after := Sifted(plan, level, status, |level|);
    RunnableHas(plan, level, status, |level|);
    assert level[..|level|] == level;
    forall k: nat | k < |level|
      ensures after[level[k]] == if Doomed(plan, level, status, k) then Skipped else status[level[k]]
    {
      SiftedAt(plan, level, status, |level|, k);
    }
    forall i: nat | i < |plan| && i !in level ensures after[i] == status[i] {
      SiftedOutside(plan, level, status, |level|, i);
    }
    forall i: nat | i < |plan|
      ensures Filtered(plan, status, after, i, i in level, i in Runnable(plan, level, status, |level|))
    {
      FilteredHolds(plan, level, status, i);
    }
  }
}
