/** The order in which preserved steps are reported: promised to be that of the new plan. */
module PlanReport {
  import opened Prelude
  import opened PlanModel
  import opened PlanPreserve

  /** No new step that is not matched by its id precedes one that is. */
  ghost predicate ExactFirstInPlan(t: Transfer)
    requires t.Valid()
  {
    forall i: nat, j: nat | i < j < |t.plan| && ExactAt(t, j) :: ExactAt(t, i)
  }

  /** The new plan has a step named like each prior success. */
  ghost predicate AllNamed(t: Transfer)
    requires t.Valid()
  {
    forall p: nat | p < |t.prior| && t.priorStatus[p] == Success && t.prior[p].id != "" ::
      t.prior[p].id in Ids(t.plan)
  }

  /** Every honest matcher's report is in the order of the new plan exactly if no step that is not matched by
      its id precedes one that is, or every prior success is named by the new plan. */
  lemma {:induction false} ReportInPlanOrderIff(t: Transfer)
    requires t.Valid()
    ensures (forall matcher: Matcher | Honest(matcher) :: Ascending(Reported(t, Some(matcher))))
       <==> ExactFirstInPlan(t) || AllNamed(t)
  {
    if ExactFirstInPlan(t) || AllNamed(t) {
      forall matcher: Matcher | Honest(matcher) ensures Ascending(Reported(t, Some(matcher))) {
        InOrder(t, matcher);
      }
    } else {
      FirstCandidateIsHonest();
      OutOfOrder(t);
    }
  }

  /** Without a matcher the report is always in order. */
  lemma {:induction false} NoMatcherInPlanOrder(t: Transfer)
    requires t.Valid()
    ensures Ascending(Reported(t, None))
  {
    assert Chosen(t, |t.plan|, true) + [] == Chosen(t, |t.plan|, true);
  }

  // ----- In order -----

  lemma {:induction false} InOrder(t: Transfer, matcher: Matcher)
    requires t.Valid() && Honest(matcher) && (ExactFirstInPlan(t) || AllNamed(t))
    ensures Ascending(Reported(t, Some(matcher)))
  {
    var n := |t.plan|;
    var exact, pending := Chosen(t, n, true), Chosen(t, n, false);
    var matched := Matched(t, matcher, Named(t, n), pending);
    MatchedAscends(t, matcher, Named(t, n), pending);
    if AllNamed(t) {
      NothingToMatch(t, matcher, Named(t, n), pending);
      assert exact + matched == exact;
    } else {
      forall e, m | e in exact && m in matched ensures e < m {
        assert m in pending;
      }
      Concatenated(exact, matched);
    }
  }

  lemma {:induction false} Concatenated(low: seq<nat>, high: seq<nat>)
    requires Ascending(low) && Ascending(high) && forall e, m | e in low && m in high :: e < m
    ensures Ascending(low + high)
  {
    forall i, j | 0 <= i < j < |low + high| ensures (low + high)[i] < (low + high)[j] {
      if i < |low| <= j {
        assert low[i] in low && high[j - |low|] in high;
      }
    }
  }

  lemma {:induction false} MatchedAscends(t: Transfer, matcher: Matcher, used: set<string>, pending: seq<nat>)
    requires t.Valid() && Within(t.plan, pending) && Ascending(pending)
    ensures Ascending(Matched(t, matcher, used, pending))
    decreases |pending|
  {
    if pending != [] {
      var remaining := Candidates(t.prior, t.priorStatus, used);
      var answer := matcher(t.plan[pending[0]].goal, remaining);
      if remaining != [] && answer.Some? && answer.value != "" && answer.value !in used {
        var rest := Matched(t, matcher, used + {answer.value}, pending[1..]);
        MatchedAscends(t, matcher, used + {answer.value}, pending[1..]);
        assert forall m | m in rest :: m in pending[1..];
        assert forall m | m in pending[1..] :: pending[0] < m;
        Concatenated([pending[0]], rest);
      } else {
        MatchedAscends(t, matcher, used, pending[1..]);
      }
    }
  }

  /** If every prior success is named, the matcher has no candidate with an id left. */
  lemma {:induction false} NothingToMatch(t: Transfer, matcher: Matcher, used: set<string>, pending: seq<nat>)
    requires t.Valid() && Honest(matcher) && Within(t.plan, pending) && AllNamed(t)
    requires Named(t, |t.plan|) <= used
    ensures Matched(t, matcher, used, pending) == []
    decreases |pending|
  {
    if pending != [] {
      NamelessLeft(t, used);
      NothingToMatch(t, matcher, used, pending[1..]);
    }
  }

  lemma {:induction false} NamelessLeft(t: Transfer, used: set<string>)
    requires t.Valid() && AllNamed(t) && Named(t, |t.plan|) <= used
    ensures var remaining := Candidates(t.prior, t.priorStatus, used);
            forall k | 0 <= k < |remaining| :: remaining[k].id == ""
  {
    var remaining := Candidates(t.prior, t.priorStatus, used);
    forall k | 0 <= k < |remaining| ensures remaining[k].id == "" {
      var p: nat :| p < |t.prior| && t.priorStatus[p] == Success && t.prior[p].id == remaining[k].id;
      SuccessIsNamed(t, p);
    }
  }

  lemma {:induction false} SuccessIsNamed(t: Transfer, p: nat)
    requires t.Valid() && p < |t.prior| && t.priorStatus[p] == Success
    ensures t.prior[p].id in Ids(t.plan) <==> t.prior[p].id in Named(t, |t.plan|)
  {
    if t.prior[p].id in Ids(t.plan) {
      var i: nat :| i < |t.plan| && t.plan[i].id == t.prior[p].id;
      assert SuccessById(t.prior, t.priorStatus, t.plan[i].id).Some?;
    }
  }

  // ----- Out of order -----

  /** The matcher that takes the first candidate with an id, whatever the goal. */
  function FirstCandidate(goal: string, candidates: seq<Candidate>): (r: Option<string>)
    ensures r.Some? ==> exists k :: 0 <= k < |candidates| && candidates[k].id == r.value
    ensures r.Some? ==> r.value != ""
    ensures r.None? ==> forall k | 0 <= k < |candidates| :: candidates[k].id == ""
  {
    if candidates == [] then None
    else if candidates[0].id != "" then Some(candidates[0].id)
    else
      var r := FirstCandidate(goal, candidates[1..]);
      assert forall k | 0 <= k < |candidates| - 1 :: candidates[1..][k] == candidates[k + 1];
      r
  }

  lemma {:induction false} FirstCandidateIsHonest()
    ensures Honest(FirstCandidate)
  {
  }

  lemma {:induction false} CandidatesHas(prior: Plan, status: seq<Status>, used: set<string>, p: nat)
    requires |prior| == |status| && p < |prior| && status[p] == Success && prior[p].id !in used
    ensures exists k :: 0 <= k < |Candidates(prior, status, used)|
                        && Candidates(prior, status, used)[k].id == prior[p].id
  {
    var last := |prior| - 1;
    var all := Candidates(prior, status, used);
    if p == last {
      assert all[|all| - 1].id == prior[p].id;
    } else {
      CandidatesHas(prior[..last], status[..last], used, p);
      var rest := Candidates(prior[..last], status[..last], used);
      var k :| 0 <= k < |rest| && rest[k].id == prior[p].id;
      assert all[k] == rest[k];
    }
  }

  /** The first pending step is matched if some prior success is not named. */
  lemma {:induction false} FirstIsMatched(t: Transfer, pending: seq<nat>)
    requires t.Valid() && !AllNamed(t) && Within(t.plan, pending) && pending != []
    ensures Matched(t, FirstCandidate, Named(t, |t.plan|), pending) != []
    ensures Matched(t, FirstCandidate, Named(t, |t.plan|), pending)[0] == pending[0]
  {
    var p: nat :| p < |t.prior| && t.priorStatus[p] == Success && t.prior[p].id != "" && t.prior[p].id !in Ids(t.plan);
    SuccessIsNamed(t, p);
    var used := Named(t, |t.plan|);
    CandidatesHas(t.prior, t.priorStatus, used, p);
    var answer := FirstCandidate(t.plan[pending[0]].goal, Candidates(t.prior, t.priorStatus, used));
    assert answer.Some? && answer.value !in used;
  }

  lemma {:induction false} OutOfOrder(t: Transfer)
    requires t.Valid() && !ExactFirstInPlan(t) && !AllNamed(t)
    ensures !Ascending(Reported(t, Some(FirstCandidate)))
  {
    var n := |t.plan|;
    var i: nat, j: nat :| i < j < n && ExactAt(t, j) && !ExactAt(t, i);
    var exact, pending := Chosen(t, n, true), Chosen(t, n, false);
    assert i in pending && j in exact;
    FirstIsMatched(t, pending);
    Disordered(exact, Matched(t, FirstCandidate, Named(t, n), pending), j);
  }

  lemma {:induction false} Disordered(low: seq<nat>, high: seq<nat>, j: nat)
    requires j in low && high != [] && high[0] < j
    ensures !Ascending(low + high)
  {
    var e: nat :| e < |low| && low[e] == j;
    assert (low + high)[e] == j && (low + high)[|low|] == high[0];
  }

  /** The new plan c, a after successes a and b: with c matched to b, the report lists a before c. */
  lemma {:induction false} ReportOutOfOrder(t: Transfer, a: PlanStep, b: PlanStep, c: PlanStep, matcher: Matcher)
    requires t.Valid() && t.prior == [a, b] && t.priorStatus == [Success, Success] && t.plan == [c, a]
    requires a.id != "" && b.id != "" && a.id != b.id && c.id != a.id && c.id != b.id
    requires matcher(c.goal, [Candidate(b.id, b.goal)]) == Some(b.id)
    ensures IdsOf(t.plan, Reported(t, Some(matcher))) == [a.id, c.id]
  {
    OneExact(t, a, b, c);
    OneMatched(t, a, b, c, matcher);
    assert Reported(t, Some(matcher)) == [1, 0];
    assert [1 as nat, 0][..1] == [1];
    assert IdsOf(t.plan, [1]) == [a.id];
  }

  lemma {:induction false} OneMatched(t: Transfer, a: PlanStep, b: PlanStep, c: PlanStep, matcher: Matcher)
    requires t.Valid() && t.prior == [a, b] && t.priorStatus == [Success, Success] && t.plan == [c, a]
    requires b.id != "" && a.id != b.id && matcher(c.goal, [Candidate(b.id, b.goal)]) == Some(b.id)
    ensures Matched(t, matcher, {a.id}, [0]) == [0]
  {
    BothSucceeded(t.prior, t.priorStatus, {a.id}, a, b);
    assert [0 as nat][1..] == [];
    assert Matched(t, matcher, {a.id}, [0]) == [0] + Matched(t, matcher, {a.id} + {b.id}, []);
  }

  lemma {:induction false} OneExact(t: Transfer, a: PlanStep, b: PlanStep, c: PlanStep)
    requires t.Valid() && t.prior == [a, b] && t.priorStatus == [Success, Success] && t.plan == [c, a]
    requires a.id != b.id && c.id != a.id && c.id != b.id
    ensures Chosen(t, 2, true) == [1] && Chosen(t, 2, false) == [0] && Named(t, 2) == {a.id}
  {
    SuccessIsFound(t, 0);
    assert SuccessById(t.prior, t.priorStatus, c.id).None?;
    assert Chosen(t, 0, true) == [] && Chosen(t, 0, false) == [];
    assert Chosen(t, 1, true) == [] && Chosen(t, 1, false) == [0];
  }

  lemma {:induction false} SuccessIsFound(t: Transfer, p: nat)
    requires t.Valid() && p < |t.prior| && t.priorStatus[p] == Success
    ensures SuccessById(t.prior, t.priorStatus, t.prior[p].id).Some?
  {
  }

  lemma {:induction false} BothSucceeded(prior: Plan, status: seq<Status>, used: set<string>, a: PlanStep, b: PlanStep)
    requires prior == [a, b] && status == [Success, Success] && a.id in used && b.id !in used
    ensures Candidates(prior, status, used) == [Candidate(b.id, b.goal)]
  {
    assert prior[..1] == [a] && status[..1] == [Success];
    assert [a][..0] == [] && [Success][..0] == [];
    assert Candidates([a], [Success], used) == [];
  }
}
