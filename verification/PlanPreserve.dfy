/** Carrying completed steps into a new plan: exact ids first, then a semantic matcher. */
module PlanPreserve {
  import opened Prelude
  import opened PlanModel

  datatype Candidate = Candidate(id: string, goal: string)

  /** Finds the best candidate for a goal, or none. */
  type Matcher = (string, seq<Candidate>) -> Option<string>

  /** The matcher only answers with the id of a candidate. */
  ghost predicate Honest(matcher: Matcher) {
    forall goal: string, candidates: seq<Candidate> :: matcher(goal, candidates).Some? ==>
      exists k :: 0 <= k < |candidates| && candidates[k].id == matcher(goal, candidates).value
  }

  /** The last succeeded step with this id. */
  function SuccessById(plan: Plan, status: seq<Status>, id: string): (r: Option<nat>)
    requires |plan| == |status|
    ensures r.Some? ==> r.value < |plan| && plan[r.value].id == id && status[r.value] == Success
    ensures r.None? ==> forall i | 0 <= i < |plan| && status[i] == Success :: plan[i].id != id
  {
    if plan == [] then None
    else
      var last := |plan| - 1;
      if plan[last].id == id && status[last] == Success then Some(last)
      else SuccessById(plan[..last], status[..last], id)
  }

  /** The succeeded steps whose ids are not used yet. */
  function Candidates(plan: Plan, status: seq<Status>, used: set<string>): (r: seq<Candidate>)
    requires |plan| == |status|
    ensures forall k | 0 <= k < |r| ::
              r[k].id !in used && exists i :: 0 <= i < |plan| && status[i] == Success && plan[i].id == r[k].id
  {
    if plan == [] then []
    else
      var last := |plan| - 1;
      var rest := Candidates(plan[..last], status[..last], used);
      assert forall i | 0 <= i < last :: plan[..last][i] == plan[i] && status[..last][i] == status[i];
      if status[last] == Success && plan[last].id !in used
      then rest + [Candidate(plan[last].id, plan[last].goal)] else rest
  }

  /** New step `i` is bound to a succeeded step of the old plan whose id is used. */
  ghost predicate BoundAt(prior: Plan, priorStatus: seq<Status>, plan: Plan, bound: map<nat, nat>,
                          used: set<string>, i: nat)
    requires |prior| == |priorStatus|
  {
    i in bound ==> i < |plan| && bound[i] < |prior| && priorStatus[bound[i]] == Success && prior[bound[i]].id in used
  }

  /** Different new steps are bound to prior successes with different ids. */
  ghost predicate Apart(prior: Plan, bound: map<nat, nat>, i: nat, j: nat) {
    (i in bound && j in bound && i != j && bound[i] < |prior| && bound[j] < |prior|) ==>
      prior[bound[i]].id != prior[bound[j]].id
  }

  /** `bound` maps positions in the new plan to succeeded positions in the old one. */
  ghost predicate Binding(prior: Plan, priorStatus: seq<Status>, plan: Plan, bound: map<nat, nat>, used: set<string>)
    requires |prior| == |priorStatus|
  {
    && (forall i: nat {:trigger BoundAt(prior, priorStatus, plan, bound, used, i)} ::
          BoundAt(prior, priorStatus, plan, bound, used, i))
    && (forall i: nat, j: nat {:trigger Apart(prior, bound, i, j)} :: Apart(prior, bound, i, j))
  }

  /** A bound step inherits success and observation; another one is untouched. */
  ghost predicate InheritedAt(priorObservation: seq<Option<Observation>>, bound: map<nat, nat>,
                              status0: seq<Status>, observation0: seq<Option<Observation>>,
                              status: seq<Status>, observation: seq<Option<Observation>>, i: nat)
    requires i < |status| == |status0| == |observation| == |observation0|
  {
    if i in bound then status[i] == Success && bound[i] < |priorObservation|
                       && observation[i] == priorObservation[bound[i]]
    else status[i] == status0[i] && observation[i] == observation0[i]
  }

  ghost predicate Inherited(priorObservation: seq<Option<Observation>>, bound: map<nat, nat>,
                            status0: seq<Status>, observation0: seq<Option<Observation>>,
                            status: seq<Status>, observation: seq<Option<Observation>>)
  {
    && |status| == |status0| == |observation| == |observation0|
    && forall i: nat {:trigger InheritedAt(priorObservation, bound, status0, observation0, status, observation, i)}
         | i < |status| :: InheritedAt(priorObservation, bound, status0, observation0, status, observation, i)
  }

  function IdsOf(plan: Plan, positions: seq<nat>): (r: seq<string>)
    requires forall k | 0 <= k < |positions| :: positions[k] < |plan|
    ensures |r| == |positions| && forall k | 0 <= k < |r| :: r[k] == plan[positions[k]].id
  {
    if positions == [] then []
    else IdsOf(plan, positions[..|positions| - 1]) + [plan[positions[|positions| - 1]].id]
  }

  ghost predicate FirstWithId(plan: Plan, i: nat)
    requires i < |plan|
  {
    forall j | 0 <= j < i :: plan[j].id != plan[i].id
  }

  /** One more new step is bound to a prior success that was not used yet. */
  lemma BindOne(prior: Plan, priorStatus: seq<Status>, priorObservation: seq<Option<Observation>>,
                plan: Plan, bound: map<nat, nat>, used: set<string>, k: nat, p: nat,
                status0: seq<Status>, observation0: seq<Option<Observation>>,
                status: seq<Status>, observation: seq<Option<Observation>>)
    requires |prior| == |priorStatus| == |priorObservation| && k < |plan| == |status0| && p < |prior|
    requires Binding(prior, priorStatus, plan, bound, used)
    requires Inherited(priorObservation, bound, status0, observation0, status, observation)
    requires priorStatus[p] == Success && prior[p].id !in used && k !in bound
    ensures Binding(prior, priorStatus, plan, bound[k := p], used + {prior[p].id})
    ensures Inherited(priorObservation, bound[k := p], status0, observation0,
                      status[k := Success], observation[k := priorObservation[p]])
  {
    var bound1, used1 := bound[k := p], used + {prior[p].id};
    forall i: nat {:trigger BoundAt(prior, priorStatus, plan, bound1, used1, i)}
      ensures BoundAt(prior, priorStatus, plan, bound1, used1, i)
    {
      assert BoundAt(prior, priorStatus, plan, bound, used, i);
    }
    forall i: nat, j: nat {:trigger Apart(prior, bound1, i, j)} ensures Apart(prior, bound1, i, j) {
      assert Apart(prior, bound, i, j);
      assert BoundAt(prior, priorStatus, plan, bound, used, i);
      assert BoundAt(prior, priorStatus, plan, bound, used, j);
    }
    var status1, observation1 := status[k := Success], observation[k := priorObservation[p]];
    forall i: nat {:trigger InheritedAt(priorObservation, bound1, status0, observation0, status1, observation1, i)}
      | i < |status| ensures InheritedAt(priorObservation, bound1, status0, observation0, status1, observation1, i)
    {
      assert InheritedAt(priorObservation, bound, status0, observation0, status, observation, i);
    }
  }

  /** If new step `i` has the id of a prior success, that id is used; the first such step has it. */
  ghost predicate NamedAt(prior: Plan, priorStatus: seq<Status>, plan: Plan, i: nat,
                          bound: map<nat, nat>, used: set<string>)
    requires |prior| == |priorStatus| && i < |plan|
  {
    SuccessById(prior, priorStatus, plan[i].id).Some? ==>
      && plan[i].id in used
      && (FirstWithId(plan, i) ==> i in bound && bound[i] < |prior| && prior[bound[i]].id == plan[i].id)
  }

  /** The first new step with the id of a prior success is bound to it. */
  ghost predicate ExactFirst(prior: Plan, priorStatus: seq<Status>, plan: Plan, bound: map<nat, nat>, used: set<string>)
    requires |prior| == |priorStatus|
  {
    forall i: nat {:trigger NamedAt(prior, priorStatus, plan, i, bound, used)} | i < |plan| ::
      NamedAt(prior, priorStatus, plan, i, bound, used)
  }

  ghost function SetOf(positions: seq<nat>): set<nat> {
    set m | 0 <= m < |positions| :: positions[m]
  }

  lemma {:induction false} Extended(plan: Plan, positions: seq<nat>, k: nat)
    requires Within(plan, positions) && k < |plan|
    ensures Within(plan, positions + [k])
    ensures IdsOf(plan, positions + [k]) == IdsOf(plan, positions) + [plan[k].id]
    ensures SetOf(positions + [k]) == SetOf(positions) + {k}
  {
    assert forall m | 0 <= m < |positions| :: (positions + [k])[m] == positions[m];
    assert (positions + [k])[|positions|] == k;
    assert (positions + [k])[..|positions|] == positions;
  }

  /** Only a prior success that no new step names is bound to a step with another id. */
  ghost predicate SemanticLast(prior: Plan, plan: Plan, bound: map<nat, nat>) {
    forall i | i in bound && i < |plan| && bound[i] < |prior| && prior[bound[i]].id != plan[i].id ::
      prior[bound[i]].id !in Ids(plan)
  }

  /** All bound steps have the id they are bound to, and every used id is that of a step so far. */
  ghost predicate ExactSoFar(prior: Plan, plan: Plan, bound: map<nat, nat>, used: set<string>, k: nat) {
    && (forall i <- bound :: i < k && i < |plan| && bound[i] < |prior| && prior[bound[i]].id == plan[i].id)
    && used <= IdsBefore(plan, k)
  }

  ghost function IdsBefore(plan: Plan, k: nat): set<string> {
    set i | 0 <= i < k && i < |plan| :: plan[i].id
  }

  /** Binding an unused prior success disturbs no exact match, and no new step has its id. */
  lemma BindUnnamed(prior: Plan, priorStatus: seq<Status>, plan: Plan, bound: map<nat, nat>, used: set<string>,
                    k: nat, p: nat)
    requires |prior| == |priorStatus| && k < |plan| && p < |prior| && k !in bound
    requires priorStatus[p] == Success && prior[p].id !in used
    requires ExactFirst(prior, priorStatus, plan, bound, used) && SemanticLast(prior, plan, bound)
    ensures ExactFirst(prior, priorStatus, plan, bound[k := p], used + {prior[p].id})
    ensures SemanticLast(prior, plan, bound[k := p])
  {
    forall i: nat | i < |plan|
      ensures plan[i].id != prior[p].id
      ensures NamedAt(prior, priorStatus, plan, i, bound[k := p], used + {prior[p].id})
    {
      assert NamedAt(prior, priorStatus, plan, i, bound, used);
    }
  }

  /** The old plan with its results, and the new plan as it came. */
  datatype Transfer = Transfer(
    prior: Plan, priorStatus: seq<Status>, priorObservation: seq<Option<Observation>>,
    plan: Plan, status0: seq<Status>, observation0: seq<Option<Observation>>)
  {
    ghost predicate Valid() {
      |prior| == |priorStatus| == |priorObservation| && |plan| == |status0| == |observation0|
    }
  }

  // ----- Which steps are bound, told from the inputs -----

  /** New step `i` is the first one named like a prior success. */
  ghost predicate ExactAt(t: Transfer, i: nat)
    requires t.Valid() && i < |t.plan|
  {
    SuccessById(t.prior, t.priorStatus, t.plan[i].id).Some? && FirstWithId(t.plan, i)
  }

  /** The positions below `k` that are (or are not) exact, in plan order. */
  ghost function Chosen(t: Transfer, k: nat, exact: bool): (r: seq<nat>)
    requires t.Valid() && k <= |t.plan|
    ensures Within(t.plan, r) && Ascending(r)
    ensures forall i: nat {:trigger i in r} :: i in r <==> i < k && ExactAt(t, i) == exact
  {
    if k == 0 then []
    else
      var r := Chosen(t, k - 1, exact);
      assert forall m | 0 <= m < |r| :: r[m] in r;
      if ExactAt(t, k - 1) == exact then r + [k - 1] else r
  }

  /** The ids that new steps below `k` share with prior successes. */
  ghost function Named(t: Transfer, k: nat): set<string>
    requires t.Valid() && k <= |t.plan|
  {
    set i: nat | i < k && SuccessById(t.prior, t.priorStatus, t.plan[i].id).Some? :: t.plan[i].id
  }

  /** The steps among `pending` that the matcher binds, when the ids in `used` are taken. An empty answer
      is none. */
  ghost function Matched(t: Transfer, matcher: Matcher, used: set<string>, pending: seq<nat>): (r: seq<nat>)
    requires t.Valid() && Within(t.plan, pending)
    ensures Within(t.plan, r)
    ensures forall k | 0 <= k < |r| :: r[k] in pending
    decreases |pending|
  {
    if pending == [] then []
    else
      var remaining := Candidates(t.prior, t.priorStatus, used);
      if remaining == [] then []
      else
        var answer := matcher(t.plan[pending[0]].goal, remaining);
        if answer.Some? && answer.value != "" && answer.value !in used
        then [pending[0]] + Matched(t, matcher, used + {answer.value}, pending[1..])
        else Matched(t, matcher, used, pending[1..])
  }

  /** All bound steps in report order: the exact ones, then those the matcher binds. */
  ghost function Reported(t: Transfer, matcher: Option<Matcher>): (r: seq<nat>)
    requires t.Valid()
    ensures Within(t.plan, r)
  {
    var n := |t.plan|;
    Chosen(t, n, true)
    + if matcher.Some? then Matched(t, matcher.value, Named(t, n), Chosen(t, n, false)) else []
  }

  /** A name is used before new step `k` of the first pass if an earlier step shares it. */
  lemma {:induction false} ExactNow(t: Transfer, k: nat)
    requires t.Valid() && k < |t.plan|
    ensures var p := SuccessById(t.prior, t.priorStatus, t.plan[k].id);
            && (ExactAt(t, k) <==> p.Some? && t.plan[k].id !in Named(t, k))
            && Named(t, k + 1) == if p.Some? then Named(t, k) + {t.plan[k].id} else Named(t, k)
  {
    if t.plan[k].id in Named(t, k) {
      var i: nat :| i < k && t.plan[i].id == t.plan[k].id;
    }
  }

  /** What both passes keep: bindings, what they do to the new steps, and the report. `positions` are
      the bound steps in report order. */
  ghost predicate Carried(t: Transfer, status: seq<Status>, observation: seq<Option<Observation>>,
                          preserved: seq<string>, used: set<string>, bound: map<nat, nat>, positions: seq<nat>)
    requires t.Valid()
  {
    && Binding(t.prior, t.priorStatus, t.plan, bound, used)
    && Inherited(t.priorObservation, bound, t.status0, t.observation0, status, observation)
    && Within(t.plan, positions) && bound.Keys == SetOf(positions) && preserved == IdsOf(t.plan, positions)
  }

  lemma CarryOne(t: Transfer, status: seq<Status>, observation: seq<Option<Observation>>, preserved: seq<string>,
                 used: set<string>, bound: map<nat, nat>, positions: seq<nat>, k: nat, p: nat)
    requires t.Valid() && Carried(t, status, observation, preserved, used, bound, positions)
    requires k < |t.plan| && p < |t.prior| && t.priorStatus[p] == Success && t.prior[p].id !in used && k !in bound
    ensures Carried(t, status[k := Success], observation[k := t.priorObservation[p]], preserved + [t.plan[k].id],
                    used + {t.prior[p].id}, bound[k := p], positions + [k])
  {
    BindOne(t.prior, t.priorStatus, t.priorObservation, t.plan, bound, used, k, p,
            t.status0, t.observation0, status, observation);
    Extended(t.plan, positions, k);
  }

  /** Before new step `k` of the first pass. */
  ghost predicate ExactPass(t: Transfer, used: set<string>, bound: map<nat, nat>, pending: seq<nat>, k: nat)
    requires t.Valid()
  {
    && (forall i: nat {:trigger NamedAt(t.prior, t.priorStatus, t.plan, i, bound, used)} | i < k && i < |t.plan| ::
          NamedAt(t.prior, t.priorStatus, t.plan, i, bound, used))
    && ExactSoFar(t.prior, t.plan, bound, used, k)
    && (forall m | 0 <= m < |pending| :: pending[m] < k && pending[m] < |t.plan| && pending[m] !in bound)
    && Ascending(pending)
  }

  lemma ExactStep(t: Transfer, used: set<string>, bound: map<nat, nat>, pending: seq<nat>, k: nat, p: nat)
    requires t.Valid() && k < |t.plan| && ExactPass(t, used, bound, pending, k)
    requires p < |t.prior| && t.prior[p].id == t.plan[k].id && t.plan[k].id !in used
    ensures ExactPass(t, used + {t.plan[k].id}, bound[k := p], pending, k + 1)
  {
    var used1, bound1 := used + {t.plan[k].id}, bound[k := p];
    forall i: nat {:trigger NamedAt(t.prior, t.priorStatus, t.plan, i, bound1, used1)} | i < k + 1
      ensures NamedAt(t.prior, t.priorStatus, t.plan, i, bound1, used1)
    {
      assert i < k ==> NamedAt(t.prior, t.priorStatus, t.plan, i, bound, used);
    }
  }

  lemma PendingStep(t: Transfer, used: set<string>, bound: map<nat, nat>, pending: seq<nat>, k: nat)
    requires t.Valid() && k < |t.plan| && ExactPass(t, used, bound, pending, k)
    requires SuccessById(t.prior, t.priorStatus, t.plan[k].id).None? || t.plan[k].id in used
    ensures ExactPass(t, used, bound, pending + [k], k + 1)
  {
    assert t.plan[k].id in IdsBefore(t.plan, k) ==> !FirstWithId(t.plan, k);
    assert NamedAt(t.prior, t.priorStatus, t.plan, k, bound, used);
  }

  /** The pending positions from `m` on are unbound and beyond those bound semantically. */
  ghost predicate Ahead(semantic: seq<nat>, pending: seq<nat>, m: nat, bound: map<nat, nat>) {
    forall n | m <= n < |pending| ::
      pending[n] !in bound && forall l | 0 <= l < |semantic| :: semantic[l] < pending[n]
  }

  lemma OneAhead(semantic: seq<nat>, pending: seq<nat>, m: nat, bound: map<nat, nat>, p: nat)
    requires Ascending(pending) && Ascending(semantic) && m < |pending| && Ahead(semantic, pending, m, bound)
    ensures Ascending(semantic + [pending[m]])
    ensures Ahead(semantic + [pending[m]], pending, m + 1, bound[pending[m] := p])
  {
  }

  /** New step `i` has taken over the result of a prior success, that of position `p`. */
  ghost predicate TakenFrom(t: Transfer, observation: seq<Option<Observation>>, i: nat, p: nat)
    requires t.Valid() && i < |observation|
  {
    p < |t.prior| && t.priorStatus[p] == Success && observation[i] == t.priorObservation[p]
  }

  /** What the caller sees of new step `i`: it is as it came, or it has succeeded with the result of a
      prior success; the first step with the id of a prior success has a result of that id. */
  ghost predicate Handed(t: Transfer, status: seq<Status>, observation: seq<Option<Observation>>, i: nat)
    requires t.Valid() && i < |t.plan| == |status| == |observation|
  {
    && ((status[i] == t.status0[i] && observation[i] == t.observation0[i])
        || (status[i] == Success && exists p: nat :: TakenFrom(t, observation, i, p)))
    && (SuccessById(t.prior, t.priorStatus, t.plan[i].id).Some? && FirstWithId(t.plan, i) ==>
          status[i] == Success && exists p: nat :: TakenFrom(t, observation, i, p) && t.prior[p].id == t.plan[i].id)
  }

  ghost predicate AllHanded(t: Transfer, status: seq<Status>, observation: seq<Option<Observation>>) {
    && t.Valid() && |status| == |observation| == |t.plan|
    && forall i: nat {:trigger Handed(t, status, observation, i)} | i < |t.plan| :: Handed(t, status, observation, i)
  }

  lemma CarriedIsHanded(t: Transfer, status: seq<Status>, observation: seq<Option<Observation>>,
                        preserved: seq<string>, used: set<string>, bound: map<nat, nat>, positions: seq<nat>)
    requires t.Valid() && Carried(t, status, observation, preserved, used, bound, positions)
    requires ExactFirst(t.prior, t.priorStatus, t.plan, bound, used)
    ensures AllHanded(t, status, observation) && |preserved| == |positions|
  {
    forall i: nat | i < |t.plan| ensures Handed(t, status, observation, i) {
      assert InheritedAt(t.priorObservation, bound, t.status0, t.observation0, status, observation, i);
      assert BoundAt(t.prior, t.priorStatus, t.plan, bound, used, i);
      assert NamedAt(t.prior, t.priorStatus, t.plan, i, bound, used);
      if i in bound {
        assert TakenFrom(t, observation, i, bound[i]);
      }
    }
  }

  /** What holds before new step `k` of the first pass. */
  ghost predicate FirstPass(t: Transfer, status: seq<Status>, observation: seq<Option<Observation>>,
                            preserved: seq<string>, used: set<string>, pending: seq<nat>,
                            bound: map<nat, nat>, exact: seq<nat>, k: nat)
  {
    && t.Valid() && k <= |t.plan|
    && Carried(t, status, observation, preserved, used, bound, exact)
    && ExactPass(t, used, bound, pending, k)
    && exact == Chosen(t, k, true) && pending == Chosen(t, k, false) && used == Named(t, k)
    && |exact| + |pending| == k
  }

  lemma FirstPassBinds(t: Transfer, status: seq<Status>, observation: seq<Option<Observation>>,
                       preserved: seq<string>, used: set<string>, pending: seq<nat>,
                       bound: map<nat, nat>, exact: seq<nat>, k: nat, p: nat)
    requires k < |t.plan| && FirstPass(t, status, observation, preserved, used, pending, bound, exact, k)
    requires SuccessById(t.prior, t.priorStatus, t.plan[k].id) == Some(p) && t.plan[k].id !in used
    ensures FirstPass(t, status[k := Success], observation[k := t.priorObservation[p]], preserved + [t.plan[k].id],
                      used + {t.plan[k].id}, pending, bound[k := p], exact + [k], k + 1)
  {
    assert k !in bound;
    CarryOne(t, status, observation, preserved, used, bound, exact, k, p);
    ExactStep(t, used, bound, pending, k, p);
    ExactNow(t, k);
  }

  lemma FirstPassWaits(t: Transfer, status: seq<Status>, observation: seq<Option<Observation>>,
                       preserved: seq<string>, used: set<string>, pending: seq<nat>,
                       bound: map<nat, nat>, exact: seq<nat>, k: nat)
    requires k < |t.plan| && FirstPass(t, status, observation, preserved, used, pending, bound, exact, k)
    requires SuccessById(t.prior, t.priorStatus, t.plan[k].id).None? || t.plan[k].id in used
    ensures FirstPass(t, status, observation, preserved, used, pending + [k], bound, exact, k + 1)
  {
    PendingStep(t, used, bound, pending, k);
    ExactNow(t, k);
  }

  lemma FirstPassDone(t: Transfer, status: seq<Status>, observation: seq<Option<Observation>>,
                      preserved: seq<string>, used: set<string>, pending: seq<nat>,
                      bound: map<nat, nat>, exact: seq<nat>)
    requires FirstPass(t, status, observation, preserved, used, pending, bound, exact, |t.plan|)
    ensures AllHanded(t, status, observation) && |preserved| + |pending| == |t.plan|
  {
    CarriedIsHanded(t, status, observation, preserved, used, bound, exact);
  }

  lemma FirstPassStarts(t: Transfer)
    requires t.Valid()
    ensures FirstPass(t, t.status0, t.observation0, [], {}, [], map[], [], 0)
  {
  }

  /** First pass: exact ids. */
  method PassExact(t: Transfer)
    returns (status: seq<Status>, observation: seq<Option<Observation>>, preserved: seq<string>,
             used: set<string>, pending: seq<nat>, ghost bound: map<nat, nat>, ghost exact: seq<nat>)
    requires t.Valid()
    ensures FirstPass(t, status, observation, preserved, used, pending, bound, exact, |t.plan|)
    ensures AllHanded(t, status, observation) && |preserved| + |pending| == |t.plan|
  {
    status, observation, preserved, used, pending := t.status0, t.observation0, [], {}, [];
    bound, exact := map[], [];
    FirstPassStarts(t);
    for k := 0 to |t.plan|
      invariant FirstPass(t, status, observation, preserved, used, pending, bound, exact, k)
    {
      var p := SuccessById(t.prior, t.priorStatus, t.plan[k].id);
      if p.Some? && t.plan[k].id !in used {
        FirstPassBinds(t, status, observation, preserved, used, pending, bound, exact, k, p.value);
        status := status[k := Success];
        observation := observation[k := t.priorObservation[p.value]];
        preserved := preserved + [t.plan[k].id];
        used := used + {t.plan[k].id};
        bound := bound[k := p.value];
        exact := exact + [k];
      } else {
        FirstPassWaits(t, status, observation, preserved, used, pending, bound, exact, k);
        pending := pending + [k];
      }
    }
    FirstPassDone(t, status, observation, preserved, used, pending, bound, exact);
  }

  /** What holds before the `m`-th pending step of the second pass. */
  ghost predicate SecondPass(t: Transfer, matcher: Matcher, status: seq<Status>, observation: seq<Option<Observation>>,
                             preserved: seq<string>, used: set<string>, pending: seq<nat>, bound: map<nat, nat>,
                             semantic: seq<nat>, m: nat)
  {
    && t.Valid() && MatchedSoFar(t, matcher, used, pending, bound, semantic, m)
    && Carried(t, status, observation, preserved, used, bound, Chosen(t, |t.plan|, true) + semantic)
    && ExactFirst(t.prior, t.priorStatus, t.plan, bound, used) && SemanticLast(t.prior, t.plan, bound)
  }

  ghost predicate MatchedSoFar(t: Transfer, matcher: Matcher, used: set<string>, pending: seq<nat>,
                               bound: map<nat, nat>, semantic: seq<nat>, m: nat)
    requires t.Valid()
  {
    && m <= |pending| && Within(t.plan, pending) && Ascending(pending)
    && Ascending(semantic) && Ahead(semantic, pending, m, bound)
    && Matched(t, matcher, Named(t, |t.plan|), pending) == semantic + Matched(t, matcher, used, pending[m..])
  }

  lemma {:induction false} MatchedStep(t: Transfer, matcher: Matcher, used: set<string>, pending: seq<nat>, m: nat)
    requires t.Valid() && Within(t.plan, pending) && m < |pending| && Candidates(t.prior, t.priorStatus, used) != []
    ensures var answer := matcher(t.plan[pending[m]].goal, Candidates(t.prior, t.priorStatus, used));
            Matched(t, matcher, used, pending[m..]) ==
              if answer.Some? && answer.value != "" && answer.value !in used
              then [pending[m]] + Matched(t, matcher, used + {answer.value}, pending[m + 1..])
              else Matched(t, matcher, used, pending[m + 1..])
  {
    assert pending[m..][0] == pending[m] && pending[m..][1..] == pending[m + 1..];
  }

  lemma {:induction false} SecondPassBinds(
    t: Transfer, matcher: Matcher, status: seq<Status>, observation: seq<Option<Observation>>,
    preserved: seq<string>, used: set<string>, pending: seq<nat>, bound: map<nat, nat>, semantic: seq<nat>,
    m: nat, p: nat)
    requires SecondPass(t, matcher, status, observation, preserved, used, pending, bound, semantic, m)
    requires m < |pending| && Candidates(t.prior, t.priorStatus, used) != []
    requires p < |t.prior| && t.priorStatus[p] == Success
    requires matcher(t.plan[pending[m]].goal, Candidates(t.prior, t.priorStatus, used)) == Some(t.prior[p].id)
    requires t.prior[p].id != "" && t.prior[p].id !in used
    ensures var k := pending[m];
            SecondPass(t, matcher, status[k := Success], observation[k := t.priorObservation[p]],
                       preserved + [t.plan[k].id], used + {t.prior[p].id}, pending, bound[k := p],
                       semantic + [k], m + 1)
  {
    var k, exact := pending[m], Chosen(t, |t.plan|, true);
    CarryOne(t, status, observation, preserved, used, bound, exact + semantic, k, p);
    BindUnnamed(t.prior, t.priorStatus, t.plan, bound, used, k, p);
    MatchedOneMore(t, matcher, used, pending, bound, semantic, m, p);
    assert exact + semantic + [k] == exact + (semantic + [k]);
  }

  lemma {:induction false} MatchedOneMore(t: Transfer, matcher: Matcher, used: set<string>, pending: seq<nat>,
                                          bound: map<nat, nat>, semantic: seq<nat>, m: nat, p: nat)
    requires t.Valid() && MatchedSoFar(t, matcher, used, pending, bound, semantic, m)
    requires m < |pending| && Candidates(t.prior, t.priorStatus, used) != [] && p < |t.prior|
    requires matcher(t.plan[pending[m]].goal, Candidates(t.prior, t.priorStatus, used)) == Some(t.prior[p].id)
    requires t.prior[p].id != "" && t.prior[p].id !in used
    ensures MatchedSoFar(t, matcher, used + {t.prior[p].id}, pending, bound[pending[m] := p],
                         semantic + [pending[m]], m + 1)
  {
    OneAhead(semantic, pending, m, bound, p);
    MatchedStep(t, matcher, used, pending, m);
    Regroup(semantic, pending[m], Matched(t, matcher, used + {t.prior[p].id}, pending[m + 1..]));
  }

  lemma Regroup(before: seq<nat>, k: nat, after: seq<nat>)
    ensures before + ([k] + after) == before + [k] + after
  {
  }

  lemma {:induction false} SecondPassSkips(
    t: Transfer, matcher: Matcher, status: seq<Status>, observation: seq<Option<Observation>>,
    preserved: seq<string>, used: set<string>, pending: seq<nat>, bound: map<nat, nat>, semantic: seq<nat>, m: nat)
    requires SecondPass(t, matcher, status, observation, preserved, used, pending, bound, semantic, m)
    requires m < |pending|
    requires var answer := matcher(t.plan[pending[m]].goal, Candidates(t.prior, t.priorStatus, used));
             answer.None? || answer.value == "" || answer.value in used
    ensures Candidates(t.prior, t.priorStatus, used) != [] ==>
              SecondPass(t, matcher, status, observation, preserved, used, pending, bound, semantic, m + 1)
  {
    if Candidates(t.prior, t.priorStatus, used) != [] {
      MatchedStep(t, matcher, used, pending, m);
    }
  }

  lemma {:induction false} SecondPassStarts(
    t: Transfer, matcher: Matcher, status: seq<Status>, observation: seq<Option<Observation>>,
    preserved: seq<string>, used: set<string>, pending: seq<nat>, bound: map<nat, nat>)
    requires t.Valid()
    requires FirstPass(t, status, observation, preserved, used, pending, bound, Chosen(t, |t.plan|, true), |t.plan|)
    ensures SecondPass(t, matcher, status, observation, preserved, used, pending, bound, [], 0)
  {
    assert pending[0..] == pending;
    assert Chosen(t, |t.plan|, true) + [] == Chosen(t, |t.plan|, true);
    assert [] + Matched(t, matcher, used, pending) == Matched(t, matcher, used, pending);
    forall i | i in bound && i < |t.plan| && bound[i] < |t.prior| ensures t.prior[bound[i]].id == t.plan[i].id {
    }
  }

  /** Binds each prior success to at most one new step, exact ids before semantic matches. Reports
      the ids of the exactly bound steps, then those of the semantically bound ones. */
  method PreservePriorSuccesses(t: Transfer, matcher: Option<Matcher>)
    returns (status: seq<Status>, observation: seq<Option<Observation>>, preserved: seq<string>,
             used: set<string>, ghost bound: map<nat, nat>, ghost exact: seq<nat>, ghost semantic: seq<nat>)
    requires t.Valid() && (matcher.Some? ==> Honest(matcher.value))
    ensures Carried(t, status, observation, preserved, used, bound, exact + semantic)
    ensures ExactFirst(t.prior, t.priorStatus, t.plan, bound, used) && SemanticLast(t.prior, t.plan, bound)
    ensures exact == Chosen(t, |t.plan|, true) && Ascending(semantic)
    ensures exact + semantic == Reported(t, matcher) && preserved == IdsOf(t.plan, Reported(t, matcher))
    ensures AllHanded(t, status, observation)
  {
    var pending: seq<nat>;
    status, observation, preserved, used, pending, bound, exact := PassExact(t);
    semantic := [];
    assert exact + semantic == exact;
    if matcher.Some? {
      SecondPassStarts(t, matcher.value, status, observation, preserved, used, pending, bound);
      for m := 0 to |pending|
        invariant SecondPass(t, matcher.value, status, observation, preserved, used, pending, bound, semantic, m)
      {
        var remaining := Candidates(t.prior, t.priorStatus, used);
        if remaining == [] {
          break;
        }
        var k := pending[m];
        var answer := (matcher.value)(t.plan[k].goal, remaining);
        if answer.Some? && answer.value != "" && answer.value !in used {
          var p := SuccessById(t.prior, t.priorStatus, answer.value);
          assert p.Some?;
          SecondPassBinds(t, matcher.value, status, observation, preserved, used, pending, bound, semantic, m, p.value);
          status := status[k := Success];
          observation := observation[k := t.priorObservation[p.value]];
          preserved := preserved + [t.plan[k].id];
          used := used + {answer.value};
          bound := bound[k := p.value];
          semantic := semantic + [k];
        } else {
          SecondPassSkips(t, matcher.value, status, observation, preserved, used, pending, bound, semantic, m);
        }
      }
      assert semantic == Matched(t, matcher.value, Named(t, |t.plan|), pending);
    }
    CarriedIsHanded(t, status, observation, preserved, used, bound, exact + semantic);
  }
}
