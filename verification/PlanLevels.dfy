/** Topological layering: each step's level is the length of its longest dependency path. */
module PlanLevels {
  import opened PlanModel

  /** All dependencies of the step are placed. */
  predicate Ready(step: PlanStep, placed: set<string>) {
    forall d <- step.dependsOn :: d in placed
  }

  /** The positions in `remaining` whose step is (or is not) ready, in order. */
  function Select(plan: Plan, remaining: seq<nat>, placed: set<string>, ready: bool): (r: seq<nat>)
    requires Within(plan, remaining)
    ensures Within(plan, r) && |r| <= |remaining|
    ensures forall i: nat {:trigger i in r} | i < |plan| ::
              i in r <==> i in remaining && Ready(plan[i], placed) == ready
  {
    if remaining == [] then []
    else
      var last := remaining[|remaining| - 1];
      var rest := Select(plan, remaining[..|remaining| - 1], placed, ready);
      assert remaining == remaining[..|remaining| - 1] + [last];
      if Ready(plan[last], placed) == ready then rest + [last] else rest
  }

  lemma {:induction false} SelectSplits(plan: Plan, remaining: seq<nat>, placed: set<string>)
    requires Within(plan, remaining)
    ensures multiset(Select(plan, remaining, placed, true)) + multiset(Select(plan, remaining, placed, false))
         == multiset(remaining)
    ensures |Select(plan, remaining, placed, true)| + |Select(plan, remaining, placed, false)| == |remaining|
  {
    if remaining != [] {
      SelectSplits(plan, remaining[..|remaining| - 1], placed);
      assert remaining == remaining[..|remaining| - 1] + [remaining[|remaining| - 1]];
    }
  }

  lemma {:induction false} SelectShrinks(plan: Plan, remaining: seq<nat>, placed: set<string>)
    requires Within(plan, remaining)
    ensures Select(plan, remaining, placed, true) != [] ==>
              |Select(plan, remaining, placed, false)| < |remaining|
  {
    SelectSplits(plan, remaining, placed);
  }

  function IdsAt(plan: Plan, positions: seq<nat>): set<string>
    requires Within(plan, positions)
  {
    set k | 0 <= k < |positions| :: plan[positions[k]].id
  }

  lemma IdsAtHas(plan: Plan, positions: seq<nat>, i: nat)
    requires Within(plan, positions) && i in positions && i < |plan|
    ensures plan[i].id in IdsAt(plan, positions)
  {
    var k :| 0 <= k < |positions| && positions[k] == i;
  }

  /** The layers still to come, given what is placed. A layer with nothing ready is flushed whole. */
  function Levels(plan: Plan, remaining: seq<nat>, placed: set<string>): (r: seq<seq<nat>>)
    requires Within(plan, remaining)
    ensures forall j | 0 <= j < |r| :: Within(plan, r[j])
    decreases |remaining|
  {
    if remaining == [] then []
    else
      var ready := Select(plan, remaining, placed, true);
      if ready == [] then [remaining]
      else
        SelectShrinks(plan, remaining, placed);
        [ready] + Levels(plan, Select(plan, remaining, placed, false), placed + IdsAt(plan, ready))
  }

  /** Whether the flush branch is taken. */
  predicate Flushes(plan: Plan, remaining: seq<nat>, placed: set<string>)
    requires Within(plan, remaining)
    decreases |remaining|
  {
    remaining != [] &&
    var ready := Select(plan, remaining, placed, true);
    SelectShrinks(plan, remaining, placed);
    ready == [] || Flushes(plan, Select(plan, remaining, placed, false), placed + IdsAt(plan, ready))
  }

  function Positions(n: nat): (r: seq<nat>)
    ensures |r| == n && forall k | 0 <= k < n :: r[k] == k
    ensures forall i: nat :: i < n ==> i in r
  {
    if n == 0 then [] else
      var r := Positions(n - 1) + [n - 1];
      assert r[n - 1] == n - 1;
      r
  }

  function Flatten(levels: seq<seq<nat>>): seq<nat> {
    if levels == [] then [] else levels[0] + Flatten(levels[1..])
  }

  /** The loop over the set of remaining steps. It ends for every plan. */
  method ComputeLevels(plan: Plan) returns (levels: seq<seq<nat>>)
    ensures levels == Levels(plan, Positions(|plan|), {})
  {
    var remaining: seq<nat> := Positions(|plan|);
    var placed: set<string> := {};
    levels := [];
    while remaining != []
      invariant Within(plan, remaining)
      invariant Levels(plan, Positions(|plan|), {}) == levels + Levels(plan, remaining, placed)
      decreases |remaining|
    {
      var ready: seq<nat> := ReadySteps(plan, remaining, placed);
      if ready == [] {
        levels := levels + [remaining];
        return;
      }
      SelectShrinks(plan, remaining, placed);
      levels := levels + [ready];
      remaining, placed := Select(plan, remaining, placed, false), placed + IdsAt(plan, ready);
    }
  }

  method ReadySteps(plan: Plan, remaining: seq<nat>, placed: set<string>) returns (ready: seq<nat>)
    requires Within(plan, remaining)
    ensures ready == Select(plan, remaining, placed, true)
  {
    ready := [];
    for k := 0 to |remaining|
      invariant Within(plan, remaining[..k]) && ready == Select(plan, remaining[..k], placed, true)
    {
      assert remaining[..k + 1][..k] == remaining[..k];
      if Ready(plan[remaining[k]], placed) {
        ready := ready + [remaining[k]];
      }
    }
    assert remaining[..|remaining|] == remaining;
  }

  /** Every step is in exactly one level, whatever the plan. */
  lemma {:induction false} LevelsPermute(plan: Plan, remaining: seq<nat>, placed: set<string>)
    requires Within(plan, remaining)
    ensures multiset(Flatten(Levels(plan, remaining, placed))) == multiset(remaining)
    decreases |remaining|
  {
    if remaining != [] {
      var ready := Select(plan, remaining, placed, true);
      SelectSplits(plan, remaining, placed);
      if ready == [] {
        assert Flatten([remaining]) == remaining + Flatten([]);
      } else {
        var rest := Select(plan, remaining, placed, false);
        var later := Levels(plan, rest, placed + IdsAt(plan, ready));
        LevelsPermute(plan, rest, placed + IdsAt(plan, ready));
        assert ([ready] + later)[1..] == later;
      }
    }
  }

  /** The rank of step `i` is one more than the highest rank among its dependencies, or zero. */
  ghost predicate RankedAt(plan: Plan, rank: map<string, nat>, i: nat)
    requires i < |plan|
  {
    && plan[i].id in rank
    && (forall d <- plan[i].dependsOn :: d in rank && rank[d] < rank[plan[i].id])
    && (rank[plan[i].id] > 0 ==>
          exists d :: d in plan[i].dependsOn && d in rank && rank[d] == rank[plan[i].id] - 1)
  }

  ghost predicate Ranked(plan: Plan, rank: map<string, nat>) {
    rank.Keys == Ids(plan) && forall i: nat {:trigger RankedAt(plan, rank, i)} | i < |plan| :: RankedAt(plan, rank, i)
  }

  /** Before layer `n`: what is placed is ranked below `n`; what remains waits for something of the
      previous layer or for something not placed. */
  ghost predicate Layered(plan: Plan, remaining: seq<nat>, rank: map<string, nat>, n: nat) {
    && Within(plan, remaining)
    && (forall id <- rank :: rank[id] < n)
    && (forall i: nat {:trigger RankedAt(plan, rank, i)} | i < |plan| && i !in remaining :: RankedAt(plan, rank, i))
    && (forall i: nat {:trigger WaitsAt(plan, rank, n, i)} | i < |plan| && i in remaining :: WaitsAt(plan, rank, n, i))
  }

  ghost predicate WaitsAt(plan: Plan, rank: map<string, nat>, n: nat, i: nat)
    requires i < |plan|
  {
    && plan[i].id !in rank
    && (n > 0 ==> exists d :: d in plan[i].dependsOn && (d in rank ==> rank[d] == n - 1))
  }

  /** The ready steps get rank `n`. */
  function Promote(plan: Plan, ready: seq<nat>, rank: map<string, nat>, n: nat): (next: map<string, nat>)
    requires Within(plan, ready)
    ensures next.Keys == rank.Keys + IdsAt(plan, ready)
    ensures forall id <- rank :: next[id] == rank[id]
    ensures forall id <- next :: id !in rank ==> next[id] == n
  {
    map id | id in rank.Keys + IdsAt(plan, ready) :: if id in rank then rank[id] else n
  }

  lemma {:induction false} ReadyIsRanked(plan: Plan, remaining: seq<nat>, rank: map<string, nat>, n: nat, i: nat)
    requires Layered(plan, remaining, rank, n) && i < |plan| && i in remaining && Ready(plan[i], rank.Keys)
    ensures var next := Promote(plan, Select(plan, remaining, rank.Keys, true), rank, n);
            RankedAt(plan, next, i) && next[plan[i].id] == n
  {
    assert WaitsAt(plan, rank, n, i);
    IdsAtHas(plan, Select(plan, remaining, rank.Keys, true), i);
  }

  lemma {:induction false} UnreadyWaits(plan: Plan, remaining: seq<nat>, rank: map<string, nat>, n: nat, i: nat)
    requires UniqueIds(plan)
    requires Layered(plan, remaining, rank, n) && i < |plan| && i in remaining && !Ready(plan[i], rank.Keys)
    ensures WaitsAt(plan, Promote(plan, Select(plan, remaining, rank.Keys, true), rank, n), n + 1, i)
  {
    var ready := Select(plan, remaining, rank.Keys, true);
    assert WaitsAt(plan, rank, n, i);
    assert forall k | 0 <= k < |ready| :: ready[k] in ready;
    var d :| d in plan[i].dependsOn && d !in rank;
    assert d in Promote(plan, ready, rank, n) ==> Promote(plan, ready, rank, n)[d] == n;
  }

  /** One layer keeps the picture. */
  lemma {:induction false} LayeredStep(plan: Plan, remaining: seq<nat>, rank: map<string, nat>, n: nat)
    requires UniqueIds(plan) && Layered(plan, remaining, rank, n)
    ensures Layered(plan, Select(plan, remaining, rank.Keys, false),
                    Promote(plan, Select(plan, remaining, rank.Keys, true), rank, n), n + 1)
  {
    var next := Promote(plan, Select(plan, remaining, rank.Keys, true), rank, n);
    forall i: nat | i < |plan| && i !in Select(plan, remaining, rank.Keys, false)
      ensures RankedAt(plan, next, i)
    {
      if i in remaining {
        ReadyIsRanked(plan, remaining, rank, n, i);
      } else {
        assert RankedAt(plan, rank, i);
      }
    }
    forall i: nat | i < |plan| && i in Select(plan, remaining, rank.Keys, false)
      ensures WaitsAt(plan, next, n + 1, i)
    {
      UnreadyWaits(plan, remaining, rank, n, i);
    }
  }

  lemma AllRanked(plan: Plan, rank: map<string, nat>, n: nat)
    requires Layered(plan, [], rank, n) && rank.Keys <= Ids(plan)
    ensures Ranked(plan, rank)
  {
    forall id | id in Ids(plan) ensures id in rank {
      var i: nat :| i < |plan| && plan[i].id == id;
      assert RankedAt(plan, rank, i);
    }
  }

  /** The steps of `levels[j]` have rank `n + j`. */
  ghost predicate LevelsMatch(plan: Plan, levels: seq<seq<nat>>, rank: map<string, nat>, n: nat) {
    forall j, i: nat | 0 <= j < |levels| && i < |plan| && i in levels[j] ::
      plan[i].id in rank && rank[plan[i].id] == n + j
  }

  lemma MatchFirst(plan: Plan, first: seq<nat>, later: seq<seq<nat>>, rank: map<string, nat>, n: nat)
    requires LevelsMatch(plan, later, rank, n + 1)
    requires forall i: nat | i < |plan| && i in first :: plan[i].id in rank && rank[plan[i].id] == n
    ensures LevelsMatch(plan, [first] + later, rank, n)
  {
    forall j, i: nat | 0 < j < |[first] + later| && i < |plan| && i in ([first] + later)[j]
      ensures plan[i].id in rank && rank[plan[i].id] == n + j
    {
      assert i in later[j - 1];
    }
  }

  /** While no flush happens, all steps get ranks, and the rank of a step is its level. */
  lemma {:induction false} LevelsRank(plan: Plan, remaining: seq<nat>, rank: map<string, nat>, n: nat)
    returns (final: map<string, nat>)
    requires UniqueIds(plan) && Layered(plan, remaining, rank, n) && rank.Keys <= Ids(plan)
    requires !Flushes(plan, remaining, rank.Keys)
    ensures Ranked(plan, final) && forall id <- rank :: id in final && final[id] == rank[id]
    ensures LevelsMatch(plan, Levels(plan, remaining, rank.Keys), final, n)
    decreases |remaining|
  {
    if remaining == [] {
      final := rank;
      AllRanked(plan, rank, n);
    } else {
      SelectShrinks(plan, remaining, rank.Keys);
      LayeredStep(plan, remaining, rank, n);
      var ready := Select(plan, remaining, rank.Keys, true);
      var next := Promote(plan, ready, rank, n);
      var rest := Select(plan, remaining, rank.Keys, false);
      final := LevelsRank(plan, rest, next, n + 1);
      assert LevelsMatch(plan, [ready] + Levels(plan, rest, next.Keys), final, n) by {
        forall i: nat | i < |plan| && i in ready
          ensures plan[i].id in final && final[plan[i].id] == n
        {
          ReadyIsRanked(plan, remaining, rank, n, i);
        }
        MatchFirst(plan, ready, Levels(plan, rest, next.Keys), final, n);
      }
    }
  }

  /** Ranks fall along every dependency path. */
  lemma {:induction false} RanksFall(plan: Plan, rank: map<string, nat>, p: seq<string>)
    requires Ranked(plan, rank) && Path(plan, p) && p[0] in rank
    ensures p[|p| - 1] in rank && rank[p[|p| - 1]] + |p| - 1 <= rank[p[0]]
    decreases |p|
  {
    if |p| > 1 {
      assert Edge(plan, p[0], p[1]);
      var i: nat :| i < |plan| && plan[i].id == p[0] && p[1] in plan[i].dependsOn;
      assert RankedAt(plan, rank, i);
      forall k | 0 <= k < |p[1..]| - 1 ensures Edge(plan, p[1..][k], p[1..][k + 1]) {
        assert Edge(plan, p[k + 1], p[k + 2]);
      }
      RanksFall(plan, rank, p[1..]);
    }
  }

  /** A path whose length is the rank of its start. */
  lemma {:induction false} RankPath(plan: Plan, rank: map<string, nat>, id: string) returns (p: seq<string>)
    requires Ranked(plan, rank) && id in rank
    ensures Path(plan, p) && p[0] == id && |p| - 1 == rank[id]
    decreases rank[id]
  {
    if rank[id] == 0 {
      p := [id];
    } else {
      var i: nat :| i < |plan| && plan[i].id == id;
      assert RankedAt(plan, rank, i);
      var d :| d in plan[i].dependsOn && d in rank && rank[d] == rank[id] - 1;
      assert Edge(plan, id, d);
      var q := RankPath(plan, rank, d);
      p := [id] + q;
      forall k | 0 <= k < |p| - 1 ensures Edge(plan, p[k], p[k + 1]) {
        if k > 0 { assert Edge(plan, q[k - 1], q[k]); }
      }
    }
  }

  lemma RankIsLongest(plan: Plan, rank: map<string, nat>, id: string)
    requires Ranked(plan, rank) && id in rank
    ensures LongestFrom(plan, id, rank[id])
  {
    forall p | Path(plan, p) && p[0] == id ensures |p| - 1 <= rank[id] {
      RanksFall(plan, rank, p);
    }
    var p := RankPath(plan, rank, id);
  }

  /** A plan with ranks is closed and has no cycles. */
  lemma RankedIsWellFounded(plan: Plan, rank: map<string, nat>)
    requires Ranked(plan, rank)
    ensures Closed(plan) && Acyclic(plan)
  {
    forall i, d | 0 <= i < |plan| && d in plan[i].dependsOn ensures d in Ids(plan) {
      assert RankedAt(plan, rank, i);
    }
    forall p ensures !Cycle(plan, p) {
      if Cycle(plan, p) {
        assert Edge(plan, p[0], p[1]);
        RanksFall(plan, rank, p);
      }
    }
  }

  /** A set of ids that keep waiting for each other. */
  ghost predicate Stuck(plan: Plan, ids: set<string>) {
    ids != {} && forall id {:trigger WaitsInside(plan, ids, id)} | id in ids :: WaitsInside(plan, ids, id)
  }

  ghost predicate WaitsInside(plan: Plan, ids: set<string>, id: string) {
    exists d :: d in ids && Edge(plan, id, d)
  }

  /** A flush on a closed plan leaves a stuck set. */
  lemma {:induction false} FlushIsStuck(plan: Plan, remaining: seq<nat>, placed: set<string>)
    returns (ids: set<string>)
    requires Closed(plan) && Within(plan, remaining) && Flushes(plan, remaining, placed)
    requires forall i: nat | i < |plan| :: i in remaining || plan[i].id in placed
    ensures Stuck(plan, ids)
    decreases |remaining|
  {
    SelectShrinks(plan, remaining, placed);
    var ready := Select(plan, remaining, placed, true);
    if ready == [] {
      ids := IdsAt(plan, remaining);
      assert plan[remaining[0]].id in ids;
      forall id | id in ids ensures WaitsInside(plan, ids, id) {
        var k :| 0 <= k < |remaining| && plan[remaining[k]].id == id;
        var d := WaitsFor(plan, remaining, placed, remaining[k]);
      }
    } else {
      forall i: nat | i < |plan|
        ensures i in Select(plan, remaining, placed, false) || plan[i].id in placed + IdsAt(plan, ready)
      {
        if i in ready {
          IdsAtHas(plan, ready, i);
        }
      }
      ids := FlushIsStuck(plan, Select(plan, remaining, placed, false), placed + IdsAt(plan, ready));
    }
  }

  lemma WaitsFor(plan: Plan, remaining: seq<nat>, placed: set<string>, i: nat) returns (d: string)
    requires Closed(plan) && Within(plan, remaining) && i < |plan| && i in remaining
    requires Select(plan, remaining, placed, true) == []
    requires forall i: nat | i < |plan| :: i in remaining || plan[i].id in placed
    ensures d in IdsAt(plan, remaining) && Edge(plan, plan[i].id, d)
  {
    assert i !in Select(plan, remaining, placed, true);
    d :| d in plan[i].dependsOn && d !in placed;
    assert d in Ids(plan);
    var j: nat :| j < |plan| && plan[j].id == d;
    IdsAtHas(plan, remaining, j);
  }

  /** A walk of any length inside a stuck set. */
  lemma {:induction false} StuckWalk(plan: Plan, ids: set<string>, n: nat) returns (p: seq<string>)
    requires Stuck(plan, ids)
    ensures |p| == n + 1 && (forall k | 0 <= k < n :: Edge(plan, p[k], p[k + 1]))
    ensures forall k | 0 <= k <= n :: p[k] in ids
  {
    if n == 0 {
      var x :| x in ids;
      p := [x];
    } else {
      var q := StuckWalk(plan, ids, n - 1);
      assert WaitsInside(plan, ids, q[n - 1]);
      var d :| d in ids && Edge(plan, q[n - 1], d);
      p := q + [d];
    }
  }

  /** A sequence longer than its set of members repeats one. */
  lemma {:induction false} Pigeonhole(p: seq<string>, ids: set<string>) returns (i: nat, j: nat)
    requires |p| > |ids| && forall k | 0 <= k < |p| :: p[k] in ids
    ensures i < j < |p| && p[i] == p[j]
  {
    var last := |p| - 1;
    if exists k :: 0 <= k < last && p[k] == p[last] {
      i :| 0 <= i < last && p[i] == p[last];
      j := last;
    } else {
      i, j := Pigeonhole(p[..last], ids - {p[last]});
    }
  }

  lemma StuckHasCycle(plan: Plan, ids: set<string>)
    requires Stuck(plan, ids)
    ensures !Acyclic(plan)
  {
    var p := StuckWalk(plan, ids, |ids|);
    var i, j := Pigeonhole(p, ids);
    var c := p[i..j + 1];
    forall k | 0 <= k < |c| - 1 ensures Edge(plan, c[k], c[k + 1]) {
      assert Edge(plan, p[i + k], p[i + k + 1]);
    }
    assert Cycle(plan, c);
  }

  /** The flush branch is taken exactly for plans that are not closed and acyclic. */
  lemma {:induction false} FlushIff(plan: Plan)
    requires UniqueIds(plan)
    ensures Flushes(plan, Positions(|plan|), {}) <==> !(Closed(plan) && Acyclic(plan))
  {
    if Flushes(plan, Positions(|plan|), {}) {
      if Closed(plan) {
        var ids := FlushIsStuck(plan, Positions(|plan|), {});
        StuckHasCycle(plan, ids);
      }
    } else {
      var unranked: map<string, nat> := map[];
      assert unranked.Keys == {};
      var rank := LevelsRank(plan, Positions(|plan|), unranked, 0);
      RankedIsWellFounded(plan, rank);
    }
  }

  /** For a closed acyclic plan, each step's level is exactly its longest dependency path. */
  lemma {:induction false} LevelIsLongestPath(plan: Plan)
    requires UniqueIds(plan) && Closed(plan) && Acyclic(plan)
    ensures var levels := Levels(plan, Positions(|plan|), {});
            && multiset(Flatten(levels)) == multiset(Positions(|plan|))
            && forall n: nat, i: nat | n < |levels| && i < |plan| && i in levels[n] ::
                 LongestFrom(plan, plan[i].id, n)
  {
    FlushIff(plan);
    LevelsPermute(plan, Positions(|plan|), {});
    var unranked: map<string, nat> := map[];
    assert unranked.Keys == {};
    var rank := LevelsRank(plan, Positions(|plan|), unranked, 0);
    var levels := Levels(plan, Positions(|plan|), {});
    forall n: nat, i: nat | n < |levels| && i < |plan| && i in levels[n]
      ensures LongestFrom(plan, plan[i].id, n)
    {
      RankIsLongest(plan, rank, plan[i].id);
    }
  }

  lemma {:induction false} SelectDistinct(plan: Plan, remaining: seq<nat>, placed: set<string>, ready: bool)
    requires Within(plan, remaining) && Distinct(remaining)
    ensures Distinct(Select(plan, remaining, placed, ready))
  {
    if remaining != [] {
      var last := remaining[|remaining| - 1];
      var init := remaining[..|remaining| - 1];
      SelectDistinct(plan, init, placed, ready);
      var rest := Select(plan, init, placed, ready);
      assert last !in init;
      assert forall k | 0 <= k < |rest| :: rest[k] in rest;
    }
  }

  /** The level a remaining step will be put in. */
  function LevelOf(plan: Plan, remaining: seq<nat>, placed: set<string>, i: nat): nat
    requires Within(plan, remaining) && i < |plan|
    decreases |remaining|
  {
    var ready := Select(plan, remaining, placed, true);
    SelectShrinks(plan, remaining, placed);
    if ready == [] || i in ready then 0
    else 1 + LevelOf(plan, Select(plan, remaining, placed, false), placed + IdsAt(plan, ready), i)
  }

  /** A remaining step is in its level. */
  lemma {:induction false} PlacedSomewhere(plan: Plan, remaining: seq<nat>, placed: set<string>, i: nat)
    requires Within(plan, remaining) && i < |plan| && i in remaining
    ensures var levels := Levels(plan, remaining, placed);
            LevelOf(plan, remaining, placed, i) < |levels| && i in levels[LevelOf(plan, remaining, placed, i)]
    decreases |remaining|
  {
    var ready := Select(plan, remaining, placed, true);
    if ready != [] && i !in ready {
      SelectShrinks(plan, remaining, placed);
      PlacedSomewhere(plan, Select(plan, remaining, placed, false), placed + IdsAt(plan, ready), i);
    }
  }

  /** And in no other. */
  lemma {:induction false} PlacedOnce(plan: Plan, remaining: seq<nat>, placed: set<string>, i: nat, j: nat)
    requires Within(plan, remaining) && i < |plan|
    requires j < |Levels(plan, remaining, placed)| && i in Levels(plan, remaining, placed)[j]
    ensures i in remaining && j == LevelOf(plan, remaining, placed, i)
    decreases |remaining|
  {
    var ready := Select(plan, remaining, placed, true);
    if ready == [] {
      assert Levels(plan, remaining, placed) == [remaining];
    } else {
      SelectShrinks(plan, remaining, placed);
      var rest, after := Select(plan, remaining, placed, false), placed + IdsAt(plan, ready);
      assert Levels(plan, remaining, placed) == [ready] + Levels(plan, rest, after);
      if j > 0 {
        assert Levels(plan, remaining, placed)[j] == Levels(plan, rest, after)[j - 1];
        PlacedOnce(plan, rest, after, i, j - 1);
      }
    }
  }

  lemma {:induction false} LevelDistinct(plan: Plan, remaining: seq<nat>, placed: set<string>, j: nat)
    requires Within(plan, remaining) && Distinct(remaining)
    requires j < |Levels(plan, remaining, placed)|
    ensures Distinct(Levels(plan, remaining, placed)[j])
    decreases |remaining|
  {
    var ready := Select(plan, remaining, placed, true);
    if ready != [] {
      SelectDistinct(plan, remaining, placed, true);
      if j > 0 {
        SelectShrinks(plan, remaining, placed);
        SelectDistinct(plan, remaining, placed, false);
        LevelDistinct(plan, Select(plan, remaining, placed, false), placed + IdsAt(plan, ready), j - 1);
      }
    }
  }

  /** `at` gives each step the one level it is in. */
  ghost predicate Layout(plan: Plan, levels: seq<seq<nat>>, at: seq<nat>) {
    && |at| == |plan|
    && (forall j | 0 <= j < |levels| :: Within(plan, levels[j]) && Distinct(levels[j]))
    && (forall i: nat | i < |plan| :: at[i] < |levels|)
    && (forall j, i: nat | 0 <= j < |levels| && i < |plan| :: i in levels[j] <==> at[i] == j)
  }

  /** Unique ids, closed, acyclic. */
  ghost predicate WellFormed(plan: Plan) {
    UniqueIds(plan) && Closed(plan) && Acyclic(plan)
  }

  /** The step that an id lookup yields for a dependency is in an earlier level. */
  ghost predicate DependencyEarlier(plan: Plan, at: seq<nat>, i: nat, d: string)
    requires |at| == |plan| && i < |plan|
  {
    StepById(plan, d).Some? && at[StepById(plan, d).value] < at[i]
  }

  ghost predicate DependenciesEarlier(plan: Plan, at: seq<nat>, i: nat)
    requires |at| == |plan| && i < |plan|
  {
    forall d <- plan[i].dependsOn :: DependencyEarlier(plan, at, i, d)
  }

  /** Every step has its one level. */
  lemma {:induction false} LevelsLayout(plan: Plan) returns (at: seq<nat>)
    ensures Layout(plan, Levels(plan, Positions(|plan|), {}), at)
  {
    var all := Positions(|plan|);
    var levels := Levels(plan, all, {});
    at := seq(|plan|, i requires 0 <= i < |plan| => LevelOf(plan, all, {}, i));
    forall i: nat | i < |plan|
      ensures at[i] < |levels| && forall j | 0 <= j < |levels| :: i in levels[j] <==> at[i] == j
    {
      PlacedSomewhere(plan, all, {}, i);
      forall j: nat | j < |levels| && i in levels[j] ensures at[i] == j {
        PlacedOnce(plan, all, {}, i, j);
      }
    }
    forall j: nat | j < |levels| ensures Distinct(levels[j]) {
      LevelDistinct(plan, all, {}, j);
    }
  }

  /** In a well-formed plan the dependencies of a step have earlier levels. */
  lemma {:induction false} LayoutOrders(plan: Plan, at: seq<nat>, i: nat)
    requires WellFormed(plan) && Layout(plan, Levels(plan, Positions(|plan|), {}), at) && i < |plan|
    ensures DependenciesEarlier(plan, at, i)
  {
    var levels := Levels(plan, Positions(|plan|), {});
    FlushIff(plan);
    var unranked: map<string, nat> := map[];
    assert unranked.Keys == {};
    var rank := LevelsRank(plan, Positions(|plan|), unranked, 0);
    assert RankedAt(plan, rank, i);
    assert i in levels[at[i]];
    forall d | d in plan[i].dependsOn ensures DependencyEarlier(plan, at, i, d) {
      var j := StepById(plan, d).value;
      assert j in levels[at[j]];
    }
  }
}
