/** Plans of the plan-and-execute reasoner. A step object is named by its position in the plan;
    its id is only what the planner called it. */
module PlanModel {
  import opened Prelude

  datatype Status = Pending | Running | Success | Failed | Skipped

  datatype PlanStep = PlanStep(id: string, goal: string, tool: Option<string>, dependsOn: seq<string>)

  type Plan = seq<PlanStep>

  datatype Observation =
    | NoToolAssigned
    | NotWired
    | Denied(reason: string)
    | ToolResult(success: bool, payload: string)

  /** Positions of steps of the plan. */
  ghost predicate Within(plan: Plan, positions: seq<nat>) {
    forall k | 0 <= k < |positions| :: positions[k] < |plan|
  }

  ghost predicate Distinct(s: seq<nat>) {
    forall i, j | 0 <= i < j < |s| :: s[i] != s[j]
  }

  function Ids(plan: Plan): set<string> {
    set i | 0 <= i < |plan| :: plan[i].id
  }

  ghost predicate UniqueIds(plan: Plan) {
    forall i, j | 0 <= i < j < |plan| :: plan[i].id != plan[j].id
  }

  /** Every dependency names a step of the plan. */
  ghost predicate Closed(plan: Plan) {
    forall i, d | 0 <= i < |plan| && d in plan[i].dependsOn :: d in Ids(plan)
  }

  /** Some step called `a` depends on `b`. */
  ghost predicate Edge(plan: Plan, a: string, b: string) {
    exists i :: 0 <= i < |plan| && plan[i].id == a && b in plan[i].dependsOn
  }

  /** A walk along dependencies; it has `|p| - 1` edges. */
  ghost predicate Path(plan: Plan, p: seq<string>) {
    |p| >= 1 && forall k | 0 <= k < |p| - 1 :: Edge(plan, p[k], p[k + 1])
  }

  ghost predicate Cycle(plan: Plan, p: seq<string>) {
    |p| >= 2 && Path(plan, p) && p[0] == p[|p| - 1]
  }

  ghost predicate Acyclic(plan: Plan) {
    forall p :: !Cycle(plan, p)
  }

  /** `n` is the length of the longest dependency path that starts at `id`. */
  ghost predicate LongestFrom(plan: Plan, id: string, n: nat) {
    && (forall p | Path(plan, p) && p[0] == id :: |p| - 1 <= n)
    && (exists p :: Path(plan, p) && p[0] == id && |p| - 1 == n)
  }

  /** The last position with this id, the one an id lookup yields. */
  function StepById(plan: Plan, id: string): (r: Option<nat>)
    ensures r.Some? ==> r.value < |plan| && plan[r.value].id == id
    ensures r.Some? <==> id in Ids(plan)
  {
    if plan == [] then None
    else if plan[|plan| - 1].id == id then Some(|plan| - 1)
    else
      assert forall i | 0 <= i < |plan| - 1 :: plan[i] == plan[..|plan| - 1][i];
      StepById(plan[..|plan| - 1], id)
  }
}
