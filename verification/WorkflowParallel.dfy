/** A `parallel` step whose children are leaves. All children start in list order before any tool
    answers; the answers then take effect in any order. */
module WorkflowParallel {
  import opened Prelude
  import opened WorkflowSchema
  import opened WorkflowValues
  import opened WorkflowSemantics

  predicate LeafOnly(children: seq<Step>) {
    forall child <- children :: child.ToolCall? || child.SetVar?
  }

  /** A child after its start: over already, or waiting for this reply. */
  datatype Flight = Landed | Pending(reply: ToolReply)

  datatype Launched = Launched(scopes: seq<Frame>, calls: seq<Invocation>, flights: seq<Flight>)

  /** Frames and invocations after one child has started. */
  function LaunchOne(child: Step, scopes: seq<Frame>, calls: seq<Invocation>): (seq<Frame>, seq<Invocation>)
    requires (child.ToolCall? || child.SetVar?) && scopes != []
  {
    if child.SetVar? then (WriteTop(scopes, child.name, Resolve(child.value, scopes)), calls)
    else (scopes, calls + [Invocation(child.tool, ResolveAll(child.args, scopes))])
  }

  /** The start phase. A variable is set at once; a tool is invoked with the arguments it sees now. */
  function Launch(children: seq<Step>, env: Env, scopes: seq<Frame>, calls: seq<Invocation>): (r: Launched)
    requires LeafOnly(children) && scopes != []
    ensures |r.flights| == |children|
    ensures forall i | 0 <= i < |children| :: r.flights[i].Pending? <==> children[i].ToolCall?
    ensures Isolated(scopes, r.scopes) && calls <= r.calls
  {
    if children == [] then Launched(scopes, calls, [])
    else
      var (s, c) := LaunchOne(children[0], scopes, calls);
      var r := Launch(children[1..], env, s, c);
      var flight := if children[0].ToolCall?
                    then Pending(env.tools(calls, children[0].tool, ResolveAll(children[0].args, scopes)))
                    else Landed;
      r.(flights := [flight] + r.flights)
  }

  /** The shared state the answers act on: the innermost frame and the failure flag with its error
      and step id. */
  datatype Board = Board(frame: Frame, failed: bool, error: string, failedAt: string)

  predicate Fails(flight: Flight, abort: bool) {
    flight.Pending? && (flight.reply.Rejected? || (!flight.reply.success && abort))
  }

  /** The child's answer is written under `name`. A rejected call writes nothing. */
  predicate Saves(child: Step, flight: Flight, name: string) {
    && flight.Pending? && flight.reply.Reply?
    && child.ToolCall? && child.saveAs == Some(name) && name != ""
  }

  function SavedValue(flight: Flight): Value
    requires flight.Pending? && flight.reply.Reply?
  {
    if flight.reply.output.Some? then Str(flight.reply.output.value) else Null
  }

  /** One answer takes effect. */
  function Land(child: Step, reply: ToolReply, abort: bool, b: Board): Board
    requires child.ToolCall?
  {
    match reply
    case Rejected(message) => b.(failed := true, error := message, failedAt := child.id)
    case Reply(success, output, error) =>
      var saved := if child.saveAs.Some? && child.saveAs.value != ""
                   then b.(frame := b.frame[child.saveAs.value := SavedValue(Pending(reply))])
                   else b;
      if !success && abort
      then saved.(failed := true, error := error.GetOr("tool " + child.tool + " failed"), failedAt := child.id)
      else saved
  }

  /** A tool's answer does to the board what the tool call does when it runs alone. */
  lemma {:induction false} LandsLikeItsCall(child: Step, env: Env, depth: nat, c: Config)
    requires child.ToolCall? && ParallelFreeEnv(env) && c.store.scopes != []
    ensures var top := |c.store.scopes| - 1;
            var launched := Launch([child], env, c.store.scopes, c.store.calls);
            var after := Land(child, launched.flights[0].reply, env.abortOnToolError,
                              Board(c.store.scopes[top], false, "", ""));
            var r := Eval(child, env, depth, c);
            && launched.calls == r.cfg.store.calls && after.frame == r.cfg.store.scopes[top]
            && (after.failed <==> r.outcome.Failed?)
            && (after.failed ==> after.error == r.outcome.error && after.failedAt == r.outcome.stepId)
  {
  }

  /** Setting a variable in a parallel step does what it does alone. */
  lemma {:induction false} SetsLikeItself(child: Step, env: Env, depth: nat, c: Config)
    requires child.SetVar? && ParallelFreeEnv(env) && c.store.scopes != []
    ensures Launch([child], env, c.store.scopes, c.store.calls).scopes == Eval(child, env, depth, c).cfg.store.scopes
  {
  }

  /** A tool fails the step exactly if a call of it alone would fail. */
  lemma {:induction false} FailsLikeItsCall(child: Step, env: Env, depth: nat, c: Config)
    requires child.ToolCall? && ParallelFreeEnv(env) && c.store.scopes != []
    ensures Fails(Launch([child], env, c.store.scopes, c.store.calls).flights[0], env.abortOnToolError)
       <==> Eval(child, env, depth, c).outcome.Failed?
  {
  }

  /** `order` lists each waiting child once. */
  ghost predicate Schedule(order: seq<nat>, flights: seq<Flight>) {
    && (forall i, j | 0 <= i < j < |order| :: order[i] != order[j])
    && (forall k | 0 <= k < |order| :: order[k] < |flights| && flights[order[k]].Pending?)
    && (forall i | 0 <= i < |flights| && flights[i].Pending? :: i in order)
  }

  ghost predicate Waiting(order: seq<nat>, children: seq<Step>, flights: seq<Flight>) {
    && |children| == |flights|
    && (forall k | 0 <= k < |order| ::
          order[k] < |flights| && flights[order[k]].Pending? && children[order[k]].ToolCall?)
  }

  /** The answers take effect in the given order. */
  ghost function LandAll(order: seq<nat>, children: seq<Step>, flights: seq<Flight>, abort: bool, b: Board): Board
    requires Waiting(order, children, flights)
  {
    if order == [] then b
    else
      var last := order[|order| - 1];
      Land(children[last], flights[last].reply, abort,
           LandAll(order[..|order| - 1], children, flights, abort, b))
  }

  /** No two answers are saved under one name with different values. */
  ghost predicate ConflictFree(children: seq<Step>, flights: seq<Flight>)
    requires |children| == |flights|
  {
    forall i, j, name | 0 <= i < |children| && 0 <= j < |children|
                        && Saves(children[i], flights[i], name) && Saves(children[j], flights[j], name)
      :: SavedValue(flights[i]) == SavedValue(flights[j])
  }

  lemma {:induction false} LastWrite(order: seq<nat>, children: seq<Step>, flights: seq<Flight>, abort: bool,
                                     b: Board, name: string)
    requires order != [] && Waiting(order, children, flights)
    ensures var last := order[|order| - 1];
            var frame := LandAll(order, children, flights, abort, b).frame;
            var before := LandAll(order[..|order| - 1], children, flights, abort, b).frame;
            if Saves(children[last], flights[last], name)
            then name in frame && frame[name] == SavedValue(flights[last])
            else (name in frame <==> name in before) && (name in frame ==> frame[name] == before[name])
  {
  }

  /** The last child in the order whose answer is saved under this name. */
  ghost function LastSaver(order: seq<nat>, children: seq<Step>, flights: seq<Flight>, name: string): (r: Option<nat>)
    requires Waiting(order, children, flights)
    ensures r.None? ==> forall i <- order :: !Saves(children[i], flights[i], name)
    ensures r.Some? ==> exists k :: 0 <= k < |order| && order[k] == r.value
                           && Saves(children[order[k]], flights[order[k]], name)
                           && forall j | k < j < |order| :: !Saves(children[order[j]], flights[order[j]], name)
  {
    if order == [] then None
    else
      var last := order[|order| - 1];
      if Saves(children[last], flights[last], name) then Some(last)
      else
        assert order == order[..|order| - 1] + [last];
        LastSaver(order[..|order| - 1], children, flights, name)
  }

  /** In the end a name is bound to the value of the last answer saved under it, and as before if there
      is none. */
  lemma {:induction false} FinalBinding(order: seq<nat>, children: seq<Step>, flights: seq<Flight>, abort: bool,
                                        b: Board, name: string)
    requires Waiting(order, children, flights)
    ensures var frame := LandAll(order, children, flights, abort, b).frame;
            match LastSaver(order, children, flights, name)
            case Some(i) => name in frame && frame[name] == SavedValue(flights[i])
            case None => (name in frame <==> name in b.frame) && (name in frame ==> frame[name] == b.frame[name])
  {
    if order != [] {
      FinalBinding(order[..|order| - 1], children, flights, abort, b, name);
      LastWrite(order, children, flights, abort, b, name);
    }
  }

  /** The flag is raised exactly if it was up before or some tool failed; it never comes down. */
  lemma {:induction false} FinalFailure(order: seq<nat>, children: seq<Step>, flights: seq<Flight>, abort: bool,
                                        b: Board)
    requires Waiting(order, children, flights)
    ensures LandAll(order, children, flights, abort, b).failed
       <==> b.failed || exists i <- order :: Fails(flights[i], abort)
  {
    if order != [] {
      var last := order[|order| - 1];
      var rest := order[..|order| - 1];
      FinalFailure(rest, children, flights, abort, b);
      assert forall i :: i in order <==> i == last || i in rest;
    }
  }

  function ErrorText(child: Step, reply: ToolReply): string
    requires child.ToolCall?
  {
    match reply
    case Rejected(message) => message
    case Reply(_, _, error) => error.GetOr("tool " + child.tool + " failed")
  }

  /** Error text and step id reported are those of the failing tool that answers last. */
  lemma {:induction false} LastErrorWins(order: seq<nat>, k: nat, children: seq<Step>, flights: seq<Flight>,
                                         abort: bool, b: Board)
    requires Waiting(order, children, flights) && k < |order| && Fails(flights[order[k]], abort)
    requires forall j | k < j < |order| :: !Fails(flights[order[j]], abort)
    ensures var after := LandAll(order, children, flights, abort, b);
            && after.failedAt == children[order[k]].id
            && after.error == ErrorText(children[order[k]], flights[order[k]].reply)
  {
    if k < |order| - 1 {
      LastErrorWins(order[..|order| - 1], k, children, flights, abort, b);
    }
  }

  /** Moving one waiting child to the end of a schedule gives a schedule. */
  lemma MovedToEnd(order: seq<nat>, k: nat, flights: seq<Flight>)
    requires Schedule(order, flights) && k < |order|
    ensures Schedule(order[..k] + order[k + 1..] + [order[k]], flights)
  {
    var moved := order[..k] + order[k + 1..] + [order[k]];
    assert order == order[..k] + [order[k]] + order[k + 1..];
    forall i ensures i in moved <==> i in order {
    }
  }

  ghost predicate SameForEveryOrder(children: seq<Step>, flights: seq<Flight>, abort: bool, b: Board)
    requires |children| == |flights|
    requires forall i | 0 <= i < |flights| :: flights[i].Pending? ==> children[i].ToolCall?
  {
    forall p, q | Schedule(p, flights) && Schedule(q, flights) ::
      LandAll(p, children, flights, abort, b).frame == LandAll(q, children, flights, abort, b).frame
  }

  /** Final variables do not depend on the order of answers exactly when no answers conflict. */
  lemma OrderIrrelevantIff(children: seq<Step>, flights: seq<Flight>, abort: bool, b: Board, order: seq<nat>)
    requires |children| == |flights|
    requires forall i | 0 <= i < |flights| :: flights[i].Pending? ==> children[i].ToolCall?
    requires Schedule(order, flights)
    ensures SameForEveryOrder(children, flights, abort, b) <==> ConflictFree(children, flights)
  {
    if ConflictFree(children, flights) {
      forall p, q | Schedule(p, flights) && Schedule(q, flights)
        ensures LandAll(p, children, flights, abort, b).frame == LandAll(q, children, flights, abort, b).frame
      {
        SameFrame(p, q, children, flights, abort, b);
      }
    } else {
      var i: nat, j: nat, name :| i < |children| && j < |children|
                        && Saves(children[i], flights[i], name) && Saves(children[j], flights[j], name)
                        && SavedValue(flights[i]) != SavedValue(flights[j]);
      var p := EndingWith(i, order, flights);
      var q := EndingWith(j, order, flights);
      LastWrite(p, children, flights, abort, b, name);
      LastWrite(q, children, flights, abort, b, name);
    }
  }

  /** Two tools that both fail have the same to report. */
  ghost predicate SameReport(children: seq<Step>, flights: seq<Flight>, i: nat, j: nat)
    requires i < |children| == |flights| && j < |children| && flights[i].Pending? && flights[j].Pending?
    requires children[i].ToolCall? && children[j].ToolCall?
  {
    && children[i].id == children[j].id
    && ErrorText(children[i], flights[i].reply) == ErrorText(children[j], flights[j].reply)
  }

  ghost predicate OneReport(children: seq<Step>, flights: seq<Flight>, abort: bool)
    requires |children| == |flights|
    requires forall i | 0 <= i < |flights| :: flights[i].Pending? ==> children[i].ToolCall?
  {
    forall i: nat, j: nat | i < |flights| && j < |flights| && Fails(flights[i], abort) && Fails(flights[j], abort) ::
      SameReport(children, flights, i, j)
  }

  ghost predicate SameReportForEveryOrder(children: seq<Step>, flights: seq<Flight>, abort: bool, b: Board)
    requires |children| == |flights|
    requires forall i | 0 <= i < |flights| :: flights[i].Pending? ==> children[i].ToolCall?
  {
    forall p, q | Schedule(p, flights) && Schedule(q, flights) ::
      && LandAll(p, children, flights, abort, b).failedAt == LandAll(q, children, flights, abort, b).failedAt
      && LandAll(p, children, flights, abort, b).error == LandAll(q, children, flights, abort, b).error
  }

  /** Error text and step id reported do not depend on the order of answers exactly when all failing tools
      have the same to report. */
  lemma {:induction false} ReportIrrelevantIff(children: seq<Step>, flights: seq<Flight>, abort: bool, b: Board,
                                               order: seq<nat>)
    requires |children| == |flights|
    requires forall i | 0 <= i < |flights| :: flights[i].Pending? ==> children[i].ToolCall?
    requires Schedule(order, flights)
    ensures SameReportForEveryOrder(children, flights, abort, b) <==> OneReport(children, flights, abort)
  {
    if OneReport(children, flights, abort) {
      forall p, q | Schedule(p, flights) && Schedule(q, flights)
        ensures LandAll(p, children, flights, abort, b).failedAt == LandAll(q, children, flights, abort, b).failedAt
        ensures LandAll(p, children, flights, abort, b).error == LandAll(q, children, flights, abort, b).error
      {
        SameReported(p, q, children, flights, abort, b);
      }
    } else {
      var i: nat, j: nat :| i < |flights| && j < |flights| && Fails(flights[i], abort) && Fails(flights[j], abort)
                            && !SameReport(children, flights, i, j);
      var p := EndingWith(i, order, flights);
      var q := EndingWith(j, order, flights);
      ReportedLast(p, i, children, flights, abort, b);
      ReportedLast(q, j, children, flights, abort, b);
    }
  }

  lemma {:induction false} ReportedLast(order: seq<nat>, i: nat, children: seq<Step>, flights: seq<Flight>, abort: bool,
                                        b: Board)
    requires Waiting(order, children, flights) && order != [] && order[|order| - 1] == i && Fails(flights[i], abort)
    ensures var after := LandAll(order, children, flights, abort, b);
            after.failedAt == children[i].id && after.error == ErrorText(children[i], flights[i].reply)
  {
    LastErrorWins(order, |order| - 1, children, flights, abort, b);
  }

  lemma {:induction false} SameReported(p: seq<nat>, q: seq<nat>, children: seq<Step>, flights: seq<Flight>,
                                        abort: bool, b: Board)
    requires Schedule(p, flights) && Schedule(q, flights) && |children| == |flights|
    requires forall i | 0 <= i < |flights| :: flights[i].Pending? ==> children[i].ToolCall?
    requires Waiting(p, children, flights) && Waiting(q, children, flights) && OneReport(children, flights, abort)
    ensures LandAll(p, children, flights, abort, b).failedAt == LandAll(q, children, flights, abort, b).failedAt
    ensures LandAll(p, children, flights, abort, b).error == LandAll(q, children, flights, abort, b).error
  {
    FinalReport(p, children, flights, abort, b);
    FinalReport(q, children, flights, abort, b);
    var f, g := LastFailing(p, flights, abort), LastFailing(q, flights, abort);
    if f.Some? {
      assert f.value in q;
      assert SameReport(children, flights, f.value, g.value);
    } else if g.Some? {
      assert g.value in p;
    }
  }

  /** The last child in the order whose tool fails. */
  ghost function LastFailing(order: seq<nat>, flights: seq<Flight>, abort: bool): (r: Option<nat>)
    requires forall k | 0 <= k < |order| :: order[k] < |flights|
    ensures r.None? ==> forall i <- order :: !Fails(flights[i], abort)
    ensures r.Some? ==> r.value in order && Fails(flights[r.value], abort)
  {
    if order == [] then None
    else
      var last := order[|order| - 1];
      if Fails(flights[last], abort) then Some(last)
      else
        assert order == order[..|order| - 1] + [last];
        LastFailing(order[..|order| - 1], flights, abort)
  }

  lemma {:induction false} FinalReport(order: seq<nat>, children: seq<Step>, flights: seq<Flight>, abort: bool,
                                       b: Board)
    requires Waiting(order, children, flights)
    ensures var after := LandAll(order, children, flights, abort, b);
            match LastFailing(order, flights, abort)
            case Some(i) => after.failedAt == children[i].id && after.error == ErrorText(children[i], flights[i].reply)
            case None => after.failedAt == b.failedAt && after.error == b.error
  {
    if order != [] {
      FinalReport(order[..|order| - 1], children, flights, abort, b);
    }
  }

  lemma EndingWith(i: nat, order: seq<nat>, flights: seq<Flight>) returns (moved: seq<nat>)
    requires Schedule(order, flights) && i < |flights| && flights[i].Pending?
    ensures Schedule(moved, flights) && moved != [] && moved[|moved| - 1] == i
  {
    var k :| 0 <= k < |order| && order[k] == i;
    MovedToEnd(order, k, flights);
    moved := order[..k] + order[k + 1..] + [order[k]];
  }

  lemma {:induction false} SameFrame(p: seq<nat>, q: seq<nat>, children: seq<Step>, flights: seq<Flight>,
                                     abort: bool, b: Board)
    requires Schedule(p, flights) && Schedule(q, flights)
    requires Waiting(p, children, flights) && Waiting(q, children, flights) && ConflictFree(children, flights)
    ensures LandAll(p, children, flights, abort, b).frame == LandAll(q, children, flights, abort, b).frame
  {
    var f, g := LandAll(p, children, flights, abort, b).frame, LandAll(q, children, flights, abort, b).frame;
    forall name
      ensures (name in f <==> name in g) && (name in f ==> f[name] == g[name])
    {
      FinalBinding(p, children, flights, abort, b, name);
      FinalBinding(q, children, flights, abort, b, name);
    }
  }

  /** Tool children save under different names. */
  predicate DistinctSaves(children: seq<Step>) {
    forall i, j | 0 <= i < j < |children| && children[i].ToolCall? && children[j].ToolCall?
                  && children[i].saveAs.Some? && children[i].saveAs.value != ""
      :: children[i].saveAs != children[j].saveAs
  }

  /** A leaf-only parallel step with distinct save names: whatever the tools do and in whatever order
      they answer, the variables and the failure flag come out the same, and the flag is raised
      exactly if some tool failed. */
  lemma {:induction false} ParallelIsDeterministic(children: seq<Step>, env: Env, scopes: seq<Frame>,
                                                   calls: seq<Invocation>, p: seq<nat>, q: seq<nat>)
    requires LeafOnly(children) && scopes != [] && DistinctSaves(children)
    requires var flights := Launch(children, env, scopes, calls).flights;
             Schedule(p, flights) && Schedule(q, flights)
    ensures var started := Launch(children, env, scopes, calls);
            var b := Board(started.scopes[|started.scopes| - 1], false, "", "");
            var x := LandAll(p, children, started.flights, env.abortOnToolError, b);
            var y := LandAll(q, children, started.flights, env.abortOnToolError, b);
            && x.frame == y.frame
            && x.failed == y.failed
            && (x.failed <==> exists i | 0 <= i < |children| :: Fails(started.flights[i], env.abortOnToolError))
  {
    var started := Launch(children, env, scopes, calls);
    var b := Board(started.scopes[|started.scopes| - 1], false, "", "");
    SameFrame(p, q, children, started.flights, env.abortOnToolError, b);
    FinalFailure(p, children, started.flights, env.abortOnToolError, b);
    FinalFailure(q, children, started.flights, env.abortOnToolError, b);
  }

  /** Tools are invoked in list order, each with arguments that see the variables set before it and
      no tool's answer. */
  lemma {:induction false} LaunchedInListOrder(children: seq<Step>, k: nat, env: Env, scopes: seq<Frame>,
                                               calls: seq<Invocation>)
    requires LeafOnly(children) && scopes != [] && k < |children| && children[k].ToolCall?
    ensures var invoked := Launch(children, env, scopes, calls).calls;
            var before := Launch(children[..k], env, scopes, calls);
            && |before.calls| < |invoked|
            && invoked[|before.calls|] == Invocation(children[k].tool, ResolveAll(children[k].args, before.scopes))
            && before.calls <= invoked
  {
    var (s, c) := LaunchOne(children[0], scopes, calls);
    if k > 0 {
      LaunchedInListOrder(children[1..], k - 1, env, s, c);
      assert children[..k][1..] == children[1..][..k - 1];
    } else {
      assert c <= Launch(children[1..], env, s, c).calls;
    }
  }
}
