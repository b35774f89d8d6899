/** What single steps do to a run, told by the frames, the tools' replies and the step itself. */
module WorkflowOutcomes {
  import opened Prelude
  import opened WorkflowSchema
  import opened WorkflowValues
  import opened WorkflowSemantics

  // ----- What a value stands for -----

  /** A read of `name` sees `v`: the innermost frame that owns the name holds it, or none does. */
  ghost predicate Sees(scopes: seq<Frame>, name: string, v: Value) {
    || (exists i :: BoundInnermostAt(scopes, name, i) && v == scopes[i][name])
    || ((forall frame <- scopes :: name !in frame) && v == Undefined)
  }

  /** A record with a string under `$fromVar` stands for what is seen under that name, all else for itself. */
  ghost predicate Stands(scopes: seq<Frame>, written: Value, v: Value) {
    if written.Obj? && "$fromVar" in written.fields && written.fields["$fromVar"].Str?
    then Sees(scopes, written.fields["$fromVar"].s, v)
    else v == written
  }

  ghost predicate StandForAll(scopes: seq<Frame>, written: map<string, Value>, args: map<string, Value>) {
    args.Keys == written.Keys && forall k <- written :: Stands(scopes, written[k], args[k])
  }

  lemma {:induction false} LookupSees(scopes: seq<Frame>, name: string)
    ensures Sees(scopes, name, Lookup(scopes, name))
  {
    if scopes != [] {
      var top := |scopes| - 1;
      if name in scopes[top] {
        assert BoundInnermostAt(scopes, name, top);
      } else {
        LookupSees(scopes[..top], name);
        if i :| BoundInnermostAt(scopes[..top], name, i) && Lookup(scopes, name) == scopes[..top][i][name] {
          assert BoundInnermostAt(scopes, name, i);
        }
        assert scopes == scopes[..top] + [scopes[top]];
      }
    }
  }

  /** Only one value can be seen. */
  lemma {:induction false} SeesOne(scopes: seq<Frame>, name: string, v: Value)
    requires Sees(scopes, name, v)
    ensures v == Lookup(scopes, name)
  {
    LookupSees(scopes, name);
    if i :| BoundInnermostAt(scopes, name, i) && v == scopes[i][name] {
      assert scopes[i] in scopes;
      var j :| BoundInnermostAt(scopes, name, j) && Lookup(scopes, name) == scopes[j][name];
      assert i == j;
    }
  }

  lemma {:induction false} ResolveStands(scopes: seq<Frame>, written: Value)
    ensures Stands(scopes, written, Resolve(written, scopes))
  {
    if written.Obj? && "$fromVar" in written.fields && written.fields["$fromVar"].Str? {
      LookupSees(scopes, written.fields["$fromVar"].s);
    }
  }

  lemma {:induction false} StandsOne(scopes: seq<Frame>, written: Value, v: Value)
    requires Stands(scopes, written, v)
    ensures v == Resolve(written, scopes)
  {
    if written.Obj? && "$fromVar" in written.fields && written.fields["$fromVar"].Str? {
      SeesOne(scopes, written.fields["$fromVar"].s, v);
    }
  }

  lemma {:induction false} ResolveAllStand(scopes: seq<Frame>, written: map<string, Value>)
    ensures StandForAll(scopes, written, ResolveAll(written, scopes))
  {
    forall k | k in written ensures Stands(scopes, written[k], ResolveAll(written, scopes)[k]) {
      ResolveStands(scopes, written[k]);
    }
  }

  // ----- Leaf steps -----

  /** The frames after `v` has been bound to `name` in the top frame. */
  ghost predicate BoundOnTop(before: seq<Frame>, after: seq<Frame>, name: string, v: Value) {
    && before != [] && |after| == |before|
    && after[..|after| - 1] == before[..|before| - 1]
    && after[|after| - 1] == before[|before| - 1][name := v]
  }

  /** A tool is invoked once, with what its arguments stand for. The call fails, under its own id and with the
      tool's text, exactly if the tool rejects, or replies without success when that is to abort. Unless it
      rejects, its output or null is bound in the top frame. */
  lemma {:induction false} ToolCallMeans(step: Step, env: Env, depth: nat, c: Config) returns (args: map<string, Value>)
    requires step.ToolCall? && ParallelFreeEnv(env) && c.store.scopes != []
    ensures StandForAll(c.store.scopes, step.args, args)
    ensures var (r, reply) := (Eval(step, env, depth, c), env.tools(c.store.calls, step.tool, args));
            && r.cfg.store.calls == c.store.calls + [Invocation(step.tool, args)]
            && !r.outcome.Returned? && r.cfg.register == c.register
            && (r.outcome.Failed? <==> reply.Rejected? || (!reply.success && env.abortOnToolError))
            && (r.outcome.Failed? ==>
                  && r.outcome.stepId == step.id
                  && r.outcome.error == match reply
                                        case Rejected(message) => message
                                        case Reply(_, _, Some(error)) => error
                                        case Reply(_, _, None) => "tool " + step.tool + " failed")
            && match (reply, step.saveAs)
               case (Reply(_, output, _), Some(name)) =>
                 if name == "" then r.cfg.store.scopes == c.store.scopes
                 else BoundOnTop(c.store.scopes, r.cfg.store.scopes, name,
                                 if output.Some? then Str(output.value) else Null)
               case _ => r.cfg.store.scopes == c.store.scopes
  {
    args := ResolveAll(step.args, c.store.scopes);
    ResolveAllStand(c.store.scopes, step.args);
  }

  /** Setting a variable binds what the value stands for in the top frame, and cannot fail. */
  lemma {:induction false} SetVarMeans(step: Step, env: Env, depth: nat, c: Config) returns (v: Value)
    requires step.SetVar? && ParallelFreeEnv(env) && c.store.scopes != []
    ensures Stands(c.store.scopes, step.value, v)
    ensures var r := Eval(step, env, depth, c);
            && r.outcome == Normal && r.cfg.register == c.register && r.cfg.store.calls == c.store.calls
            && BoundOnTop(c.store.scopes, r.cfg.store.scopes, step.name, v)
  {
    v := Resolve(step.value, c.store.scopes);
    ResolveStands(c.store.scopes, step.value);
  }

  /** A return hands over what its value stands for. */
  lemma {:induction false} ReturnMeans(step: Step, env: Env, depth: nat, c: Config)
    requires step.Return? && ParallelFreeEnv(env) && c.store.scopes != []
    ensures var r := Eval(step, env, depth, c);
            && r.outcome == Returned && Stands(c.store.scopes, step.value, r.cfg.register)
            && r.cfg.store.scopes == c.store.scopes && r.cfg.store.calls == c.store.calls
  {
    ResolveStands(c.store.scopes, step.value);
  }

  /** A function that is not declared, or called too deep, fails at the call. Otherwise its body runs in a frame
      of its own that holds exactly what the arguments stand for, and the call fails as the body does. */
  lemma {:induction false} CallMeans(step: Step, env: Env, depth: nat, c: Config) returns (frame: Frame)
    requires step.Call? && ParallelFreeEnv(env) && c.store.scopes != []
    ensures StandForAll(c.store.scopes, if step.callArgs.Some? then step.callArgs.value else map[], frame)
    ensures var r := Eval(step, env, depth, c);
            if step.func !in env.functions || depth >= env.maxCallDepth
            then r.outcome.Failed? && r.outcome.stepId == step.id && r.cfg.store.scopes == c.store.scopes
            else
              var begun := Begin(step, c).store;
              var inside := Config(begun.(scopes := c.store.scopes + [frame]), Undefined, c.marks);
              var body := Eval(env.functions[step.func], env, depth + 1, inside);
              && r.outcome == (if body.outcome.Failed? then body.outcome else Normal)
              && r.cfg.store.calls == body.cfg.store.calls
  {
    frame := ResolveAll(step.callArgs.GetOr(map[]), c.store.scopes);
    ResolveAllStand(c.store.scopes, step.callArgs.GetOr(map[]));
    EvalOfCall(step, env, depth, c);
  }

  /** A handler runs if the body fails, and only then: in a frame of its own on top of the body's, which holds
      the body's error text and step id. Without a cleanup the try then ends as the handler does. */
  lemma {:induction false} HandlerMeans(step: Step, env: Env, depth: nat, c: Config)
    requires step.Try? && step.handler.Some? && step.cleanup.None?
    requires ParallelFree(step) && ParallelFreeEnv(env) && c.store.scopes != []
    ensures var (r, body) := (Eval(step, env, depth, c), Eval(step.body, env, depth, Begin(step, c)));
            if !body.outcome.Failed? then
              r.outcome == body.outcome && r.cfg.store.scopes == body.cfg.store.scopes
              && r.cfg.store.calls == body.cfg.store.calls && r.cfg.register == body.cfg.register
            else
              var frame := map["__error__" := Str(body.outcome.error), "__errorStepId__" := Str(body.outcome.stepId)];
              var caught := body.cfg.store.(scopes := body.cfg.store.scopes + [frame]);
              var handled := Eval(step.handler.value, env, depth, body.cfg.(store := caught));
              && r.outcome == handled.outcome && r.cfg.register == handled.cfg.register
              && r.cfg.store.calls == handled.cfg.store.calls
              && r.cfg.store.scopes == handled.cfg.store.scopes[..|body.cfg.store.scopes|]
  {
    EvalOfTry(step, env, depth, c);
  }

  /** A cleanup always runs, on what body and handler left behind, and only its failure changes how the try
      ends. */
  lemma {:induction false} CleanupMeans(step: Step, env: Env, depth: nat, c: Config)
    returns (cleaned: Result, rest: seq<StepEvent>)
    requires step.Try? && step.cleanup.Some?
    requires ParallelFree(step) && ParallelFreeEnv(env) && c.store.scopes != []
    ensures var bare := step.(cleanup := None);
            var (r, before) := (Eval(step, env, depth, c), Eval(bare, env, depth, c));
            && before.cfg.store.events == rest + [Ended(step.id, "try", !before.outcome.Failed?, None)]
            && cleaned == Eval(step.cleanup.value, env, depth, before.cfg.(store := before.cfg.store.(events := rest)))
            && r.outcome == (if cleaned.outcome.Failed? then cleaned.outcome else before.outcome)
            && r.cfg.store.scopes == cleaned.cfg.store.scopes && r.cfg.store.calls == cleaned.cfg.store.calls
  {
    var bare := step.(cleanup := None);
    EvalOfTry(step, env, depth, c);
    EvalOfTry(bare, env, depth, c);
    var begun := Begin(step, c);
    assert begun == Begin(bare, c);
    var guarded := EvalGuarded(step, env, depth, begun);
    assert guarded == EvalGuarded(bare, env, depth, begun);
    var before := Eval(bare, env, depth, c);
    assert before == Finish(bare, Done(guarded));
    rest := guarded.cfg.store.events;
    assert before.cfg.(store := before.cfg.store.(events := rest)) == guarded.cfg;
    cleaned := Eval(step.cleanup.value, env, depth, guarded.cfg);
  }

  /** A scope runs its body in an empty frame of its own and ends as the body does. */
  lemma {:induction false} ScopeMeans(step: Step, env: Env, depth: nat, c: Config)
    requires step.Scope? && ParallelFree(step) && ParallelFreeEnv(env) && c.store.scopes != []
    ensures var begun := Begin(step, c);
            var inside := begun.(store := begun.store.(scopes := c.store.scopes + [map[]]));
            var (r, body) := (Eval(step, env, depth, c), Eval(step.body, env, depth, inside));
            && r.outcome == body.outcome && r.cfg.register == body.cfg.register
            && r.cfg.store.calls == body.cfg.store.calls && r.cfg.store.scopes == c.store.scopes
  {
    var begun := Begin(step, c);
    var body := Eval(step.body, env, depth, Push(begun, map[]));
    assert Isolated(Push(begun, map[]).store.scopes, body.cfg.store.scopes);
    assert body.cfg.store.scopes[..|c.store.scopes|] == c.store.scopes;
  }

  /** These configurations lead through the first steps: each step starts where the one before it ended, and all
      but the last end normally. */
  ghost predicate Leads(steps: seq<Step>, env: Env, depth: nat, cfgs: seq<Config>)
    requires (forall child <- steps :: ParallelFree(child)) && ParallelFreeEnv(env)
  {
    && 1 <= |cfgs| <= |steps| + 1 && (forall k | 0 <= k < |cfgs| :: cfgs[k].store.scopes != [])
    && forall k {:trigger cfgs[k]} | 0 <= k < |cfgs| - 1 ::
         && cfgs[k + 1] == Eval(steps[k], env, depth, cfgs[k]).cfg
         && (k < |cfgs| - 2 ==> Eval(steps[k], env, depth, cfgs[k]).outcome == Normal)
  }

  lemma {:induction false} LeadsFromFirst(steps: seq<Step>, env: Env, depth: nat, c: Config, rest: seq<Config>)
    requires (forall child <- steps :: ParallelFree(child)) && ParallelFreeEnv(env)
    requires steps != [] && c.store.scopes != [] && Leads(steps[1..], env, depth, rest)
    requires Eval(steps[0], env, depth, c) == Result(Normal, rest[0])
    ensures Leads(steps, env, depth, [c] + rest)
  {
    var cfgs := [c] + rest;
    forall k | 0 <= k < |cfgs| - 1
      ensures cfgs[k + 1] == Eval(steps[k], env, depth, cfgs[k]).cfg
      ensures k < |cfgs| - 2 ==> Eval(steps[k], env, depth, cfgs[k]).outcome == Normal
    {
      if k > 0 {
        assert cfgs[k] == rest[k - 1] && cfgs[k + 1] == rest[k] && steps[k] == steps[1..][k - 1];
      }
    }
  }

  /** A sequence runs its steps one after the other up to the first that does not end normally, and ends as that
      one does; it ends normally if there is none. */
  lemma {:induction false} SequenceMeans(step: Step, env: Env, depth: nat, c: Config) returns (cfgs: seq<Config>)
    requires step.Sequence? && ParallelFree(step) && ParallelFreeEnv(env) && c.store.scopes != []
    ensures Leads(step.steps, env, depth, cfgs) && cfgs[0] == Begin(step, c)
    ensures var (r, n) := (Eval(step, env, depth, c), |cfgs| - 1);
            && r.cfg == Emit(cfgs[n], Ended(step.id, "sequence", !r.outcome.Failed?, None))
            && r.outcome == (if n == 0 then Normal else Eval(step.steps[n - 1], env, depth, cfgs[n - 1]).outcome)
            && (r.outcome == Normal ==> n == |step.steps|)
  {
    cfgs := StepsLead(step.steps, env, depth, Begin(step, c));
  }

  lemma {:induction false} StepsLead(steps: seq<Step>, env: Env, depth: nat, c: Config) returns (cfgs: seq<Config>)
    requires (forall child <- steps :: ParallelFree(child)) && ParallelFreeEnv(env) && c.store.scopes != []
    ensures Leads(steps, env, depth, cfgs) && cfgs[0] == c
    ensures var (r, n) := (EvalSeq(steps, env, depth, c), |cfgs| - 1);
            && r.cfg == cfgs[n]
            && r.outcome == (if n == 0 then Normal else Eval(steps[n - 1], env, depth, cfgs[n - 1]).outcome)
            && (r.outcome == Normal ==> n == |steps|)
  {
    if steps == [] {
      cfgs := [c];
    } else {
      var r := Eval(steps[0], env, depth, c);
      if r.outcome == Normal {
        var rest := StepsLead(steps[1..], env, depth, r.cfg);
        cfgs := [c] + rest;
        LeadsFromFirst(steps, env, depth, c, rest);
      } else {
        cfgs := [c, r.cfg];
      }
    }
  }

  // ----- Branches -----

  /** The branch does what this arm does, and nothing without one. */
  ghost predicate Takes(step: Step, env: Env, depth: nat, c: Config, arm: Option<Step>)
    requires step.Branch? && ParallelFree(step) && ParallelFreeEnv(env) && c.store.scopes != []
    requires arm.Some? ==> ParallelFree(arm.value)
  {
    var begun := Begin(step, c);
    var done := if arm.Some? then Eval(arm.value, env, depth, begun) else Result(Normal, begun);
    && Eval(step, env, depth, c).outcome == done.outcome
    && Eval(step, env, depth, c).cfg == Emit(done.cfg, Ended(step.id, "branch", !done.outcome.Failed?, None))
  }

  ghost predicate TakesTrue(step: Step, env: Env, depth: nat, c: Config)
    requires step.Branch? && ParallelFree(step) && ParallelFreeEnv(env) && c.store.scopes != []
  {
    Takes(step, env, depth, c, Some(step.whenTrue))
  }

  ghost predicate TakesFalse(step: Step, env: Env, depth: nat, c: Config)
    requires step.Branch? && ParallelFree(step) && ParallelFreeEnv(env) && c.store.scopes != []
  {
    Takes(step, env, depth, c, step.whenFalse)
  }

  lemma {:induction false} BranchTakes(step: Step, env: Env, depth: nat, c: Config)
    requires step.Branch? && ParallelFree(step) && ParallelFreeEnv(env) && c.store.scopes != []
    ensures if EvalCondition(step.condition, c.store.scopes) then TakesTrue(step, env, depth, c)
            else TakesFalse(step, env, depth, c)
  {
  }

  predicate IsVar(condition: Value) {
    condition.Obj? && "$var" in condition.fields && condition.fields["$var"].Str?
  }

  predicate IsEquals(condition: Value) {
    && condition.Obj? && !IsVar(condition)
    && "$equals" in condition.fields && condition.fields["$equals"].Arr? && |condition.fields["$equals"].items| == 2
  }

  predicate IsNot(condition: Value) {
    condition.Obj? && !IsVar(condition) && !IsEquals(condition) && "$not" in condition.fields
  }

  predicate IsExists(condition: Value) {
    && condition.Obj? && !IsVar(condition) && !IsEquals(condition) && !IsNot(condition)
    && "$exists" in condition.fields && condition.fields["$exists"].Str?
  }

  /** The values that count as false. */
  predicate IsFalsy(v: Value) {
    v == Undefined || v == Null || v == Bool(false) || v == Num(0.0) || v == NaN || v == Str("")
  }

  /** A branch on `$not` does what the branch on the negated condition does with its arms swapped. */
  lemma {:induction false} BranchOnNot(step: Step, env: Env, depth: nat, c: Config)
    requires step.Branch? && ParallelFree(step) && ParallelFreeEnv(env) && c.store.scopes != []
    requires IsNot(step.condition) && step.whenFalse.Some?
    ensures var swapped := Branch(step.id, step.condition.fields["$not"], step.whenFalse.value, Some(step.whenTrue));
            Eval(step, env, depth, c) == Eval(swapped, env, depth, c)
  {
    var swapped := Branch(step.id, step.condition.fields["$not"], step.whenFalse.value, Some(step.whenTrue));
    BranchTakes(step, env, depth, c);
    BranchTakes(swapped, env, depth, c);
    assert Begin(step, c) == Begin(swapped, c);
  }

  lemma {:induction false} TruthyIff(v: Value)
    ensures Truthy(v) <==> !IsFalsy(v)
  {
  }

  lemma {:induction false} ConditionOnVar(condition: Value, scopes: seq<Frame>)
    requires IsVar(condition)
    ensures EvalCondition(condition, scopes) <==> Truthy(Lookup(scopes, condition.fields["$var"].s))
  {
  }

  /** A branch on `$var` is decided by the value that is seen under the name. */
  lemma {:induction false} BranchOnVar(step: Step, env: Env, depth: nat, c: Config, v: Value)
    requires step.Branch? && ParallelFree(step) && ParallelFreeEnv(env) && c.store.scopes != []
    requires IsVar(step.condition) && Sees(c.store.scopes, step.condition.fields["$var"].s, v)
    ensures if IsFalsy(v) then TakesFalse(step, env, depth, c) else TakesTrue(step, env, depth, c)
  {
    SeesOne(c.store.scopes, step.condition.fields["$var"].s, v);
    TruthyIff(v);
    ConditionOnVar(step.condition, c.store.scopes);
    BranchTakes(step, env, depth, c);
  }

  /** A branch on `$exists` is decided by whether anything but undefined is seen under the name. */
  lemma {:induction false} BranchOnExists(step: Step, env: Env, depth: nat, c: Config, v: Value)
    requires step.Branch? && ParallelFree(step) && ParallelFreeEnv(env) && c.store.scopes != []
    requires IsExists(step.condition) && Sees(c.store.scopes, step.condition.fields["$exists"].s, v)
    ensures if v == Undefined then TakesFalse(step, env, depth, c) else TakesTrue(step, env, depth, c)
  {
    SeesOne(c.store.scopes, step.condition.fields["$exists"].s, v);
    BranchTakes(step, env, depth, c);
  }

  /** Arrays and records are the same if they are one object, everything else if it has the same value;
      not-a-number is never the same. */
  predicate AreSame(a: Value, b: Value) {
    match (a, b)
    case (Arr(r, _), Arr(s, _)) => r == s
    case (Obj(r, _), Obj(s, _)) => r == s
    case (NaN, NaN) => false
    case _ => a == b
  }

  lemma {:induction false} SameIff(a: Value, b: Value)
    ensures StrictEquals(a, b) <==> AreSame(a, b)
  {
  }

  lemma {:induction false} ConditionOnEquals(condition: Value, scopes: seq<Frame>)
    requires IsEquals(condition)
    ensures var operands := condition.fields["$equals"].items;
            EvalCondition(condition, scopes) <==>
              StrictEquals(Resolve(operands[0], scopes), Resolve(operands[1], scopes))
  {
  }

  /** A branch on `$equals` is decided by what its two operands stand for. */
  lemma {:induction false} BranchOnEquals(step: Step, env: Env, depth: nat, c: Config, v: Value, w: Value)
    requires step.Branch? && ParallelFree(step) && ParallelFreeEnv(env) && c.store.scopes != []
    requires IsEquals(step.condition)
    requires var operands := step.condition.fields["$equals"].items;
             Stands(c.store.scopes, operands[0], v) && Stands(c.store.scopes, operands[1], w)
    ensures if AreSame(v, w) then TakesTrue(step, env, depth, c) else TakesFalse(step, env, depth, c)
  {
    var operands := step.condition.fields["$equals"].items;
    StandsOne(c.store.scopes, operands[0], v);
    StandsOne(c.store.scopes, operands[1], w);
    SameIff(v, w);
    ConditionOnEquals(step.condition, c.store.scopes);
    BranchTakes(step, env, depth, c);
  }

  /** Any other condition is decided by itself: an array by having items, a record never, the rest by being
      falsy or not. */
  lemma {:induction false} BranchOnValue(step: Step, env: Env, depth: nat, c: Config)
    requires step.Branch? && ParallelFree(step) && ParallelFreeEnv(env) && c.store.scopes != []
    requires var e := step.condition; !IsVar(e) && !IsEquals(e) && !IsNot(e) && !IsExists(e)
    ensures var e := step.condition;
            if IsFalsy(e) || e.Obj? || (e.Arr? && e.items == []) then TakesFalse(step, env, depth, c)
            else TakesTrue(step, env, depth, c)
  {
    BranchTakes(step, env, depth, c);
  }

  // ----- Runs without a cause to fail -----

  /** No tool ever rejects, and unsuccessful replies do not abort. */
  ghost predicate ToolsNeverAbort(env: Env) {
    !env.abortOnToolError && forall calls, tool, args :: !env.tools(calls, tool, args).Rejected?
  }

  /** All functions called, at most `budget` calls deep, are declared. */
  predicate CallsWithin(step: Step, functions: map<string, Step>, budget: nat)
    decreases budget, step
  {
    match step
    case Sequence(_, steps) => forall child <- steps :: CallsWithin(child, functions, budget)
    case Parallel(_, steps) => forall child <- steps :: CallsWithin(child, functions, budget)
    case Branch(_, _, whenTrue, whenFalse) =>
      CallsWithin(whenTrue, functions, budget)
      && (whenFalse.Some? ==> CallsWithin(whenFalse.value, functions, budget))
    case Call(_, func, _, _) =>
      func in functions && budget > 0 && CallsWithin(functions[func], functions, budget - 1)
    case Try(_, body, handler, cleanup) =>
      && CallsWithin(body, functions, budget)
      && (handler.Some? ==> CallsWithin(handler.value, functions, budget))
      && (cleanup.Some? ==> CallsWithin(cleanup.value, functions, budget))
    case Scope(_, body) => CallsWithin(body, functions, budget)
    case _ => true
  }

  /** Only tools and calls can make a run fail: if no tool aborts, and every call finds its function within the
      depth limit, the step does not fail. */
  lemma {:induction false} NothingFails(step: Step, env: Env, depth: nat, c: Config)
    requires ParallelFree(step) && ParallelFreeEnv(env) && c.store.scopes != []
    requires ToolsNeverAbort(env) && CallsWithin(step, env.functions, Budget(env, depth))
    ensures !Eval(step, env, depth, c).outcome.Failed?
    decreases Budget(env, depth), step, 3
  {
    var begun := Begin(step, c);
    match step
    case ToolCall(_, _, _, _) => var args := ToolCallMeans(step, env, depth, c);
    case Sequence(_, steps) => NothingFailsInSeq(steps, env, depth, begun);
    case Branch(_, condition, whenTrue, whenFalse) =>
      BranchTakes(step, env, depth, c);
      if EvalCondition(condition, c.store.scopes) {
        NothingFails(whenTrue, env, depth, begun);
      } else if whenFalse.Some? {
        NothingFails(whenFalse.value, env, depth, begun);
      }
    case Call(_, func, args, _) =>
      EvalOfCall(step, env, depth, c);
      NothingFails(env.functions[func], env, depth + 1, EnterCall(args, begun));
    case Try(_, _, _, _) => NothingFailsInTry(step, env, depth, c);
    case Scope(_, body) => NothingFails(body, env, depth, Push(begun, map[]));
    case _ =>
  }

  lemma {:induction false} NothingFailsInTry(step: Step, env: Env, depth: nat, c: Config)
    requires step.Try? && ParallelFree(step) && ParallelFreeEnv(env) && c.store.scopes != []
    requires ToolsNeverAbort(env) && CallsWithin(step, env.functions, Budget(env, depth))
    ensures !Eval(step, env, depth, c).outcome.Failed?
    decreases Budget(env, depth), step, 2
  {
    var begun := Begin(step, c);
    EvalOfTry(step, env, depth, c);
    NothingFails(step.body, env, depth, begun);
    if step.cleanup.Some? {
      NothingFails(step.cleanup.value, env, depth, EvalGuarded(step, env, depth, begun).cfg);
    }
  }

  lemma {:induction false} NothingFailsInSeq(steps: seq<Step>, env: Env, depth: nat, c: Config)
    requires (forall child <- steps :: ParallelFree(child)) && ParallelFreeEnv(env) && c.store.scopes != []
    requires ToolsNeverAbort(env)
    requires forall child <- steps :: CallsWithin(child, env.functions, Budget(env, depth))
    ensures !EvalSeq(steps, env, depth, c).outcome.Failed?
    decreases Budget(env, depth), steps, 0
  {
    if steps != [] {
      NothingFails(steps[0], env, depth, c);
      NothingFailsInSeq(steps[1..], env, depth, Eval(steps[0], env, depth, c).cfg);
    }
  }
}
