/** Workflows on which the engine and ECMA-262 completions differ. */
module WorkflowDivergence {
  import opened Prelude
  import opened WorkflowSchema
  import opened WorkflowSemantics
  import opened WorkflowCompletions

  lemma {:induction false} EmptySequenceIsNormal(id: string, env: Env, depth: nat, c: Config)
    requires ParallelFreeEnv(env) && c.store.scopes != []
    ensures var r := Eval(Sequence(id, []), env, depth, c);
            r.outcome == Normal && r.cfg.register == c.register
    ensures Run(Sequence(id, []), env, depth, c.store).completion == NormalCompletion
  {
    assert EvalSeq([], env, depth, Begin(Sequence(id, []), c)).outcome == Normal;
    assert RunSeq([], env, depth, Begin(Sequence(id, []), c).store).completion == NormalCompletion;
  }

  lemma {:induction false} ReturnFillsRegister(id: string, v: Value, env: Env, depth: nat, c: Config)
    requires ParallelFreeEnv(env) && c.store.scopes != [] && !v.Obj?
    ensures var r := Eval(Return(id, v), env, depth, c);
            r.outcome == Returned && r.cfg.register == v
    ensures Run(Return(id, v), env, depth, c.store).completion == ReturnCompletion(v)
  {
  }

  /** A body that does nothing, with a cleanup step that returns. */
  function ReturningCleanup(v: Value): (step: Step)
    ensures ParallelFree(step)
  {
    Try("t", Sequence("s", []), None, Some(Return("r", v)))
  }

  lemma {:induction false} CleanupReturnInEngine(v: Value, env: Env, depth: nat, c: Config)
    requires ParallelFreeEnv(env) && c.store.scopes != [] && !v.Obj?
    ensures var r := Eval(ReturningCleanup(v), env, depth, c); r.outcome == Normal && r.cfg.register == v
  {
    var step := ReturningCleanup(v);
    assert ParallelFree(step.body) && ParallelFree(step.cleanup.value);
    EvalOfTry(step, env, depth, c);
    var r := EvalGuarded(step, env, depth, Begin(step, c));
    EmptySequenceIsNormal("s", env, depth, Begin(step, c));
    assert r == Eval(Sequence("s", []), env, depth, Begin(step, c));
    ReturnFillsRegister("r", v, env, depth, r.cfg);
  }

  /** A cleanup step that returns after a body that does nothing: for ECMA-262 a return of `v`. The
      engine goes on normally, with `v` left in the register. */
  lemma {:induction false} ReturnInCleanupIsNotControlFlow(v: Value, env: Env, depth: nat, c: Config)
    requires ParallelFreeEnv(env) && c.store.scopes != [] && !v.Obj?
    ensures var r := Eval(ReturningCleanup(v), env, depth, c); r.outcome == Normal && r.cfg.register == v
    ensures Run(ReturningCleanup(v), env, depth, c.store).completion == ReturnCompletion(v)
  {
    var step := ReturningCleanup(v);
    CleanupReturnInEngine(v, env, depth, c);
    EmptySequenceIsNormal("s", env, depth, Begin(step, c));
    var j := RunGuarded(step, env, depth, Begin(step, c).store);
    assert j == Run(Sequence("s", []), env, depth, Begin(step, c).store);
    ReturnFillsRegister("r", v, env, depth, At(j.store));
  }

  lemma {:induction false} MissingFails(id: string, missing: string, env: Env, depth: nat, c: Config)
    requires ParallelFreeEnv(env) && c.store.scopes != [] && missing !in env.functions
    ensures var r := Eval(Call(id, missing, None, None), env, depth, c);
            r.outcome == Failed(UndefinedFunction(missing), id) && r.cfg.register == c.register
    ensures Run(Call(id, missing, None, None), env, depth, c.store).completion
         == ThrowCompletion(UndefinedFunction(missing), id)
  {
    EvalOfCall(Call(id, missing, None, None), env, depth, c);
  }

  /** A return whose cleanup fails, so that the return is abandoned. */
  function AbandonedReturn(v: Value, missing: string): (step: Step)
    ensures ParallelFree(step)
  {
    Try("t", Return("r", v), None, Some(Call("c", missing, None, None)))
  }

  lemma {:induction false} AbandonedReturnFails(v: Value, missing: string, env: Env, depth: nat, c: Config)
    requires ParallelFreeEnv(env) && c.store.scopes != [] && !v.Obj? && missing !in env.functions
    ensures var r := Eval(AbandonedReturn(v, missing), env, depth, c);
            r.outcome.Failed? && r.cfg.register == v
  {
    var step := AbandonedReturn(v, missing);
    EvalOfTry(step, env, depth, c);
    var begun := Begin(step, c);
    ReturnFillsRegister("r", v, env, depth, begun);
    var r := EvalGuarded(step, env, depth, begun);
    assert r == Eval(Return("r", v), env, depth, begun);
    MissingFails("c", missing, env, depth, r.cfg);
  }

  lemma {:induction false} AbandonedReturnThrows(v: Value, missing: string, env: Env, depth: nat, s: Store)
    requires ParallelFreeEnv(env) && s.scopes != [] && !v.Obj? && missing !in env.functions
    ensures Run(AbandonedReturn(v, missing), env, depth, s).completion.ThrowCompletion?
  {
    var step := AbandonedReturn(v, missing);
    var begun := Begin(step, At(s)).store;
    ReturnFillsRegister("r", v, env, depth, At(begun));
    var j := RunGuarded(step, env, depth, begun);
    assert j == Run(Return("r", v), env, depth, begun);
    MissingFails("c", missing, env, depth, At(j.store));
  }

  /** The same with a handler that does nothing. */
  function HandledReturn(v: Value, missing: string): (step: Step)
    ensures ParallelFree(step)
  {
    Try("o", AbandonedReturn(v, missing), Some(Sequence("h", [])), None)
  }

  lemma {:induction false} AbandonedReturnLingers(v: Value, missing: string, env: Env, depth: nat, c: Config)
    requires ParallelFreeEnv(env) && c.store.scopes != [] && !v.Obj? && missing !in env.functions
    ensures var r := Eval(HandledReturn(v, missing), env, depth, c); r.outcome == Normal && r.cfg.register == v
  {
    var step := HandledReturn(v, missing);
    var begun := Begin(step, c);
    EvalOfTry(step, env, depth, c);
    AbandonedReturnFails(v, missing, env, depth, begun);
    var r := Eval(AbandonedReturn(v, missing), env, depth, begun);
    var h := Eval(Sequence("h", []), env, depth, EnterCatch(r));
    EmptySequenceIsNormal("h", env, depth, EnterCatch(r));
    assert EvalGuarded(step, env, depth, begun) == PopResult(h);
  }

  /** Once the failure of an abandoned return is handled, the activation ends normally. A normal end
      is to yield undefined, but the engine still holds `v`. */
  lemma {:induction false} AbandonedReturnIsStillBound(v: Value, missing: string, env: Env, depth: nat, c: Config)
    requires ParallelFreeEnv(env) && c.store.scopes != [] && !v.Obj? && missing !in env.functions
    ensures var r := Eval(HandledReturn(v, missing), env, depth, c); r.outcome == Normal && r.cfg.register == v
    ensures Run(HandledReturn(v, missing), env, depth, c.store).completion == NormalCompletion
  {
    var step := HandledReturn(v, missing);
    var begun := Begin(step, c);
    AbandonedReturnLingers(v, missing, env, depth, c);
    AbandonedReturnThrows(v, missing, env, depth, begun.store);
    var j := Run(AbandonedReturn(v, missing), env, depth, begun.store);
    var k := Run(Sequence("h", []), env, depth, Caught(j));
    EmptySequenceIsNormal("h", env, depth, At(Caught(j)));
    assert RunGuarded(step, env, depth, begun.store) == k.(store := PopStore(k.store));
  }

  /** A call of such a function binds `v`, where its body's normal completion is to bind undefined. */
  lemma {:induction false} CallBindsAbandonedReturn(
    id: string, f: string, args: Option<map<string, Value>>, x: string, v: Value, missing: string, env: Env,
    depth: nat, c: Config)
    requires ParallelFreeEnv(env) && c.store.scopes != [] && !v.Obj? && x != "" && depth < env.maxCallDepth
    requires missing !in env.functions && f in env.functions && env.functions[f] == HandledReturn(v, missing)
    ensures var r := Eval(Call(id, f, args, Some(x)), env, depth, c);
            r.outcome == Normal && r.cfg.store.scopes == WriteTop(c.store.scopes, x, v)
    ensures var j := Run(Call(id, f, args, Some(x)), env, depth, c.store);
            j.completion == NormalCompletion && j.store.scopes == WriteTop(c.store.scopes, x, Undefined)
  {
    var step := Call(id, f, args, Some(x));
    var begun := Begin(step, c);
    var inside := EnterCall(args, begun);
    EvalOfCall(step, env, depth, c);
    AbandonedReturnIsStillBound(v, missing, env, depth + 1, inside);
    var r, j := Eval(env.functions[f], env, depth + 1, inside), Run(env.functions[f], env, depth + 1, inside.store);
    assert Pop(inside).store.scopes == c.store.scopes;
    assert Pop(r.cfg).store.scopes == c.store.scopes && PopStore(j.store).scopes == c.store.scopes;
  }
}
