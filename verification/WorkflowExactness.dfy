/** The converse of `EngineAgrees`: a run whose every executed part agrees with its completion is faithful. */
module WorkflowExactness {
  import opened WorkflowSchema
  import opened WorkflowValues
  import opened WorkflowSemantics
  import opened WorkflowCompletions
  import opened WorkflowAgreement

  /** The step and every part of it that this run of the engine executes agree with their completions. */
  ghost predicate Throughout(step: Step, env: Env, depth: nat, c: Config)
    requires ParallelFree(step) && ParallelFreeEnv(env) && c.store.scopes != []
    decreases Budget(env, depth), step, 3
  {
    var begun := Begin(step, c);
    && Agrees(c.register, Eval(step, env, depth, c), Run(step, env, depth, c.store))
    && match step
       case Sequence(_, steps) => ThroughoutSeq(steps, env, depth, begun)
       case Branch(_, condition, whenTrue, whenFalse) =>
         if EvalCondition(condition, c.store.scopes) then Throughout(whenTrue, env, depth, begun)
         else whenFalse.Some? ==> Throughout(whenFalse.value, env, depth, begun)
       case Call(_, func, args, _) =>
         func in env.functions && depth < env.maxCallDepth ==>
           Throughout(env.functions[func], env, depth + 1, EnterCall(args, begun))
       case Try(_, _, _, cleanup) =>
         && ThroughoutGuarded(step, env, depth, begun)
         && (cleanup.Some? ==> Throughout(cleanup.value, env, depth, EvalGuarded(step, env, depth, begun).cfg))
       case Scope(_, body) => Throughout(body, env, depth, Push(begun, map[]))
       case _ => true
  }

  ghost predicate ThroughoutGuarded(step: Step, env: Env, depth: nat, c: Config)
    requires step.Try? && ParallelFree(step) && ParallelFreeEnv(env) && c.store.scopes != []
    decreases Budget(env, depth), step, 0
  {
    && Throughout(step.body, env, depth, c)
    && var r := Eval(step.body, env, depth, c);
    && (r.outcome.Failed? && step.handler.Some? ==> Throughout(step.handler.value, env, depth, EnterCatch(r)))
  }

  ghost predicate ThroughoutSeq(steps: seq<Step>, env: Env, depth: nat, c: Config)
    requires (forall child <- steps :: ParallelFree(child)) && ParallelFreeEnv(env) && c.store.scopes != []
    decreases Budget(env, depth), steps, 0
  {
    steps != [] ==>
      && Throughout(steps[0], env, depth, c)
      && var r := Eval(steps[0], env, depth, c);
      && (r.outcome.Normal? ==> ThroughoutSeq(steps[1..], env, depth, r.cfg))
  }

  /** The engine agrees with the completions throughout a run exactly if every executed cleanup fits what
      is pending before it. */
  lemma {:induction false} ThroughoutIff(step: Step, env: Env, depth: nat, c: Config)
    requires ParallelFree(step) && ParallelFreeEnv(env) && c.store.scopes != []
    ensures Throughout(step, env, depth, c) <==> Faithful(step, env, depth, c.register, c.store)
    decreases Budget(env, depth), step, 3
  {
    var begun := Begin(step, c);
    if Faithful(step, env, depth, c.register, c.store) {
      EngineAgrees(step, env, depth, c);
    }
    match step
    case Sequence(_, steps) => ThroughoutSeqIff(steps, env, depth, begun);
    case Branch(_, condition, whenTrue, whenFalse) =>
      if EvalCondition(condition, c.store.scopes) {
        ThroughoutIff(whenTrue, env, depth, begun);
      } else if whenFalse.Some? {
        ThroughoutIff(whenFalse.value, env, depth, begun);
      }
    case Call(_, func, args, _) =>
      if func in env.functions && depth < env.maxCallDepth {
        ThroughoutIff(env.functions[func], env, depth + 1, EnterCall(args, begun));
      }
    case Try(_, _, _, _) => ThroughoutTryIff(step, env, depth, c);
    case Scope(_, body) => ThroughoutIff(body, env, depth, Push(begun, map[]));
    case _ =>
  }

  lemma {:induction false} ThroughoutTryIff(step: Step, env: Env, depth: nat, c: Config)
    requires step.Try? && ParallelFree(step) && ParallelFreeEnv(env) && c.store.scopes != []
    ensures Throughout(step, env, depth, c) <==> Faithful(step, env, depth, c.register, c.store)
    decreases Budget(env, depth), step, 2
  {
    var begun := Begin(step, c);
    ThroughoutGuardedIff(step, env, depth, begun);
    if Faithful(step, env, depth, c.register, c.store) {
      EngineAgrees(step, env, depth, c);
    }
    if ThroughoutGuarded(step, env, depth, begun) && step.cleanup.Some? {
      EngineAgreesGuarded(step, env, depth, begun);
      var r, j := EvalGuarded(step, env, depth, begun), RunGuarded(step, env, depth, begun.store);
      ThroughoutIff(step.cleanup.value, env, depth, r.cfg);
      if Throughout(step, env, depth, c) {
        EvalOfTry(step, env, depth, c);
        ClosingAgrees(step, c.register, EvalTry(step, env, depth, begun), RunTry(step, env, depth, begun.store));
        SettleAgreesIff(c.register, r, j, Eval(step.cleanup.value, env, depth, r.cfg),
                        Run(step.cleanup.value, env, depth, j.store));
      }
    }
  }

  lemma {:induction false} ThroughoutGuardedIff(step: Step, env: Env, depth: nat, c: Config)
    requires step.Try? && ParallelFree(step) && ParallelFreeEnv(env) && c.store.scopes != []
    ensures ThroughoutGuarded(step, env, depth, c) <==> FaithfulGuarded(step, env, depth, c.register, c.store)
    decreases Budget(env, depth), step, 0
  {
    ThroughoutIff(step.body, env, depth, c);
    if Throughout(step.body, env, depth, c) {
      var r, j := Eval(step.body, env, depth, c), Run(step.body, env, depth, c.store);
      if j.completion.ThrowCompletion? && step.handler.Some? {
        SameCatch(c.register, r, j);
        ThroughoutIff(step.handler.value, env, depth, EnterCatch(r));
      }
    }
  }

  lemma {:induction false} ThroughoutSeqIff(steps: seq<Step>, env: Env, depth: nat, c: Config)
    requires (forall child <- steps :: ParallelFree(child)) && ParallelFreeEnv(env) && c.store.scopes != []
    ensures ThroughoutSeq(steps, env, depth, c) <==> FaithfulSeq(steps, env, depth, c.register, c.store)
    decreases Budget(env, depth), steps, 0
  {
    if steps != [] {
      ThroughoutIff(steps[0], env, depth, c);
      var r := Eval(steps[0], env, depth, c);
      if Throughout(steps[0], env, depth, c) && r.outcome.Normal? {
        ThroughoutSeqIff(steps[1..], env, depth, r.cfg);
      }
    }
  }
}
