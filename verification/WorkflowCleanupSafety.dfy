/** Step trees on which every run is faithful, told by looking at the tree. */
module WorkflowCleanupSafety {
  import opened WorkflowSchema
  import opened WorkflowValues
  import opened WorkflowSemantics
  import opened WorkflowCompletions
  import opened WorkflowAgreement

  /** Tool calls and function calls occur only where a handler that cannot fail takes over. */
  predicate CannotFail(step: Step) {
    match step
    case SetVar(_, _, _) => true
    case Return(_, _) => true
    case Sequence(_, steps) => forall child <- steps :: CannotFail(child)
    case Branch(_, _, whenTrue, whenFalse) =>
      CannotFail(whenTrue) && (whenFalse.Some? ==> CannotFail(whenFalse.value))
    case Try(_, body, handler, cleanup) =>
      && (CannotFail(body) || (handler.Some? && CannotFail(handler.value)))
      && (cleanup.Some? ==> CannotFail(cleanup.value))
    case Scope(_, body) => CannotFail(body)
    case _ => false
  }

  /** No cleanup returns, and a cleanup cannot fail wherever body or handler return. */
  predicate CleanupSafe(step: Step) {
    match step
    case Sequence(_, steps) => forall child <- steps :: CleanupSafe(child)
    case Parallel(_, steps) => forall child <- steps :: CleanupSafe(child)
    case Branch(_, _, whenTrue, whenFalse) =>
      CleanupSafe(whenTrue) && (whenFalse.Some? ==> CleanupSafe(whenFalse.value))
    case Try(_, body, handler, cleanup) =>
      && CleanupSafe(body)
      && (handler.Some? ==> CleanupSafe(handler.value))
      && (cleanup.Some? ==>
            && CleanupSafe(cleanup.value)
            && !HasReturn(cleanup.value)
            && (HasReturn(body) || (handler.Some? && HasReturn(handler.value)) ==> CannotFail(cleanup.value)))
    case Scope(_, body) => CleanupSafe(body)
    case _ => true
  }

  ghost predicate CleanupSafeEnv(env: Env) {
    ParallelFreeEnv(env) && forall f <- env.functions :: CleanupSafe(env.functions[f])
  }

  // ----- Steps that cannot fail -----

  lemma {:induction false} NeverThrows(step: Step, env: Env, depth: nat, s: Store)
    requires ParallelFree(step) && ParallelFreeEnv(env) && s.scopes != [] && CannotFail(step)
    ensures !Run(step, env, depth, s).completion.ThrowCompletion?
    decreases step, 2
  {
    var begun := Begin(step, At(s)).store;
    match step
    case Sequence(_, steps) => NeverThrowsInSeq(steps, env, depth, begun);
    case Branch(_, condition, whenTrue, whenFalse) =>
      if EvalCondition(condition, s.scopes) {
        NeverThrows(whenTrue, env, depth, begun);
      } else if whenFalse.Some? {
        NeverThrows(whenFalse.value, env, depth, begun);
      }
    case Try(_, body, handler, cleanup) =>
      NeverThrowsInGuarded(step, env, depth, begun);
      if cleanup.Some? {
        NeverThrows(cleanup.value, env, depth, RunGuarded(step, env, depth, begun).store);
      }
    case Scope(_, body) => NeverThrows(body, env, depth, Push(At(begun), map[]).store);
    case _ =>
  }

  lemma {:induction false} NeverThrowsInGuarded(step: Step, env: Env, depth: nat, s: Store)
    requires step.Try? && ParallelFree(step) && ParallelFreeEnv(env) && s.scopes != []
    requires CannotFail(step.body) || (step.handler.Some? && CannotFail(step.handler.value))
    ensures !RunGuarded(step, env, depth, s).completion.ThrowCompletion?
    decreases step, 1
  {
    if CannotFail(step.body) {
      NeverThrows(step.body, env, depth, s);
    } else {
      var r := Run(step.body, env, depth, s);
      if r.completion.ThrowCompletion? {
        NeverThrows(step.handler.value, env, depth, Caught(r));
      }
    }
  }

  lemma {:induction false} NeverThrowsInSeq(steps: seq<Step>, env: Env, depth: nat, s: Store)
    requires (forall child <- steps :: ParallelFree(child)) && ParallelFreeEnv(env) && s.scopes != []
    requires forall child <- steps :: CannotFail(child)
    ensures !RunSeq(steps, env, depth, s).completion.ThrowCompletion?
    decreases steps, 0
  {
    if steps != [] {
      NeverThrows(steps[0], env, depth, s);
      NeverThrowsInSeq(steps[1..], env, depth, Run(steps[0], env, depth, s).store);
    }
  }

  // ----- Safe trees run faithfully -----

  lemma {:induction false} SafeIsFaithful(step: Step, env: Env, depth: nat, register: Value, s: Store)
    requires ParallelFree(step) && CleanupSafe(step) && CleanupSafeEnv(env) && s.scopes != []
    ensures Faithful(step, env, depth, register, s)
    decreases Budget(env, depth), step, 3
  {
    var begun := Begin(step, At(s)).store;
    match step
    case Sequence(_, steps) => SafeSeqIsFaithful(steps, env, depth, register, begun);
    case Branch(_, condition, whenTrue, whenFalse) =>
      if EvalCondition(condition, s.scopes) {
        SafeIsFaithful(whenTrue, env, depth, register, begun);
      } else if whenFalse.Some? {
        SafeIsFaithful(whenFalse.value, env, depth, register, begun);
      }
    case Call(_, func, args, _) =>
      if func in env.functions && depth < env.maxCallDepth {
        SafeIsFaithful(env.functions[func], env, depth + 1, Undefined, EnterCall(args, At(begun)).store);
      }
    case Try(_, _, _, _) => SafeTryIsFaithful(step, env, depth, register, begun);
    case Scope(_, body) => SafeIsFaithful(body, env, depth, register, Push(At(begun), map[]).store);
    case _ =>
  }

  lemma {:induction false} SafeTryIsFaithful(step: Step, env: Env, depth: nat, register: Value, s: Store)
    requires step.Try? && ParallelFree(step) && CleanupSafe(step) && CleanupSafeEnv(env) && s.scopes != []
    ensures FaithfulTry(step, env, depth, register, s)
    decreases Budget(env, depth), step, 1
  {
    SafeIsFaithful(step.body, env, depth, register, s);
    var r := Run(step.body, env, depth, s);
    if r.completion.ThrowCompletion? && step.handler.Some? {
      SafeIsFaithful(step.handler.value, env, depth, register, Caught(r));
    }
    if step.cleanup.Some? {
      var j := RunGuarded(step, env, depth, s);
      SafeIsFaithful(step.cleanup.value, env, depth, RegisterAfter(register, j.completion), j.store);
      NoReturnNoCompletion(step.cleanup.value, env, depth, j.store);
      if CannotFail(step.cleanup.value) {
        NeverThrows(step.cleanup.value, env, depth, j.store);
      } else {
        NoReturnInGuarded(step, env, depth, s);
      }
    }
  }

  lemma {:induction false} SafeSeqIsFaithful(
    steps: seq<Step>, env: Env, depth: nat, register: Value, s: Store)
    requires (forall child <- steps :: ParallelFree(child)) && (forall child <- steps :: CleanupSafe(child))
    requires CleanupSafeEnv(env) && s.scopes != []
    ensures FaithfulSeq(steps, env, depth, register, s)
    decreases Budget(env, depth), steps, 0
  {
    if steps != [] {
      SafeIsFaithful(steps[0], env, depth, register, s);
      var r := Run(steps[0], env, depth, s);
      if r.completion.NormalCompletion? {
        SafeSeqIsFaithful(steps[1..], env, depth, register, r.store);
      }
    }
  }

  /** Where no cleanup returns, and none can fail after a return, the engine follows the completions in every
      run: from every configuration, for every tool and every call depth. */
  lemma {:induction false} CleanupSafeAgrees(step: Step, env: Env, depth: nat, c: Config)
    requires ParallelFree(step) && CleanupSafe(step) && CleanupSafeEnv(env) && c.store.scopes != []
    ensures Agrees(c.register, Eval(step, env, depth, c), Run(step, env, depth, c.store))
  {
    SafeIsFaithful(step, env, depth, c.register, c.store);
    EngineAgrees(step, env, depth, c);
  }

  // ----- The coarser condition -----

  /** No `return` inside any `try` that has a cleanup step. */
  predicate ReturnSafe(step: Step) {
    match step
    case Sequence(_, steps) => forall child <- steps :: ReturnSafe(child)
    case Parallel(_, steps) => forall child <- steps :: ReturnSafe(child)
    case Branch(_, _, whenTrue, whenFalse) =>
      ReturnSafe(whenTrue) && (whenFalse.Some? ==> ReturnSafe(whenFalse.value))
    case Try(_, body, handler, cleanup) =>
      if cleanup.Some? then !HasReturn(step)
      else ReturnSafe(body) && (handler.Some? ==> ReturnSafe(handler.value))
    case Scope(_, body) => ReturnSafe(body)
    case _ => true
  }

  ghost predicate ReturnSafeEnv(env: Env) {
    ParallelFreeEnv(env) && forall f <- env.functions :: ReturnSafe(env.functions[f])
  }

  lemma {:induction false} NoReturnIsCleanupSafe(step: Step)
    requires !HasReturn(step)
    ensures CleanupSafe(step)
  {
    match step
    case Sequence(_, steps) =>
      forall child <- steps ensures CleanupSafe(child) { NoReturnIsCleanupSafe(child); }
    case Parallel(_, steps) =>
      forall child <- steps ensures CleanupSafe(child) { NoReturnIsCleanupSafe(child); }
    case Branch(_, _, whenTrue, whenFalse) =>
      NoReturnIsCleanupSafe(whenTrue);
      if whenFalse.Some? { NoReturnIsCleanupSafe(whenFalse.value); }
    case Try(_, body, handler, cleanup) =>
      NoReturnIsCleanupSafe(body);
      if handler.Some? { NoReturnIsCleanupSafe(handler.value); }
      if cleanup.Some? { NoReturnIsCleanupSafe(cleanup.value); }
    case Scope(_, body) => NoReturnIsCleanupSafe(body);
    case _ =>
  }

  lemma {:induction false} ReturnSafeIsCleanupSafe(step: Step)
    requires ReturnSafe(step)
    ensures CleanupSafe(step)
  {
    match step
    case Sequence(_, steps) =>
      forall child <- steps ensures CleanupSafe(child) { ReturnSafeIsCleanupSafe(child); }
    case Parallel(_, steps) =>
      forall child <- steps ensures CleanupSafe(child) { ReturnSafeIsCleanupSafe(child); }
    case Branch(_, _, whenTrue, whenFalse) =>
      ReturnSafeIsCleanupSafe(whenTrue);
      if whenFalse.Some? { ReturnSafeIsCleanupSafe(whenFalse.value); }
    case Try(_, body, handler, cleanup) =>
      if cleanup.Some? {
        NoReturnIsCleanupSafe(step);
      } else {
        ReturnSafeIsCleanupSafe(body);
        if handler.Some? { ReturnSafeIsCleanupSafe(handler.value); }
      }
    case Scope(_, body) => ReturnSafeIsCleanupSafe(body);
    case _ =>
  }

  /** In particular where no `return` lies inside a `try` that has a cleanup. */
  lemma {:induction false} ReturnSafeAgrees(step: Step, env: Env, depth: nat, c: Config)
    requires ParallelFree(step) && ReturnSafe(step) && ReturnSafeEnv(env) && c.store.scopes != []
    ensures Agrees(c.register, Eval(step, env, depth, c), Run(step, env, depth, c.store))
  {
    ReturnSafeIsCleanupSafe(step);
    forall f <- env.functions ensures CleanupSafe(env.functions[f]) {
      ReturnSafeIsCleanupSafe(env.functions[f]);
    }
    CleanupSafeAgrees(step, env, depth, c);
  }
}
