/** Where the engine and the completions agree: exactly in the runs in which every executed cleanup fits
    what is pending before it. */
module WorkflowAgreement {
  import opened Prelude
  import opened WorkflowSchema
  import opened WorkflowValues
  import opened WorkflowSemantics
  import opened WorkflowCompletions

  /** The register after a completion that started with `register`. */
  function RegisterAfter(register: Value, completion: Completion): Value {
    match completion case ReturnCompletion(v) => v case _ => register
  }

  // ----- Faithful runs: told by the completions alone -----

  /** Every cleanup that is executed in this run of the step fits what is pending before it. `register` is
      what an earlier return of the activation has left, and undefined if there was none. */
  ghost predicate Faithful(step: Step, env: Env, depth: nat, register: Value, s: Store)
    requires ParallelFree(step) && ParallelFreeEnv(env) && s.scopes != []
    decreases Budget(env, depth), step, 3
  {
    var begun := Begin(step, At(s)).store;
    match step
    case Sequence(_, steps) => FaithfulSeq(steps, env, depth, register, begun)
    case Branch(_, condition, whenTrue, whenFalse) =>
      if EvalCondition(condition, s.scopes) then Faithful(whenTrue, env, depth, register, begun)
      else whenFalse.Some? ==> Faithful(whenFalse.value, env, depth, register, begun)
    case Call(_, func, args, _) =>
      func in env.functions && depth < env.maxCallDepth ==>
        Faithful(env.functions[func], env, depth + 1, Undefined, EnterCall(args, At(begun)).store)
    case Try(_, _, _, _) => FaithfulTry(step, env, depth, register, begun)
    case Scope(_, body) => Faithful(body, env, depth, register, Push(At(begun), map[]).store)
    case _ => true
  }

  ghost predicate FaithfulTry(step: Step, env: Env, depth: nat, register: Value, s: Store)
    requires step.Try? && ParallelFree(step) && ParallelFreeEnv(env) && s.scopes != []
    decreases Budget(env, depth), step, 1
  {
    && FaithfulGuarded(step, env, depth, register, s)
    && (step.cleanup.Some? ==>
          var j := RunGuarded(step, env, depth, s);
          && Faithful(step.cleanup.value, env, depth, RegisterAfter(register, j.completion), j.store)
          && CleanupFits(register, j.completion, Run(step.cleanup.value, env, depth, j.store).completion))
  }

  ghost predicate FaithfulGuarded(step: Step, env: Env, depth: nat, register: Value, s: Store)
    requires step.Try? && ParallelFree(step) && ParallelFreeEnv(env) && s.scopes != []
    decreases Budget(env, depth), step, 0
  {
    && Faithful(step.body, env, depth, register, s)
    && var r := Run(step.body, env, depth, s);
    && (r.completion.ThrowCompletion? && step.handler.Some? ==>
          Faithful(step.handler.value, env, depth, register, Caught(r)))
  }

  ghost predicate FaithfulSeq(steps: seq<Step>, env: Env, depth: nat, register: Value, s: Store)
    requires (forall child <- steps :: ParallelFree(child)) && ParallelFreeEnv(env) && s.scopes != []
    decreases Budget(env, depth), steps, 0
  {
    steps != [] ==>
      && Faithful(steps[0], env, depth, register, s)
      && var r := Run(steps[0], env, depth, s);
      && (r.completion.NormalCompletion? ==> FaithfulSeq(steps[1..], env, depth, register, r.store))
  }

  // ----- Faithful runs agree -----

  /** Announcing the end of a step neither makes nor breaks agreement. */
  lemma {:induction false} ClosingAgrees(step: Step, register: Value, r: Result, j: Completed)
    ensures Agrees(register, r, j) <==> Agrees(register, Finish(step, Done(r)), Close(step, None, j))
  {
    var e := Ended(step.id, Kind(step), !r.outcome.Failed?, None);
    var e' := Ended(step.id, Kind(step), !j.completion.ThrowCompletion?, None);
    var x, y := r.cfg.store.events + [e], j.store.events + [e'];
    if x == y {
      assert x[..|x| - 1] == r.cfg.store.events && y[..|y| - 1] == j.store.events;
    }
  }

  /** In a faithful run engine and completions agree on outcome, returned value, frames, tool calls,
      telemetry and step count. */
  lemma {:induction false} EngineAgrees(step: Step, env: Env, depth: nat, c: Config)
    requires ParallelFree(step) && ParallelFreeEnv(env) && c.store.scopes != []
    requires Faithful(step, env, depth, c.register, c.store)
    ensures Agrees(c.register, Eval(step, env, depth, c), Run(step, env, depth, c.store))
    decreases Budget(env, depth), step, 3
  {
    var begun := Begin(step, c);
    match step
    case Sequence(_, steps) =>
      EngineAgreesSeq(steps, env, depth, begun);
      ClosingAgrees(step, c.register, EvalSeq(steps, env, depth, begun), RunSeq(steps, env, depth, begun.store));
    case Branch(_, _, _, _) => EngineAgreesBranch(step, env, depth, c);
    case Call(_, _, _, _) => EngineAgreesCall(step, env, depth, c);
    case Try(_, _, _, _) => EngineAgreesTry(step, env, depth, c);
    case Scope(_, body) => EngineAgrees(body, env, depth, Push(begun, map[]));
    case _ => LeafAgrees(step, env, depth, c);
  }

  lemma {:induction false} LeafAgrees(step: Step, env: Env, depth: nat, c: Config)
    requires step.ToolCall? || step.SetVar? || step.Return?
    requires ParallelFreeEnv(env) && c.store.scopes != []
    ensures Agrees(c.register, Eval(step, env, depth, c), Run(step, env, depth, c.store))
  {
  }

  lemma {:induction false} EngineAgreesBranch(step: Step, env: Env, depth: nat, c: Config)
    requires step.Branch? && ParallelFree(step) && ParallelFreeEnv(env) && c.store.scopes != []
    requires Faithful(step, env, depth, c.register, c.store)
    ensures Agrees(c.register, Eval(step, env, depth, c), Run(step, env, depth, c.store))
    decreases Budget(env, depth), step, 2
  {
    var begun := Begin(step, c);
    if EvalCondition(step.condition, c.store.scopes) {
      EngineAgrees(step.whenTrue, env, depth, begun);
    } else if step.whenFalse.Some? {
      EngineAgrees(step.whenFalse.value, env, depth, begun);
    }
  }

  /** A call hands over the value its function returned with, and undefined without a return. */
  lemma {:induction false} DeliveryAgrees(step: Step, c: Config, r: Result, j: Completed)
    requires step.Call? && |r.cfg.store.scopes| > 1 && Agrees(Undefined, r, j)
    ensures Agrees(c.register, LeaveCall(step.saveAs, c, r), Deliver(step.saveAs, j.completion, PopStore(j.store)))
  {
  }

  lemma {:induction false} EngineAgreesCall(step: Step, env: Env, depth: nat, c: Config)
    requires step.Call? && ParallelFreeEnv(env) && c.store.scopes != []
    requires Faithful(step, env, depth, c.register, c.store)
    ensures Agrees(c.register, Eval(step, env, depth, c), Run(step, env, depth, c.store))
    decreases Budget(env, depth), step, 2
  {
    EvalOfCall(step, env, depth, c);
    if step.func in env.functions && depth < env.maxCallDepth {
      var begun := Begin(step, c);
      var fn, inside := env.functions[step.func], EnterCall(step.callArgs, begun);
      EngineAgrees(fn, env, depth + 1, inside);
      var r, j := Eval(fn, env, depth + 1, inside), Run(fn, env, depth + 1, inside.store);
      DeliveryAgrees(step, begun, r, j);
      ClosingAgrees(step, c.register, LeaveCall(step.saveAs, begun, r),
                    Deliver(step.saveAs, j.completion, PopStore(j.store)));
    }
  }

  lemma {:induction false} EngineAgreesTry(step: Step, env: Env, depth: nat, c: Config)
    requires step.Try? && ParallelFree(step) && ParallelFreeEnv(env) && c.store.scopes != []
    requires Faithful(step, env, depth, c.register, c.store)
    ensures Agrees(c.register, Eval(step, env, depth, c), Run(step, env, depth, c.store))
    decreases Budget(env, depth), step, 2
  {
    var begun := Begin(step, c);
    EvalOfTry(step, env, depth, c);
    EngineAgreesGuarded(step, env, depth, begun);
    if step.cleanup.Some? {
      var r, j := EvalGuarded(step, env, depth, begun), RunGuarded(step, env, depth, begun.store);
      EngineAgrees(step.cleanup.value, env, depth, r.cfg);
      SettleAgreesIff(c.register, r, j, Eval(step.cleanup.value, env, depth, r.cfg),
                      Run(step.cleanup.value, env, depth, j.store));
    }
    ClosingAgrees(step, c.register, EvalTry(step, env, depth, begun), RunTry(step, env, depth, begun.store));
  }

  /** A body that fails hands the same frame to its handler in both. */
  lemma {:induction false} SameCatch(register: Value, r: Result, j: Completed)
    requires Agrees(register, r, j) && j.completion.ThrowCompletion?
    ensures EnterCatch(r).store == Caught(j) && EnterCatch(r).register == register
  {
  }

  lemma {:induction false} EngineAgreesGuarded(step: Step, env: Env, depth: nat, c: Config)
    requires step.Try? && ParallelFree(step) && ParallelFreeEnv(env) && c.store.scopes != []
    requires FaithfulGuarded(step, env, depth, c.register, c.store)
    ensures Agrees(c.register, EvalGuarded(step, env, depth, c), RunGuarded(step, env, depth, c.store))
    decreases Budget(env, depth), step, 0
  {
    EngineAgrees(step.body, env, depth, c);
    var r, j := Eval(step.body, env, depth, c), Run(step.body, env, depth, c.store);
    if j.completion.ThrowCompletion? && step.handler.Some? {
      SameCatch(c.register, r, j);
      EngineAgrees(step.handler.value, env, depth, EnterCatch(r));
    }
  }

  lemma {:induction false} EngineAgreesSeq(steps: seq<Step>, env: Env, depth: nat, c: Config)
    requires (forall child <- steps :: ParallelFree(child)) && ParallelFreeEnv(env) && c.store.scopes != []
    requires FaithfulSeq(steps, env, depth, c.register, c.store)
    ensures Agrees(c.register, EvalSeq(steps, env, depth, c), RunSeq(steps, env, depth, c.store))
    decreases Budget(env, depth), steps, 0
  {
    if steps != [] {
      EngineAgrees(steps[0], env, depth, c);
      var r := Eval(steps[0], env, depth, c);
      if r.outcome.Normal? {
        EngineAgreesSeq(steps[1..], env, depth, r.cfg);
      }
    }
  }
}
