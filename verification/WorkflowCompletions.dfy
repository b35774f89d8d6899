/** A second, register-free semantics in the style of ECMA-262: every step yields a completion
    that carries its own value, and an abrupt completion of a cleanup step (section 14.15)
    overrides the pending one. The engine's comments promise these rules; `SettleAgreesIff`,
    `WorkflowAgreement` and `WorkflowExactness` say where the engine keeps them. */
module WorkflowCompletions {
  import opened Prelude
  import opened WorkflowSchema
  import opened WorkflowValues
  import opened WorkflowSemantics

  datatype Completion =
    | NormalCompletion
    | ReturnCompletion(value: Value)
    | ThrowCompletion(error: string, stepId: string)

  datatype Completed = Completed(completion: Completion, store: Store)

  /** A store with nothing in the register. */
  function At(s: Store): Config {
    Config(s, Undefined, [])
  }

  function PopStore(s: Store): Store
    requires s.scopes != []
  {
    s.(scopes := s.scopes[..|s.scopes| - 1])
  }

  /** Announces the end of a step. */
  function Close(step: Step, error: Option<string>, r: Completed): Completed {
    var e := Ended(step.id, Kind(step), !r.completion.ThrowCompletion?, error);
    r.(store := r.store.(events := r.store.events + [e]))
  }

  function Run(step: Step, env: Env, depth: nat, s: Store): (r: Completed)
    requires ParallelFree(step) && ParallelFreeEnv(env) && s.scopes != []
    ensures Isolated(s.scopes, r.store.scopes)
    decreases Budget(env, depth), step, 3
  {
    var begun := Begin(step, At(s)).store;
    match step
    case ToolCall(_, _, _, _) =>
      (match EvalTool(step, env, At(begun))
       case Threw(message, c) => Close(step, Some(message), Completed(ThrowCompletion(message, step.id), c.store))
       case Done(Result(Failed(error, id), c)) => Close(step, None, Completed(ThrowCompletion(error, id), c.store))
       case Done(Result(_, c)) => Close(step, None, Completed(NormalCompletion, c.store)))
    case SetVar(_, name, value) =>
      var scopes := WriteTop(s.scopes, name, Resolve(value, s.scopes));
      Close(step, None, Completed(NormalCompletion, begun.(scopes := scopes)))
    case Sequence(_, steps) => Close(step, None, RunSeq(steps, env, depth, begun))
    case Branch(_, condition, whenTrue, whenFalse) =>
      Close(step, None,
            if EvalCondition(condition, s.scopes) then Run(whenTrue, env, depth, begun)
            else if whenFalse.Some? then Run(whenFalse.value, env, depth, begun)
            else Completed(NormalCompletion, begun))
    case Call(_, func, args, saveAs) =>
      if func !in env.functions || depth >= env.maxCallDepth then
        var message := if func !in env.functions then UndefinedFunction(func)
                       else DepthExceeded(env.maxCallDepth, func);
        Close(step, Some(message), Completed(ThrowCompletion(message, step.id), begun))
      else
        var r := Run(env.functions[func], env, depth + 1, EnterCall(args, At(begun)).store);
        Close(step, None, Deliver(saveAs, r.completion, PopStore(r.store)))
    case Return(_, value) =>
      Close(step, None, Completed(ReturnCompletion(Resolve(value, s.scopes)), begun))
    case Try(_, _, _, _) => Close(step, None, RunTry(step, env, depth, begun))
    case Scope(_, body) =>
      var r := Run(body, env, depth, Push(At(begun), map[]).store);
      Close(step, None, r.(store := PopStore(r.store)))
  }

  /** The cleanup step runs whatever completed before it. */
  function RunTry(step: Step, env: Env, depth: nat, s: Store): (r: Completed)
    requires step.Try? && ParallelFree(step) && ParallelFreeEnv(env) && s.scopes != []
    ensures Isolated(s.scopes, r.store.scopes)
    decreases Budget(env, depth), step, 1
  {
    var r := RunGuarded(step, env, depth, s);
    if step.cleanup.None? then r
    else
      var f := Run(step.cleanup.value, env, depth, r.store);
      f.(completion := Override(r.completion, f.completion))
  }

  function RunGuarded(step: Step, env: Env, depth: nat, s: Store): (r: Completed)
    requires step.Try? && ParallelFree(step) && ParallelFreeEnv(env) && s.scopes != []
    ensures Isolated(s.scopes, r.store.scopes)
    decreases Budget(env, depth), step, 0
  {
    var r := Run(step.body, env, depth, s);
    if r.completion.ThrowCompletion? && step.handler.Some? then
      var h := Run(step.handler.value, env, depth, Caught(r));
      h.(store := PopStore(h.store))
    else r
  }

  /** The handler's frame tells error and step id. */
  function Caught(r: Completed): Store
    requires r.completion.ThrowCompletion?
  {
    var frame := map["__error__" := Str(r.completion.error), "__errorStepId__" := Str(r.completion.stepId)];
    Push(At(r.store), frame).store
  }

  function RunSeq(steps: seq<Step>, env: Env, depth: nat, s: Store): (r: Completed)
    requires (forall child <- steps :: ParallelFree(child)) && ParallelFreeEnv(env) && s.scopes != []
    ensures Isolated(s.scopes, r.store.scopes)
    decreases Budget(env, depth), steps, 0
  {
    if steps == [] then Completed(NormalCompletion, s)
    else
      var r := Run(steps[0], env, depth, s);
      if r.completion.NormalCompletion? then RunSeq(steps[1..], env, depth, r.store) else r
  }

  /** The value of a call is the value its body returned with, and undefined without one. */
  function Deliver(saveAs: Option<string>, completion: Completion, s: Store): Completed
    requires s.scopes != []
  {
    match completion
    case ThrowCompletion(_, _) => Completed(completion, s)
    case ReturnCompletion(v) => Completed(NormalCompletion, SaveTo(At(s), saveAs, v).store)
    case NormalCompletion => Completed(NormalCompletion, SaveTo(At(s), saveAs, Undefined).store)
  }

  /** Section 14.15: an abrupt cleanup completion wins, a normal one is forgotten. */
  function Override(pending: Completion, cleanup: Completion): Completion {
    if cleanup.NormalCompletion? then pending else cleanup
  }

  /** An engine result that started with `register` says the same as a completion: the register
      holds the returned value, and has its starting value if nothing is being returned. */
  ghost predicate Agrees(register: Value, r: Result, j: Completed) {
    && r.cfg.store == j.store
    && match j.completion
       case NormalCompletion => r.outcome.Normal? && r.cfg.register == register
       case ReturnCompletion(v) => r.outcome.Returned? && r.cfg.register == v
       case ThrowCompletion(error, id) => r.outcome == Failed(error, id) && r.cfg.register == register
  }

  /** The cleanup returns only if a return is pending, and does not fail over a pending return whose value
      is new to the register. */
  predicate CleanupFits(register: Value, pending: Completion, cleanup: Completion) {
    && (cleanup.ReturnCompletion? ==> pending.ReturnCompletion?)
    && (cleanup.ThrowCompletion? && pending.ReturnCompletion? ==> pending.value == register)
  }

  /** At one cleanup the two semantics agree exactly if it fits what is pending. */
  lemma {:induction false} SettleAgreesIff(register: Value, r: Result, j: Completed, f: Result, k: Completed)
    requires Agrees(register, r, j) && Agrees(r.cfg.register, f, k)
    ensures Agrees(register, Settle(r.outcome, f), k.(completion := Override(j.completion, k.completion)))
       <==> CleanupFits(register, j.completion, k.completion)
  {
  }

  /** A `return` step occurs in the tree (calls are not followed). */
  predicate HasReturn(step: Step) {
    match step
    case Return(_, _) => true
    case Sequence(_, steps) => exists child <- steps :: HasReturn(child)
    case Parallel(_, steps) => exists child <- steps :: HasReturn(child)
    case Branch(_, _, whenTrue, whenFalse) =>
      HasReturn(whenTrue) || (whenFalse.Some? && HasReturn(whenFalse.value))
    case Try(_, body, handler, cleanup) =>
      || HasReturn(body)
      || (handler.Some? && HasReturn(handler.value))
      || (cleanup.Some? && HasReturn(cleanup.value))
    case Scope(_, body) => HasReturn(body)
    case _ => false
  }

  /** A tree without `return` never completes by returning. */
  lemma {:induction false} NoReturnNoCompletion(step: Step, env: Env, depth: nat, s: Store)
    requires ParallelFree(step) && ParallelFreeEnv(env) && s.scopes != [] && !HasReturn(step)
    ensures !Run(step, env, depth, s).completion.ReturnCompletion?
    decreases step, 2
  {
    var begun := Begin(step, At(s)).store;
    match step
    case Sequence(_, steps) => NoReturnInSeq(steps, env, depth, begun);
    case Branch(_, condition, whenTrue, whenFalse) =>
      if EvalCondition(condition, s.scopes) {
        NoReturnNoCompletion(whenTrue, env, depth, begun);
      } else if whenFalse.Some? {
        NoReturnNoCompletion(whenFalse.value, env, depth, begun);
      }
    case Try(_, body, handler, cleanup) =>
      NoReturnInGuarded(step, env, depth, begun);
      if cleanup.Some? {
        NoReturnNoCompletion(cleanup.value, env, depth, RunGuarded(step, env, depth, begun).store);
      }
    case Scope(_, body) => NoReturnNoCompletion(body, env, depth, Push(At(begun), map[]).store);
    case _ =>
  }

  lemma {:induction false} NoReturnInGuarded(step: Step, env: Env, depth: nat, s: Store)
    requires step.Try? && ParallelFree(step) && ParallelFreeEnv(env) && s.scopes != []
    requires !HasReturn(step.body) && (step.handler.Some? ==> !HasReturn(step.handler.value))
    ensures !RunGuarded(step, env, depth, s).completion.ReturnCompletion?
    decreases step, 1
  {
    NoReturnNoCompletion(step.body, env, depth, s);
    var r := Run(step.body, env, depth, s);
    if r.completion.ThrowCompletion? && step.handler.Some? {
      NoReturnNoCompletion(step.handler.value, env, depth, Caught(r));
    }
  }

  lemma {:induction false} NoReturnInSeq(steps: seq<Step>, env: Env, depth: nat, s: Store)
    requires (forall child <- steps :: ParallelFree(child)) && ParallelFreeEnv(env) && s.scopes != []
    requires forall child <- steps :: !HasReturn(child)
    ensures !RunSeq(steps, env, depth, s).completion.ReturnCompletion?
    decreases steps, 0
  {
    if steps != [] {
      NoReturnNoCompletion(steps[0], env, depth, s);
      NoReturnInSeq(steps[1..], env, depth, Run(steps[0], env, depth, s).store);
    }
  }

  /** Nor does the engine return there: the register keeps what it held. */
  lemma {:induction false} NoReturnKeepsRegister(step: Step, env: Env, depth: nat, c: Config)
    requires ParallelFree(step) && ParallelFreeEnv(env) && c.store.scopes != [] && !HasReturn(step)
    ensures var r := Eval(step, env, depth, c); !r.outcome.Returned? && r.cfg.register == c.register
    decreases step, 2
  {
    var begun := Begin(step, c);
    match step
    case Sequence(_, steps) => NoReturnKeepsInSeq(steps, env, depth, begun);
    case Branch(_, condition, whenTrue, whenFalse) =>
      if EvalCondition(condition, c.store.scopes) {
        NoReturnKeepsRegister(whenTrue, env, depth, begun);
      } else if whenFalse.Some? {
        NoReturnKeepsRegister(whenFalse.value, env, depth, begun);
      }
    case Call(_, _, _, _) => EvalOfCall(step, env, depth, c);
    case Try(_, body, handler, cleanup) => NoReturnKeepsInTry(step, env, depth, c);
    case Scope(_, body) => NoReturnKeepsRegister(body, env, depth, Push(begun, map[]));
    case _ =>
  }

  lemma {:induction false} NoReturnKeepsInTry(step: Step, env: Env, depth: nat, c: Config)
    requires step.Try? && ParallelFree(step) && ParallelFreeEnv(env) && c.store.scopes != [] && !HasReturn(step)
    ensures var r := Eval(step, env, depth, c); !r.outcome.Returned? && r.cfg.register == c.register
    decreases step, 1
  {
    EvalOfTry(step, env, depth, c);
    var begun := Begin(step, c);
    NoReturnKeepsRegister(step.body, env, depth, begun);
    var r := Eval(step.body, env, depth, begun);
    if r.outcome.Failed? && step.handler.Some? {
      NoReturnKeepsRegister(step.handler.value, env, depth, EnterCatch(r));
    }
    if step.cleanup.Some? {
      NoReturnKeepsRegister(step.cleanup.value, env, depth, EvalGuarded(step, env, depth, begun).cfg);
    }
  }

  lemma {:induction false} NoReturnKeepsInSeq(steps: seq<Step>, env: Env, depth: nat, c: Config)
    requires (forall child <- steps :: ParallelFree(child)) && ParallelFreeEnv(env) && c.store.scopes != []
    requires forall child <- steps :: !HasReturn(child)
    ensures var r := EvalSeq(steps, env, depth, c); !r.outcome.Returned? && r.cfg.register == c.register
    decreases steps, 0
  {
    if steps != [] {
      NoReturnKeepsRegister(steps[0], env, depth, c);
      NoReturnKeepsInSeq(steps[1..], env, depth, Eval(steps[0], env, depth, c).cfg);
    }
  }
}
