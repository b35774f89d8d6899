/** The interpreter as it is written: one mutable state driven by flags. Every method is
    proved to compute the compositional semantics. */
module WorkflowEngine {
  import opened Prelude
  import opened WorkflowSchema
  import opened WorkflowValues
  import opened WorkflowSemantics
  import opened WorkflowOutcomes

  datatype ExecuteResult = ExecuteResult(
    completed: bool,
    vars: Frame,
    error: Option<string>,
    stepsExecuted: nat)

  class ExecState {
    const env: Env
    var scopes: seq<Frame>
    var stepCount: nat
    var failed: bool
    var error: Option<string>
    var failedAtStepId: Option<string>
    var returning: bool
    var returnValue: Value
    var callDepth: nat
    /** What the tools and the telemetry callback have seen so far. */
    var calls: seq<Invocation>
    var events: seq<StepEvent>
    /** Which return steps ran, and at which call depth. */
    ghost var marks: seq<ReturnMark>

    /** A failure and a pending return exclude each other; an error is held iff there is one. */
    ghost predicate Valid()
      reads this
    {
      && scopes != []
      && ParallelFreeEnv(env)
      && !(failed && returning)
      && failed == error.Some? == failedAtStepId.Some?
    }

    ghost function Cfg(): Config
      reads this
    {
      Config(Store(scopes, calls, events, stepCount), returnValue, marks)
    }

    ghost function Outcome(): Outcome
      requires Valid()
      reads this
    {
      if failed then Failed(error.value, failedAtStepId.value)
      else if returning then Returned
      else Normal
    }

    /** The outcome and configuration this state stands for. */
    ghost function Snapshot(): Result
      requires Valid()
      reads this
    {
      Result(Outcome(), Cfg())
    }

    constructor (env: Env, root: Frame)
      requires ParallelFreeEnv(env)
      ensures Valid() && this.env == env && callDepth == 0
      ensures Snapshot() == Result(Normal, Config(Store([root], [], [], 0), Undefined, []))
    {
      this.env := env;
      scopes := [root];
      stepCount := 0;
      failed, error, failedAtStepId := false, None, None;
      returning, returnValue := false, Undefined;
      callDepth := 0;
      calls, events, marks := [], [], [];
    }

    /** Writes into the innermost frame; throws only on an empty stack. */
    method WriteVar(name: string, value: Value) returns (thrown: Option<string>)
      modifies this`scopes
      ensures old(scopes) != [] ==> thrown == None && scopes == WriteTop(old(scopes), name, value)
      ensures old(scopes) == [] ==> thrown.Some? && scopes == old(scopes)
    {
      if scopes == [] {
        return Some("writeVar: scope stack is empty");
      }
      var top := |scopes| - 1;
      scopes := scopes[top := scopes[top][name := value]];
      thrown := None;
    }

    method RunStep(step: Step)
      requires Valid() && ParallelFree(step)
      modifies this
      ensures Valid() && callDepth == old(callDepth)
      ensures Snapshot() == if old(failed || returning) then old(Snapshot())
                            else Eval(step, env, old(callDepth), old(Cfg()))
      decreases Budget(env, callDepth), step, 3
    {
      if failed || returning {
        return;
      }
      events := events + [Started(step.id, Kind(step))];
      stepCount := stepCount + 1;
      assert Cfg() == Begin(step, old(Cfg()));
      ghost var inner := EvalKind(step, env, callDepth, Cfg());
      var thrown := RunKind(step);
      EndStep(step, thrown, inner);
    }

    /** An exception raised inside a step is caught here and becomes its failure. */
    method EndStep(step: Step, thrown: Option<string>, ghost inner: Inner)
      requires Valid()
      requires match inner
               case Done(r) => thrown == None && Snapshot() == r
               case Threw(message, c) => thrown == Some(message) && Snapshot() == Result(Normal, c)
      modifies this
      ensures Valid() && callDepth == old(callDepth) && Snapshot() == Finish(step, inner)
    {
      match thrown
      case None =>
        events := events + [Ended(step.id, Kind(step), !failed, None)];
      case Some(message) =>
        failed := true;
        error := Some(message);
        failedAtStepId := Some(step.id);
        events := events + [Ended(step.id, Kind(step), false, Some(message))];
    }

    /** The dispatch on the step kind; `thrown` is the exception it raises, if any. */
    method RunKind(step: Step) returns (thrown: Option<string>)
      requires Valid() && ParallelFree(step) && !failed && !returning
      modifies this
      ensures Valid() && callDepth == old(callDepth)
      ensures match EvalKind(step, env, old(callDepth), old(Cfg()))
              case Done(r) => thrown == None && Snapshot() == r
              case Threw(message, c) => thrown == Some(message) && Snapshot() == Result(Normal, c)
      decreases Budget(env, callDepth), step, 2
    {
      thrown := None;
      match step
      case ToolCall(_, _, _, _) =>
        thrown := RunToolCall(step);
      case SetVar(_, name, value) =>
        var v := ResolveValue(value, scopes);
        thrown := WriteVar(name, v);
      case Sequence(_, steps) =>
        RunSequence(steps);
      case Branch(_, condition, whenTrue, whenFalse) =>
        if EvalCondition(condition, scopes) {
          RunStep(whenTrue);
        } else if whenFalse.Some? {
          RunStep(whenFalse.value);
        }
      case Call(_, _, _, _) =>
        thrown := RunCall(step);
      case Return(_, value) =>
        returnValue := ResolveValue(value, scopes);
        marks := marks + [ReturnMark(callDepth, returnValue)];
        returning := true;
      case Try(_, _, _, _) =>
        RunTry(step);
      case Scope(_, body) =>
        scopes := scopes + [map[]];
        RunStep(body);
        scopes := scopes[..|scopes| - 1];
    }

    /** Runs children in order until one fails or returns. */
    method RunSequence(steps: seq<Step>)
      requires Valid() && (forall child <- steps :: ParallelFree(child)) && !failed && !returning
      modifies this
      ensures Valid() && callDepth == old(callDepth)
      ensures Snapshot() == EvalSeq(steps, env, old(callDepth), old(Cfg()))
      decreases Budget(env, callDepth), steps, 0
    {
      var i := 0;
      while i < |steps|
        invariant i <= |steps| && Valid() && callDepth == old(callDepth)
        invariant EvalSeq(steps, env, old(callDepth), old(Cfg()))
               == if failed || returning then Snapshot()
                  else EvalSeq(steps[i..], env, old(callDepth), Cfg())
      {
        if failed || returning {
          break;
        }
        assert steps[i..][1..] == steps[i + 1..];
        assert steps[i] in steps;
        RunStep(steps[i]);
        i := i + 1;
      }
    }

    method RunToolCall(step: Step) returns (thrown: Option<string>)
      requires Valid() && step.ToolCall? && !failed && !returning
      modifies this
      ensures Valid() && callDepth == old(callDepth)
      ensures match EvalTool(step, env, old(Cfg()))
              case Done(r) => thrown == None && Snapshot() == r
              case Threw(message, c) => thrown == Some(message) && Snapshot() == Result(Normal, c)
    {
      var args := ResolveArgs(step.args, scopes);
      var reply := env.tools(calls, step.tool, args);
      calls := calls + [Invocation(step.tool, args)];
      if reply.Rejected? {
        return Some(reply.message);
      }
      thrown := None;
      if step.saveAs.Some? && step.saveAs.value != "" {
        thrown := WriteVar(step.saveAs.value, if reply.output.Some? then Str(reply.output.value) else Null);
      }
      if !reply.success {
        if env.abortOnToolError {
          failed := true;
          error := Some(reply.error.GetOr("tool " + step.tool + " failed"));
          failedAtStepId := Some(step.id);
        }
      }
    }

    method RunCall(step: Step) returns (thrown: Option<string>)
      requires Valid() && step.Call? && !failed && !returning
      modifies this
      ensures Valid() && callDepth == old(callDepth)
      ensures match EvalCall(step, env, old(callDepth), old(Cfg()))
              case Done(r) => thrown == None && Snapshot() == r
              case Threw(message, c) => thrown == Some(message) && Snapshot() == Result(Normal, c)
      decreases Budget(env, callDepth), step, 0
    {
      if step.func !in env.functions {
        return Some(UndefinedFunction(step.func));
      }
      if callDepth >= env.maxCallDepth {
        return Some(DepthExceeded(env.maxCallDepth, step.func));
      }
      var localFrame := ResolveArgs(step.callArgs.GetOr(map[]), scopes);
      var fnReturn := RunFunction(env.functions[step.func], localFrame);
      thrown := None;
      if step.saveAs.Some? && step.saveAs.value != "" && !failed {
        thrown := WriteVar(step.saveAs.value, fnReturn);
      }
    }

    /** Runs a function in a frame of its own. The caller's return state is saved and given back. */
    method RunFunction(fn: Step, localFrame: Frame) returns (fnReturn: Value)
      requires Valid() && ParallelFree(fn) && !failed && !returning && callDepth < env.maxCallDepth
      modifies this
      ensures Valid() && callDepth == old(callDepth) && scopes != []
      ensures var r := Eval(fn, env, old(callDepth) + 1, Push(old(Cfg()), localFrame).(register := Undefined));
              && fnReturn == r.cfg.register
              && Snapshot() == Result(if r.outcome.Failed? then r.outcome else Normal,
                                      Pop(r.cfg).(register := old(returnValue)))
      decreases Budget(env, callDepth) - 1
    {
      var callerReturning, callerReturnValue := returning, returnValue;
      returning, returnValue := false, Undefined;

      scopes := scopes + [localFrame];
      callDepth := callDepth + 1;
      ghost var entry := Push(old(Cfg()), localFrame).(register := Undefined);
      assert Cfg() == entry;
      ghost var r := Eval(fn, env, callDepth, entry);
      RunStep(fn);
      fnReturn := LeaveFunction(callerReturning, callerReturnValue, r);
    }

    /** Pops the function's frame and gives the caller its return state back. */
    method LeaveFunction(callerReturning: bool, callerReturnValue: Value, ghost r: Result) returns (fnReturn: Value)
      requires Valid() && Snapshot() == r && |scopes| > 1 && callDepth > 0 && !callerReturning
      modifies this
      ensures Valid() && callDepth == old(callDepth) - 1 && fnReturn == r.cfg.register
      ensures Snapshot() == Result(if r.outcome.Failed? then r.outcome else Normal,
                                   Pop(r.cfg).(register := callerReturnValue))
    {
      scopes := scopes[..|scopes| - 1];
      callDepth := callDepth - 1;
      fnReturn := returnValue;
      returning, returnValue := callerReturning, callerReturnValue;
    }

    /** Body and handler: a failed body leaves a clean state for its handler, or fails again. */
    method RunGuarded(step: Step)
      requires Valid() && step.Try? && ParallelFree(step) && !failed && !returning
      modifies this
      ensures Valid() && callDepth == old(callDepth)
      ensures Snapshot() == EvalGuarded(step, env, old(callDepth), old(Cfg()))
      decreases Budget(env, callDepth), step, 0
    {
      RunStep(step.body);
      if failed {
        ghost var body := Snapshot();
        var bodyError, bodyErrorStepId := error, failedAtStepId;
        failed, error, failedAtStepId := false, None, None;
        if step.handler.Some? {
          scopes := scopes + [map["__error__" := Str(bodyError.GetOr("")),
                                  "__errorStepId__" := Str(bodyErrorStepId.GetOr(""))]];
          assert Cfg() == EnterCatch(body);
          RunStep(step.handler.value);
          scopes := scopes[..|scopes| - 1];
        } else {
          failed, error, failedAtStepId := true, bodyError, bodyErrorStepId;
        }
      }
    }

    method RunTry(step: Step)
      requires Valid() && step.Try? && ParallelFree(step) && !failed && !returning
      modifies this
      ensures Valid() && callDepth == old(callDepth)
      ensures Snapshot() == EvalTry(step, env, old(callDepth), old(Cfg()))
      decreases Budget(env, callDepth), step, 1
    {
      RunGuarded(step);
      if step.cleanup.Some? {
        var beforeFailed, beforeError, beforeFailedAt, beforeReturning
          := failed, error, failedAtStepId, returning;
        failed, error, failedAtStepId, returning := false, None, None, false;
        RunStep(step.cleanup.value);
        if !failed {
          failed, error, failedAtStepId, returning
            := beforeFailed, beforeError, beforeFailedAt, beforeReturning;
        }
      }
    }
  }

  /** Where every run starts: the initial variables are the only frame. */
  function InitialConfig(initialVars: Frame): Config {
    Config(Store([initialVars], [], [], 0), Undefined, [])
  }

  /** Runs a workflow and reports what its caller sees. The final variables are the root frame;
      an empty error message is reported as no error. */
  method ExecuteWorkflow(wf: Workflow, tools: Tools, initialVars: Frame,
                         abortOnToolError: bool, maxCallDepth: int)
    returns (result: ExecuteResult)
    requires ParallelFree(wf.entry) && ParallelFreeEnv(Env(wf.functions, tools, abortOnToolError, maxCallDepth))
    ensures var r := Eval(wf.entry, Env(wf.functions, tools, abortOnToolError, maxCallDepth), 0,
                          InitialConfig(initialVars));
            && r.cfg.store.scopes == [result.vars]
            && result.completed == !r.outcome.Failed?
            && result.stepsExecuted == r.cfg.store.steps
            && result.error == if r.outcome.Failed? && r.outcome.error != "" then Some(r.outcome.error) else None
    ensures var env := Env(wf.functions, tools, abortOnToolError, maxCallDepth);
            ToolsNeverAbort(env) && CallsWithin(wf.entry, wf.functions, Budget(env, 0)) ==> result.completed
  {
    ghost var env := Env(wf.functions, tools, abortOnToolError, maxCallDepth);
    if ToolsNeverAbort(env) && CallsWithin(wf.entry, wf.functions, Budget(env, 0)) {
      NothingFails(wf.entry, env, 0, InitialConfig(initialVars));
    }
    var state := new ExecState(Env(wf.functions, tools, abortOnToolError, maxCallDepth), initialVars);
    state.RunStep(wf.entry);
    result := ExecuteResult(!state.failed, state.scopes[0],
                            if state.error.Some? && state.error.value != "" then state.error else None,
                            state.stepCount);
  }
}
