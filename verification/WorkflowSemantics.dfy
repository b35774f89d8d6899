/** Compositional big-step semantics of parallel-free steps: an outcome and a new
    configuration for every step, tool oracle and starting configuration. */
module WorkflowSemantics {
  import opened Prelude
  import opened WorkflowSchema
  import opened WorkflowValues

  datatype Invocation = Invocation(tool: string, args: map<string, Value>)

  /** What a tool does when invoked: answer, or reject with an exception. */
  datatype ToolReply =
    | Reply(success: bool, output: Option<string>, error: Option<string>)
    | Rejected(message: string)

  /** A tool may answer according to everything that was invoked before. */
  type Tools = (seq<Invocation>, string, map<string, Value>) -> ToolReply

  datatype StepEvent =
    | Started(stepId: string, kind: string)
    | Ended(stepId: string, kind: string, ok: bool, error: Option<string>)

  /** A record that a `return` step ran in the activation at `depth`. */
  datatype ReturnMark = ReturnMark(depth: nat, value: Value)

  /** What the workflow can read and what its caller can observe. */
  datatype Store = Store(
    scopes: seq<Frame>,
    calls: seq<Invocation>,
    events: seq<StepEvent>,
    steps: nat)

  /** A store, the return register, and the log of executed `return` steps. */
  datatype Config = Config(store: Store, register: Value, marks: seq<ReturnMark>)

  datatype Outcome = Normal | Returned | Failed(error: string, stepId: string)

  datatype Result = Result(outcome: Outcome, cfg: Config)

  /** What happens inside one step: it completes, or raises an exception caught at that step. */
  datatype Inner = Done(result: Result) | Threw(message: string, cfg: Config)

  datatype Env = Env(
    functions: map<string, Step>,
    tools: Tools,
    abortOnToolError: bool,
    maxCallDepth: int)

  ghost predicate ParallelFreeEnv(env: Env) {
    forall f <- env.functions :: ParallelFree(env.functions[f])
  }

  /** How many more nested calls the depth limit allows. */
  function Budget(env: Env, depth: nat): nat {
    if env.maxCallDepth > depth then env.maxCallDepth - depth else 0
  }

  function UndefinedFunction(name: string): string {
    "call: function '" + name + "' is not defined"
  }

  /** Only the fact that this message depends on limit and function name matters here. */
  function DepthExceeded(limit: int, name: string): string {
    "call: depth limit (" + Decimal(limit) + ") exceeded — possible infinite recursion at function '" + name + "'"
  }

  function Decimal(n: int): string
    decreases n < 0, if n < 0 then -n else n
  {
    if n < 0 then "-" + Decimal(-n)
    else if n < 10 then [('0' as int + n) as char]
    else Decimal(n / 10) + [('0' as int + n % 10) as char]
  }

  function Push(c: Config, frame: Frame): Config {
    c.(store := c.store.(scopes := c.store.scopes + [frame]))
  }

  function Pop(c: Config): Config
    requires c.store.scopes != []
  {
    c.(store := c.store.(scopes := c.store.scopes[..|c.store.scopes| - 1]))
  }

  /** Writes go to the innermost frame. */
  function WriteTop(scopes: seq<Frame>, name: string, v: Value): seq<Frame>
    requires scopes != []
  {
    var top := |scopes| - 1;
    scopes[top := scopes[top][name := v]]
  }

  /** An empty `saveAs` counts as absent. */
  function SaveTo(c: Config, saveAs: Option<string>, v: Value): Config
    requires c.store.scopes != []
  {
    if saveAs.Some? && saveAs.value != ""
    then c.(store := c.store.(scopes := WriteTop(c.store.scopes, saveAs.value, v)))
    else c
  }

  function Emit(c: Config, e: StepEvent): Config {
    c.(store := c.store.(events := c.store.events + [e]))
  }

  /** A step is about to run: it is counted and announced. */
  function Begin(step: Step, c: Config): Config {
    var s := c.store;
    c.(store := s.(events := s.events + [Started(step.id, Kind(step))], steps := s.steps + 1))
  }

  /** A step is over: an exception becomes a failure of this very step. */
  function Finish(step: Step, inner: Inner): Result {
    match inner
    case Done(r) =>
      r.(cfg := Emit(r.cfg, Ended(step.id, Kind(step), !r.outcome.Failed?, None)))
    case Threw(message, c) =>
      Result(Failed(message, step.id), Emit(c, Ended(step.id, Kind(step), false, Some(message))))
  }

  /** Same height, and every frame below the top unchanged. */
  ghost predicate Isolated(before: seq<Frame>, after: seq<Frame>) {
    && before != []
    && |after| == |before|
    && after[..|after| - 1] == before[..|before| - 1]
  }

  function Eval(step: Step, env: Env, depth: nat, c: Config): (r: Result)
    requires ParallelFree(step) && ParallelFreeEnv(env) && c.store.scopes != []
    ensures Isolated(c.store.scopes, r.cfg.store.scopes)
    decreases Budget(env, depth), step, 3
  {
    Finish(step, EvalKind(step, env, depth, Begin(step, c)))
  }

  function EvalKind(step: Step, env: Env, depth: nat, c: Config): (inner: Inner)
    requires ParallelFree(step) && ParallelFreeEnv(env) && c.store.scopes != []
    ensures Isolated(c.store.scopes,
                     (if inner.Done? then inner.result.cfg else inner.cfg).store.scopes)
    decreases Budget(env, depth), step, 2
  {
    match step
    case ToolCall(id, tool, args, saveAs) => EvalTool(step, env, c)
    case SetVar(_, name, value) =>
      var s := c.store;
      Done(Result(Normal, c.(store := s.(scopes := WriteTop(s.scopes, name, Resolve(value, s.scopes))))))
    case Sequence(_, steps) => Done(EvalSeq(steps, env, depth, c))
    case Branch(_, condition, whenTrue, whenFalse) =>
      Done(if EvalCondition(condition, c.store.scopes) then Eval(whenTrue, env, depth, c)
           else if whenFalse.Some? then Eval(whenFalse.value, env, depth, c)
           else Result(Normal, c))
    case Call(_, _, _, _) => EvalCall(step, env, depth, c)
    case Return(_, value) =>
      var v := Resolve(value, c.store.scopes);
      Done(Result(Returned, c.(register := v, marks := c.marks + [ReturnMark(depth, v)])))
    case Try(_, _, _, _) => Done(EvalTry(step, env, depth, c))
    case Scope(_, body) => Done(PopResult(Eval(body, env, depth, Push(c, map[]))))
  }

  /** A function runs one level deeper, in a frame and with a return register of its own. */
  function EvalCall(step: Step, env: Env, depth: nat, c: Config): (inner: Inner)
    requires step.Call? && ParallelFreeEnv(env) && c.store.scopes != []
    ensures Isolated(c.store.scopes,
                     (if inner.Done? then inner.result.cfg else inner.cfg).store.scopes)
    decreases Budget(env, depth), step, 0
  {
    if step.func !in env.functions then Threw(UndefinedFunction(step.func), c)
    else if depth >= env.maxCallDepth then Threw(DepthExceeded(env.maxCallDepth, step.func), c)
    else
      var r := Eval(env.functions[step.func], env, depth + 1, EnterCall(step.callArgs, c));
      Done(LeaveCall(step.saveAs, c, r))
  }

  /** The cleanup step runs whatever happened before it. */
  function EvalTry(step: Step, env: Env, depth: nat, c: Config): (r: Result)
    requires step.Try? && ParallelFree(step) && ParallelFreeEnv(env) && c.store.scopes != []
    ensures Isolated(c.store.scopes, r.cfg.store.scopes)
    decreases Budget(env, depth), step, 1
  {
    var r := EvalGuarded(step, env, depth, c);
    if step.cleanup.Some? then Settle(r.outcome, Eval(step.cleanup.value, env, depth, r.cfg)) else r
  }

  /** The body of a `try`, followed by its handler if the body failed. */
  function EvalGuarded(step: Step, env: Env, depth: nat, c: Config): (r: Result)
    requires step.Try? && ParallelFree(step) && ParallelFreeEnv(env) && c.store.scopes != []
    ensures Isolated(c.store.scopes, r.cfg.store.scopes)
    decreases Budget(env, depth), step, 0
  {
    var r := Eval(step.body, env, depth, c);
    if r.outcome.Failed? && step.handler.Some?
    then PopResult(Eval(step.handler.value, env, depth, EnterCatch(r)))
    else r
  }

  function EvalSeq(steps: seq<Step>, env: Env, depth: nat, c: Config): (r: Result)
    requires (forall child <- steps :: ParallelFree(child)) && ParallelFreeEnv(env) && c.store.scopes != []
    ensures Isolated(c.store.scopes, r.cfg.store.scopes)
    decreases Budget(env, depth), steps, 0
  {
    if steps == [] then Result(Normal, c)
    else
      var r := Eval(steps[0], env, depth, c);
      if r.outcome.Normal? then EvalSeq(steps[1..], env, depth, r.cfg) else r
  }

  /** A tool call saves its output first and fails afterwards, if at all. */
  function EvalTool(step: Step, env: Env, c: Config): (inner: Inner)
    requires step.ToolCall? && c.store.scopes != []
  {
    var s := c.store;
    var args := ResolveAll(step.args, s.scopes);
    var reply := env.tools(s.calls, step.tool, args);
    var c1 := c.(store := s.(calls := s.calls + [Invocation(step.tool, args)]));
    match reply
    case Rejected(message) => Threw(message, c1)
    case Reply(success, output, error) =>
      var c2 := SaveTo(c1, step.saveAs, if output.Some? then Str(output.value) else Null);
      Done(Result(if success || !env.abortOnToolError then Normal
                  else Failed(error.GetOr("tool " + step.tool + " failed"), step.id), c2))
  }

  /** A fresh frame with the bound arguments, and a fresh return register. */
  function EnterCall(args: Option<map<string, Value>>, c: Config): Config {
    Push(c, ResolveAll(args.GetOr(map[]), c.store.scopes)).(register := Undefined)
  }

  /** Pops the callee's frame and gives the caller its register back; a return ends here. */
  function LeaveCall(saveAs: Option<string>, caller: Config, r: Result): Result
    requires |r.cfg.store.scopes| > 1
  {
    var c := Pop(r.cfg).(register := caller.register);
    if r.outcome.Failed? then Result(r.outcome, c)
    else Result(Normal, SaveTo(c, saveAs, r.cfg.register))
  }

  function EnterCatch(failed: Result): Config
    requires failed.outcome.Failed?
  {
    Push(failed.cfg, map["__error__" := Str(failed.outcome.error),
                         "__errorStepId__" := Str(failed.outcome.stepId)])
  }

  function PopResult(r: Result): Result
    requires r.cfg.store.scopes != []
  {
    r.(cfg := Pop(r.cfg))
  }

  /** Only a failure of the cleanup step replaces the pending outcome. */
  function Settle(pending: Outcome, cleanup: Result): Result {
    if cleanup.outcome.Failed? then cleanup else cleanup.(outcome := pending)
  }

  lemma {:induction false} EvalOfCall(step: Step, env: Env, depth: nat, c: Config)
    requires step.Call? && ParallelFreeEnv(env) && c.store.scopes != []
    ensures Eval(step, env, depth, c) == Finish(step, EvalCall(step, env, depth, Begin(step, c)))
  {
    assert EvalKind(step, env, depth, Begin(step, c)) == EvalCall(step, env, depth, Begin(step, c));
  }

  lemma {:induction false} EvalOfTry(step: Step, env: Env, depth: nat, c: Config)
    requires step.Try? && ParallelFree(step) && ParallelFreeEnv(env) && c.store.scopes != []
    ensures Eval(step, env, depth, c) == Finish(step, Done(EvalTry(step, env, depth, Begin(step, c))))
  {
    assert EvalKind(step, env, depth, Begin(step, c)) == Done(EvalTry(step, env, depth, Begin(step, c)));
  }
}
