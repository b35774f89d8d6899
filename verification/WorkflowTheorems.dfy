/** What every parallel-free step keeps: the return register, the logs, the frames, the bound. */
module WorkflowTheorems {
  import opened Prelude
  import opened WorkflowSchema
  import opened WorkflowValues
  import opened WorkflowSemantics

  /** Where the inside of a step leaves off, exception or not. */
  function InnerCfg(inner: Inner): Config {
    if inner.Done? then inner.result.cfg else inner.cfg
  }

  /** The value of the last return executed at `depth`, or `fallback` if none was. */
  function LastReturn(marks: seq<ReturnMark>, depth: nat, fallback: Value): Value {
    if marks == [] then fallback
    else
      var last := marks[|marks| - 1];
      if last.depth == depth then last.value else LastReturn(marks[..|marks| - 1], depth, fallback)
  }

  lemma {:induction false} LastReturnAppend(a: seq<ReturnMark>, b: seq<ReturnMark>, depth: nat, x: Value)
    ensures LastReturn(a + b, depth, x) == LastReturn(b, depth, LastReturn(a, depth, x))
  {
    if b == [] {
      assert a + b == a;
    } else {
      assert (a + b)[..|a + b| - 1] == a + b[..|b| - 1];
      LastReturnAppend(a, b[..|b| - 1], depth, x);
    }
  }

  /** Returns of deeper activations do not count. */
  lemma {:induction false} LastReturnDeeper(marks: seq<ReturnMark>, depth: nat, x: Value)
    requires forall m <- marks :: m.depth > depth
    ensures LastReturn(marks, depth, x) == x
  {
    if marks != [] {
      assert marks[|marks| - 1] in marks;
      LastReturnDeeper(marks[..|marks| - 1], depth, x);
    }
  }

  /** Reads a telemetry log against a stack of open steps: an end must match the innermost open
      start, by step id and kind. Yields the steps still open, or nothing on a mismatch. */
  function Unwind(events: seq<StepEvent>, open: seq<StepEvent>): Option<seq<StepEvent>> {
    if events == [] then Some(open)
    else match events[0]
      case Started(_, _) => Unwind(events[1..], open + [events[0]])
      case Ended(id, kind, _, _) =>
        if open != [] && open[|open| - 1] == Started(id, kind)
        then Unwind(events[1..], open[..|open| - 1])
        else None
  }

  /** Every start has its own end, properly nested, whatever was open before. */
  ghost predicate WellNested(events: seq<StepEvent>) {
    forall open :: Unwind(events, open) == Some(open)
  }

  lemma {:induction false} UnwindAppend(a: seq<StepEvent>, b: seq<StepEvent>, open: seq<StepEvent>)
    ensures Unwind(a + b, open) ==
            (var mid := Unwind(a, open); if mid.Some? then Unwind(b, mid.value) else None)
  {
    if a == [] {
      assert a + b == b;
    } else {
      assert (a + b)[1..] == a[1..] + b;
      match a[0]
      case Started(_, _) => UnwindAppend(a[1..], b, open + [a[0]]);
      case Ended(id, kind, _, _) =>
        if open != [] && open[|open| - 1] == Started(id, kind) {
          UnwindAppend(a[1..], b, open[..|open| - 1]);
        }
    }
  }

  function Starts(events: seq<StepEvent>): nat {
    if events == [] then 0 else (if events[0].Started? then 1 else 0) + Starts(events[1..])
  }

  lemma {:induction false} StartsAppend(a: seq<StepEvent>, b: seq<StepEvent>)
    ensures Starts(a + b) == Starts(a) + Starts(b)
  {
    if a == [] {
      assert a + b == b;
    } else {
      assert (a + b)[1..] == a[1..] + b;
      StartsAppend(a[1..], b);
    }
  }

  /** The part of a log that was not there before. */
  function Added<T>(before: seq<T>, after: seq<T>): seq<T> {
    if |before| <= |after| then after[|before|..] else []
  }

  /** The telemetry added between two stores is well nested and has one start per counted step. */
  ghost predicate Narrated(s: Store, s': Store) {
    && s.events <= s'.events
    && WellNested(Added(s.events, s'.events))
    && s'.steps == s.steps + Starts(Added(s.events, s'.events))
    && s.calls <= s'.calls
  }

  /** The register holds the last value returned in this very activation since `c`. */
  ghost predicate Tracked(depth: nat, c: Config, c': Config) {
    && c.marks <= c'.marks
    && (forall m <- Added(c.marks, c'.marks) :: m.depth >= depth)
    && c'.register == LastReturn(Added(c.marks, c'.marks), depth, c.register)
  }

  ghost predicate Lawful(depth: nat, c: Config, r: Result) {
    && Narrated(c.store, r.cfg.store)
    && Tracked(depth, c, r.cfg)
    && (r.outcome.Returned? ==> exists m <- Added(c.marks, r.cfg.marks) :: m.depth == depth)
  }

  lemma NarratedTrans(a: Store, b: Store, c: Store)
    requires Narrated(a, b) && Narrated(b, c)
    ensures Narrated(a, c)
  {
    var x, y := Added(a.events, b.events), Added(b.events, c.events);
    assert Added(a.events, c.events) == x + y;
    StartsAppend(x, y);
    forall open ensures Unwind(x + y, open) == Some(open) {
      UnwindAppend(x, y, open);
    }
  }

  lemma TrackedTrans(depth: nat, a: Config, b: Config, c: Config)
    requires Tracked(depth, a, b) && Tracked(depth, b, c)
    ensures Tracked(depth, a, c)
    ensures Added(a.marks, c.marks) == Added(a.marks, b.marks) + Added(b.marks, c.marks)
  {
    var x, y := Added(a.marks, b.marks), Added(b.marks, c.marks);
    assert Added(a.marks, c.marks) == x + y;
    LastReturnAppend(x, y, depth, a.register);
  }

  lemma LawfulTrans(depth: nat, c: Config, mid: Result, r: Result)
    requires Lawful(depth, c, mid) && Lawful(depth, mid.cfg, r)
    ensures Lawful(depth, c, r)
    ensures Lawful(depth, c, r.(outcome := mid.outcome))
  {
    NarratedTrans(c.store, mid.cfg.store, r.cfg.store);
    TrackedTrans(depth, c, mid.cfg, r.cfg);
  }

  /** A start, a well-nested middle and the matching end are well nested. */
  lemma {:induction false} Bracketed(s: StepEvent, middle: seq<StepEvent>, e: StepEvent)
    requires s.Started? && e.Ended? && s == Started(e.stepId, e.kind) && WellNested(middle)
    ensures WellNested([s] + (middle + [e])) && Starts([s] + (middle + [e])) == 1 + Starts(middle)
  {
    var all := [s] + (middle + [e]);
    assert all[1..] == middle + [e];
    StartsAppend(middle, [e]);
    forall open ensures Unwind(all, open) == Some(open) {
      UnwindAppend(middle, [e], open + [s]);
      assert (open + [s])[..|open|] == open;
      assert Unwind([e], open + [s]) == Unwind([e][1..], open);
    }
  }

  /** Bracketing lawful inner behaviour by start and end keeps it lawful. */
  lemma LawfulStep(step: Step, depth: nat, c: Config, inner: Inner)
    requires Lawful(depth, Begin(step, c), if inner.Done? then inner.result else Result(Normal, inner.cfg))
    ensures Lawful(depth, c, Finish(step, inner))
  {
    var begun, final := Begin(step, c).store, Finish(step, inner).cfg.store;
    var middle := Added(begun.events, InnerCfg(inner).store.events);
    var e := final.events[|final.events| - 1];
    Bracketed(Started(step.id, Kind(step)), middle, e);
    assert Added(c.store.events, final.events) == [Started(step.id, Kind(step))] + (middle + [e]);
    assert Tracked(depth, c, Finish(step, inner).cfg);
  }

  /** Only the frames and, after a call, the register differ: lawfulness does not look at frames. */
  lemma LawfulCall(depth: nat, saveAs: Option<string>, args: Option<map<string, Value>>, c: Config, r: Result)
    requires Lawful(depth + 1, EnterCall(args, c), r) && |r.cfg.store.scopes| > 1
    ensures Lawful(depth, c, LeaveCall(saveAs, c, r))
  {
    LastReturnDeeper(Added(c.marks, r.cfg.marks), depth, c.register);
  }

  /** Every step runs lawfully: telemetry nests and counts, the register is tracked, and a step
      only ends as returned if a return ran in its own activation. */
  lemma {:induction false} EvalLawful(step: Step, env: Env, depth: nat, c: Config)
    requires ParallelFree(step) && ParallelFreeEnv(env) && c.store.scopes != []
    ensures Lawful(depth, c, Eval(step, env, depth, c))
    decreases Budget(env, depth), step, 3
  {
    var begun := Begin(step, c);
    EvalKindLawful(step, env, depth, begun);
    LawfulStep(step, depth, c, EvalKind(step, env, depth, begun));
  }

  lemma {:induction false} EvalKindLawful(step: Step, env: Env, depth: nat, c: Config)
    requires ParallelFree(step) && ParallelFreeEnv(env) && c.store.scopes != []
    ensures var inner := EvalKind(step, env, depth, c);
            Lawful(depth, c, if inner.Done? then inner.result else Result(Normal, inner.cfg))
    decreases Budget(env, depth), step, 2
  {
    match step
    case ToolCall(_, _, _, _) =>
    case SetVar(_, _, _) =>
    case Sequence(_, steps) => EvalSeqLawful(steps, env, depth, c);
    case Branch(_, condition, whenTrue, whenFalse) =>
      if EvalCondition(condition, c.store.scopes) {
        EvalLawful(whenTrue, env, depth, c);
      } else if whenFalse.Some? {
        EvalLawful(whenFalse.value, env, depth, c);
      }
    case Call(_, _, _, _) => EvalCallLawful(step, env, depth, c);
    case Return(_, value) =>
      var mark := ReturnMark(depth, Resolve(value, c.store.scopes));
      assert Added(c.marks, c.marks + [mark]) == [mark];
    case Try(_, _, _, _) => EvalTryLawful(step, env, depth, c);
    case Scope(_, body) => EvalLawful(body, env, depth, Push(c, map[]));
  }

  lemma {:induction false} EvalCallLawful(step: Step, env: Env, depth: nat, c: Config)
    requires step.Call? && ParallelFreeEnv(env) && c.store.scopes != []
    ensures var inner := EvalCall(step, env, depth, c);
            Lawful(depth, c, if inner.Done? then inner.result else Result(Normal, inner.cfg))
    decreases Budget(env, depth), step, 0
  {
    if step.func in env.functions && depth < env.maxCallDepth {
      var fn, inside := env.functions[step.func], EnterCall(step.callArgs, c);
      EvalLawful(fn, env, depth + 1, inside);
      LawfulCall(depth, step.saveAs, step.callArgs, c, Eval(fn, env, depth + 1, inside));
    }
  }

  lemma {:induction false} EvalTryLawful(step: Step, env: Env, depth: nat, c: Config)
    requires step.Try? && ParallelFree(step) && ParallelFreeEnv(env) && c.store.scopes != []
    ensures Lawful(depth, c, EvalTry(step, env, depth, c))
    decreases Budget(env, depth), step, 1
  {
    EvalGuardedLawful(step, env, depth, c);
    if step.cleanup.Some? {
      var r := EvalGuarded(step, env, depth, c);
      EvalLawful(step.cleanup.value, env, depth, r.cfg);
      LawfulTrans(depth, c, r, Eval(step.cleanup.value, env, depth, r.cfg));
    }
  }

  lemma {:induction false} EvalGuardedLawful(step: Step, env: Env, depth: nat, c: Config)
    requires step.Try? && ParallelFree(step) && ParallelFreeEnv(env) && c.store.scopes != []
    ensures Lawful(depth, c, EvalGuarded(step, env, depth, c))
    decreases Budget(env, depth), step, 0
  {
    EvalLawful(step.body, env, depth, c);
    var r := Eval(step.body, env, depth, c);
    if r.outcome.Failed? && step.handler.Some? {
      EvalLawful(step.handler.value, env, depth, EnterCatch(r));
      LawfulTrans(depth, c, r, PopResult(Eval(step.handler.value, env, depth, EnterCatch(r))));
    }
  }

  lemma {:induction false} EvalSeqLawful(steps: seq<Step>, env: Env, depth: nat, c: Config)
    requires (forall child <- steps :: ParallelFree(child)) && ParallelFreeEnv(env) && c.store.scopes != []
    ensures Lawful(depth, c, EvalSeq(steps, env, depth, c))
    decreases Budget(env, depth), steps, 0
  {
    if steps != [] {
      EvalLawful(steps[0], env, depth, c);
      var r := Eval(steps[0], env, depth, c);
      if r.outcome.Normal? {
        EvalSeqLawful(steps[1..], env, depth, r.cfg);
        LawfulTrans(depth, c, r, EvalSeq(steps[1..], env, depth, r.cfg));
      }
    }
  }

  /** Call boundary. A call never returns from its caller and never disturbs the caller's register.
      A failed one leaves every frame as it was; a successful one binds the value of the last
      return executed in its own activation, or undefined, and changes nothing else. */
  lemma {:induction false} CallBoundary(step: Step, env: Env, depth: nat, c: Config)
    requires step.Call? && ParallelFreeEnv(env) && c.store.scopes != []
    ensures var r := Eval(step, env, depth, c);
            && !r.outcome.Returned?
            && r.cfg.register == c.register
            && c.marks <= r.cfg.marks
            && r.cfg.store.scopes ==
               if r.outcome.Failed? then c.store.scopes
               else SaveTo(c, step.saveAs,
                           LastReturn(Added(c.marks, r.cfg.marks), depth + 1, Undefined)).store.scopes
  {
    var begun := Begin(step, c);
    EvalOfCall(step, env, depth, c);
    if step.func in env.functions && depth < env.maxCallDepth {
      var inside := EnterCall(step.callArgs, begun);
      EvalLawful(env.functions[step.func], env, depth + 1, inside);
      var r := Eval(env.functions[step.func], env, depth + 1, inside);
      assert Isolated(inside.store.scopes, r.cfg.store.scopes);
      assert inside.store.scopes[..|inside.store.scopes| - 1] == c.store.scopes;
      assert Pop(r.cfg).store.scopes == c.store.scopes;
    }
  }

  /** Whatever runs inside a scope, and however it ends, no frame changes. */
  lemma {:induction false} ScopeLeavesNoTrace(step: Step, env: Env, depth: nat, c: Config)
    requires step.Scope? && ParallelFree(step) && ParallelFreeEnv(env) && c.store.scopes != []
    ensures Eval(step, env, depth, c).cfg.store.scopes == c.store.scopes
  {
    var inside := Push(Begin(step, c), map[]);
    var r := Eval(step.body, env, depth, inside);
    assert Isolated(inside.store.scopes, r.cfg.store.scopes);
    assert inside.store.scopes[..|inside.store.scopes| - 1] == c.store.scopes;
  }

  /** `largest` bounds the size of every function body. */
  ghost predicate BoundsFunctions(env: Env, largest: nat) {
    forall f <- env.functions :: Size(env.functions[f]) <= largest
  }

  /** Steps that one step node can cause when `budget` nested calls are still allowed. */
  function Growth(largest: nat, budget: nat): nat {
    if budget == 0 then 1 else 1 + largest * Growth(largest, budget - 1)
  }

  /** Cost of `n` nodes at `g` steps each: `n * g`, by repeated addition. */
  function Times(n: nat, g: nat): nat {
    if n == 0 then 0 else g + Times(n - 1, g)
  }

  lemma {:induction false} TimesAdd(a: nat, b: nat, g: nat)
    ensures Times(a + b, g) == Times(a, g) + Times(b, g)
  {
    if a > 0 {
      TimesAdd(a - 1, b, g);
    }
  }

  lemma {:induction false} TimesMonotone(a: nat, b: nat, g: nat)
    requires a <= b
    ensures Times(a, g) <= Times(b, g)
  {
    TimesAdd(a, b - a, g);
  }

  lemma {:induction false} TimesIsProduct(n: nat, g: nat)
    ensures Times(n, g) == n * g
  {
    if n > 0 {
      TimesIsProduct(n - 1, g);
    }
  }

  lemma {:induction false} StepCost(step: Step, env: Env, largest: nat, depth: nat, c: Config)
    requires ParallelFree(step) && ParallelFreeEnv(env) && c.store.scopes != []
    requires BoundsFunctions(env, largest)
    ensures Eval(step, env, depth, c).cfg.store.steps
            <= c.store.steps + Times(Size(step), Growth(largest, Budget(env, depth)))
    decreases Budget(env, depth), step, 4
  {
    KindCost(step, env, largest, depth, Begin(step, c));
  }

  lemma {:induction false} KindCost(step: Step, env: Env, largest: nat, depth: nat, c: Config)
    requires ParallelFree(step) && ParallelFreeEnv(env) && c.store.scopes != []
    requires BoundsFunctions(env, largest)
    ensures InnerCfg(EvalKind(step, env, depth, c)).store.steps + 1
            <= c.store.steps + Times(Size(step), Growth(largest, Budget(env, depth)))
    decreases Budget(env, depth), step, 3
  {
    match step
    case Sequence(_, steps) => SeqCost(steps, env, largest, depth, c);
    case Branch(_, _, _, _) => BranchCost(step, env, largest, depth, c);
    case Call(_, _, _, _) => CallCost(step, env, largest, depth, c);
    case Try(_, _, _, _) => TryCost(step, env, largest, depth, c);
    case Scope(_, body) => StepCost(body, env, largest, depth, Push(c, map[]));
    case _ =>
  }

  lemma {:induction false} BranchCost(step: Step, env: Env, largest: nat, depth: nat, c: Config)
    requires step.Branch? && ParallelFree(step) && ParallelFreeEnv(env) && c.store.scopes != []
    requires BoundsFunctions(env, largest)
    ensures InnerCfg(EvalKind(step, env, depth, c)).store.steps + 1
            <= c.store.steps + Times(Size(step), Growth(largest, Budget(env, depth)))
    decreases Budget(env, depth), step, 2
  {
    TimesAdd(Size(step.whenTrue), if step.whenFalse.Some? then Size(step.whenFalse.value) else 0,
             Growth(largest, Budget(env, depth)));
    if EvalCondition(step.condition, c.store.scopes) {
      StepCost(step.whenTrue, env, largest, depth, c);
    } else if step.whenFalse.Some? {
      StepCost(step.whenFalse.value, env, largest, depth, c);
    }
  }

  lemma {:induction false} CallCost(step: Step, env: Env, largest: nat, depth: nat, c: Config)
    requires step.Call? && ParallelFreeEnv(env) && c.store.scopes != [] && BoundsFunctions(env, largest)
    ensures InnerCfg(EvalCall(step, env, depth, c)).store.steps + 1
            <= c.store.steps + Growth(largest, Budget(env, depth))
    decreases Budget(env, depth), step, 0
  {
    if step.func in env.functions && depth < env.maxCallDepth {
      var g := Growth(largest, Budget(env, depth + 1));
      StepCost(env.functions[step.func], env, largest, depth + 1, EnterCall(step.callArgs, c));
      TimesMonotone(Size(env.functions[step.func]), largest, g);
      TimesIsProduct(largest, g);
    }
  }

  lemma {:induction false} TryCost(step: Step, env: Env, largest: nat, depth: nat, c: Config)
    requires step.Try? && ParallelFree(step) && ParallelFreeEnv(env) && c.store.scopes != []
    requires BoundsFunctions(env, largest)
    ensures EvalTry(step, env, depth, c).cfg.store.steps + 1
            <= c.store.steps + Times(Size(step), Growth(largest, Budget(env, depth)))
    decreases Budget(env, depth), step, 1
  {
    var g := Growth(largest, Budget(env, depth));
    TryTimes(step, g);
    GuardedCost(step, env, largest, depth, c);
    if step.cleanup.Some? {
      StepCost(step.cleanup.value, env, largest, depth, EvalGuarded(step, env, depth, c).cfg);
    }
  }

  function GuardedSize(step: Step): nat
    requires step.Try?
  {
    Size(step.body) + if step.handler.Some? then Size(step.handler.value) else 0
  }

  lemma {:induction false} TryTimes(step: Step, g: nat)
    requires step.Try?
    ensures Times(Size(step), g)
         == g + Times(GuardedSize(step), g) + if step.cleanup.Some? then Times(Size(step.cleanup.value), g) else 0
  {
    TimesAdd(GuardedSize(step), if step.cleanup.Some? then Size(step.cleanup.value) else 0, g);
  }

  lemma {:induction false} GuardedCost(step: Step, env: Env, largest: nat, depth: nat, c: Config)
    requires step.Try? && ParallelFree(step) && ParallelFreeEnv(env) && c.store.scopes != []
    requires BoundsFunctions(env, largest)
    ensures EvalGuarded(step, env, depth, c).cfg.store.steps
            <= c.store.steps + Times(GuardedSize(step), Growth(largest, Budget(env, depth)))
    decreases Budget(env, depth), step, 0
  {
    StepCost(step.body, env, largest, depth, c);
    TimesAdd(Size(step.body), if step.handler.Some? then Size(step.handler.value) else 0,
             Growth(largest, Budget(env, depth)));
    var r := Eval(step.body, env, depth, c);
    if r.outcome.Failed? && step.handler.Some? {
      StepCost(step.handler.value, env, largest, depth, EnterCatch(r));
    }
  }

  lemma {:induction false} SeqCost(steps: seq<Step>, env: Env, largest: nat, depth: nat, c: Config)
    requires (forall child <- steps :: ParallelFree(child)) && ParallelFreeEnv(env) && c.store.scopes != []
    requires BoundsFunctions(env, largest)
    ensures EvalSeq(steps, env, depth, c).cfg.store.steps
            <= c.store.steps + Times(SizeAll(steps), Growth(largest, Budget(env, depth)))
    decreases Budget(env, depth), steps, 0
  {
    if steps != [] {
      StepCost(steps[0], env, largest, depth, c);
      TimesAdd(Size(steps[0]), SizeAll(steps[1..]), Growth(largest, Budget(env, depth)));
      var r := Eval(steps[0], env, depth, c);
      if r.outcome.Normal? {
        SeqCost(steps[1..], env, largest, depth, r.cfg);
      }
    }
  }

  /** Executed steps are bounded by size times growth, mutual recursion or not. */
  lemma {:induction false} StepBound(step: Step, env: Env, largest: nat, depth: nat, c: Config)
    requires ParallelFree(step) && ParallelFreeEnv(env) && c.store.scopes != []
    requires BoundsFunctions(env, largest)
    ensures Eval(step, env, depth, c).cfg.store.steps - c.store.steps
            <= Size(step) * Growth(largest, Budget(env, depth))
  {
    StepCost(step, env, largest, depth, c);
    TimesIsProduct(Size(step), Growth(largest, Budget(env, depth)));
  }
}
