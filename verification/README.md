# Verified model of the agent platform's stateful cores

A Dafny 4.11 model of the parts of the platform whose correctness is hardest to see by reading, with
machine-checked proofs of what they guarantee. Objects that update their fields are classes here, loops are
methods with invariants, and each is proved against a function on values; the theorems are about those
functions, over every input, every run and every reachable state. `dafny verify dfyconfig.toml` checks all of it.

| files | what they model |
|---|---|
| `Workflow*.dfy` | the workflow DSL: structural validator, flag-driven interpreter, its compositional semantics, call boundary, scope isolation, step bound, comparison with ECMA-262 completions, leaf-only `parallel` |
| `Plan*.dfy` | the plan-and-execute reasoner: layering, retries, sequential and interleaved execution, carrying successes into a new plan, bounded replanning |
| `Bus*.dfy`, `InProcessBus.dfy` | the in-process consumer-group bus as a machine whose steps lie between awaits |
| `React*.dfy` | the ReAct loop: streamed tool calls, budgets, retries, message blocks, trace |
| `Gateway*.dfy` | the Discord gateway client: resume, backoff, shut-down |
| `Persona*.dfy` | persona evolution: a journal of thirteen numbers |
| `TokenBatches.dfy`, `RateLimiter.dfy`, `Json5Scan.dfy` | the batch splitter, the token bucket, the JSON5 comment scan |

Where the code and its own comments disagree the model follows the code:

- `packages/workflow/src/engine.ts:292` claims JavaScript's `finally` semantics. A `return` in a cleanup step is not
  control flow here, and its value stays in the return register (`ReturnInCleanupIsNotControlFlow`).
  `ThroughoutIff` gives the exact condition of agreement, `CleanupSafeAgrees` one that is told from the trees.
- `packages/workflow/src/schema.ts:50-57` promises undefined for a function whose body completes without returning. A
  return that a failing cleanup has replaced by a failure is still bound by the call once that failure is handled
  (`CallBindsAbandonedReturn`).
- `packages/agent-worker/src/reasoning/plan-execute-executor.ts:770-771` says that steps with missing or cyclic
  dependencies cascade to skipped. They are flushed as one level that is filtered once, in plan order: steps of a cycle
  run (`CycleRunsUnmet`), and so does a step listed before a dependency that will itself be skipped
  (`DanglingRunsUnmet`) or whose dependency has succeeded under an earlier plan (`InheritedSuccessRuns`).
  `ExecutePlan` says which steps end skipped, `CascadeIff` when all of the level do.
- Lines 857-858 of that file promise the preserved ids in plan order; `ReportInPlanOrderIff` says when.
- `packages/ego/src/persona-evolution.ts:146` announces an enlarged cap on reinforcement; it never has an effect
  (`ReinforcementNeverMatters`).

Planner, tools, matcher, model, clock and abort signal are parameters: functions of everything that happened before,
so every theorem holds for all of them. Floating-point quantities are reals. The functions named in the contracts
(`Eval`, `Levels`, `Next`, `Evolve`, ...) are the specifications the methods are proved against.

## Model

| member | source | states |
|---|---|---|
| `WorkflowValidation.FirstProblemIsReported` | `packages/workflow/src/schema.ts:164-239` | a value is accepted as a step iff nothing is wrong with it at any depth; otherwise the first problem in depth-first order is reported, under a path that leads to a node with exactly that problem |
| `WorkflowValidation.RoundTrip` | `packages/workflow/src/schema.ts:164-239` | every step tree, written as a dynamic value and validated, comes back unchanged |
| `WorkflowValidation.ValidateFunctions` | `packages/workflow/src/schema.ts:149-156` | the function bodies are all accepted iff none has a problem; the record then holds each validated body under its name; an error path leads to the malformed node |
| `WorkflowValidation.ValidateWorkflow` | `packages/workflow/src/schema.ts:137-158` | accepts exactly the values with a well-typed head and problem-free steps, and the declaration says what the value says |
| `WorkflowValues.ReadVar` | `packages/workflow/src/engine.ts:339-345` | a read yields the value in the innermost frame that owns the name, and undefined if none does |
| `WorkflowValues.LookupSkips` | `packages/workflow/src/engine.ts:339-345` | frames that do not own a name are invisible to a read of it |
| `WorkflowValues.ResolveValue` | `packages/workflow/src/engine.ts:325-333` | a record with a string under `$fromVar` stands for that variable, anything else for itself |
| `WorkflowValues.ResolveArgs` | `packages/workflow/src/engine.ts:314-323` | the loop over the entries resolves every argument under its own key |
| `WorkflowSemantics.Eval` | `packages/workflow/src/engine.ts:114-179` | scope isolation: after any parallel-free step with any outcome the stack has the same height and every frame below the top is unchanged |
| `WorkflowSemantics.EvalKind` | `packages/workflow/src/engine.ts:122-163` | the same isolation for the inside of a step, exception or not |
| `WorkflowSemantics.EvalCall` | `packages/workflow/src/engine.ts:197-243` | the same isolation for calls, whether they throw, fail or succeed |
| `WorkflowSemantics.EvalTry` | `packages/workflow/src/engine.ts:245-312` | the same isolation across body, handler and cleanup |
| `WorkflowSemantics.EvalSeq` | `packages/workflow/src/engine.ts:129-134` | the same isolation for sequences cut short by a failure or a return |
| `WorkflowEngine.ExecState.constructor` | `packages/workflow/src/engine.ts:59-79` | a fresh state has one root frame, depth zero and nothing failed or returning |
| `WorkflowEngine.ExecState.WriteVar` | `packages/workflow/src/engine.ts:351-355` | a write goes to the top frame only; it throws exactly on an empty stack |
| `WorkflowEngine.ExecState.RunStep` | `packages/workflow/src/engine.ts:114-179` | the flag machine computes the compositional semantics of any parallel-free step (a step reached with a flag up is a no-op), never leaves both flags up, keeps the call depth, and terminates by remaining call depth, then step size |
| `WorkflowEngine.ExecState.RunKind` | `packages/workflow/src/engine.ts:122-163` | the dispatch on the step kind agrees with the semantics, thrown exceptions included |
| `WorkflowEngine.ExecState.RunSequence` | `packages/workflow/src/engine.ts:129-134` | the loop over children stops at the first failure or return, as the semantics says |
| `WorkflowEngine.ExecState.RunToolCall` | `packages/workflow/src/engine.ts:181-195` | the output is saved before failure is looked at; a rejected invocation saves nothing |
| `WorkflowEngine.ExecState.RunCall` | `packages/workflow/src/engine.ts:197-243` | undefined functions and the depth limit throw; otherwise the call agrees with the semantics |
| `WorkflowEngine.ExecState.RunFunction` | `packages/workflow/src/engine.ts:219-238` | a function runs one level deeper in its own frame; its return ends with it and the caller's return state is restored |
| `WorkflowEngine.ExecState.RunGuarded` | `packages/workflow/src/engine.ts:249-290` | a failed body leaves a clean state for its handler, in a fresh frame with error and step id; without a handler the failure stands |
| `WorkflowEngine.ExecState.RunTry` | `packages/workflow/src/engine.ts:245-312` | body, handler and cleanup compose as the semantics says: only a failing cleanup replaces the pending outcome |
| `WorkflowEngine.ExecuteWorkflow` | `packages/workflow/src/engine.ts:59-86` | the result reports completion, error, executed steps and the root frame of the evaluated entry |
| `WorkflowOutcomes.ToolCallMeans` | `packages/workflow/src/engine.ts:181-195` | a tool is invoked once with what its arguments stand for; the call fails, at its own id and with the tool's text, iff the tool rejects or replies without success under abortOnToolError; its output or null is bound in the top frame unless it rejects |
| `WorkflowOutcomes.SetVarMeans` | `packages/workflow/src/engine.ts:126-128` | what the value stands for is bound in the top frame; no failure |
| `WorkflowOutcomes.ReturnMeans` | `packages/workflow/src/engine.ts:150-153` | the activation returns what the value stands for |
| `WorkflowOutcomes.SequenceMeans` | `packages/workflow/src/engine.ts:129-134` | the steps run one after the other up to the first that does not end normally, and the sequence ends as that one does |
| `WorkflowOutcomes.CallMeans` | `packages/workflow/src/engine.ts:197-243` | an undeclared function or one called too deep fails at the call; otherwise the body runs in a frame that holds exactly what the arguments stand for, and the call fails as the body does |
| `WorkflowOutcomes.ScopeMeans` | `packages/workflow/src/engine.ts:157-164` | the body runs in an empty frame of its own and the scope ends as it does |
| `WorkflowOutcomes.HandlerMeans` | `packages/workflow/src/engine.ts:249-290` | a handler runs iff the body fails, in a frame with the body's error text and step id, and the try ends as it does |
| `WorkflowOutcomes.CleanupMeans` | `packages/workflow/src/engine.ts:292-311` | a cleanup always runs, on what body and handler left, and only its failure changes how the try ends |
| `WorkflowOutcomes.BranchOnNot` | `packages/workflow/src/engine.ts:366-388` | a branch on `$not` is the branch on the negated condition with its arms swapped |
| `WorkflowOutcomes.BranchOnVar` | `packages/workflow/src/engine.ts:366-388` | a branch on `$var` is decided by the value in the innermost frame that owns the name |
| `WorkflowOutcomes.BranchOnExists` | `packages/workflow/src/engine.ts:366-388` | a branch on `$exists` is decided by whether anything but undefined is seen under the name |
| `WorkflowOutcomes.BranchOnEquals` | `packages/workflow/src/engine.ts:366-388` | a branch on `$equals` is decided by what its operands stand for |
| `WorkflowOutcomes.BranchOnValue` | `packages/workflow/src/engine.ts:366-388` | any other condition is decided by itself |
| `WorkflowOutcomes.NothingFails` | `packages/workflow/src/engine.ts:114-179` | only tools and calls make a run fail: with no rejection, abortOnToolError off and every call finding its function within the depth limit, no step fails |
| `WorkflowTheorems.EvalLawful` | `packages/workflow/src/engine.ts:114-179` | telemetry of any step is well nested with one start per counted step, logs only grow, the return register holds the last return of this very activation, and a step ends as returned only if a return ran in its activation |
| `WorkflowTheorems.CallBoundary` | `packages/workflow/src/engine.ts:219-242` | a call never returns from its caller nor disturbs the caller's register; failed it changes no frame; successful it binds exactly the last return of its own activation, or undefined, and nothing else |
| `WorkflowTheorems.ScopeLeavesNoTrace` | `packages/workflow/src/engine.ts:157-164` | whatever runs inside a scope, and however it ends, all frames are as before |
| `WorkflowTheorems.StepCost` | `packages/workflow/src/engine.ts:114-119` | steps executed are at most size times growth, growth being 1 plus the largest function body per remaining call level |
| `WorkflowTheorems.CallCost` | `packages/workflow/src/engine.ts:197-243` | one call, mutual recursion included, stays within the growth of its call level |
| `WorkflowTheorems.StepBound` | `packages/workflow/src/engine.ts:114-119` | stepsExecuted is at most Size(entry) times Growth(largest function, remaining call depth) |
| `WorkflowCompletions.SettleAgreesIff` | `packages/workflow/src/engine.ts:292-311` | at one cleanup the engine agrees with ECMA-262 section 14.15 iff the cleanup returns only over a pending return and does not fail over a pending return whose value is new to the register |
| `WorkflowAgreement.EngineAgrees` | `packages/workflow/src/engine.ts:114-179` | in every run whose executed cleanups fit what is pending before them, engine and register-free completions agree on outcome, value, frames, tool calls, telemetry and step count; for every parallel-free step |
| `WorkflowAgreement.EngineAgreesCall` | `packages/workflow/src/engine.ts:197-243` | the same at calls, with the function's own completion delivered as the value |
| `WorkflowAgreement.EngineAgreesTry` | `packages/workflow/src/engine.ts:245-312` | the same at try steps, returns inside body and handler included |
| `WorkflowExactness.ThroughoutIff` | `packages/workflow/src/engine.ts:292-311` | the exact condition: the step and every part of it that a run executes agree with their completions iff every executed cleanup returns only over a pending return and does not fail over a new one |
| `WorkflowCleanupSafety.CleanupSafeAgrees` | `packages/workflow/src/engine.ts:292-311` | told from the trees: if no cleanup holds a return, and a cleanup cannot fail where body or handler return, engine and completions agree in every run, for every tool and call depth |
| `WorkflowCleanupSafety.NeverThrows` | `packages/workflow/src/engine.ts:245-312` | a step whose tool and function calls all lie under handlers that cannot fail never fails itself |
| `WorkflowCleanupSafety.ReturnSafeAgrees` | `packages/workflow/src/engine.ts:292-311` | in particular where no return lies inside a try that has a cleanup |
| `WorkflowCompletions.NoReturnNoCompletion` | `packages/workflow/src/schema.ts:66-79` | a step without a return step in its tree never completes as a return |
| `WorkflowCompletions.NoReturnKeepsRegister` | `packages/workflow/src/schema.ts:66-79` | nor does the engine end it as returned, and its return register is as before |
| `WorkflowDivergence.ReturnInCleanupIsNotControlFlow` | `packages/workflow/src/engine.ts:292-311` | counterexample to the comment at line 292: a return in a cleanup is control flow for ECMA-262 but not here, and its value stays in the register |
| `WorkflowDivergence.AbandonedReturnIsStillBound` | `packages/workflow/src/engine.ts:292-311` | a return abandoned by a failing cleanup leaves its value in the register after a normal end |
| `WorkflowDivergence.CallBindsAbandonedReturn` | `packages/workflow/src/schema.ts:50-57` | counterexample to the implicit undefined result: a call of a function that ends normally binds the value of its abandoned return, where the completions bind undefined |
| `WorkflowParallel.Launch` | `packages/workflow/src/engine.ts:135-137` | starting the children writes only the top frame, appends invocations, and leaves exactly the tool calls waiting |
| `WorkflowParallel.LandsLikeItsCall` | `packages/workflow/src/engine.ts:181-195` | a tool's answer does to frame, failed flag and error what the tool call does when it runs alone |
| `WorkflowParallel.FailsLikeItsCall` | `packages/workflow/src/engine.ts:188-194` | a tool fails the step iff a call of it alone would |
| `WorkflowParallel.SetsLikeItself` | `packages/workflow/src/engine.ts:126-128` | setting a variable in a parallel step does what it does alone |
| `WorkflowParallel.LaunchedInListOrder` | `packages/workflow/src/engine.ts:135-137` | tools are invoked in list order, each seeing the variables set before it and no answer |
| `WorkflowParallel.FinalBinding` | `packages/workflow/src/engine.ts:181-187` | after all answers, in any order, a name is bound to the value of the last answer saved under it, and as before if there is none; conflicting answers included |
| `WorkflowParallel.FinalFailure` | `packages/workflow/src/engine.ts:181-195` | failed is true in the end iff it was before or some tool failed under abortOnToolError, for any order |
| `WorkflowParallel.LastErrorWins` | `packages/workflow/src/engine.ts:189-193` | error text and step id kept are those of the failing tool that answers last |
| `WorkflowParallel.OrderIrrelevantIff` | `packages/workflow/src/engine.ts:181-195` | the final variables are the same for all answer orders iff no two answers are saved under one name with different values |
| `WorkflowParallel.ReportIrrelevantIff` | `packages/workflow/src/engine.ts:189-193` | the error text and step id kept are the same for all answer orders iff all failing tools have the same to report |
| `WorkflowParallel.ParallelIsDeterministic` | `packages/workflow/src/engine.ts:135-137` | with distinct save names, variables and failed flag are the same for every completion order |
| `PlanLevels.ComputeLevels` | `packages/agent-worker/src/reasoning/plan-execute-executor.ts:773-794` | the layering loop computes the recursive layering, for every plan |
| `PlanLevels.ReadySteps` | `packages/agent-worker/src/reasoning/plan-execute-executor.ts:778-781` | one pass over the remaining steps selects those whose dependencies are all placed, in order |
| `PlanLevels.LevelsPermute` | `packages/agent-worker/src/reasoning/plan-execute-executor.ts:773-794` | the levels are a permutation of the steps, whatever the plan |
| `PlanLevels.FlushIff` | `packages/agent-worker/src/reasoning/plan-execute-executor.ts:782-786` | with unique ids the flush branch is taken iff the plan is not closed and acyclic |
| `PlanLevels.LevelIsLongestPath` | `packages/agent-worker/src/reasoning/plan-execute-executor.ts:766-794` | in a closed acyclic plan each step's level is exactly the length of its longest dependency path |
| `PlanLevels.LayoutOrders` | `packages/agent-worker/src/reasoning/plan-execute-executor.ts:766-794` | every dependency of a step is in an earlier level |
| `PlanLevels.StuckHasCycle` | `packages/agent-worker/src/reasoning/plan-execute-executor.ts:782-786` | steps that keep waiting for each other contain a dependency cycle |
| `PlanExecution.ActivePlan.ExecuteStep` | `packages/agent-worker/src/reasoning/plan-execute-executor.ts:395-430` | one attempt: it counts as done iff there is no tool, or everything is wired, the guard allows it and the sandbox succeeds; the observation says which, with the guard's reason or the result; the attempt is recorded |
| `PlanExecution.ActivePlan.RunStepWithRetries` | `packages/agent-worker/src/reasoning/plan-execute-executor.ts:368-393` | at most stepRetryLimit failures and then one success that ends it, or exactly stepRetryLimit + 1 failures; no other step is touched |
| `PlanExecution.ActivePlan.RunLevelSequential` | `packages/agent-worker/src/reasoning/plan-execute-executor.ts:330-340` | the steps are tried one after the other in level order; at the first failure those before it have succeeded and those behind it are untouched |
| `PlanExecution.ActivePlan.RunLevelParallel` | `packages/agent-worker/src/reasoning/plan-execute-executor.ts:348-366` | for every interleaving of the concurrent steps each is settled within its retries, and the first failed one by position is reported iff there is one |
| `PlanExecution.ActivePlan.FirstFailed` | `packages/agent-worker/src/reasoning/plan-execute-executor.ts:365` | the failed step returned is the first by position |
| `PlanExecution.ActivePlan.Prefilter` | `packages/agent-worker/src/reasoning/plan-execute-executor.ts:294-317` | an open step is skipped iff it depends on something missing, failed or skipped, or on an earlier step of the level that is itself skipped; settled and foreign steps are left alone; exactly the rest is runnable, in level order |
| `PlanFilter.SomethingSkippedIff` | `packages/agent-worker/src/reasoning/plan-execute-executor.ts:303-306` | a pass skips something iff a dependency of some open step was hopeless before it |
| `PlanExecution.ActivePlan.RunLevel` | `packages/agent-worker/src/reasoning/plan-execute-executor.ts:290-342` | one pass of the level loop keeps every step in one of its legal positions, and on well-formed plans runs nothing whose dependencies have not succeeded |
| `PlanExecution.ActivePlan.ExecutePlan` | `packages/agent-worker/src/reasoning/plan-execute-executor.ts:278-346` | each step is left alone, skipped or settled within its retries; partial is unreachable; it aborts iff the signal is up at a poll, and polls no further; success means no step failed, and on closed plans that all succeeded; after success exactly the steps of the flushed level that were doomed at the start are skipped, and otherwise those or none; a replan names a step that failed exactly stepRetryLimit + 1 attempts; on closed acyclic plans no step runs before its dependencies succeeded |
| `PlanCascade.FlushedLevel` | `packages/agent-worker/src/reasoning/plan-execute-executor.ts:766-786` | what happens to missing or cyclic dependencies is settled when the round starts: the filter skips exactly the steps of the flushed level doomed then (open, and depending on a missing id or on an earlier doomed step of the level), none in a closed plan; if all its steps start pending these are told by the plan alone, and no step of the level has its dependencies met |
| `PlanCascade.LevelSkips` | `packages/agent-worker/src/reasoning/plan-execute-executor.ts:294-317` | a level that is not flushed skips nothing; the flushed one skips exactly what was doomed at the start of the round |
| `PlanCascade.CascadeIff` | `packages/agent-worker/src/reasoning/plan-execute-executor.ts:766-771` | after a settled round the whole flushed level is skipped, as documented, iff each of its steps started pending and depends on a missing id or on an earlier step of the level |
| `PlanCascade.InheritedSuccessRuns` | `packages/agent-worker/src/reasoning/plan-execute-executor.ts:298-306` | with an inherited success that condition on the plan alone is not enough: x depends on a missing id but succeeded earlier, y depends on x and runs |
| `PlanCascade.CycleRunsUnmet` | `packages/agent-worker/src/reasoning/plan-execute-executor.ts:303-306` | counterexample to the comment at 770-771: two steps that depend on each other are flushed together and both run unmet |
| `PlanCascade.DanglingRunsUnmet` | `packages/agent-worker/src/reasoning/plan-execute-executor.ts:303-306` | counterexample without a cycle: a step listed before one that depends on a missing id runs although its dependency never succeeds; only the other is skipped |
| `PlanCascade.ClosedSkipsNone` | `packages/agent-worker/src/reasoning/plan-execute-executor.ts:303-306` | a round of a closed plan skips nothing |
| `PlanPreserve.PassExact` | `packages/agent-worker/src/reasoning/plan-execute-executor.ts:885-896` | first pass: the first new step with the id of a prior success inherits its success and observation |
| `PlanPreserve.PreservePriorSuccesses` | `packages/agent-worker/src/reasoning/plan-execute-executor.ts:871-917` | the exact bindings are exactly the first new steps named like a prior success, the semantic ones those the matcher answers for; each prior success is bound at most once, unbound steps are untouched, and the report is the exact ones, then the semantic ones |
| `PlanReport.ReportInPlanOrderIff` | `packages/agent-worker/src/reasoning/plan-execute-executor.ts:857-858` | every honest matcher's report is in plan order, as documented, iff no new step that is not matched by its id precedes one that is, or the new plan names every prior success |
| `PlanReport.NoMatcherInPlanOrder` | `packages/agent-worker/src/reasoning/plan-execute-executor.ts:857-858` | without a matcher the report is always in plan order |
| `PlanReport.ReportOutOfOrder` | `packages/agent-worker/src/reasoning/plan-execute-executor.ts:857-858` | counterexample: new steps c, a after successes a, b, with c matched to b, are reported as a, c |
| `PlanRun.RoundAttempts` | `packages/agent-worker/src/reasoning/plan-execute-executor.ts:278-393` | one round makes at most (stepRetryLimit + 1) attempts per step |
| `PlanRun.SuccessIsLast` | `packages/agent-worker/src/reasoning/plan-execute-executor.ts:368-393` | within a round a step's success is its last attempt |
| `PlanRun.RoundKeepsMemory` | `packages/agent-worker/src/reasoning/plan-execute-executor.ts:298-302` | a round repeats no step that has succeeded, in it or before it, and remembers every success |
| `PlanRun.PlanKeepsMemory` | `packages/agent-worker/src/reasoning/plan-execute-executor.ts:231-241` | a new plan remembers the success of every id it keeps |
| `PlanRun.Adopt` | `packages/agent-worker/src/reasoning/plan-execute-executor.ts:237-241` | in a new plan with unique ids every step named like a prior success starts as success, the others pending or success |
| `PlanRun.Round` | `packages/agent-worker/src/reasoning/plan-execute-executor.ts:163` | a round stays within the attempt allowance and, if it settles, leaves a plan that may be answered |
| `PlanRun.Pass` | `packages/agent-worker/src/reasoning/plan-execute-executor.ts:156-174` | one round: it aborts iff the signal is up at its last poll, answers iff no step is left failed, and otherwise asks to replan; never a hard error |
| `PlanRun.Turn` | `packages/agent-worker/src/reasoning/plan-execute-executor.ts:156-256` | after a failed round the planner is called again iff the limit allows, and a plan it gives starts with the successes of the last |
| `PlanRun.Loop` | `packages/agent-worker/src/reasoning/plan-execute-executor.ts:155-256` | the turns follow each other until an abort, an answer, or no next plan |
| `PlanRun.FirstPlan` | `packages/agent-worker/src/reasoning/plan-execute-executor.ts:143-153` | the optional goal-update replan costs one planner call and one replan iff it yields a plan, which is then executed first |
| `PlanRun.Execute` | `packages/agent-worker/src/reasoning/plan-execute-executor.ts:155-265` | the replan loop ends within replanLimit + 1 rounds with all the guarantees of a run |
| `PlanRun.Run` | `packages/agent-worker/src/reasoning/plan-execute-executor.ts:100-274` | a whole run: it ends with user abort iff the signal is up at its last poll, with an answer iff the last round left no step failed, and with the fallback iff a step is left failed and the replan limit is used up or the planner gave no plan (or gave none at first); exactly one final event and it is last; at most replanLimit + 1 rounds, replanLimit + 2 planner calls and (stepRetryLimit + 1) attempts per planned step; an own answer only without failed steps; an id is not attempted again after its success, in the same round or later, unless a plan in between dropped it; in every round with a well-formed plan no step starts before its dependencies have succeeded |
| `BusInvariant.StepKeeps` | `packages/message-bus/src/in-process-bus.ts:34-161` | every atomic step (publish, subscribe, resume, ack, timeout, unsubscribe, close) keeps the bus invariant |
| `BusTheorems.Run` | `packages/message-bus/src/in-process-bus.ts:28-161` | the invariant holds in every reachable state, for any interleaving |
| `BusTheorems.ExactlyOnce` | `packages/message-bus/src/in-process-bus.ts:59-75` | per group every log position below the offset is dispatched once by one subscription or in flight with one, not both; positions from the offset on are with nobody |
| `BusTheorems.NoLostWakeUp` | `packages/message-bus/src/in-process-bus.ts:144-161` | a subscription that asks for entries never sleeps while its group has undelivered ones |
| `BusTheorems.CountZeroStarves` | `packages/message-bus/src/in-process-bus.ts:132-142` | a subscription with count 0 is never handed an entry |
| `BusTheorems.OrderAndPending` | `packages/message-bus/src/in-process-bus.ts:66-95` | each consumer sees log order; an entry is pending for a group iff dispatched there and not acknowledged since |
| `BusProgress.StepTakes` | `packages/message-bus/src/in-process-bus.ts:59-75` | no step but a publish leaves a subscription's group more to deliver, and its own resume leaves less |
| `BusProgress.DeliveryCompletes` | `packages/message-bus/src/in-process-bus.ts:59-75` | on an open bus, with nothing published meanwhile and whatever else happens, a subscription resumed as often as entries are left brings its group's offset to the end of the log and has handed over all it held |
| `BusEndings.UnsubscribedServesNoMore` | `packages/message-bus/src/in-process-bus.ts:59-86` | after unsubscribing, whatever follows, a handler sees at most the entries it was holding, in order, and nothing more is claimed for it |
| `BusEndings.ClosedServesNoMore` | `packages/message-bus/src/in-process-bus.ts:97-104` | after closing the same holds of every subscription, and no entry and no subscription is added |
| `BusEndings.EndingResumes` | `packages/message-bus/src/in-process-bus.ts:60-75` | a subscription told to end gets the next entry of its batch when resumed, and without one it stops |
| `BusEndings.EndingStops` | `packages/message-bus/src/in-process-bus.ts:60-75` | awake, it has stopped after as many resumes as entries it holds and one more, whatever else happens |
| `BusEndings.CloseWakes` | `packages/message-bus/src/in-process-bus.ts:97-104` | closing makes every sleeper runnable |
| `BusInvariant.DispatchKeeps` | `packages/message-bus/src/in-process-bus.ts:66-74` | handing an entry to a handler keeps the invariant |
| `BusInvariant.ClaimKeeps` | `packages/message-bus/src/in-process-bus.ts:132-142` | claiming a batch keeps the invariant: no position is claimed twice |
| `BusInvariant.AckKeeps` | `packages/message-bus/src/in-process-bus.ts:88-95` | acknowledging keeps the invariant |
| `InProcessBus.InProcessBus.Publish` | `packages/message-bus/src/in-process-bus.ts:34-47` | refused when closed; otherwise a fresh id, one more entry, all sleepers of the subject woken, other subjects untouched |
| `InProcessBus.InProcessBus.Subscribe` | `packages/message-bus/src/in-process-bus.ts:49-78` | refused when closed; otherwise exactly the machine's step, up to the loop's first await |
| `InProcessBus.InProcessBus.Poll` | `packages/message-bus/src/in-process-bus.ts:60-68` | the head of the loop: stop, claim and dispatch, or park |
| `InProcessBus.InProcessBus.Resume` | `packages/message-bus/src/in-process-bus.ts:60-75` | from one await to the next, exactly the machine's step |
| `InProcessBus.InProcessBus.Acknowledge` | `packages/message-bus/src/in-process-bus.ts:88-95` | drops the group's pending mark, and the entry with its last one |
| `InProcessBus.InProcessBus.Unsubscribe` | `packages/message-bus/src/in-process-bus.ts:80-86` | marks the subscription, and nothing else |
| `InProcessBus.InProcessBus.FireTimer` | `packages/message-bus/src/in-process-bus.ts:144-161` | wakes the one sleeper whose timer it is |
| `InProcessBus.InProcessBus.CloseBus` | `packages/message-bus/src/in-process-bus.ts:97-104` | closes and wakes every sleeper of every subject |
| `TokenBatches.SplitByTokenBudget` | `packages/memory/src/llm-compactor.ts:105-121` | the batches concatenate to the input, none is empty, each is a singleton or fits; with non-negative costs no other such partition has fewer batches |
| `TokenBatches.GreedyIsOptimal` | `packages/memory/src/llm-compactor.ts:105-121` | a greedy partition is never longer than any acceptable one |
| `TokenBatches.StaysAhead` | `packages/memory/src/llm-compactor.ts:105-121` | after equally many batches the greedy partition covers at least as much as any other |
| `RateLimiter.RateLimiter.Take` | `packages/control-plane/src/gateway/rate-limiter.ts:31-51` | succeeds iff at least one token is available; refills, and takes one token on success only; other keys are untouched |
| `RateLimiter.RateLimiter.Remaining` | `packages/control-plane/src/gateway/rate-limiter.ts:56-62` | the very token count that decides a take at that instant, without consuming |
| `RateLimiter.RateLimiter.Reset` | `packages/control-plane/src/gateway/rate-limiter.ts:64-67` | forgets one key or all of them |
| `RateLimiter.WindowBound` | `packages/control-plane/src/gateway/rate-limiter.ts:31-51` | in any run with a non-decreasing clock the takes allowed in a window are at most capacity plus what is refilled in it |
| `RateLimiter.Balance` | `packages/control-plane/src/gateway/rate-limiter.ts:31-51` | allowed takes plus tokens left never exceed capacity plus refill |
| `RateLimiter.ThrottledIsNoOp` | `packages/control-plane/src/gateway/rate-limiter.ts:43-50` | a throttled take changes no later take |
| `RateLimiter.Drive` | `packages/control-plane/src/gateway/rate-limiter.ts:31-51` | in a run over any keys in any order each answer and each bucket is as if its key were alone |
| `RateLimiter.RunBound` | `packages/control-plane/src/gateway/rate-limiter.ts:31-51` | in any stretch of a run of a fresh limiter a key is granted at most capacity plus what is refilled in it, whatever the other keys do |
| `RateLimiter.WindowBoundInRate` | `packages/control-plane/src/gateway/rate-limiter.ts:31-51` | the window bound in terms of refillPerSecond times milliseconds over 1000 |
| `RateLimiter.PatienceIsGranted` | `packages/control-plane/src/gateway/rate-limiter.ts:31-51` | a key left alone for as long as one token takes to refill is granted its next take |
| `RateLimiter.BurstIsGranted` | `packages/control-plane/src/gateway/rate-limiter.ts:33-47` | a new key is granted as many takes as the capacity holds, however fast they come |
| `Json5Scan.StripComments` | `packages/scheduler/src/json-task-store.ts:195-233` | the index loop leaves exactly the string literals and plain characters, verbatim and in order |
| `Json5Scan.CopyLiteral` | `packages/scheduler/src/json-task-store.ts:202-218` | a literal is copied up to its closing quote, backslashes shielding the next character |
| `Json5Scan.SkipBlock` | `packages/scheduler/src/json-task-store.ts:226-230` | a block comment is skipped up to its end, or to the end of the text |
| `Json5Scan.TokensCover` | `packages/scheduler/src/json-task-store.ts:195-233` | the tokens are a partition of the text |
| `Json5Scan.OutputTokens` | `packages/scheduler/src/json-task-store.ts:190-233` | scanning the output finds exactly the kept tokens: literals verbatim, no comment start outside them |
| `Json5Scan.StripIsIdempotent` | `packages/scheduler/src/json-task-store.ts:195-233` | stripping twice is stripping once, and the output has no comment |
| `Json5Scan.InsertComment` | `packages/scheduler/src/json-task-store.ts:225-231` | inserting a block comment at a token boundary not preceded by a slash changes nothing |
| `Json5Scan.InsertAfterLineComment` | `packages/scheduler/src/json-task-store.ts:220-224` | nor does it after a line comment, if it has no line break |
| `Json5Scan.AfterSlashItShows` | `packages/scheduler/src/json-task-store.ts:220-231` | right after a slash the insertion always changes the result |
| `Json5Scan.AfterLineCommentIff` | `packages/scheduler/src/json-task-store.ts:220-224` | after a line comment an inserted block comment changes nothing, whatever follows from the end of the line on, iff it has no line break |
| `Json5Scan.LiteralComesThrough` | `packages/scheduler/src/json-task-store.ts:202-218` | any text, shielded and put in either kind of quotes at an open position, comes through verbatim, comment signs included |
| `ReactStream.HandleChunk` | `packages/agent-worker/src/reasoning/react-executor.ts:454-485` | the pending calls are those started so far, in first-start order, with the latest name and the argument fragments since then; stray fragments are dropped |
| `ReactStream.CallsDistinct` | `packages/agent-worker/src/reasoning/react-executor.ts:130` | no two calls of one answer share an id, whatever the adapter streams |
| `ReactStream.ReadAnswer` | `packages/agent-worker/src/reasoning/react-executor.ts:115-128` | unless the signal stops the reading, text, stop reason, calls and shown events are exactly those of the stream; it stops at the first chunk before which the signal is up |
| `ReactStream.ReadSummary` | `packages/agent-worker/src/reasoning/react-executor.ts:310-331` | the summary is the text of the stream; text and usage are shown in order |
| `ReactWire.StreamRoundTrip` | `packages/agent-worker/src/reasoning/react-executor.ts:454-485` | whatever text and calls a model streams, however the arguments are cut up, exactly these are collected |
| `ReactExecutor.ExecuteTool` | `packages/agent-worker/src/reasoning/react-executor.ts:334-412` | wiring, arguments, guard and policy are checked in this order before the sandbox is asked |
| `ReactExecutor.ExecuteCall` | `packages/agent-worker/src/reasoning/react-executor.ts:156-203` | a call is told how often the same call has failed before, and its own failure is counted |
| `ReactExecutor.ExecuteCalls` | `packages/agent-worker/src/reasoning/react-executor.ts:144-204` | calls are carried out in order until the tool budget is used up; trace entries alternate call and observation; the budget is hit iff a call is left over |
| `ReactExecutor.RetriesAreBounded` | `packages/agent-worker/src/reasoning/react-executor.ts:165-194` | the same call is reported as retryable at most toolRetryLimit times in a run, and never as exhausted before it failed that often |
| `ReactExecutor.RoundMessages` | `packages/agent-worker/src/reasoning/react-executor.ts:206-224` | one assistant message with all executed calls, then one result per call, in order; nothing if none was executed |
| `ReactRun.Act` | `packages/agent-worker/src/reasoning/react-executor.ts:130-226` | one round records its thought, calls, observations and messages; the loop ends iff the tool budget cut it short |
| `ReactRun.Turn` | `packages/agent-worker/src/reasoning/react-executor.ts:94-227` | one pass of the loop yields one more round or stops for a reason that fits |
| `ReactRun.Loop` | `packages/agent-worker/src/reasoning/react-executor.ts:94-227` | the loop is left with a reason set, or with the step budget used up |
| `ReactRun.Conclude` | `packages/agent-worker/src/reasoning/react-executor.ts:233-249` | an answer is made up from the trace iff a budget ran out after at least one tool call |
| `ReactRun.Run` | `packages/agent-worker/src/reasoning/react-executor.ts:54-252` | a run is told by its rounds: messages, trace, yielded steps, budgets and reason; the `hard_error` default at line 230 is unreachable |
| `ReactTheorems.RunKeepsBlocks` | `packages/agent-worker/src/reasoning/react-executor.ts:145-149` | what a run appends after the user turn is whole blocks: an assistant message with at least one call, then exactly its results in order |
| `ReactTheorems.RunIsPaired` | `packages/agent-worker/src/reasoning/react-executor.ts:156-204` | every tool call in the trace is followed at once by its observation, and the model was told exactly the observations recorded, in order |
| `ReactTheorems.RunSpends` | `packages/agent-worker/src/reasoning/react-executor.ts:94-156` | one tool call is spent per observation and at least one per completed round; neither maximum is exceeded by what the run spends |
| `ReactCalls.ObservationsAreEarned` | `packages/agent-worker/src/reasoning/react-executor.ts:334-412` | in every run the sandbox is asked iff everything is wired, the arguments parse, the guard allows the call and there is a policy; a call succeeds iff the sandbox was asked and says so; it is denied iff the guard denies it, for the guard's reason; failures are reported with their number |
| `ReactCalls.SandboxSeesOnlyAllowed` | `packages/agent-worker/src/reasoning/react-executor.ts:360-400` | the sandbox sees exactly the calls that may run, in order |
| `ReactCalls.ModelIsToldWhatHappened` | `packages/agent-worker/src/reasoning/react-executor.ts:206-224` | the model is told exactly these observations, call by call |
| `ReactCalls.LastAnswer` | `packages/agent-worker/src/reasoning/react-executor.ts:233-252` | the text is the model's own last answer, or one made up from the trace iff a budget ran out after a tool call; user abort iff the signal was up at the last poll |
| `ReactCalls.SameCallIff` | `packages/agent-worker/src/reasoning/react-executor.ts:165` | two calls of one tool count as the same iff their arguments are written alike |
| `GatewayProtocol.EveryState` | `packages/channels/discord/src/gateway-client.ts:124-347` | in every state of every run live sockets plus armed timers are at most one, session and sequence memory are faithful, and the shut-down flags tell the history |
| `GatewayProtocol.ResumeIsFaithful` | `packages/channels/discord/src/gateway-client.ts:268-275` | RESUME goes out only with the session of the latest READY not invalidated since and the last sequence number seen since invalidation |
| `GatewayProtocol.NothingOpensAfterShutDown` | `packages/channels/discord/src/gateway-client.ts:147-148` | nothing opens after a user close or a fatal code |
| `GatewayProtocol.BackoffMonotone` | `packages/channels/discord/src/gateway-client.ts:218-221` | the delay grows with the attempts and is at most 32 s and at most the configured maximum |
| `GatewayProtocol.DelaysGrow` | `packages/channels/discord/src/gateway-client.ts:205-221` | between resets the scheduled delays do not fall and stay within both bounds |
| `GatewayResume.MemoryIsExact` | `packages/channels/discord/src/gateway-client.ts:180-335` | in every state of every run, while neither closed nor refused, the client holds exactly the session, number, resume URL, kind of connection and attempt count that the history of events says |
| `GatewayResume.HeldSessionIff` | `packages/channels/discord/src/gateway-client.ts:320-328` | the session of that history is the one of the latest READY not dropped since |
| `GatewayResume.LostIsRescheduled` | `packages/channels/discord/src/gateway-client.ts:192-215` | every lost connection is reconnected, after the backoff of the reconnects since the last reset |
| `GatewayResume.TimerOpens` | `packages/channels/discord/src/gateway-client.ts:147-157` | a timer opens a resuming connection iff the close before it had a resumable code while a session was held; it then uses that session's resume URL, if there is one |
| `GatewayResume.HelloIsAnswered` | `packages/channels/discord/src/gateway-client.ts:268-275` | on an open socket HELLO is answered with RESUME iff the latest connection was opened to resume and session and number are still held, otherwise with IDENTIFY |
| `GatewayResume.HeartbeatIsAnswered` | `packages/channels/discord/src/gateway-client.ts:242-244` | a heartbeat request is answered with the last number held |
| `GatewayResume.EndsConnection` | `packages/channels/discord/src/gateway-client.ts:243-263` | a request to reconnect, an invalidated session and the user's close end the connection |
| `GatewayResume.LostConnectionIsResumed` | `packages/channels/discord/src/gateway-client.ts:180-275` | a connection lost with session and number is resumed with both: timer, resume URL, RESUME after HELLO |
| `GatewayResume.BackoffDoubles` | `packages/channels/discord/src/gateway-client.ts:218-221` | one second, doubled up to five times, under the maximum |
| `GatewayClient.DiscordGatewayClient.OpenSocket` | `packages/channels/discord/src/gateway-client.ts:147-157` | opens nothing when closed or fatal; a resuming connection uses the resume URL if there is one |
| `GatewayClient.DiscordGatewayClient.HandleClose` | `packages/channels/discord/src/gateway-client.ts:180-216` | the close handler is the machine's step: fatal codes end the client, others schedule a resume or a fresh start |
| `GatewayClient.DiscordGatewayClient.NextBackoffDelayMs` | `packages/channels/discord/src/gateway-client.ts:218-221` | the delay is the backoff of the current attempt count |
| `GatewayClient.DiscordGatewayClient.HandleHello` | `packages/channels/discord/src/gateway-client.ts:268-275` | answers HELLO with RESUME if a resume is pending and possible, else with IDENTIFY |
| `GatewayClient.DiscordGatewayClient.HandleReady` | `packages/channels/discord/src/gateway-client.ts:320-335` | READY sets session and resume URL and resets the attempts |
| `GatewayClient.DiscordGatewayClient.HandleInvalidSession` | `packages/channels/discord/src/gateway-client.ts:252-264` | a non-resumable invalidation forgets session, URL and sequence; the socket is closed either way |
| `GatewayClient.DiscordGatewayClient.HandleMessage` | `packages/channels/discord/src/gateway-client.ts:225-266` | the frame handler is the machine's step |
| `GatewayClient.DiscordGatewayClient.Close` | `packages/channels/discord/src/gateway-client.ts:124-135` | closing disarms the timer and closes a live socket |
| `GatewayClient.DiscordGatewayClient.FireTimer` | `packages/channels/discord/src/gateway-client.ts:209-215` | the timer is forgotten before the socket is opened |
| `GatewayClient.Drive` | `packages/channels/discord/src/gateway-client.ts:96-374` | a client fed any legal run of events ends in the machine's state and has done exactly what the machine says |
| `PersonaEvolution.PersonaRecord.RecentSignals` | `packages/ego/src/persona-evolution.ts:89-103` | the search from the end of the log finds the field's latest deltas and their sum |
| `PersonaTheorems.RecentAreTheLatest` | `packages/ego/src/persona-evolution.ts:89-103` | those are the last deltas of the field, newest first, as many as the window holds and no others |
| `PersonaEvolution.PersonaRecord.ApplyDelta` | `packages/ego/src/persona-evolution.ts:263-333` | a change is held back, saturated or committed as specified |
| `PersonaEvolution.PersonaRecord.Commit` | `packages/ego/src/persona-evolution.ts:304-332` | counter and log move iff the clamped value differs, and the entry says from, to and difference |
| `PersonaEvolution.PersonaRecord.ExposeDomain` | `packages/ego/src/persona-evolution.ts:199-217` | a known domain is updated in place, an unknown one appended |
| `PersonaEvolution.PersonaRecord.ApplyStyleHint` | `packages/ego/src/persona-evolution.ts:224-248` | only a known field and a clear direction lead to a change |
| `PersonaEvolution.PersonaRecord.Evolve` | `packages/ego/src/persona-evolution.ts:150-222` | one feedback does to the whole record exactly what is specified |
| `PersonaEvolution.PersonaRecord.ApplyDecay` | `packages/ego/src/persona-evolution.ts:352-365` | exactly the old behaviours lose confidence, not below zero, and those that did are counted |
| `PersonaTheorems.NumbersStayInRange` | `packages/ego/src/persona-evolution.ts:77-81` | all thirteen numbers stay between 0 and 1 over any feedback sequence |
| `PersonaTheorems.MaturityGrows` | `packages/ego/src/persona-evolution.ts:154-162` | maturity never goes down and is never behind the interaction count |
| `PersonaTheorems.LogIsJournal` | `packages/ego/src/persona-evolution.ts:304-325` | for each field the added log entries lead step by step from the initial value to the current one; nothing is ever removed |
| `PersonaTheorems.DriftIsTheDifference` | `packages/ego/src/persona-evolution.ts:304-325` | the deltas logged for a field add up to how far it has moved |
| `PersonaTheorems.CounterCounts` | `packages/ego/src/persona-evolution.ts:309-333` | evolutionCount grows by exactly the number of changed outcomes, and log entries are among them |
| `PersonaTheorems.EveryChangeIsSmall` | `packages/ego/src/persona-evolution.ts:290-307` | every log entry was added by one feedback, and its change is at most maxDeltaPerEvent scaled by the maturity at that feedback |
| `PersonaTheorems.ReinforcementInertIff` | `packages/ego/src/persona-evolution.ts:290-302` | enlarging the cap makes no difference to a change feedback can ask for iff the cap is not negative |
| `PersonaTheorems.ReinforcementNeverMatters` | `packages/ego/src/persona-evolution.ts:290-297` | the reinforcement threshold has no influence on any feedback sequence |
| `PersonaTheorems.HeldBackChangesNothing` | `packages/ego/src/persona-evolution.ts:270-288` | a reversal that needs the user changes nothing but the interaction count and maturity |
| `PersonaTheorems.HeldBack` | `packages/ego/src/persona-evolution.ts:270-288` | after any feedback that commits no change to the field, the same request is held back again with the same recent deltas |
| `PersonaTheorems.HeldBackForGood` | `packages/ego/src/persona-evolution.ts:270-288` | so the field stays as it is until it is asked to change in another way, whatever other feedback arrives |
| `PersonaMeaning.InstructionSteers` | `packages/ego/src/persona-evolution.ts:224-248` | an instruction moves the field it names by the scaled cap in the direction it says, unless held back, and no other field; an up never lowers it, a down never raises it |
| `PersonaMeaning.PraiseSteers` | `packages/ego/src/persona-evolution.ts:250-261` | praise makes a persona more proactive, by half the cap |
| `PersonaMeaning.BlameSteers` | `packages/ego/src/persona-evolution.ts:168-171` | blame makes it less proactive, strong blame twice as much as other |
| `PersonaMeaning.NamesAreDistinct` | `packages/ego/src/persona-evolution.ts:39-75` | two names never mean the same field |
| `PersonaMeaning.HeldBackIff` | `packages/ego/src/persona-evolution.ts:270-288` | a request is held back iff at least two changes are in the window, one of them in another direction, and they amount with it to the threshold |
| `PersonaMeaning.LearnedInOrder` | `packages/ego/src/persona-evolution.ts:173-198` | behaviours are learned in order, one per correction and per implicit pattern, and none is lost |
| `PersonaMeaning.ExpertiseCounts` | `packages/ego/src/persona-evolution.ts:199-217` | each domain keeps one entry, which counts exactly how often the domain came up |
| `PersonaMeaning.DecayForgets` | `packages/ego/src/persona-evolution.ts:352-365` | ageing takes the rate off the confidence of what was learned before the cutoff, down to nothing at most |
| `PersonaMeaning.GrowsUp` | `packages/ego/src/persona-evolution.ts:109-115` | new for 29 interactions, developing up to the 99th, established from then on |

## Left out

- WorkflowEngine.ExecState.RunStep: requires a parallel-free tree; children of `parallel` that push frames or call share one stack, so the stack theorems do not apply to them. Leaf children are modelled in WorkflowParallel on values, without telemetry; there a tool's reply is fixed when the tool is invoked, so it cannot depend on calls started later.
- Bus.Step: handler results, the handler's own calls into the bus before its first await, negative counts, and unsubscribe's waiting for the loop are not modelled.
- PlanPreserve.PreservePriorSuccesses: assumes a matcher that answers with the id of a candidate or nothing; the source dereferences whatever comes back.
- PlanRun.Run: memory across plans is stated for planners whose plans have unique ids, as an id lookup is ambiguous otherwise; the fallback reasoner is one event that contains its own final event.
- PersonaTheorems.NumbersStayInRange: starts from numbers in range, as the persona schema demands.
- Workflow values: `__proto__` keys and names found on the prototype chain, infinities, negative zero, bigint conditions, an `onStep` callback that throws.
- Workflow validation: the order of the function entries (any malformed one may be reported first) and holes in arrays.
- Plan execution: progress events and their buffering in parallel levels, exceptions of guard or sandbox, plan parsing and prompts, negative retry limits. A step object is named by its position.
- Bus ids: the string of clock and counter is a pair; entries published under other subjects only move the counter.
- ReAct: exceptions of model, guard or sandbox, argument values, timestamps, trace logging and the acquire and release of sandboxes. An observation is a value, not its rendered text.
- Discord: heartbeat timing, the events for lifecycle listeners and message handlers, sharding, and a second call of connect.
- Persona: reason texts, timestamps of entries, the regular expressions that infer a direction (the direction is part of the feedback), field names inherited from the object prototype.
- Rate limiter: the clock is a parameter and tokens are reals.
- Token batches: the word count used for chunks without a token count is a field of the chunk.
- JSON5: the trailing-comma replacement at line 235, which also rewrites string contents, and the task loaders.
- LLM adapters, stores in SQLite, device authentication, channel signatures, the Redis bus, sandboxes, command line and user interfaces: input and output, or calls into code that is not part of this model.
- Single-flight flags, phase sequencing, circuit breaker and the regular-expression classifiers.
