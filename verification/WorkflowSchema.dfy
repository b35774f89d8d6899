/** The workflow DSL: dynamic values, step trees and workflows. */
module WorkflowSchema {
  import opened Prelude

  /** A dynamically typed value. Arrays and records carry an identity, because strict
      equality compares them by reference. Numbers are reals, or not-a-number. */
  datatype Value =
    | Undefined
    | Null
    | Bool(b: bool)
    | Num(n: real)
    | NaN
    | Str(s: string)
    | Arr(ref: nat, items: seq<Value>)
    | Obj(ref: nat, fields: map<string, Value>)

  /** Step nodes. An absent `value` of a return is `Undefined`. */
  datatype Step =
    | ToolCall(id: string, tool: string, args: map<string, Value>, saveAs: Option<string>)
    | SetVar(id: string, name: string, value: Value)
    | Sequence(id: string, steps: seq<Step>)
    | Parallel(id: string, steps: seq<Step>)
    | Branch(id: string, condition: Value, whenTrue: Step, whenFalse: Option<Step>)
    | Call(id: string, func: string, callArgs: Option<map<string, Value>>, saveAs: Option<string>)
    | Return(id: string, value: Value)
    | Try(id: string, body: Step, handler: Option<Step>, cleanup: Option<Step>)
    | Scope(id: string, body: Step)

  datatype Workflow = Workflow(entry: Step, functions: map<string, Step>)

  function Kind(step: Step): string {
    match step
    case ToolCall(_, _, _, _) => "tool_call"
    case SetVar(_, _, _) => "set_var"
    case Sequence(_, _) => "sequence"
    case Parallel(_, _) => "parallel"
    case Branch(_, _, _, _) => "branch"
    case Call(_, _, _, _) => "call"
    case Return(_, _) => "return"
    case Try(_, _, _, _) => "try"
    case Scope(_, _) => "scope"
  }

  /** Number of step nodes in a tree. */
  function Size(step: Step): nat {
    match step
    case Sequence(_, steps) => 1 + SizeAll(steps)
    case Parallel(_, steps) => 1 + SizeAll(steps)
    case Branch(_, _, whenTrue, whenFalse) =>
      1 + Size(whenTrue) + (if whenFalse.Some? then Size(whenFalse.value) else 0)
    case Try(_, body, handler, cleanup) =>
      1 + Size(body) + (if handler.Some? then Size(handler.value) else 0)
      + (if cleanup.Some? then Size(cleanup.value) else 0)
    case Scope(_, body) => 1 + Size(body)
    case _ => 1
  }

  function SizeAll(steps: seq<Step>): nat {
    if steps == [] then 0 else Size(steps[0]) + SizeAll(steps[1..])
  }

  /** No `parallel` step anywhere in the tree. */
  predicate ParallelFree(step: Step) {
    match step
    case Parallel(_, _) => false
    case Sequence(_, steps) => forall child <- steps :: ParallelFree(child)
    case Branch(_, _, whenTrue, whenFalse) =>
      ParallelFree(whenTrue) && (whenFalse.Some? ==> ParallelFree(whenFalse.value))
    case Try(_, body, handler, cleanup) =>
      && ParallelFree(body)
      && (handler.Some? ==> ParallelFree(handler.value))
      && (cleanup.Some? ==> ParallelFree(cleanup.value))
    case Scope(_, body) => ParallelFree(body)
    case _ => true
  }
}
