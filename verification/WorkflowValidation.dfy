/** The structural validator: a dynamic value becomes a step tree, or the first malformed node is named. */
module WorkflowValidation {
  import opened Prelude
  import opened WorkflowSchema

  datatype Problem =
    | NotAnObject
    | IdNotAString
    | KindNotAString
    | ToolRequired
    | ArgsNotAnObject
    | NameRequired
    | StepsNotAnArray
    | FunctionRequired
    | UnknownKind(kind: string)
    | VersionNotAString
    | FunctionsNotAnObject

  /** One step of the path printed in front of an error. */
  datatype Segment = Member(name: string) | Index(i: nat)

  datatype Validated<T> = Ok(value: T) | Err(path: seq<Segment>, problem: Problem)

  type Fields = map<string, Value>

  /** A member that is not there reads as undefined. */
  function Get(f: Fields, key: string): Value {
    if key in f then f[key] else Undefined
  }

  function StringAt(f: Fields, key: string): Option<string> {
    match Get(f, key) case Str(s) => Some(s) case _ => None
  }

  function Under<T>(segment: Segment, r: Validated<T>): Validated<T> {
    match r case Ok(_) => r case Err(path, problem) => Err([segment] + path, problem)
  }

  // ----- The recursion -----

  function ValidateStep(v: Value): Validated<Step>
    decreases v, 3
  {
    if !v.Obj? then Err([], NotAnObject)
    else if !Get(v.fields, "id").Str? then Err([], IdNotAString)
    else if !Get(v.fields, "kind").Str? then Err([], KindNotAString)
    else ValidateKind(v, v.fields["id"].s, v.fields["kind"].s)
  }

  function ValidateKind(v: Value, id: string, kind: string): Validated<Step>
    requires v.Obj?
    decreases v, 2
  {
    var f := v.fields;
    if kind == "tool_call" then
      if !Get(f, "tool").Str? then Err([], ToolRequired)
      else if !Get(f, "args").Obj? then Err([], ArgsNotAnObject)
      else Ok(ToolCall(id, f["tool"].s, f["args"].fields, StringAt(f, "saveAs")))
    else if kind == "set_var" then
      if !Get(f, "name").Str? then Err([], NameRequired)
      else Ok(SetVar(id, f["name"].s, Get(f, "value")))
    else if kind == "sequence" || kind == "parallel" then
      if !Get(f, "steps").Arr? then Err([], StepsNotAnArray)
      else match ValidateAll(f["steps"].items, 0)
        case Ok(steps) => Ok(if kind == "sequence" then Sequence(id, steps) else Parallel(id, steps))
        case Err(path, problem) => Err([Member("steps")] + path, problem)
    else if kind == "branch" then
      match ValidateMember(v, "whenTrue")
      case Err(path, problem) => Err(path, problem)
      case Ok(whenTrue) =>
        match ValidateOptional(v, "whenFalse")
        case Err(path, problem) => Err(path, problem)
        case Ok(whenFalse) => Ok(Branch(id, Get(f, "condition"), whenTrue, whenFalse))
    else if kind == "call" then
      if !Get(f, "function").Str? then Err([], FunctionRequired)
      else if !Get(f, "args").Undefined? && !Get(f, "args").Obj? then Err([], ArgsNotAnObject)
      else Ok(Call(id, f["function"].s, if Get(f, "args").Obj? then Some(f["args"].fields) else None,
                   StringAt(f, "saveAs")))
    else if kind == "return" then Ok(Return(id, Get(f, "value")))
    else if kind == "try" then
      match ValidateMember(v, "body")
      case Err(path, problem) => Err(path, problem)
      case Ok(body) =>
        match ValidateOptional(v, "catch")
        case Err(path, problem) => Err(path, problem)
        case Ok(handler) =>
          match ValidateOptional(v, "finally")
          case Err(path, problem) => Err(path, problem)
          case Ok(cleanup) => Ok(Try(id, body, handler, cleanup))
    else if kind == "scope" then
      match ValidateMember(v, "body")
      case Err(path, problem) => Err(path, problem)
      case Ok(body) => Ok(Scope(id, body))
    else Err([], UnknownKind(kind))
  }

  function ValidateMember(v: Value, key: string): Validated<Step>
    requires v.Obj?
    decreases v, 1
  {
    if key in v.fields then Under(Member(key), ValidateStep(v.fields[key])) else Err([Member(key)], NotAnObject)
  }

  function ValidateOptional(v: Value, key: string): Validated<Option<Step>>
    requires v.Obj?
    decreases v, 1
  {
    if Get(v.fields, key).Undefined? then Ok(None)
    else match ValidateStep(v.fields[key])
      case Ok(step) => Ok(Some(step))
      case Err(path, problem) => Err([Member(key)] + path, problem)
  }

  function ValidateAll(items: seq<Value>, i: nat): Validated<seq<Step>>
    requires i <= |items|
    decreases items, |items| - i
  {
    if i == |items| then Ok([])
    else match ValidateStep(items[i])
      case Err(path, problem) => Err([Index(i)] + path, problem)
      case Ok(step) =>
        match ValidateAll(items, i + 1)
        case Err(path, problem) => Err(path, problem)
        case Ok(rest) => Ok([step] + rest)
  }

  // ----- What is wrong with a value -----

  /** What is wrong with a node itself, its children left aside. */
  function OwnProblem(v: Value): Option<Problem> {
    if !v.Obj? then Some(NotAnObject)
    else if StringAt(v.fields, "id").None? then Some(IdNotAString)
    else
      var args := Get(v.fields, "args");
      match StringAt(v.fields, "kind")
      case None => Some(KindNotAString)
      case Some("tool_call") =>
        if StringAt(v.fields, "tool").None? then Some(ToolRequired)
        else if !args.Obj? then Some(ArgsNotAnObject) else None
      case Some("set_var") => if StringAt(v.fields, "name").None? then Some(NameRequired) else None
      case Some("call") =>
        if StringAt(v.fields, "function").None? then Some(FunctionRequired)
        else if args.Obj? || args.Undefined? then None else Some(ArgsNotAnObject)
      case Some("sequence") => if Get(v.fields, "steps").Arr? then None else Some(StepsNotAnArray)
      case Some("parallel") => if Get(v.fields, "steps").Arr? then None else Some(StepsNotAnArray)
      case Some("branch") => None
      case Some("return") => None
      case Some("try") => None
      case Some("scope") => None
      case Some(kind) => Some(UnknownKind(kind))
  }

  datatype ChildKey = ChildKey(key: string, required: bool)

  /** The members of a node that are nodes themselves, in the order they are looked at. */
  function ChildKeys(kind: string): seq<ChildKey> {
    if kind == "branch" then [ChildKey("whenTrue", true), ChildKey("whenFalse", false)]
    else if kind == "try" then [ChildKey("body", true), ChildKey("catch", false), ChildKey("finally", false)]
    else if kind == "scope" then [ChildKey("body", true)]
    else []
  }

  /** Everything that is wrong anywhere in a value, in depth-first order. */
  function Problems(v: Value): seq<Problem>
    decreases v, 3
  {
    if OwnProblem(v).Some? then [OwnProblem(v).value]
    else
      var kind := v.fields["kind"].s;
      if kind == "sequence" || kind == "parallel" then ItemProblems(v.fields["steps"].items, 0)
      else MemberProblems(v, ChildKeys(kind))
  }

  function MemberProblems(v: Value, keys: seq<ChildKey>): seq<Problem>
    requires v.Obj?
    decreases v, 2, |keys|
  {
    if keys == [] then [] else MemberProblem(v, keys[0]) + MemberProblems(v, keys[1..])
  }

  function MemberProblem(v: Value, k: ChildKey): seq<Problem>
    requires v.Obj?
    decreases v, 1
  {
    if Get(v.fields, k.key).Undefined? then (if k.required then [NotAnObject] else [])
    else Problems(v.fields[k.key])
  }

  function ItemProblems(items: seq<Value>, i: nat): seq<Problem>
    requires i <= |items|
    decreases items, |items| - i
  {
    if i == |items| then [] else Problems(items[i]) + ItemProblems(items, i + 1)
  }

  /** Where a path leads inside a value. */
  function Follow(v: Value, path: seq<Segment>): Option<Value>
    decreases |path|
  {
    if path == [] then Some(v)
    else match path[0]
      case Member(name) => if v.Obj? then Follow(Get(v.fields, name), path[1..]) else None
      case Index(i) => if v.Arr? && i < |v.items| then Follow(v.items[i], path[1..]) else None
  }

  /** A verdict on a value: accepted if there is nothing wrong with it, else its first problem. */
  ghost predicate Verdict<T>(r: Validated<T>, problems: seq<Problem>) {
    match r
    case Ok(_) => problems == []
    case Err(_, problem) => problems != [] && problems[0] == problem
  }

  /** The path of an error leads to a node that has that very problem. */
  ghost predicate Located<T>(v: Value, r: Validated<T>) {
    r.Err? ==> Follow(v, r.path).Some? && OwnProblem(Follow(v, r.path).value) == Some(r.problem)
  }

  lemma {:induction false} FollowMember(v: Value, key: string, path: seq<Segment>)
    requires v.Obj?
    ensures Follow(v, [Member(key)] + path) == Follow(Get(v.fields, key), path)
  {
    assert ([Member(key)] + path)[1..] == path;
  }

  lemma {:induction false} FollowIndex(v: Value, i: nat, path: seq<Segment>)
    requires v.Arr? && i < |v.items|
    ensures Follow(v, [Index(i)] + path) == Follow(v.items[i], path)
  {
    assert ([Index(i)] + path)[1..] == path;
  }

  /** A value is accepted exactly if nothing is wrong with it anywhere, and otherwise the first problem in
      depth-first order is reported, under a path that leads to it. */
  lemma {:induction false} FirstProblemIsReported(v: Value)
    ensures Verdict(ValidateStep(v), Problems(v)) && Located(v, ValidateStep(v))
    decreases v, 3
  {
    if OwnProblem(v).None? {
      var id, kind := v.fields["id"].s, v.fields["kind"].s;
      assert ValidateStep(v) == ValidateKind(v, id, kind);
      if kind == "sequence" || kind == "parallel" {
        var steps := v.fields["steps"];
        FirstItemProblem(steps, 0);
        assert Problems(v) == ItemProblems(steps.items, 0);
        var r := ValidateAll(steps.items, 0);
        if r.Err? {
          FollowMember(v, "steps", r.path);
        }
      } else {
        MembersReported(v, ChildKeys(kind));
        MembersInOrder(v, id, kind);
      }
    } else if v.Obj? && StringAt(v.fields, "id").Some? && StringAt(v.fields, "kind").Some? {
      assert ValidateStep(v) == ValidateKind(v, v.fields["id"].s, v.fields["kind"].s);
      assert Problems(v) == [OwnProblem(v).value];
    }
  }

  /** With its members reported, so is the node. */
  lemma {:induction false} MembersInOrder(v: Value, id: string, kind: string)
    requires v.Obj? && OwnProblem(v).None? && v.fields["kind"] == Str(kind) && v.fields["id"] == Str(id)
    requires kind != "sequence" && kind != "parallel"
    requires forall i | 0 <= i < |ChildKeys(kind)| :: MemberReported(v, ChildKeys(kind)[i])
    ensures Verdict(ValidateKind(v, id, kind), Problems(v)) && Located(v, ValidateKind(v, id, kind))
  {
    var keys := ChildKeys(kind);
    assert Problems(v) == MemberProblems(v, keys);
    if keys != [] {
      assert MemberReported(v, keys[0]);
      if |keys| == 1 {
        assert MemberProblems(v, keys) == MemberProblem(v, keys[0]);
      } else if |keys| == 2 {
        assert MemberReported(v, keys[1]);
        assert MemberProblems(v, keys) == MemberProblem(v, keys[0]) + MemberProblem(v, keys[1]) by {
          assert keys[1..][1..] == [];
          assert MemberProblems(v, keys[1..]) == MemberProblem(v, keys[1]);
        }
      } else {
        assert MemberReported(v, keys[1]) && MemberReported(v, keys[2]);
        assert MemberProblems(v, keys)
            == MemberProblem(v, keys[0]) + (MemberProblem(v, keys[1]) + MemberProblem(v, keys[2])) by {
          assert keys[1..][1..][1..] == [];
          assert MemberProblems(v, keys[1..][1..]) == MemberProblem(v, keys[2]);
        }
      }
    }
  }

  /** What validating one member says, required or not. */
  function MemberResult(v: Value, k: ChildKey): Validated<Option<Step>>
    requires v.Obj?
  {
    if !k.required then ValidateOptional(v, k.key)
    else match ValidateMember(v, k.key)
      case Ok(step) => Ok(Some(step))
      case Err(path, problem) => Err(path, problem)
  }

  ghost predicate MemberReported(v: Value, k: ChildKey)
    requires v.Obj?
  {
    Verdict(MemberResult(v, k), MemberProblem(v, k)) && Located(v, MemberResult(v, k))
  }

  lemma {:induction false} MembersReported(v: Value, keys: seq<ChildKey>)
    requires v.Obj?
    ensures forall i | 0 <= i < |keys| :: MemberReported(v, keys[i])
    decreases v, 2, |keys|
  {
    if keys != [] {
      MembersReported(v, keys[1..]);
      var k := keys[0];
      FollowMember(v, k.key, []);
      if k.key in v.fields {
        FirstProblemIsReported(v.fields[k.key]);
        var r := ValidateStep(v.fields[k.key]);
        if r.Err? {
          FollowMember(v, k.key, r.path);
        }
      }
      forall i | 0 <= i < |keys| ensures MemberReported(v, keys[i]) {
        assert i > 0 ==> keys[i] == keys[1..][i - 1];
      }
    }
  }

  lemma {:induction false} FirstItemProblem(v: Value, i: nat)
    requires v.Arr? && i <= |v.items|
    ensures Verdict(ValidateAll(v.items, i), ItemProblems(v.items, i)) && Located(v, ValidateAll(v.items, i))
    decreases v, |v.items| - i
  {
    if i < |v.items| {
      FirstProblemIsReported(v.items[i]);
      FirstItemProblem(v, i + 1);
      var r := ValidateStep(v.items[i]);
      if r.Err? {
        FollowIndex(v, i, r.path);
      }
    }
  }

  // ----- Round trip -----

  function With(f: Fields, key: string, v: Option<Value>): Fields {
    if v.Some? then f[key := v.value] else f
  }

  function Text(s: Option<string>): Option<Value> {
    if s.Some? then Some(Str(s.value)) else None
  }

  /** The dynamic value that a step tree is written as. */
  function Encode(step: Step): (v: Value)
    ensures v.Obj? && Get(v.fields, "id") == Str(step.id) && Get(v.fields, "kind") == Str(Kind(step))
    decreases step, 2
  {
    Obj(0, EncodeMembers(step)["id" := Str(step.id)]["kind" := Str(Kind(step))])
  }

  /** The members of a node other than its id and kind. */
  function EncodeMembers(step: Step): Fields
    decreases step, 1
  {
    match step
    case ToolCall(_, tool, args, saveAs) =>
      With(map["tool" := Str(tool), "args" := Obj(0, args)], "saveAs", Text(saveAs))
    case SetVar(_, name, value) => map["name" := Str(name), "value" := value]
    case Sequence(_, steps) => map["steps" := Arr(0, EncodeAll(steps))]
    case Parallel(_, steps) => map["steps" := Arr(0, EncodeAll(steps))]
    case Branch(_, condition, whenTrue, whenFalse) =>
      With(map["condition" := condition, "whenTrue" := Encode(whenTrue)], "whenFalse",
           if whenFalse.Some? then Some(Encode(whenFalse.value)) else None)
    case Call(_, func, args, saveAs) =>
      With(With(map["function" := Str(func)], "args", if args.Some? then Some(Obj(0, args.value)) else None),
           "saveAs", Text(saveAs))
    case Return(_, value) => map["value" := value]
    case Try(_, body, handler, cleanup) =>
      With(With(map["body" := Encode(body)], "catch", if handler.Some? then Some(Encode(handler.value)) else None),
           "finally", if cleanup.Some? then Some(Encode(cleanup.value)) else None)
    case Scope(_, body) => map["body" := Encode(body)]
  }

  function EncodeAll(steps: seq<Step>): (items: seq<Value>)
    ensures |items| == |steps|
    decreases steps, 0
  {
    if steps == [] then [] else [Encode(steps[0])] + EncodeAll(steps[1..])
  }

  /** Every step tree survives being written and validated. */
  lemma {:induction false} RoundTrip(step: Step)
    ensures ValidateStep(Encode(step)) == Ok(step)
    decreases step, 1
  {
    match step
    case Sequence(_, steps) =>
      RoundTripAll(steps, EncodeAll(steps), 0);
      ListRoundTrip(step);
    case Parallel(_, steps) =>
      RoundTripAll(steps, EncodeAll(steps), 0);
      ListRoundTrip(step);
    case Branch(_, _, whenTrue, whenFalse) =>
      RoundTrip(whenTrue);
      if whenFalse.Some? {
        RoundTrip(whenFalse.value);
      }
      BranchRoundTrip(step);
    case Try(_, body, handler, cleanup) =>
      RoundTrip(body);
      if handler.Some? {
        RoundTrip(handler.value);
      }
      if cleanup.Some? {
        RoundTrip(cleanup.value);
      }
      TryRoundTrip(step);
    case Scope(_, body) =>
      RoundTrip(body);
      ScopeRoundTrip(step);
    case _ => LeafRoundTrip(step);
  }

  lemma {:induction false} KindDecides(step: Step)
    ensures ValidateStep(Encode(step)) == ValidateKind(Encode(step), step.id, Kind(step))
  {
  }

  lemma {:induction false} LeafRoundTrip(step: Step)
    requires step.ToolCall? || step.SetVar? || step.Call? || step.Return?
    ensures ValidateStep(Encode(step)) == Ok(step)
  {
    KindDecides(step);
  }

  lemma {:induction false} ListRoundTrip(step: Step)
    requires step.Sequence? || step.Parallel?
    requires ValidateAll(EncodeAll(step.steps), 0) == Ok(step.steps)
    ensures ValidateStep(Encode(step)) == Ok(step)
  {
    KindDecides(step);
  }

  lemma {:induction false} BranchRoundTrip(step: Step)
    requires step.Branch? && ValidateStep(Encode(step.whenTrue)) == Ok(step.whenTrue)
    requires step.whenFalse.Some? ==> ValidateStep(Encode(step.whenFalse.value)) == Ok(step.whenFalse.value)
    ensures ValidateStep(Encode(step)) == Ok(step)
  {
    var v := Encode(step);
    KindDecides(step);
    assert ValidateMember(v, "whenTrue") == Ok(step.whenTrue);
    assert ValidateOptional(v, "whenFalse") == Ok(step.whenFalse);
  }

  lemma {:induction false} ScopeRoundTrip(step: Step)
    requires step.Scope? && ValidateStep(Encode(step.body)) == Ok(step.body)
    ensures ValidateStep(Encode(step)) == Ok(step)
  {
    KindDecides(step);
    assert ValidateMember(Encode(step), "body") == Ok(step.body);
  }

  lemma {:induction false} TryRoundTrip(step: Step)
    requires step.Try? && ValidateStep(Encode(step.body)) == Ok(step.body)
    requires step.handler.Some? ==> ValidateStep(Encode(step.handler.value)) == Ok(step.handler.value)
    requires step.cleanup.Some? ==> ValidateStep(Encode(step.cleanup.value)) == Ok(step.cleanup.value)
    ensures ValidateStep(Encode(step)) == Ok(step)
  {
    var v := Encode(step);
    KindDecides(step);
    assert ValidateMember(v, "body") == Ok(step.body);
    assert ValidateOptional(v, "catch") == Ok(step.handler);
    assert ValidateOptional(v, "finally") == Ok(step.cleanup);
  }

  lemma {:induction false} RoundTripAll(steps: seq<Step>, items: seq<Value>, i: nat)
    requires i <= |items| && items[i..] == EncodeAll(steps)
    ensures ValidateAll(items, i) == Ok(steps)
    decreases steps, 0
  {
    if steps != [] {
      RoundTrip(steps[0]);
      assert items[i] == items[i..][0] && items[i + 1..] == items[i..][1..];
      RoundTripAll(steps[1..], items, i + 1);
      assert [steps[0]] + steps[1..] == steps;
    }
  }

  // ----- Whole workflows -----

  datatype Declaration = Declaration(
    id: string,
    version: string,
    name: Option<string>,
    entry: Step,
    functions: Option<map<string, Step>>)

  /** A workflow is acceptable if its head is well typed and nothing is wrong in its steps. */
  ghost predicate Acceptable(v: Value) {
    && v.Obj?
    && StringAt(v.fields, "id").Some? && StringAt(v.fields, "version").Some?
    && Problems(Get(v.fields, "entry")) == []
    && var functions := Get(v.fields, "functions");
    && (functions.Undefined? || functions.Obj?)
    && (functions.Obj? ==> forall name <- functions.fields :: Problems(functions.fields[name]) == [])
  }

  /** The declaration says what the value says. */
  ghost predicate Declares(v: Value, d: Declaration)
    requires v.Obj?
  {
    && Get(v.fields, "id") == Str(d.id) && Get(v.fields, "version") == Str(d.version)
    && d.name == StringAt(v.fields, "name")
    && ValidateStep(Get(v.fields, "entry")) == Ok(d.entry)
    && var functions := Get(v.fields, "functions");
    && (d.functions.None? <==> functions.Undefined?)
    && (d.functions.Some? ==>
          functions.Obj? && d.functions.value.Keys == functions.fields.Keys
          && forall name <- functions.fields :: ValidateStep(functions.fields[name]) == Ok(d.functions.value[name]))
  }

  /** The bodies are validated one by one; the record of functions grows with them. */
  method ValidateFunctions(fields: Fields) returns (r: Validated<map<string, Step>>)
    ensures r.Ok? <==> forall name <- fields :: Problems(fields[name]) == []
    ensures r.Ok? ==> r.value.Keys == fields.Keys
    ensures r.Ok? ==> forall name <- fields :: ValidateStep(fields[name]) == Ok(r.value[name])
    ensures r.Err? ==>
      var v := Obj(0, map["functions" := Obj(0, fields)]);
      Located(v, r)
  {
    var functions: map<string, Step>, rest := map[], fields.Keys;
    while rest != {}
      invariant rest <= fields.Keys && functions.Keys == fields.Keys - rest
      invariant forall name <- functions :: ValidateStep(fields[name]) == Ok(functions[name])
      invariant forall name <- functions :: Problems(fields[name]) == []
    {
      var name :| name in rest;
      FirstProblemIsReported(fields[name]);
      match ValidateStep(fields[name])
      case Ok(body) =>
        functions := functions[name := body];
        rest := rest - {name};
      case Err(path, problem) =>
        FollowMember(Obj(0, fields), name, path);
        FollowMember(Obj(0, map["functions" := Obj(0, fields)]), "functions", [Member(name)] + path);
        assert [Member("functions"), Member(name)] + path == [Member("functions")] + ([Member(name)] + path);
        return Err([Member("functions"), Member(name)] + path, problem);
    }
    r := Ok(functions);
  }

  /** Accepts exactly the acceptable workflows, and declares what they say. */
  method ValidateWorkflow(v: Value) returns (r: Validated<Declaration>)
    ensures r.Ok? <==> Acceptable(v)
    ensures r.Ok? ==> Declares(v, r.value)
  {
    if !v.Obj? {
      return Err([], NotAnObject);
    }
    var id, version := StringAt(v.fields, "id"), StringAt(v.fields, "version");
    if id.None? {
      return Err([], IdNotAString);
    }
    if version.None? {
      return Err([], VersionNotAString);
    }
    FirstProblemIsReported(Get(v.fields, "entry"));
    var entry := ValidateStep(Get(v.fields, "entry"));
    if entry.Err? {
      return Err([Member("entry")] + entry.path, entry.problem);
    }
    var functions: Option<map<string, Step>> := None;
    if !Get(v.fields, "functions").Undefined? {
      if !Get(v.fields, "functions").Obj? {
        return Err([], FunctionsNotAnObject);
      }
      var bodies := ValidateFunctions(v.fields["functions"].fields);
      if bodies.Err? {
        return Err(bodies.path, bodies.problem);
      }
      functions := Some(bodies.value);
    }
    r := Ok(Declaration(id.value, version.value, StringAt(v.fields, "name"), entry.value, functions));
  }
}
