/** Variable frames, value resolution and condition evaluation. */
module WorkflowValues {
  import opened WorkflowSchema

  /** One variable frame; a scope stack lists frames outermost first. */
  type Frame = map<string, Value>

  /** The value of `name` in the innermost frame that binds it. */
  function Lookup(scopes: seq<Frame>, name: string): Value {
    if scopes == [] then Undefined
    else if name in scopes[|scopes| - 1] then scopes[|scopes| - 1][name]
    else Lookup(scopes[..|scopes| - 1], name)
  }

  /** Frame `i` is the innermost one that binds `name`. */
  ghost predicate BoundInnermostAt(scopes: seq<Frame>, name: string, i: int) {
    && 0 <= i < |scopes|
    && name in scopes[i]
    && forall j :: i < j < |scopes| ==> name !in scopes[j]
  }

  /** Frames above `i` that do not bind `name` are invisible to a read of it. */
  lemma {:induction false} LookupSkips(scopes: seq<Frame>, name: string, i: nat)
    requires i <= |scopes|
    requires forall j :: i <= j < |scopes| ==> name !in scopes[j]
    ensures Lookup(scopes, name) == Lookup(scopes[..i], name)
    decreases |scopes|
  {
    if i < |scopes| {
      var rest := scopes[..|scopes| - 1];
      LookupSkips(rest, name, i);
      assert rest[..i] == scopes[..i];
    } else {
      assert scopes[..i] == scopes;
    }
  }

  /** Walks the stack innermost to outermost and stops at the first frame that owns the name. */
  method ReadVar(scopes: seq<Frame>, name: string) returns (v: Value)
    ensures v == Lookup(scopes, name)
    ensures forall i | BoundInnermostAt(scopes, name, i) :: v == scopes[i][name]
    ensures (forall frame <- scopes :: name !in frame) ==> v == Undefined
  {
    var i := |scopes|;
    while i > 0
      invariant 0 <= i <= |scopes|
      invariant forall j :: i <= j < |scopes| ==> name !in scopes[j]
    {
      i := i - 1;
      if name in scopes[i] {
        v := scopes[i][name];
        LookupSkips(scopes, name, i + 1);
        assert scopes[..i + 1][|scopes[..i + 1]| - 1] == scopes[i];
        return;
      }
    }
    LookupSkips(scopes, name, 0);
    v := Undefined;
  }

  /** A record whose `$fromVar` is a string stands for that variable; all else stands for itself. */
  function Resolve(v: Value, scopes: seq<Frame>): Value {
    if v.Obj? && "$fromVar" in v.fields && v.fields["$fromVar"].Str? then
      Lookup(scopes, v.fields["$fromVar"].s)
    else v
  }

  function ResolveAll(args: map<string, Value>, scopes: seq<Frame>): map<string, Value> {
    map k <- args :: Resolve(args[k], scopes)
  }

  method ResolveValue(v: Value, scopes: seq<Frame>) returns (r: Value)
    ensures r == Resolve(v, scopes)
  {
    if v.Obj? && "$fromVar" in v.fields && v.fields["$fromVar"].Str? {
      r := ReadVar(scopes, v.fields["$fromVar"].s);
    } else {
      r := v;
    }
  }

  /** Resolves the entries one by one into a fresh record. */
  method ResolveArgs(args: map<string, Value>, scopes: seq<Frame>) returns (out: map<string, Value>)
    ensures out == ResolveAll(args, scopes)
  {
    out := map[];
    var todo := args.Keys;
    while todo != {}
      invariant todo <= args.Keys
      invariant out.Keys == args.Keys - todo
      invariant forall k <- out :: out[k] == Resolve(args[k], scopes)
      decreases todo
    {
      var k :| k in todo;
      var r := ResolveValue(args[k], scopes);
      out := out[k := r];
      todo := todo - {k};
    }
  }

  /** Truthiness of a value. */
  predicate Truthy(v: Value) {
    match v
    case Undefined => false
    case Null => false
    case Bool(b) => b
    case Num(n) => n != 0.0
    case NaN => false
    case Str(s) => s != ""
    case Arr(_, _) => true
    case Obj(_, _) => true
  }

  /** Strict equality: primitives by value (not-a-number equals nothing), the rest by identity. */
  predicate StrictEquals(a: Value, b: Value) {
    if a.Arr? && b.Arr? then a.ref == b.ref
    else if a.Obj? && b.Obj? then a.ref == b.ref
    else a == b && !a.NaN?
  }

  predicate EvalCondition(expr: Value, scopes: seq<Frame>) {
    match expr
    case Null => false
    case Undefined => false
    case Bool(b) => b
    case Str(_) => Truthy(expr)
    case Num(_) => Truthy(expr)
    case NaN => false
    case Arr(_, items) => |items| > 0
    case Obj(_, rec) =>
      if "$var" in rec && rec["$var"].Str? then Truthy(Lookup(scopes, rec["$var"].s))
      else if "$equals" in rec && rec["$equals"].Arr? && |rec["$equals"].items| == 2 then
        var pair := rec["$equals"].items;
        StrictEquals(Resolve(pair[0], scopes), Resolve(pair[1], scopes))
      else if "$not" in rec then !EvalCondition(rec["$not"], scopes)
      else if "$exists" in rec && rec["$exists"].Str? then
        !Lookup(scopes, rec["$exists"].s).Undefined?
      else false
  }
}
