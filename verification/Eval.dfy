/** The expression evaluator (client/value.go evalValue, client/predicate.go evalPredicate). */
module Eval {
  import opened Syntax
  import opened Runtime
  import opened Scopes

  function EvalValue(lib: Lib, env: Env, v: Value): Result<Rt>
    decreases v, 1
  {
    match v
    case Null => Ok(Nil)
    case Unset => Err
    case LitStr(s) => Ok(Str(s))
    case LitInt(n) => Ok(Int(n))
    case LitBool(b) => Ok(Bool(b))
    case Ref(path, default) =>
      (match UsableRef(Resolve(lib, env, path))
       case Err => Err
       case Ok(Some(r)) => Ok(r)
       case Ok(None) => EvalDefault(lib, env, default))
    case Now => Ok(Time(env.now))
    case Concat(parts) => ConcatResult(lib, EvalAll(lib, env, parts))
    case Select(branches, otherwise) =>
      (match EvalBranches(lib, env, branches)
       case Err => Err
       case Ok(Some(r)) => Ok(r)
       case Ok(None) => EvalValue(lib, env, otherwise))
    case Format(verb, inner) => FormatResult(lib, verb, EvalValue(lib, env, inner))
    case Base64(inner) => Base64Result(lib, EvalValue(lib, env, inner))
    case List(elems) => ListResult(EvalAll(lib, env, elems))
    case Object(fields) =>
      if forall k | k in fields :: EvalValue(lib, env, fields[k]).Ok?
      then Ok(Obj(map k | k in fields :: EvalValue(lib, env, fields[k]).value))
      else Err
    case Arith(op, operands) => if |operands| != 2 then Err else ArithResult(lib, op, EvalAll(lib, env, operands))
    case Reduce(reducer, operand) => ReduceResult(lib, reducer, EvalValue(lib, env, operand))
    case Slice(operand, from, to) => SliceResult(EvalValue(lib, env, operand), from, to)
    case Regex(pattern, source, capture, default) =>
      (match RegexResult(lib, pattern, EvalValue(lib, env, source), capture)
       case Err => Err
       case Ok(Some(r)) => Ok(r)
       case Ok(None) => EvalDefault(lib, env, default))
  }

  function EvalDefault(lib: Lib, env: Env, default: Option<Value>): Result<Rt>
    decreases default, 0
  {
    match default case Some(d) => EvalValue(lib, env, d) case None => Ok(Nil)
  }

  /** Left to right, stopping at the first error. */
  function EvalAll(lib: Lib, env: Env, vs: seq<Value>): (r: Result<seq<Rt>>)
    ensures r.Ok? ==> |r.value| == |vs|
    decreases vs, 0
  {
    if vs == [] then Ok([])
    else match EvalValue(lib, env, vs[0])
      case Err => Err
      case Ok(x) => match EvalAll(lib, env, vs[1..]) case Err => Err case Ok(xs) => Ok([x] + xs)
  }

  /** The value of the first branch whose predicate holds; None when there is none. */
  function EvalBranches(lib: Lib, env: Env, branches: seq<Branch>): Result<Option<Rt>>
    decreases branches, 0
  {
    if branches == [] then Ok(None)
    else match EvalBranch(lib, env, branches[0])
      case Err => Err
      case Ok(Some(r)) => Ok(Some(r))
      case Ok(None) => EvalBranches(lib, env, branches[1..])
  }

  function EvalBranch(lib: Lib, env: Env, branch: Branch): Result<Option<Rt>>
    decreases branch, 1
  {
    match EvalPredicate(lib, env, branch.when)
    case Err => Err
    case Ok(false) => Ok(None)
    case Ok(true) => match EvalValue(lib, env, branch.value) case Err => Err case Ok(r) => Ok(Some(r))
  }

  function EvalPredicate(lib: Lib, env: Env, p: Predicate): Result<bool>
    decreases p, 1
  {
    match p
    case NoPredicate => Err
    case LiteralBool(b) => Ok(b)
    case Present(path) =>
      (match Resolve(lib, env, path)
       case Err => Err
       case Ok(got) => Ok(got.Some? && !IsZero(got.value)))
    case Compare(op, path, value) =>
      (match Resolve(lib, env, path)
       case Err => Err
       case Ok(got) => match EvalValue(lib, env, value)
         case Err => Err
         case Ok(rhs) => CompareValues(lib, op, if got.Some? then got.value else Nil, rhs))
    case And(all) => EvalJunction(lib, env, all, false)
    case Or(any) => EvalJunction(lib, env, any, true)
    case Not(q) => (match EvalPredicate(lib, env, q) case Err => Err case Ok(b) => Ok(!b))
  }

  /** Stops at the first operand that decides: true for `or`, false for `and`. */
  function EvalJunction(lib: Lib, env: Env, ps: seq<Predicate>, decisive: bool): Result<bool>
    decreases ps, 0
  {
    if ps == [] then Ok(!decisive)
    else match EvalPredicate(lib, env, ps[0])
      case Err => Err
      case Ok(b) => if b == decisive then Ok(decisive) else EvalJunction(lib, env, ps[1..], decisive)
  }

  function CompareValues(lib: Lib, op: Verb, lhs: Rt, rhs: Rt): Result<bool> {
    if op == Eq then Ok(Equal(lib, lhs, rhs))
    else if lhs == Nil || rhs == Nil then Ok(false)
    else match OrderedCompare(lib, lhs, rhs)
      case Err => Err
      case Ok(c) => Ok(match op
                       case Gt => c > 0
                       case Lt => c < 0
                       case Gte => c >= 0
                       case _ => c <= 0)
  }

  /** A ref falls through to its default when the leaf is absent or zero. */
  function UsableRef(got: Lookup): Result<Option<Rt>> {
    match got
    case Err => Err
    case Ok(leaf) => Ok(if leaf.Some? && !IsZero(leaf.value) then leaf else None)
  }

  function ConcatResult(lib: Lib, args: Result<seq<Rt>>): Result<Rt> {
    match args case Err => Err case Ok(list) => Ok(Str(ConcatStrings(lib, list)))
  }

  function ListResult(args: Result<seq<Rt>>): Result<Rt> {
    match args case Err => Err case Ok(list) => Ok(Arr(list))
  }

  /** An absent operand makes the whole expression absent. */
  function ArithResult(lib: Lib, op: ArithOp, args: Result<seq<Rt>>): Result<Rt>
    requires args.Ok? ==> |args.value| == 2
  {
    match args
    case Err => Err
    case Ok(list) =>
      if list[0] == Nil || list[1] == Nil then Ok(Nil)
      else if op == AddOp then ArithAdd(lib, list[0], list[1])
      else ArithSubtract(lib, list[0], list[1])
  }

  function FormatResult(lib: Lib, verb: string, arg: Result<Rt>): Result<Rt> {
    match arg case Err => Err case Ok(r) => ApplyFormat(lib, verb, r)
  }

  function Base64Result(lib: Lib, arg: Result<Rt>): Result<Rt> {
    match arg case Err => Err case Ok(r) => Ok(Str(lib.base64(ToString(lib, r))))
  }

  /** evalReducerInput: nil counts as the empty list, any other non-list is an error. */
  function AsList(arg: Result<Rt>): Result<seq<Rt>> {
    match arg
    case Ok(Nil) => Ok([])
    case Ok(Arr(list)) => Ok(list)
    case _ => Err
  }

  function ReduceResult(lib: Lib, reducer: Reducer, arg: Result<Rt>): Result<Rt> {
    match AsList(arg) case Err => Err case Ok(list) => Ok(ApplyReducer(lib, reducer, list))
  }

  function SliceResult(arg: Result<Rt>, from: Option<int>, to: Option<int>): Result<Rt> {
    match AsList(arg) case Err => Err case Ok(list) => Ok(Arr(SliceOf(list, from, to)))
  }

  function RegexResult(lib: Lib, pattern: string, arg: Result<Rt>, capture: int): Result<Option<Rt>> {
    match arg
    case Err => Err
    case Ok(r) => match ApplyRegex(lib, pattern, ToString(lib, r), capture)
      case Err => Err
      case Ok(None) => Ok(None)
      case Ok(Some(m)) => Ok(Some(Str(m)))
  }

  function ConcatStrings(lib: Lib, list: seq<Rt>): string {
    if list == [] then "" else ToString(lib, list[0]) + ConcatStrings(lib, list[1..])
  }

  function ApplyReducer(lib: Lib, reducer: Reducer, list: seq<Rt>): Rt {
    match reducer
    case Max => Extreme(lib, list, true)
    case Min => Extreme(lib, list, false)
    case First => FirstOf(list)
    case Last => LastOf(list)
    case Count => Int(|list|)
  }

  /** None when the pattern does not match. */
  function ApplyRegex(lib: Lib, pattern: string, input: string, capture: int): Result<Option<string>> {
    if capture < 0 then Err
    else match lib.regex(pattern, input)
      case BadPattern => Err
      case NoMatch => Ok(None)
      case Groups(g) => if capture < |g| then Ok(Some(g[capture])) else Err
  }

  // ---- short lists ----

  lemma OneEvaluates(lib: Lib, env: Env, a: Value)
    ensures EvalAll(lib, env, [a]) == match EvalValue(lib, env, a) case Err => Err case Ok(x) => Ok([x])
  {
    var one := [a];
    assert one[1..] == [] && EvalAll(lib, env, one[1..]) == Ok([]);
    assert forall x: Rt :: [x] + [] == [x];
  }

  lemma PairEvaluates(lib: Lib, env: Env, a: Value, b: Value)
    requires EvalValue(lib, env, a).Ok? && EvalValue(lib, env, b).Ok?
    ensures EvalAll(lib, env, [a, b]) == Ok([EvalValue(lib, env, a).value, EvalValue(lib, env, b).value])
  {
    var both := [a, b];
    assert both[1..] == [b];
    OneEvaluates(lib, env, b);
    assert [EvalValue(lib, env, a).value] + [EvalValue(lib, env, b).value] ==
      [EvalValue(lib, env, a).value, EvalValue(lib, env, b).value];
  }
}
