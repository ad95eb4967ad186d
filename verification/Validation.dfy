/** The reference checks of the validator (schema/validate.go) and what they promise the evaluator. */
module Validation {
  import opened Syntax
  import opened Text
  import opened Runtime
  import opened Scopes
  import opened Eval
  import opened Paths

  /** The names a reference may use. `alias` is "" outside a fan-out step. */
  datatype Names = Names(
    state: set<string>,
    stepIds: set<string>,
    extract: set<string>,
    cacheSlots: set<string>,
    alias: string)

  // ---- what the checks accept ----

  predicate EventsRefOk(parts: seq<string>) {
    && |parts| >= 2
    && (parts[1] == "first" || parts[1] == "last" || parts[1] == "*"
        || (parts[1] == "count" && |parts| == 2)
        || (parts[1] != "count" && ParseInt(parts[1]).Some? && parts[1][..1] != "-"))
    && "*" !in parts[2..]
  }

  predicate StepsRefOk(parts: seq<string>, names: Names) {
    && |parts| >= 3
    && parts[1] in names.stepIds
    && (parts[2] == "body" || (parts[2] == "header" && |parts| >= 4))
    && "*" !in parts
  }

  predicate ResponseRefOk(parts: seq<string>) {
    && |parts| >= 2
    && (parts[1] == "body" || (parts[1] == "header" && |parts| >= 3))
    && "*" !in parts
  }

  predicate NamedRefOk(parts: seq<string>, declared: set<string>) {
    |parts| >= 2 && parts[1] in declared && "*" !in parts
  }

  predicate PathOk(p: Path, names: Names) {
    && !p.IsEmpty()
    && var root := p.parts[0];
       if names.alias != "" && root == names.alias then "*" !in p.parts
       else if root == "state" then NamedRefOk(p.parts, names.state)
       else if root == "cache" then NamedRefOk(p.parts, names.cacheSlots)
       else if root == "events" then EventsRefOk(p.parts)
       else if root == "extract" then NamedRefOk(p.parts, names.extract)
       else if root == "steps" then StepsRefOk(p.parts, names)
       else if root == "response" then ResponseRefOk(p.parts)
       else false
  }

  /** Forms that obviously do not evaluate to a list. */
  predicate ObviousScalar(v: Value) {
    || v.LitStr? || v.LitInt? || v.LitBool? || v.Now? || v.Format? || v.Base64? || v.Object? || v.Arith?
    || v.Reduce?
  }

  predicate ValueOk(v: Value, names: Names)
    decreases v, 1
  {
    match v
    case Ref(path, default) => PathOk(path, names) && (default.Some? ==> ValueOk(default.value, names))
    case Concat(parts) => AllValuesOk(parts, names)
    case Select(branches, otherwise) => BranchesOk(branches, names) && ValueOk(otherwise, names)
    case Format(verb, inner) => verb != "" && ValueOk(inner, names)
    case Base64(inner) => ValueOk(inner, names)
    case List(elems) => AllValuesOk(elems, names)
    case Object(fields) => forall k | k in fields :: ValueOk(fields[k], names)
    case Arith(_, operands) => AllValuesOk(operands, names)
    case Reduce(_, operand) => ValueOk(operand, names) && !ObviousScalar(operand)
    case Slice(operand, _, _) => ValueOk(operand, names) && !ObviousScalar(operand)
    case Regex(pattern, source, capture, default) =>
      && pattern != "" && capture >= 0 && ValueOk(source, names)
      && (default.Some? ==> ValueOk(default.value, names))
    case _ => true
  }

  predicate AllValuesOk(vs: seq<Value>, names: Names)
    decreases vs, 0
  {
    vs == [] || (ValueOk(vs[0], names) && AllValuesOk(vs[1..], names))
  }

  predicate BranchesOk(branches: seq<Branch>, names: Names)
    decreases branches, 0
  {
    branches == [] || (BranchOk(branches[0], names) && BranchesOk(branches[1..], names))
  }

  predicate BranchOk(b: Branch, names: Names)
    decreases b, 1
  {
    PredicateOk(b.when, names) && ValueOk(b.value, names)
  }

  /** An `and` or `or` without operands counts as no predicate at all. */
  predicate PredicateOk(p: Predicate, names: Names)
    decreases p, 1
  {
    match p
    case NoPredicate => false
    case LiteralBool(_) => true
    case Compare(_, path, value) => PathOk(path, names) && ValueOk(value, names)
    case Present(path) => PathOk(path, names)
    case And(all) => all != [] && PredicatesOk(all, names)
    case Or(any) => any != [] && PredicatesOk(any, names)
    case Not(q) => PredicateOk(q, names)
  }

  predicate PredicatesOk(ps: seq<Predicate>, names: Names)
    decreases ps, 0
  {
    ps == [] || (PredicateOk(ps[0], names) && PredicatesOk(ps[1..], names))
  }

  // ---- the checker ----

  /** Collects findings. Every check only appends, and appends nothing exactly when it accepts. */
  class Validator {
    var diags: seq<string>

    constructor ()
      ensures diags == []
    {
      diags := [];
    }

    method Report(at: string)
      modifies this
      ensures diags == old(diags) + [at]
    {
      diags := diags + [at];
    }

    method CheckNoStar(at: string, p: Path)
      modifies this
      ensures old(diags) <= diags && (diags == old(diags) <==> "*" !in p.parts)
    {
      if "*" in p.parts {
        Report(at);
      }
    }

    method CheckNamedRef(at: string, p: Path, declared: set<string>)
      modifies this
      ensures old(diags) <= diags && (diags == old(diags) <==> NamedRefOk(p.parts, declared))
    {
      if |p.parts| < 2 {
        Report(at);
        return;
      }
      if p.parts[1] !in declared {
        Report(at);
      }
      CheckNoStar(at, p);
    }

    method CheckEventsRef(at: string, p: Path)
      modifies this
      ensures old(diags) <= diags && (diags == old(diags) <==> EventsRefOk(p.parts))
    {
      if |p.parts| < 2 {
        Report(at);
        return;
      }
      var seg := p.parts[1];
      if seg == "first" || seg == "last" || seg == "*" {
      } else if seg == "count" {
        if |p.parts| != 2 {
          Report(at);
        }
      } else if ParseInt(seg).None? {
        Report(at);
      } else if seg[..1] == "-" {
        Report(at);
      }
      ghost var before := diags;
      for i := 2 to |p.parts|
        invariant diags == before && "*" !in p.parts[2..i]
      {
        if p.parts[i] == "*" {
          assert p.parts[2..][i - 2] == "*";
          Report(at);
          return;
        }
        assert p.parts[2..i + 1] == p.parts[2..i] + [p.parts[i]];
      }
      assert p.parts[2..|p.parts|] == p.parts[2..];
    }

    method CheckStepsRef(at: string, p: Path, names: Names)
      modifies this
      ensures old(diags) <= diags && (diags == old(diags) <==> StepsRefOk(p.parts, names))
    {
      if |p.parts| < 2 {
        Report(at);
        return;
      }
      if p.parts[1] !in names.stepIds {
        Report(at);
        return;
      }
      if |p.parts| < 3 {
        Report(at);
        return;
      }
      if p.parts[2] == "header" {
        if |p.parts| < 4 {
          Report(at);
        }
      } else if p.parts[2] != "body" {
        Report(at);
      }
      CheckNoStar(at, p);
    }

    method CheckResponseRef(at: string, p: Path)
      modifies this
      ensures old(diags) <= diags && (diags == old(diags) <==> ResponseRefOk(p.parts))
    {
      if |p.parts| < 2 {
        Report(at);
        return;
      }
      if p.parts[1] == "header" {
        if |p.parts| < 3 {
          Report(at);
        }
      } else if p.parts[1] != "body" {
        Report(at);
      }
      CheckNoStar(at, p);
    }

    method CheckPathRef(at: string, p: Path, names: Names)
      modifies this
      ensures old(diags) <= diags && (diags == old(diags) <==> PathOk(p, names))
    {
      if p.IsEmpty() {
        Report(at);
        return;
      }
      var root := p.parts[0];
      if names.alias != "" && root == names.alias {
        CheckNoStar(at, p);
        return;
      }
      if root == "state" {
        CheckNamedRef(at, p, names.state);
      } else if root == "cache" {
        CheckNamedRef(at, p, names.cacheSlots);
      } else if root == "events" {
        CheckEventsRef(at, p);
      } else if root == "extract" {
        CheckNamedRef(at, p, names.extract);
      } else if root == "steps" {
        CheckStepsRef(at, p, names);
      } else if root == "response" {
        CheckResponseRef(at, p);
      } else {
        Report(at);
      }
    }

    method CheckValue(at: string, v: Value, names: Names)
      modifies this
      ensures old(diags) <= diags && (diags == old(diags) <==> ValueOk(v, names))
      decreases v, 1
    {
      match v {
        case Ref(path, default) =>
          CheckPathRef(at, path, names);
          if default.Some? { CheckValue(at, default.value, names); }
        case Concat(parts) => CheckValues(at, parts, names);
        case Select(branches, otherwise) =>
          CheckBranches(at, branches, names);
          CheckValue(at, otherwise, names);
        case Format(verb, inner) =>
          if verb == "" { Report(at); }
          CheckValue(at, inner, names);
        case Base64(inner) => CheckValue(at, inner, names);
        case List(elems) => CheckValues(at, elems, names);
        case Object(fields) => CheckFields(at, v, names);
        case Arith(_, operands) => CheckValues(at, operands, names);
        case Reduce(_, operand) => CheckListOperand(at, operand, names);
        case Slice(operand, _, _) => CheckListOperand(at, operand, names);
        case Regex(pattern, source, capture, default) =>
          if pattern == "" { Report(at); }
          CheckValue(at, source, names);
          if default.Some? { CheckValue(at, default.value, names); }
          if capture < 0 { Report(at); }
        case _ =>
      }
    }

    method CheckListOperand(at: string, v: Value, names: Names)
      modifies this
      ensures old(diags) <= diags && (diags == old(diags) <==> ValueOk(v, names) && !ObviousScalar(v))
      decreases v, 2
    {
      CheckValue(at, v, names);
      if ObviousScalar(v) {
        Report(at);
      }
    }

    method CheckValues(at: string, vs: seq<Value>, names: Names)
      modifies this
      ensures old(diags) <= diags && (diags == old(diags) <==> AllValuesOk(vs, names))
      decreases vs, 0
    {
      if vs != [] {
        CheckValue(at, vs[0], names);
        CheckValues(at, vs[1..], names);
      }
    }

    method CheckFields(at: string, v: Value, names: Names)
      requires v.Object?
      modifies this
      ensures old(diags) <= diags && (diags == old(diags) <==> ValueOk(v, names))
      decreases v, 0
    {
      var pending := v.fields.Keys;
      while pending != {}
        invariant pending <= v.fields.Keys
        invariant old(diags) <= diags
        invariant diags == old(diags) <==> forall k | k in v.fields.Keys - pending :: ValueOk(v.fields[k], names)
        decreases |pending|
      {
        var k :| k in pending;
        CheckValue(at, v.fields[k], names);
        assert v.fields.Keys - (pending - {k}) == (v.fields.Keys - pending) + {k};
        pending := pending - {k};
      }
      assert v.fields.Keys - {} == v.fields.Keys;
    }

    method CheckBranches(at: string, branches: seq<Branch>, names: Names)
      modifies this
      ensures old(diags) <= diags && (diags == old(diags) <==> BranchesOk(branches, names))
      decreases branches, 0
    {
      if branches != [] {
        CheckBranch(at, branches[0], names);
        CheckBranches(at, branches[1..], names);
      }
    }

    method CheckBranch(at: string, b: Branch, names: Names)
      modifies this
      ensures old(diags) <= diags && (diags == old(diags) <==> BranchOk(b, names))
      decreases b, 1
    {
      CheckPredicate(at, b.when, names);
      CheckValue(at, b.value, names);
    }

    method CheckPredicate(at: string, p: Predicate, names: Names)
      modifies this
      ensures old(diags) <= diags && (diags == old(diags) <==> PredicateOk(p, names))
      decreases p, 1
    {
      match p {
        case NoPredicate => Report(at);
        case LiteralBool(_) =>
        case Compare(_, path, value) =>
          CheckPathRef(at, path, names);
          CheckValue(at, value, names);
        case Present(path) => CheckPathRef(at, path, names);
        case And(all) => if all == [] { Report(at); } else { CheckPredicates(at, all, names); }
        case Or(any) => if any == [] { Report(at); } else { CheckPredicates(at, any, names); }
        case Not(q) => CheckPredicate(at, q, names);
      }
    }

    method CheckPredicates(at: string, ps: seq<Predicate>, names: Names)
      modifies this
      ensures old(diags) <= diags && (diags == old(diags) <==> PredicatesOk(ps, names))
      decreases ps, 0
    {
      if ps != [] {
        CheckPredicate(at, ps[0], names);
        CheckPredicates(at, ps[1..], names);
      }
    }
  }

  // ---- soundness ----

  /** An accepted path resolves without error in every scope, except where it is rooted at the
      validator's fan-out alias and the running scope has not bound that alias. */
  lemma AcceptedPathsResolve(lib: Lib, env: Env, p: Path, names: Names)
    requires PathOk(p, names) && names.alias !in CLOSED_ROOTS
    ensures Resolve(lib, env, p).Err? <==> names.alias != "" && p.parts[0] == names.alias && env.alias != names.alias
  {
    var root, rest := p.parts[0], p.parts[1..];
    if |rest| >= 1 {
      assert rest[0] == p.parts[1];
    }
    if |rest| >= 2 {
      assert rest[1] == p.parts[2];
    }
  }

  /** The running scope can resolve every reference the validator saw. */
  predicate Bound(env: Env, names: Names) {
    names.alias !in CLOSED_ROOTS && (names.alias == "" || env.alias == names.alias)
  }

  /** Values whose evaluation involves no parse, no list and no arithmetic. */
  predicate Total(v: Value)
    decreases v, 1
  {
    match v
    case Null => true
    case LitStr(_) => true
    case LitInt(_) => true
    case LitBool(_) => true
    case Now => true
    case Ref(_, default) => default.Some? ==> Total(default.value)
    case Concat(parts) => AllTotal(parts)
    case Select(branches, otherwise) => BranchesTotal(branches) && Total(otherwise)
    case Format(verb, inner) => (verb == "string" || verb == "url_encode") && Total(inner)
    case Base64(inner) => Total(inner)
    case List(elems) => AllTotal(elems)
    case Object(fields) => forall k | k in fields :: Total(fields[k])
    case _ => false
  }

  predicate AllTotal(vs: seq<Value>)
    decreases vs, 0
  {
    vs == [] || (Total(vs[0]) && AllTotal(vs[1..]))
  }

  predicate BranchesTotal(branches: seq<Branch>)
    decreases branches, 0
  {
    branches == [] || (BranchTotal(branches[0]) && BranchesTotal(branches[1..]))
  }

  predicate BranchTotal(b: Branch)
    decreases b, 1
  {
    PredicateTotal(b.when) && Total(b.value)
  }

  predicate PredicateTotal(p: Predicate)
    decreases p, 1
  {
    match p
    case Compare(op, _, value) => op == Eq && Total(value)
    case And(all) => PredicatesTotal(all)
    case Or(any) => PredicatesTotal(any)
    case Not(q) => PredicateTotal(q)
    case _ => true
  }

  predicate PredicatesTotal(ps: seq<Predicate>)
    decreases ps, 0
  {
    ps == [] || (PredicateTotal(ps[0]) && PredicatesTotal(ps[1..]))
  }

  /** A validated Value of the total fragment evaluates in every scope, whatever it holds. */
  lemma {:induction false} AcceptedValuesEvaluate(lib: Lib, env: Env, v: Value, names: Names)
    requires ValueOk(v, names) && Total(v) && Bound(env, names)
    ensures EvalValue(lib, env, v).Ok?
    decreases v, 1
  {
    match v
    case Ref(path, default) =>
      AcceptedPathsResolve(lib, env, path, names);
      if default.Some? { AcceptedValuesEvaluate(lib, env, default.value, names); }
    case Concat(parts) => AllAcceptedEvaluate(lib, env, parts, names);
    case Select(branches, otherwise) =>
      AcceptedBranchesEvaluate(lib, env, branches, names);
      AcceptedValuesEvaluate(lib, env, otherwise, names);
    case Format(_, inner) => AcceptedValuesEvaluate(lib, env, inner, names);
    case Base64(inner) => AcceptedValuesEvaluate(lib, env, inner, names);
    case List(elems) => AllAcceptedEvaluate(lib, env, elems, names);
    case Object(fields) =>
      forall k | k in fields ensures EvalValue(lib, env, fields[k]).Ok? {
        AcceptedValuesEvaluate(lib, env, fields[k], names);
      }
    case _ =>
  }

  lemma {:induction false} AllAcceptedEvaluate(lib: Lib, env: Env, vs: seq<Value>, names: Names)
    requires AllValuesOk(vs, names) && AllTotal(vs) && Bound(env, names)
    ensures EvalAll(lib, env, vs).Ok?
    decreases vs, 0
  {
    if vs != [] {
      AcceptedValuesEvaluate(lib, env, vs[0], names);
      AllAcceptedEvaluate(lib, env, vs[1..], names);
    }
  }

  lemma {:induction false} AcceptedBranchesEvaluate(lib: Lib, env: Env, branches: seq<Branch>, names: Names)
    requires BranchesOk(branches, names) && BranchesTotal(branches) && Bound(env, names)
    ensures EvalBranches(lib, env, branches).Ok?
    decreases branches, 0
  {
    if branches != [] {
      AcceptedBranchEvaluates(lib, env, branches[0], names);
      AcceptedBranchesEvaluate(lib, env, branches[1..], names);
    }
  }

  lemma {:induction false} AcceptedBranchEvaluates(lib: Lib, env: Env, b: Branch, names: Names)
    requires BranchOk(b, names) && BranchTotal(b) && Bound(env, names)
    ensures EvalBranch(lib, env, b).Ok?
    decreases b, 1
  {
    AcceptedPredicatesEvaluate(lib, env, b.when, names);
    AcceptedValuesEvaluate(lib, env, b.value, names);
  }

  /** A validated predicate built from presence tests, equalities, constants and connectives never
      fails: missing data makes it true or false, never an error. */
  lemma {:induction false} AcceptedPredicatesEvaluate(lib: Lib, env: Env, p: Predicate, names: Names)
    requires PredicateOk(p, names) && PredicateTotal(p) && Bound(env, names)
    ensures EvalPredicate(lib, env, p).Ok?
    decreases p, 1
  {
    match p
    case Compare(_, path, value) =>
      AcceptedPathsResolve(lib, env, path, names);
      AcceptedValuesEvaluate(lib, env, value, names);
    case Present(path) => AcceptedPathsResolve(lib, env, path, names);
    case And(all) => JunctionEvaluates(lib, env, all, false, names);
    case Or(any) => JunctionEvaluates(lib, env, any, true, names);
    case Not(q) => AcceptedPredicatesEvaluate(lib, env, q, names);
    case _ =>
  }

  lemma {:induction false} JunctionEvaluates(lib: Lib, env: Env, ps: seq<Predicate>, decisive: bool, names: Names)
    requires PredicatesOk(ps, names) && PredicatesTotal(ps) && Bound(env, names)
    ensures EvalJunction(lib, env, ps, decisive).Ok?
    decreases ps, 0
  {
    if ps != [] {
      AcceptedPredicatesEvaluate(lib, env, ps[0], names);
      JunctionEvaluates(lib, env, ps[1..], decisive, names);
    }
  }

  // ---- what is accepted ----

  /** A state, cache or extract reference is accepted exactly when it names something declared and has no star. */
  lemma NamedRefsAccepted(names: Names, name: string, rest: seq<string>)
    requires names.alias !in CLOSED_ROOTS
    ensures PathOk(Path(["state", name] + rest, false), names) <==> name in names.state && "*" !in [name] + rest
    ensures PathOk(Path(["cache", name] + rest, false), names) <==> name in names.cacheSlots && "*" !in [name] + rest
    ensures PathOk(Path(["extract", name] + rest, false), names) <==> name in names.extract && "*" !in [name] + rest
    ensures !PathOk(Path(["state"], false), names) && !PathOk(Path(["cache"], false), names)
  {
    var parts := [name] + rest;
    assert ["state", name] + rest == ["state"] + parts && ["cache", name] + rest == ["cache"] + parts;
    assert ["extract", name] + rest == ["extract"] + parts;
  }

  /** A response or step reference goes to a body, or to one header by name; a step must be declared. */
  lemma ResultRefsAccepted(names: Names, id: string, rest: seq<string>, name: string)
    requires names.alias !in CLOSED_ROOTS && id != "*" && name != "*"
    ensures PathOk(Path(["response", "body"] + rest, false), names) <==> "*" !in rest
    ensures PathOk(Path(["steps", id, "body"] + rest, false), names) <==> id in names.stepIds && "*" !in rest
    ensures PathOk(Path(["response", "header", name], false), names)
    ensures PathOk(Path(["steps", id, "header", name], false), names) <==> id in names.stepIds
    ensures !PathOk(Path(["response", "header"], false), names) && !PathOk(Path(["steps", id, "header"], false), names)
    ensures !PathOk(Path(["response"], false), names) && !PathOk(Path(["steps", id], false), names)
    ensures name !in {"body", "header"} ==>
      !PathOk(Path(["response", name] + rest, false), names) && !PathOk(Path(["steps", id, name] + rest, false), names)
  {
    var steps, response := ["steps", id, "body"] + rest, ["response", "body"] + rest;
    assert "*" in steps <==> "*" in rest by {
      assert forall i | 0 <= i < |rest| :: steps[i + 3] == rest[i];
    }
    assert "*" in response <==> "*" in rest by {
      assert forall i | 0 <= i < |rest| :: response[i + 2] == rest[i];
    }
  }

  /** An events reference names a view: the outer events, all of them, one by its index, or their number. */
  lemma EventRefsAccepted(names: Names, rest: seq<string>, i: nat)
    requires names.alias !in CLOSED_ROOTS && i <= INT64_MAX && "*" !in rest
    ensures PathOk(Path(["events", "first"] + rest, false), names)
    ensures PathOk(Path(["events", "last"] + rest, false), names)
    ensures PathOk(Path(["events", "*"] + rest, false), names)
    ensures PathOk(Path(["events", IntToString(i)] + rest, false), names)
    ensures PathOk(Path(["events", "count"] + rest, false), names) <==> rest == []
    ensures !PathOk(Path(["events", "-1"] + rest, false), names)
    ensures !PathOk(Path(["events", "all"] + rest, false), names)
    ensures !PathOk(Path(["events"], false), names) && !PathOk(Path(["events", "first", "*"], false), names)
  {
    ViewTail("first", rest);
    ViewTail("last", rest);
    ViewTail("*", rest);
    ViewTail("count", rest);
    ViewTail(IntToString(i), rest);
    IndexIsPlain(i);
    assert "all"[0] == 'a';
    assert ["events", "first", "*"][2..] == ["*"];
  }

  lemma ViewTail(view: string, rest: seq<string>)
    ensures (["events", view] + rest)[2..] == rest && (["events", view] + rest)[1] == view
  {
  }

  lemma IndexIsPlain(i: nat)
    requires i <= INT64_MAX
    ensures ParseInt(IntToString(i)).Some? && IntToString(i)[..1] != "-" && IntToString(i) != "count"
  {
    ParseIntToString(i);
    assert '0' <= IntToString(i)[0] <= '9' && "count"[0] == 'c';
  }

  /** The alias of the step reads anything without a star; every other name that is no root is refused. */
  lemma OtherRootsRefused(names: Names, name: string, rest: seq<string>)
    requires names.alias !in CLOSED_ROOTS && name !in CLOSED_ROOTS
    ensures PathOk(Path([name] + rest, false), names) <==> name == names.alias != "" && "*" !in [name] + rest
    ensures !PathOk(Path([], false), names) && !PathOk(Path([name] + rest, true), names)
  {
  }

  /** Beyond their references, a format needs a verb, a regex a pattern and a group, and a reducer or a slice an
      operand that can be a list. */
  lemma FormsAccepted(v: Value, names: Names, verb: string, pattern: string, group: int, reducer: Reducer)
    requires ValueOk(v, names)
    ensures ValueOk(Format(verb, v), names) <==> verb != ""
    ensures ValueOk(Regex(pattern, v, group, None), names) <==> pattern != "" && group >= 0
    ensures ValueOk(Reduce(reducer, v), names) <==>
      !(v.LitStr? || v.LitInt? || v.LitBool? || v.Now? || v.Format? || v.Base64? || v.Object? || v.Arith? || v.Reduce?)
    ensures ValueOk(Slice(v, None, None), names) <==> ValueOk(Reduce(reducer, v), names)
  {
  }

  /** Each operand of a connective is checked, and there must be one. */
  lemma ConnectivesAccepted(ps: seq<Predicate>, names: Names)
    ensures PredicateOk(And(ps), names) <==> ps != [] && forall p | p in ps :: PredicateOk(p, names)
    ensures PredicateOk(Or(ps), names) <==> PredicateOk(And(ps), names)
  {
    EachAccepted(ps, names);
  }

  lemma {:induction false} EachAccepted(ps: seq<Predicate>, names: Names)
    ensures PredicatesOk(ps, names) <==> forall p | p in ps :: PredicateOk(p, names)
  {
    if ps != [] {
      var head, tail := ps[0], ps[1..];
      EachAccepted(tail, names);
      assert PredicatesOk(ps, names) == (PredicateOk(head, names) && PredicatesOk(tail, names));
      if PredicatesOk(ps, names) {
        forall p | p in ps ensures PredicateOk(p, names) {
          assert p == head || p in tail;
        }
      } else if PredicateOk(head, names) {
        var p :| p in tail && !PredicateOk(p, names);
        assert p in ps;
      } else {
        assert head in ps;
      }
    }
  }
}
