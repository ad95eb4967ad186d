/** The secret-taint analysis (schema/value.go IsSecret) and what it guarantees about evaluation. */
module Secrecy {
  import opened Syntax
  import opened Runtime
  import opened Scopes
  import opened Eval

  // ---- the analysis, as the source writes it ----

  predicate IsSecretPath(d: Doc, p: Path) {
    |p.parts| >= 2 && p.parts[0] == "state" && p.parts[1] in d.state && d.state[p.parts[1]].kind == "secret"
  }

  predicate IsSecret(d: Doc, v: Value)
    decreases v, 1
  {
    match v
    case Null => false
    case Unset => false
    case LitStr(_) => false
    case LitInt(_) => false
    case LitBool(_) => false
    case Now => false
    case Ref(path, default) => IsSecretPath(d, path) || (default.Some? && IsSecret(d, default.value))
    case Concat(parts) => AnySecret(d, parts)
    case Select(branches, otherwise) => BranchesSecret(d, branches) || IsSecret(d, otherwise)
    case Format(_, inner) => IsSecret(d, inner)
    case Base64(inner) => IsSecret(d, inner)
    case List(elems) => AnySecret(d, elems)
    case Object(fields) => exists k | k in fields :: IsSecret(d, fields[k])
    case Arith(_, operands) => AnySecret(d, operands)
    case Reduce(_, operand) => IsSecret(d, operand)
    case Slice(operand, _, _) => IsSecret(d, operand)
    case Regex(_, source, _, default) => IsSecret(d, source) || (default.Some? && IsSecret(d, default.value))
  }

  predicate AnySecret(d: Doc, vs: seq<Value>)
    decreases vs, 0
  {
    vs != [] && (IsSecret(d, vs[0]) || AnySecret(d, vs[1..]))
  }

  predicate BranchesSecret(d: Doc, branches: seq<Branch>)
    decreases branches, 0
  {
    branches != [] && (BranchSecret(d, branches[0]) || BranchesSecret(d, branches[1..]))
  }

  predicate BranchSecret(d: Doc, b: Branch)
    decreases b, 1
  {
    PredicateSecret(d, b.when) || IsSecret(d, b.value)
  }

  predicate PredicateSecret(d: Doc, p: Predicate)
    decreases p, 1
  {
    match p
    case NoPredicate => false
    case LiteralBool(_) => false
    case Compare(_, path, value) => IsSecretPath(d, path) || IsSecret(d, value)
    case Present(path) => IsSecretPath(d, path)
    case And(all) => AnyPredicateSecret(d, all)
    case Or(any) => AnyPredicateSecret(d, any)
    case Not(q) => PredicateSecret(d, q)
  }

  predicate AnyPredicateSecret(d: Doc, ps: seq<Predicate>)
    decreases ps, 0
  {
    ps != [] && (PredicateSecret(d, ps[0]) || AnyPredicateSecret(d, ps[1..]))
  }

  // ---- the reference notion: which state fields evaluation can read ----

  function PathReads(p: Path): set<string> {
    if |p.parts| >= 2 && p.parts[0] == "state" then {p.parts[1]} else {}
  }

  function Reads(v: Value): set<string>
    decreases v, 1
  {
    match v
    case Ref(path, default) => PathReads(path) + (match default case Some(d) => Reads(d) case None => {})
    case Concat(parts) => ReadsAll(parts)
    case Select(branches, otherwise) => BranchesRead(branches) + Reads(otherwise)
    case Format(_, inner) => Reads(inner)
    case Base64(inner) => Reads(inner)
    case List(elems) => ReadsAll(elems)
    case Object(fields) => set k, f | k in fields && f in Reads(fields[k]) :: f
    case Arith(_, operands) => ReadsAll(operands)
    case Reduce(_, operand) => Reads(operand)
    case Slice(operand, _, _) => Reads(operand)
    case Regex(_, source, _, default) => Reads(source) + (match default case Some(d) => Reads(d) case None => {})
    case _ => {}
  }

  function ReadsAll(vs: seq<Value>): set<string>
    decreases vs, 0
  {
    if vs == [] then {} else Reads(vs[0]) + ReadsAll(vs[1..])
  }

  function BranchesRead(branches: seq<Branch>): set<string>
    decreases branches, 0
  {
    if branches == [] then {} else BranchReads(branches[0]) + BranchesRead(branches[1..])
  }

  function BranchReads(b: Branch): set<string>
    decreases b, 1
  {
    PredicateReads(b.when) + Reads(b.value)
  }

  function PredicateReads(p: Predicate): set<string>
    decreases p, 1
  {
    match p
    case Compare(_, path, value) => PathReads(path) + Reads(value)
    case Present(path) => PathReads(path)
    case And(all) => PredicatesRead(all)
    case Or(any) => PredicatesRead(any)
    case Not(q) => PredicateReads(q)
    case _ => {}
  }

  function PredicatesRead(ps: seq<Predicate>): set<string>
    decreases ps, 0
  {
    if ps == [] then {} else PredicateReads(ps[0]) + PredicatesRead(ps[1..])
  }

  // ---- evaluation depends on those fields alone ----

  /** The two scopes are the same except for state fields outside `fields`. */
  ghost predicate AgreeOn(a: Env, b: Env, fields: set<string>) {
    b == a.(state := b.state) && forall f | f in fields :: SameField(a.state, b.state, f)
  }

  lemma ResolveReads(lib: Lib, a: Env, b: Env, p: Path)
    requires AgreeOn(a, b, PathReads(p))
    ensures Resolve(lib, a, p) == Resolve(lib, b, p)
  {
    if |p.parts| >= 2 && p.parts[0] == "state" {
      assert SameField(a.state, b.state, p.parts[1]);
    }
  }

  lemma {:induction false} EvalReads(lib: Lib, a: Env, b: Env, v: Value)
    requires AgreeOn(a, b, Reads(v))
    ensures EvalValue(lib, a, v) == EvalValue(lib, b, v)
    decreases v, 1
  {
    match v
    case Concat(parts) => EvalAllReads(lib, a, b, parts);
    case List(elems) => EvalAllReads(lib, a, b, elems);
    case Arith(_, operands) => EvalAllReads(lib, a, b, operands);
    case Object(_) => EvalObjectReads(lib, a, b, v);
    case Select(_, _) => EvalSelectReads(lib, a, b, v);
    case Ref(_, _) => EvalDefaultedReads(lib, a, b, v);
    case Regex(_, _, _, _) => EvalDefaultedReads(lib, a, b, v);
    case Format(_, _) => EvalUnaryReads(lib, a, b, v);
    case Base64(_) => EvalUnaryReads(lib, a, b, v);
    case Reduce(_, _) => EvalUnaryReads(lib, a, b, v);
    case Slice(_, _, _) => EvalUnaryReads(lib, a, b, v);
    case _ =>
  }

  lemma {:induction false} EvalUnaryReads(lib: Lib, a: Env, b: Env, v: Value)
    requires v.Format? || v.Base64? || v.Reduce? || v.Slice?
    requires AgreeOn(a, b, Reads(v))
    ensures EvalValue(lib, a, v) == EvalValue(lib, b, v)
    decreases v, 0
  {
    match v
    case Format(_, inner) => EvalReads(lib, a, b, inner);
    case Base64(inner) => EvalReads(lib, a, b, inner);
    case Reduce(_, operand) => EvalReads(lib, a, b, operand);
    case Slice(operand, _, _) => EvalReads(lib, a, b, operand);
  }

  lemma {:induction false} EvalSelectReads(lib: Lib, a: Env, b: Env, v: Value)
    requires v.Select? && AgreeOn(a, b, Reads(v))
    ensures EvalValue(lib, a, v) == EvalValue(lib, b, v)
    decreases v, 0
  {
    EvalBranchesReads(lib, a, b, v.branches);
    EvalReads(lib, a, b, v.otherwise);
  }

  lemma {:induction false} EvalDefaultedReads(lib: Lib, a: Env, b: Env, v: Value)
    requires v.Ref? || v.Regex?
    requires AgreeOn(a, b, Reads(v))
    ensures EvalValue(lib, a, v) == EvalValue(lib, b, v)
    decreases v, 0
  {
    EvalDefaultReads(lib, a, b, v.default);
    if v.Ref? {
      ResolveReads(lib, a, b, v.path);
    } else {
      EvalReads(lib, a, b, v.source);
    }
  }

  lemma {:induction false} EvalDefaultReads(lib: Lib, a: Env, b: Env, default: Option<Value>)
    requires default.Some? ==> AgreeOn(a, b, Reads(default.value))
    ensures EvalDefault(lib, a, default) == EvalDefault(lib, b, default)
    decreases default, 0
  {
    if default.Some? {
      EvalReads(lib, a, b, default.value);
    }
  }

  lemma {:induction false} EvalObjectReads(lib: Lib, a: Env, b: Env, v: Value)
    requires v.Object? && AgreeOn(a, b, Reads(v))
    ensures EvalValue(lib, a, v) == EvalValue(lib, b, v)
    decreases v, 0
  {
    var fields := v.fields;
    forall k | k in fields ensures EvalValue(lib, a, fields[k]) == EvalValue(lib, b, fields[k]) {
      assert Reads(fields[k]) <= Reads(v);
      EvalReads(lib, a, b, fields[k]);
    }
    var ra, rb := EvalValue(lib, a, v), EvalValue(lib, b, v);
    assert ra.Ok? <==> forall k | k in fields :: EvalValue(lib, a, fields[k]).Ok?;
    assert rb.Ok? <==> forall k | k in fields :: EvalValue(lib, b, fields[k]).Ok?;
    if ra.Ok? {
      assert ra.value.Obj? && rb.value.Obj? && ra.value.fields == rb.value.fields;
    }
  }

  lemma {:induction false} EvalAllReads(lib: Lib, a: Env, b: Env, vs: seq<Value>)
    requires AgreeOn(a, b, ReadsAll(vs))
    ensures EvalAll(lib, a, vs) == EvalAll(lib, b, vs)
    decreases vs, 0
  {
    if vs != [] {
      EvalReads(lib, a, b, vs[0]);
      EvalAllReads(lib, a, b, vs[1..]);
    }
  }

  lemma {:induction false} EvalBranchesReads(lib: Lib, a: Env, b: Env, branches: seq<Branch>)
    requires AgreeOn(a, b, BranchesRead(branches))
    ensures EvalBranches(lib, a, branches) == EvalBranches(lib, b, branches)
    decreases branches, 0
  {
    if branches != [] {
      EvalBranchReads(lib, a, b, branches[0]);
      EvalBranchesReads(lib, a, b, branches[1..]);
    }
  }

  lemma {:induction false} EvalBranchReads(lib: Lib, a: Env, b: Env, branch: Branch)
    requires AgreeOn(a, b, BranchReads(branch))
    ensures EvalBranch(lib, a, branch) == EvalBranch(lib, b, branch)
    decreases branch, 1
  {
    EvalPredicateReads(lib, a, b, branch.when);
    EvalReads(lib, a, b, branch.value);
  }

  lemma {:induction false} EvalPredicateReads(lib: Lib, a: Env, b: Env, p: Predicate)
    requires AgreeOn(a, b, PredicateReads(p))
    ensures EvalPredicate(lib, a, p) == EvalPredicate(lib, b, p)
    decreases p, 1
  {
    match p
    case Compare(_, path, value) =>
      ResolveReads(lib, a, b, path);
      EvalReads(lib, a, b, value);
    case Present(path) => ResolveReads(lib, a, b, path);
    case And(all) => EvalJunctionReads(lib, a, b, all, false);
    case Or(any) => EvalJunctionReads(lib, a, b, any, true);
    case Not(q) => EvalPredicateReads(lib, a, b, q);
    case _ =>
  }

  lemma {:induction false} EvalJunctionReads(lib: Lib, a: Env, b: Env, ps: seq<Predicate>, decisive: bool)
    requires AgreeOn(a, b, PredicatesRead(ps))
    ensures EvalJunction(lib, a, ps, decisive) == EvalJunction(lib, b, ps, decisive)
    decreases ps, 0
  {
    if ps != [] {
      EvalPredicateReads(lib, a, b, ps[0]);
      EvalJunctionReads(lib, a, b, ps[1..], decisive);
    }
  }

  // ---- the analysis computes exactly "reads a secret field" ----

  function SecretFields(d: Doc): set<string> {
    set f | f in d.state && d.state[f].kind == "secret"
  }

  lemma {:induction false} IsSecretExact(d: Doc, v: Value)
    ensures !IsSecret(d, v) <==> Reads(v) !! SecretFields(d)
    decreases v, 1
  {
    match v
    case Ref(_, default) => if default.Some? { IsSecretExact(d, default.value); }
    case Concat(parts) => AnySecretExact(d, parts);
    case Select(branches, otherwise) =>
      BranchesSecretExact(d, branches);
      IsSecretExact(d, otherwise);
    case Format(_, inner) => IsSecretExact(d, inner);
    case Base64(inner) => IsSecretExact(d, inner);
    case List(elems) => AnySecretExact(d, elems);
    case Object(fields) =>
      forall k | k in fields ensures !IsSecret(d, fields[k]) <==> Reads(fields[k]) !! SecretFields(d) {
        IsSecretExact(d, fields[k]);
      }
      ObjectReads(fields, SecretFields(d));
    case Arith(_, operands) => AnySecretExact(d, operands);
    case Reduce(_, operand) => IsSecretExact(d, operand);
    case Slice(operand, _, _) => IsSecretExact(d, operand);
    case Regex(_, source, _, default) =>
      IsSecretExact(d, source);
      if default.Some? { IsSecretExact(d, default.value); }
    case _ =>
  }

  lemma ObjectReads(fields: map<string, Value>, s: set<string>)
    ensures Reads(Object(fields)) !! s <==> forall k | k in fields :: Reads(fields[k]) !! s
  {
    assert forall k | k in fields :: Reads(fields[k]) <= Reads(Object(fields));
  }

  lemma {:induction false} AnySecretExact(d: Doc, vs: seq<Value>)
    ensures !AnySecret(d, vs) <==> ReadsAll(vs) !! SecretFields(d)
    decreases vs, 0
  {
    if vs != [] {
      IsSecretExact(d, vs[0]);
      AnySecretExact(d, vs[1..]);
    }
  }

  lemma {:induction false} BranchesSecretExact(d: Doc, branches: seq<Branch>)
    ensures !BranchesSecret(d, branches) <==> BranchesRead(branches) !! SecretFields(d)
    decreases branches, 0
  {
    if branches != [] {
      BranchSecretExact(d, branches[0]);
      BranchesSecretExact(d, branches[1..]);
    }
  }

  lemma {:induction false} BranchSecretExact(d: Doc, b: Branch)
    ensures !BranchSecret(d, b) <==> BranchReads(b) !! SecretFields(d)
    decreases b, 1
  {
    PredicateSecretExact(d, b.when);
    IsSecretExact(d, b.value);
  }

  lemma {:induction false} PredicateSecretExact(d: Doc, p: Predicate)
    ensures !PredicateSecret(d, p) <==> PredicateReads(p) !! SecretFields(d)
    decreases p, 1
  {
    match p
    case Compare(_, _, value) => IsSecretExact(d, value);
    case And(all) => AnyPredicateSecretExact(d, all);
    case Or(any) => AnyPredicateSecretExact(d, any);
    case Not(q) => PredicateSecretExact(d, q);
    case _ =>
  }

  lemma {:induction false} AnyPredicateSecretExact(d: Doc, ps: seq<Predicate>)
    ensures !AnyPredicateSecret(d, ps) <==> PredicatesRead(ps) !! SecretFields(d)
    decreases ps, 0
  {
    if ps != [] {
      PredicateSecretExact(d, ps[0]);
      AnyPredicateSecretExact(d, ps[1..]);
    }
  }

  // ---- noninterference ----

  /** The scopes differ at most in the contents of secret fields. */
  ghost predicate PublicEqual(d: Doc, a: Env, b: Env) {
    b == a.(state := b.state) && forall f | f !in SecretFields(d) :: SameField(a.state, b.state, f)
  }

  /** A Value the analysis passes evaluates to the same result, or the same failure, whatever the
      secret fields hold. */
  lemma Noninterference(lib: Lib, d: Doc, v: Value, a: Env, b: Env)
    requires !IsSecret(d, v) && PublicEqual(d, a, b)
    ensures EvalValue(lib, a, v) == EvalValue(lib, b, v)
  {
    IsSecretExact(d, v);
    EvalReads(lib, a, b, v);
  }

  lemma PredicateNoninterference(lib: Lib, d: Doc, p: Predicate, a: Env, b: Env)
    requires !PredicateSecret(d, p) && PublicEqual(d, a, b)
    ensures EvalPredicate(lib, a, p) == EvalPredicate(lib, b, p)
  {
    PredicateSecretExact(d, p);
    EvalPredicateReads(lib, a, b, p);
  }

  /** The marked references are not marked in vain: any two contents of a secret field that a ref
      does not treat as zero are told apart by it. */
  lemma SecretRefTellsApart(lib: Lib, d: Doc, f: string, a: Env, x: Rt, y: Rt)
    requires f in SecretFields(d) && a.alias != "state" && x != y && !IsZero(x) && !IsZero(y)
    ensures var v := Ref(Path(["state", f], false), None);
      var b, c := a.(state := a.state[f := x]), a.(state := a.state[f := y]);
      IsSecret(d, v) && PublicEqual(d, b, c) && EvalValue(lib, b, v) != EvalValue(lib, c, v)
  {
    var p := Path(["state", f], false);
    var b, c := a.(state := a.state[f := x]), a.(state := a.state[f := y]);
    assert p.parts[1..] == [f] && [f][1..] == [];
    assert Resolve(lib, b, p) == Ok(Some(x)) && Resolve(lib, c, p) == Ok(Some(y));
    assert PublicEqual(d, b, c);
  }
}
