/** Laws of the expression language: what short-circuiting, branching, comparison and the views of a page
    mean (client/predicate.go, client/value.go, client/state.go). */
module Laws {
  import opened Syntax
  import opened Text
  import opened Runtime
  import opened Scopes
  import opened Eval

  // ---- predicates ----

  /** Every predicate before position n answers `b`. */
  predicate AllAnswer(lib: Lib, env: Env, ps: seq<Predicate>, n: nat, b: bool)
    requires n <= |ps|
  {
    forall i | 0 <= i < n :: EvalPredicate(lib, env, ps[i]) == Ok(b)
  }

  /** The operand at position n settles the junction: everything before it left it open. */
  lemma {:induction false} JunctionMeaning(lib: Lib, env: Env, ps: seq<Predicate>, decisive: bool, n: nat)
    requires n <= |ps| && AllAnswer(lib, env, ps, n, !decisive)
    ensures n == |ps| ==> EvalJunction(lib, env, ps, decisive) == Ok(!decisive)
    ensures n < |ps| && EvalPredicate(lib, env, ps[n]) != Ok(!decisive) ==>
      EvalJunction(lib, env, ps, decisive) == EvalPredicate(lib, env, ps[n])
    decreases |ps|
  {
    if ps != [] && n > 0 {
      assert forall i | 0 <= i < n - 1 :: ps[1..][i] == ps[i + 1];
      JunctionMeaning(lib, env, ps[1..], decisive, n - 1);
    }
  }

  function Negated(ps: seq<Predicate>): seq<Predicate> {
    seq(|ps|, i requires 0 <= i < |ps| => Not(ps[i]))
  }

  function Flipped(r: Result<bool>): Result<bool> {
    match r case Err => Err case Ok(b) => Ok(!b)
  }

  /** De Morgan, errors and evaluation order included. */
  lemma DeMorgan(lib: Lib, env: Env, ps: seq<Predicate>)
    ensures EvalPredicate(lib, env, Not(And(ps))) == EvalPredicate(lib, env, Or(Negated(ps)))
    ensures EvalPredicate(lib, env, Not(Or(ps))) == EvalPredicate(lib, env, And(Negated(ps)))
  {
    NegatedJunction(lib, env, ps, true);
    NegatedJunction(lib, env, ps, false);
  }

  lemma {:induction false} NegatedJunction(lib: Lib, env: Env, ps: seq<Predicate>, decisive: bool)
    ensures EvalJunction(lib, env, Negated(ps), decisive) == Flipped(EvalJunction(lib, env, ps, !decisive))
    decreases |ps|
  {
    if ps != [] {
      assert Negated(ps)[0] == Not(ps[0]) && Negated(ps)[1..] == Negated(ps[1..]);
      assert EvalPredicate(lib, env, Not(ps[0])) == Flipped(EvalPredicate(lib, env, ps[0]));
      NegatedJunction(lib, env, ps[1..], decisive);
    }
  }

  // ---- comparison ----

  /** Inside one comparable class the four verbs are the order of the ranks. */
  lemma ComparisonMeaning(lib: Lib, a: Rt, b: Rt)
    requires SameClass(RankOf(lib, a), RankOf(lib, b))
    ensures var c := CompareRanks(RankOf(lib, a), RankOf(lib, b));
      && CompareValues(lib, Gt, a, b) == Ok(c > 0)
      && CompareValues(lib, Lt, a, b) == Ok(c < 0)
      && CompareValues(lib, Gte, a, b) == Ok(c >= 0)
      && CompareValues(lib, Lte, a, b) == Ok(c <= 0)
  {
    OrderedCompareMeaning(lib, a, b);
  }

  /** Away from nil, `gt` and `lte` are opposites, and so are `lt` and `gte`; with a nil all four are false. */
  lemma ComparisonDuality(lib: Lib, a: Rt, b: Rt)
    ensures a != Nil && b != Nil ==>
      && CompareValues(lib, Gt, a, b) == Flipped(CompareValues(lib, Lte, a, b))
      && CompareValues(lib, Lt, a, b) == Flipped(CompareValues(lib, Gte, a, b))
    ensures a == Nil || b == Nil ==> forall v: Verb :: v != Eq ==> CompareValues(lib, v, a, b) == Ok(false)
  {
    match OrderedCompare(lib, a, b) {
      case Err =>
      case Ok(c) => assert c > 0 <==> !(c <= 0);
    }
  }

  /** Swapping the operands swaps the verbs, inside one class. */
  lemma ComparisonSwaps(lib: Lib, a: Rt, b: Rt)
    requires SameClass(RankOf(lib, a), RankOf(lib, b))
    ensures CompareValues(lib, Gt, a, b) == CompareValues(lib, Lt, b, a)
    ensures CompareValues(lib, Gte, a, b) == CompareValues(lib, Lte, b, a)
  {
    ComparisonMeaning(lib, a, b);
    ComparisonMeaning(lib, b, a);
    RanksPreorder(RankOf(lib, a), RankOf(lib, b), RankOf(lib, a));
  }

  // ---- branching ----

  lemma SelectsFrom(lib: Lib, env: Env, branches: seq<Branch>, otherwise: Value)
    ensures var taken := EvalBranches(lib, env, branches);
      EvalValue(lib, env, Select(branches, otherwise)) ==
        if taken.Err? then Err else if taken.value.Some? then Ok(taken.value.value) else EvalValue(lib, env, otherwise)
  {
  }

  /** A select takes its first branch whose predicate holds, and its default when every predicate is false. */
  lemma {:induction false} SelectMeaning(lib: Lib, env: Env, branches: seq<Branch>, otherwise: Value, n: nat)
    requires n <= |branches| && forall i | 0 <= i < n :: EvalPredicate(lib, env, branches[i].when) == Ok(false)
    ensures n == |branches| ==>
      EvalValue(lib, env, Select(branches, otherwise)) == EvalValue(lib, env, otherwise)
    ensures n < |branches| && EvalPredicate(lib, env, branches[n].when) == Ok(true) ==>
      EvalValue(lib, env, Select(branches, otherwise)) == EvalValue(lib, env, branches[n].value)
    ensures n < |branches| && EvalPredicate(lib, env, branches[n].when) == Err ==>
      EvalValue(lib, env, Select(branches, otherwise)) == Err
  {
    SelectsFrom(lib, env, branches, otherwise);
    BranchesMeaning(lib, env, branches, n);
    if n < |branches| {
      BranchMeaning(lib, env, branches[n]);
    }
  }

  lemma BranchMeaning(lib: Lib, env: Env, b: Branch)
    ensures EvalBranch(lib, env, b) ==
      match EvalPredicate(lib, env, b.when)
      case Err => Err
      case Ok(holds) =>
        if !holds then Ok(None)
        else if EvalValue(lib, env, b.value).Err? then Err
        else Ok(Some(EvalValue(lib, env, b.value).value))
  {
  }

  lemma {:induction false} BranchesMeaning(lib: Lib, env: Env, branches: seq<Branch>, n: nat)
    requires n <= |branches| && forall i | 0 <= i < n :: EvalPredicate(lib, env, branches[i].when) == Ok(false)
    ensures n == |branches| ==> EvalBranches(lib, env, branches) == Ok(None)
    ensures n < |branches| && EvalBranch(lib, env, branches[n]) != Ok(None) ==>
      EvalBranches(lib, env, branches) == EvalBranch(lib, env, branches[n])
    decreases |branches|
  {
    if branches != [] && n > 0 {
      assert EvalBranch(lib, env, branches[0]) == Ok(None);
      assert forall i | 0 <= i < n - 1 :: branches[1..][i] == branches[i + 1];
      BranchesMeaning(lib, env, branches[1..], n - 1);
    }
  }

  // ---- formats ----

  /** Text reads back as the number or truth value it came from; unix seconds lead back to the start of the
      second. */
  lemma FormatsReadBack(lib: Lib, n: int, b: bool, t: int)
    ensures ApplyFormat(lib, "int", Str(ToString(lib, Int(n)))) == Ok(Int(n)) <==> InInt64(n)
    ensures ApplyFormat(lib, "bool", Str(ToString(lib, Bool(b)))) == Ok(Bool(b))
    ensures var seconds := ApplyFormat(lib, "unix_seconds", Time(t));
      seconds.Ok? && ToTime(lib, seconds.value) == Some(t - t % SECOND)
  {
    ParseIntToString(n);
    assert t / SECOND * SECOND == t - t % SECOND;
  }

  // ---- the views of a page ----

  /** The five ways to read a page agree: first and last are the outer indices, a projection holds what each
      index holds, and the count is the length. */
  lemma EventViewsAgree(list: seq<Rt>, rest: seq<string>, i: nat)
    requires i < |list| <= INT64_MAX
    ensures ResolveEvents(Arr(list), ["first"] + rest) == ResolveEvents(Arr(list), [IntToString(0)] + rest)
    ensures ResolveEvents(Arr(list), ["last"] + rest) == ResolveEvents(Arr(list), [IntToString(|list| - 1)] + rest)
    ensures ResolveEvents(Arr(list), ["count"]) == Ok(Some(Int(|list|)))
    ensures ResolveEvents(Arr(list), [IntToString(i)] + rest) == Ok(Walk(list[i], rest))
    ensures var all := ResolveEvents(Arr(list), ["*"] + rest);
      && all.Ok? && all.value.Some? && all.value.value.Arr? && |all.value.value.elems| == |list|
      && all.value.value.elems[i] == match Walk(list[i], rest) case Some(v) => v case None => Nil
  {
    IndexReads(list, rest, 0);
    IndexReads(list, rest, |list| - 1);
    IndexReads(list, rest, i);
    assert (["first"] + rest)[1..] == rest && (["last"] + rest)[1..] == rest && (["*"] + rest)[1..] == rest;
  }

  /** A decimal index is not one of the named views. */
  lemma IndexReads(list: seq<Rt>, rest: seq<string>, i: nat)
    requires i < |list| <= INT64_MAX
    ensures ResolveEvents(Arr(list), [IntToString(i)] + rest) == Ok(Walk(list[i], rest))
  {
    ParseIntToString(i);
    assert ([IntToString(i)] + rest)[1..] == rest;
    assert IntToString(i)[0] <= '9' && "count"[0] > '9' && "first"[0] > '9' && "last"[0] > '9';
    assert IntToString(i)[0] >= '0' && "*"[0] < '0';
  }
}
