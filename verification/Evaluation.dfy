/** What the forms of the expression language evaluate to, in terms of what their operands evaluate to
    (client/value.go evalValue and its helpers, docs/runtime.md). */
module Evaluation {
  import opened Syntax
  import opened Text
  import opened Runtime
  import opened Scopes
  import opened Eval

  /** The value evaluates, and to this. */
  predicate Gives(lib: Lib, env: Env, v: Value, r: Rt) {
    EvalValue(lib, env, v) == Ok(r)
  }

  // ---- literals, references and collections ----

  /** A literal is its own value in every scope; the zero Value of the schema is none. */
  lemma LiteralsMeaning(lib: Lib, env: Env, s: string, n: int, b: bool)
    ensures Gives(lib, env, LitStr(s), Str(s)) && Gives(lib, env, LitInt(n), Int(n))
    ensures Gives(lib, env, LitBool(b), Bool(b))
    ensures Gives(lib, env, Null, Nil) && Gives(lib, env, Now, Time(env.now)) && EvalValue(lib, env, Unset).Err?
  {
  }

  /** What a default replaces. */
  predicate Empty(v: Rt) {
    v in {Nil, Str(""), Arr([]), Obj(map[])}
  }

  /** A reference gives what its path leads to; only an absent or empty leaf is replaced by the default, or by nil
      when there is none. A path that does not resolve is an error, whatever the default. */
  lemma ReferenceMeaning(lib: Lib, env: Env, path: Path, default: Value, leaf: Option<Rt>)
    ensures Resolve(lib, env, path) == Ok(leaf) && leaf.Some? && !Empty(leaf.value) ==>
      Gives(lib, env, Ref(path, None), leaf.value) && Gives(lib, env, Ref(path, Some(default)), leaf.value)
    ensures Resolve(lib, env, path) == Ok(leaf) && (leaf.None? || Empty(leaf.value)) ==>
      && Gives(lib, env, Ref(path, None), Nil)
      && EvalValue(lib, env, Ref(path, Some(default))) == EvalValue(lib, env, default)
    ensures Resolve(lib, env, path).Err? ==>
      EvalValue(lib, env, Ref(path, None)).Err? && EvalValue(lib, env, Ref(path, Some(default))).Err?
  {
  }

  /** The list of values some expressions give, in order. */
  ghost predicate GiveAll(lib: Lib, env: Env, vs: seq<Value>, list: seq<Rt>) {
    |vs| == |list| && forall i | 0 <= i < |vs| :: Gives(lib, env, vs[i], list[i])
  }

  lemma {:induction false} AllMeaning(lib: Lib, env: Env, vs: seq<Value>)
    ensures EvalAll(lib, env, vs).Ok? <==> forall i | 0 <= i < |vs| :: EvalValue(lib, env, vs[i]).Ok?
    ensures EvalAll(lib, env, vs).Ok? ==> GiveAll(lib, env, vs, EvalAll(lib, env, vs).value)
  {
    if vs != [] {
      AllMeaning(lib, env, vs[1..]);
      assert forall i | 1 <= i < |vs| :: vs[i] == vs[1..][i - 1];
      if forall i | 0 <= i < |vs| :: EvalValue(lib, env, vs[i]).Ok? {
        assert forall i | 0 <= i < |vs[1..]| :: EvalValue(lib, env, vs[1..][i]).Ok?;
      }
    }
  }

  lemma GivenOnce(lib: Lib, env: Env, vs: seq<Value>, list: seq<Rt>)
    requires GiveAll(lib, env, vs, list)
    ensures EvalAll(lib, env, vs) == Ok(list)
  {
    AllMeaning(lib, env, vs);
    assert EvalAll(lib, env, vs).value == list;
  }

  /** A list holds the values of its elements in order; one failing element fails the list. */
  lemma ListMeaning(lib: Lib, env: Env, vs: seq<Value>, list: seq<Rt>)
    ensures GiveAll(lib, env, vs, list) ==> Gives(lib, env, List(vs), Arr(list))
    ensures (exists i :: 0 <= i < |vs| && EvalValue(lib, env, vs[i]).Err?) ==>
      EvalValue(lib, env, List(vs)).Err? && EvalValue(lib, env, Concat(vs)).Err?
  {
    AllMeaning(lib, env, vs);
    if GiveAll(lib, env, vs, list) {
      GivenOnce(lib, env, vs, list);
    }
  }

  /** The texts of a list, one after the other. */
  function Texts(lib: Lib, list: seq<Rt>): string {
    if list == [] then "" else Texts(lib, list[..|list| - 1]) + ToString(lib, list[|list| - 1])
  }

  lemma {:induction false} TextsCons(lib: Lib, x: Rt, list: seq<Rt>)
    ensures Texts(lib, [x] + list) == ToString(lib, x) + Texts(lib, list)
    decreases |list|
  {
    var all := [x] + list;
    if list == [] {
      assert all[..|all| - 1] == [] && Texts(lib, all) == "" + ToString(lib, x);
    } else {
      var front, last := list[..|list| - 1], list[|list| - 1];
      assert all[..|all| - 1] == [x] + front && all[|all| - 1] == last;
      TextsCons(lib, x, front);
      Associate(ToString(lib, x), Texts(lib, front), ToString(lib, last));
    }
  }

  lemma Associate(a: string, b: string, c: string)
    ensures a + b + c == a + (b + c)
  {
  }

  lemma {:induction false} ConcatIsTexts(lib: Lib, list: seq<Rt>)
    ensures ConcatStrings(lib, list) == Texts(lib, list)
  {
    if list != [] {
      ConcatIsTexts(lib, list[1..]);
      TextsCons(lib, list[0], list[1..]);
      assert list == [list[0]] + list[1..];
    }
  }

  /** A concatenation is the text of its parts in order, nil being the empty text. */
  lemma ConcatMeaning(lib: Lib, env: Env, vs: seq<Value>, list: seq<Rt>)
    requires GiveAll(lib, env, vs, list)
    ensures Gives(lib, env, Concat(vs), Str(Texts(lib, list)))
    ensures ToString(lib, Nil) == ""
  {
    GivenOnce(lib, env, vs, list);
    ConcatIsTexts(lib, list);
  }

  /** An object has exactly the given keys, each with its own value. */
  lemma ObjectMeaning(lib: Lib, env: Env, fields: map<string, Value>)
    ensures EvalValue(lib, env, Object(fields)).Ok? <==> forall k | k in fields :: EvalValue(lib, env, fields[k]).Ok?
    ensures EvalValue(lib, env, Object(fields)).Ok? ==>
      && EvalValue(lib, env, Object(fields)).value.Obj?
      && var r := EvalValue(lib, env, Object(fields)).value.fields;
         r.Keys == fields.Keys && forall k | k in fields :: Gives(lib, env, fields[k], r[k])
  {
  }

  // ---- arithmetic ----

  /** Two operands that evaluate are added or subtracted as values, unless one of them is nil. */
  lemma ArithmeticApplies(lib: Lib, env: Env, a: Value, b: Value, x: Rt, y: Rt)
    requires Gives(lib, env, a, x) && Gives(lib, env, b, y)
    ensures x != Nil && y != Nil ==>
      && EvalValue(lib, env, Arith(AddOp, [a, b])) == ArithAdd(lib, x, y)
      && EvalValue(lib, env, Arith(SubtractOp, [a, b])) == ArithSubtract(lib, x, y)
    ensures x == Nil || y == Nil ==>
      Gives(lib, env, Arith(AddOp, [a, b]), Nil) && Gives(lib, env, Arith(SubtractOp, [a, b]), Nil)
  {
    PairEvaluates(lib, env, a, b);
  }

  /** An absent operand makes the result absent, a failing one makes it fail. */
  lemma ArithmeticOfNothing(lib: Lib, env: Env, op: ArithOp, a: Value, b: Value, x: Rt)
    ensures Gives(lib, env, a, Nil) && Gives(lib, env, b, x) ==> Gives(lib, env, Arith(op, [a, b]), Nil)
    ensures Gives(lib, env, a, x) && Gives(lib, env, b, Nil) ==> Gives(lib, env, Arith(op, [a, b]), Nil)
    ensures EvalValue(lib, env, a).Err? || EvalValue(lib, env, b).Err? ==> EvalValue(lib, env, Arith(op, [a, b])).Err?
  {
    AllMeaning(lib, env, [a, b]);
    assert [a, b][0] == a && [a, b][1] == b;
    if EvalValue(lib, env, a).Ok? && EvalValue(lib, env, b).Ok? {
      PairEvaluates(lib, env, a, b);
    }
  }

  /** Arithmetic takes two operands, no more and no fewer. */
  lemma ArithmeticIsBinary(lib: Lib, env: Env, op: ArithOp, operands: seq<Value>)
    ensures EvalValue(lib, env, Arith(op, operands)).Ok? ==> |operands| == 2
  {
  }

  /** Two integers: `add` is their sum and `subtract` their difference, both modulo 2 to the 64. */
  lemma IntegerArithmetic(lib: Lib, env: Env, a: Value, b: Value, m: int, n: int)
    requires Gives(lib, env, a, Int(m)) && Gives(lib, env, b, Int(n))
    ensures exists k {:trigger Gives(lib, env, Arith(AddOp, [a, b]), Int(k))} ::
      && Gives(lib, env, Arith(AddOp, [a, b]), Int(k)) && InInt64(k)
      && (k - (m + n)) % 0x1_0000_0000_0000_0000 == 0 && (InInt64(m + n) ==> k == m + n)
    ensures exists k {:trigger Gives(lib, env, Arith(SubtractOp, [a, b]), Int(k))} ::
      && Gives(lib, env, Arith(SubtractOp, [a, b]), Int(k)) && InInt64(k)
      && (k - (m - n)) % 0x1_0000_0000_0000_0000 == 0 && (InInt64(m - n) ==> k == m - n)
  {
    ArithmeticApplies(lib, env, a, b, Int(m), Int(n));
    WrapMeaning(m + n);
    WrapMeaning(m - n);
    assert Gives(lib, env, Arith(AddOp, [a, b]), Int(Wrap64(m + n)));
    assert Gives(lib, env, Arith(SubtractOp, [a, b]), Int(Wrap64(m - n)));
  }

  lemma WrapMeaning(n: int)
    ensures (Wrap64(n) - n) % 0x1_0000_0000_0000_0000 == 0
  {
    var w := 0x1_0000_0000_0000_0000;
    var q := (n - INT64_MIN) / w;
    assert n - INT64_MIN == q * w + (n - INT64_MIN) % w;
    assert Wrap64(n) - n == -q * w;
  }

  /** JSON numbers count as the integers they truncate to. */
  lemma FloatArithmetic(lib: Lib, env: Env, a: Value, b: Value, x: real, n: int)
    requires Gives(lib, env, a, Float(x)) && Gives(lib, env, b, Int(n))
    requires InInt64(Trunc(x) + n) && InInt64(Trunc(x) - n)
    ensures Gives(lib, env, Arith(AddOp, [a, b]), Int(Trunc(x) + n))
    ensures Gives(lib, env, Arith(SubtractOp, [a, b]), Int(Trunc(x) - n))
  {
    ArithmeticApplies(lib, env, a, b, Float(x), Int(n));
  }

  /** An instant: a time, or a text that reads as one. */
  predicate IsTimeAt(lib: Lib, r: Rt, t: int) {
    r == Time(t) || (r.Str? && lib.parseTime(r.s) == Some(t))
  }

  /** A span: a duration, a text that reads as one but not as a time, or a whole number of nanoseconds. */
  predicate IsSpan(lib: Lib, r: Rt, d: int) {
    || r == Dur(d)
    || (r.Str? && lib.parseTime(r.s).None? && lib.parseDuration(r.s) == Some(d))
    || r == Int(d) || (r.Float? && Trunc(r.x) == d)
  }

  /** An instant plus a span, in either order, is the later instant; minus a span it is the earlier one. */
  lemma InstantArithmetic(lib: Lib, env: Env, a: Value, b: Value, x: Rt, y: Rt, t: int, d: int)
    requires Gives(lib, env, a, x) && Gives(lib, env, b, y) && IsTimeAt(lib, x, t) && IsSpan(lib, y, d)
    ensures Gives(lib, env, Arith(AddOp, [a, b]), Time(t + d)) && Gives(lib, env, Arith(AddOp, [b, a]), Time(t + d))
    ensures INT64_MIN < d <= INT64_MAX ==> Gives(lib, env, Arith(SubtractOp, [a, b]), Time(t - d))
    ensures EvalValue(lib, env, Arith(SubtractOp, [b, a])).Err?
  {
    ArithmeticApplies(lib, env, a, b, x, y);
    ArithmeticApplies(lib, env, b, a, y, x);
    InstantAndSpan(lib, x, y, t, d);
  }

  lemma InstantAndSpan(lib: Lib, x: Rt, y: Rt, t: int, d: int)
    requires IsTimeAt(lib, x, t) && IsSpan(lib, y, d)
    ensures x != Nil && y != Nil
    ensures ArithAdd(lib, x, y) == Ok(Time(t + d)) == ArithAdd(lib, y, x)
    ensures INT64_MIN < d <= INT64_MAX ==> ArithSubtract(lib, x, y) == Ok(Time(t - d))
    ensures ArithSubtract(lib, y, x).Err?
  {
    assert AsTime(lib, x) == Some(t) && AsTime(lib, y).None? && ToDuration(lib, y) == Some(d);
  }

  /** Two instants have a difference, the closest 64-bit span to it, and no sum. */
  lemma InstantDifference(lib: Lib, env: Env, a: Value, b: Value, x: Rt, y: Rt, t: int, u: int)
    requires Gives(lib, env, a, x) && Gives(lib, env, b, y) && IsTimeAt(lib, x, t) && y == Time(u)
    ensures EvalValue(lib, env, Arith(AddOp, [a, b])).Err?
    ensures EvalValue(lib, env, Arith(SubtractOp, [a, b])).Ok?
    ensures EvalValue(lib, env, Arith(SubtractOp, [a, b])).value.Dur?
    ensures var d := EvalValue(lib, env, Arith(SubtractOp, [a, b])).value.d;
      InInt64(d) && forall e | InInt64(e) :: Distance(d, t - u) <= Distance(e, t - u)
  {
    ArithmeticApplies(lib, env, a, b, x, y);
    assert AsTime(lib, x) == Some(t) && AsTime(lib, y) == Some(u) && ToDuration(lib, y).None?;
  }

  function Distance(a: int, b: int): nat {
    if a < b then b - a else a - b
  }

  /** Two spans that are not both numbers add up and subtract to a span. */
  lemma SpanArithmetic(lib: Lib, env: Env, a: Value, b: Value, x: Rt, y: Rt, d: int, e: int)
    requires Gives(lib, env, a, x) && Gives(lib, env, b, y) && IsSpan(lib, x, d) && IsSpan(lib, y, e)
    requires !((x.Int? || x.Float?) && (y.Int? || y.Float?)) && InInt64(d + e) && InInt64(d - e)
    ensures Gives(lib, env, Arith(AddOp, [a, b]), Dur(d + e))
    ensures Gives(lib, env, Arith(SubtractOp, [a, b]), Dur(d - e))
  {
    ArithmeticApplies(lib, env, a, b, x, y);
  }

  // ---- reducers and slices ----

  /** The list an operand stands for: nil counts as the empty list. */
  predicate Lists(r: Rt, list: seq<Rt>) {
    r == Arr(list) || (r == Nil && list == [])
  }

  /** A slice keeps the elements whose index respects both bounds. */
  lemma SliceMeaning(lib: Lib, env: Env, v: Value, r: Rt, list: seq<Rt>, from: Option<int>, to: Option<int>)
    requires Gives(lib, env, v, r) && Lists(r, list)
    ensures Gives(lib, env, Slice(v, from, to), Arr(Window(list, 0, from, to)))
  {
    SliceIsWindow(list, from, to);
    OperandIsList(r, list);
  }

  lemma OperandIsList(r: Rt, list: seq<Rt>)
    requires Lists(r, list)
    ensures AsList(Ok(r)) == Ok(list)
  {
  }

  /** `count` counts nil entries too. */
  lemma CountMeaning(lib: Lib, env: Env, v: Value, r: Rt, list: seq<Rt>)
    requires Gives(lib, env, v, r) && Lists(r, list)
    ensures Gives(lib, env, Reduce(Count, v), Int(|list|))
  {
    OperandIsList(r, list);
  }

  /** `first` and `last` skip nil entries; a list of nothing but nil has no outermost element. */
  lemma EndsMeaning(lib: Lib, env: Env, v: Value, r: Rt, list: seq<Rt>, i: nat)
    requires Gives(lib, env, v, r) && Lists(r, list)
    ensures i < |list| && list[i] != Nil && (forall j | 0 <= j < i :: list[j] == Nil) ==>
      Gives(lib, env, Reduce(First, v), list[i])
    ensures LastAt(list, i) ==> Gives(lib, env, Reduce(Last, v), list[i])
  {
  }

  lemma NothingToReduce(lib: Lib, env: Env, v: Value, r: Rt, list: seq<Rt>)
    requires Gives(lib, env, v, r) && Lists(r, list) && forall i | 0 <= i < |list| :: list[i] == Nil
    ensures Gives(lib, env, Reduce(First, v), Nil) && Gives(lib, env, Reduce(Last, v), Nil)
    ensures Gives(lib, env, Reduce(Max, v), Nil) && Gives(lib, env, Reduce(Min, v), Nil)
  {
    NothingExtreme(lib, list, true);
    NothingExtreme(lib, list, false);
  }

  /** Only lists and nil can be sliced or reduced. */
  lemma OnlyLists(lib: Lib, env: Env, v: Value, r: Rt, reducer: Reducer, from: Option<int>, to: Option<int>)
    requires Gives(lib, env, v, r) && !r.Arr? && r != Nil
    ensures EvalValue(lib, env, Slice(v, from, to)).Err? && EvalValue(lib, env, Reduce(reducer, v)).Err?
  {
  }

  predicate LastAt(list: seq<Rt>, i: int) {
    0 <= i < |list| && list[i] != Nil && forall j | i < j < |list| :: list[j] == Nil
  }

  lemma {:induction false} NothingExtreme(lib: Lib, list: seq<Rt>, greatest: bool)
    requires forall i | 0 <= i < |list| :: list[i] == Nil
    ensures Extreme(lib, list, greatest) == Nil
    decreases |list|
  {
    if list != [] {
      NothingExtreme(lib, list[1..], greatest);
    }
  }

  /** `r` is one of the elements, and no element is beyond it. */
  ghost predicate Outermost(lib: Lib, list: seq<Rt>, r: Rt, greatest: bool) {
    && r in list && r != Nil
    && forall v | v in list && v != Nil ::
         && SameClass(RankOf(lib, v), RankOf(lib, r))
         && if greatest then CompareRanks(RankOf(lib, v), RankOf(lib, r)) <= 0
            else CompareRanks(RankOf(lib, v), RankOf(lib, r)) >= 0
  }

  ghost predicate OneClass(lib: Lib, list: seq<Rt>) {
    forall v, u | v in list && u in list && v != Nil && u != Nil :: SameClass(RankOf(lib, v), RankOf(lib, u))
  }

  lemma {:induction false} ExtremeIsOutermost(lib: Lib, pick: Rt, list: seq<Rt>, greatest: bool)
    requires pick != Nil && OneClass(lib, [pick] + list)
    ensures Outermost(lib, [pick] + list, ExtremeFrom(lib, pick, list, greatest), greatest)
    decreases |list|
  {
    var all := [pick] + list;
    assert pick == all[0] && pick in all && SameClass(RankOf(lib, pick), RankOf(lib, pick));
    RanksPreorder(RankOf(lib, pick), RankOf(lib, pick), RankOf(lib, pick));
    if list == [] {
      assert forall v | v in all :: v == pick;
    } else {
      var head, tail := list[0], list[1..];
      var next := Better(lib, pick, head, greatest);
      assert head == all[1] && head in all;
      assert forall v | v in [next] + tail :: v in all by {
        assert forall v | v in tail :: v in list;
      }
      if head != Nil {
        OrderedCompareMeaning(lib, head, pick);
      }
      ExtremeIsOutermost(lib, next, tail, greatest);
      var r := ExtremeFrom(lib, next, tail, greatest);
      forall v | v in all && v != Nil
        ensures SameClass(RankOf(lib, v), RankOf(lib, r))
        ensures if greatest then CompareRanks(RankOf(lib, v), RankOf(lib, r)) <= 0
                else CompareRanks(RankOf(lib, v), RankOf(lib, r)) >= 0
      {
        assert next in [next] + tail && v in all && r in all;
        if v in [next] + tail {
        } else {
          BehindNext(lib, pick, head, greatest, v, r);
        }
      }
    }
  }

  /** The one of two that lost is no further out than anything the winner is behind. */
  lemma BehindNext(lib: Lib, pick: Rt, head: Rt, greatest: bool, v: Rt, r: Rt)
    requires pick != Nil && v in {pick, head} && v != Nil && r != Nil
    requires head != Nil ==> SameClass(RankOf(lib, head), RankOf(lib, pick))
    requires var next := Better(lib, pick, head, greatest);
      && SameClass(RankOf(lib, next), RankOf(lib, r)) && SameClass(RankOf(lib, v), RankOf(lib, r))
      && if greatest then CompareRanks(RankOf(lib, next), RankOf(lib, r)) <= 0
         else CompareRanks(RankOf(lib, next), RankOf(lib, r)) >= 0
    ensures if greatest then CompareRanks(RankOf(lib, v), RankOf(lib, r)) <= 0
            else CompareRanks(RankOf(lib, v), RankOf(lib, r)) >= 0
  {
    var next := Better(lib, pick, head, greatest);
    if head != Nil {
      OrderedCompareMeaning(lib, head, pick);
      RanksPreorder(RankOf(lib, head), RankOf(lib, pick), RankOf(lib, head));
      var x, y, z := RankOf(lib, v), RankOf(lib, next), RankOf(lib, r);
      RanksPreorder(x, y, z);
      RanksPreorder(z, y, x);
      RanksPreorder(z, x, z);
      RanksPreorder(z, y, z);
    }
  }

  /** On one comparable class `max` gives a greatest and `min` a least element. */
  lemma {:induction false} MaxAndMin(lib: Lib, env: Env, v: Value, list: seq<Rt>)
    requires Gives(lib, env, v, Arr(list)) && OneClass(lib, list) && exists i :: 0 <= i < |list| && list[i] != Nil
    ensures EvalValue(lib, env, Reduce(Max, v)).Ok? && EvalValue(lib, env, Reduce(Min, v)).Ok?
    ensures Outermost(lib, list, EvalValue(lib, env, Reduce(Max, v)).value, true)
    ensures Outermost(lib, list, EvalValue(lib, env, Reduce(Min, v)).value, false)
  {
    SomeExtreme(lib, list, true);
    SomeExtreme(lib, list, false);
  }

  lemma {:induction false} SomeExtreme(lib: Lib, list: seq<Rt>, greatest: bool)
    requires OneClass(lib, list) && exists i :: 0 <= i < |list| && list[i] != Nil
    ensures Outermost(lib, list, Extreme(lib, list, greatest), greatest)
    decreases |list|
  {
    if list[0] != Nil {
      assert [list[0]] + list[1..] == list;
      ExtremeIsOutermost(lib, list[0], list[1..], greatest);
    } else {
      assert forall v | v in list[1..] :: v in list;
      var i :| 0 <= i < |list| && list[i] != Nil;
      assert list[1..][i - 1] == list[i];
      SomeExtreme(lib, list[1..], greatest);
      assert forall v | v in list && v != Nil :: v in list[1..];
    }
  }

  // ---- equality and order ----

  /** Loose equality: nil is equal to nil alone, other values when they are the same or have the same text. */
  lemma EqualityMeaning(lib: Lib, a: Rt, b: Rt)
    ensures CompareValues(lib, Eq, a, a) == Ok(true) && CompareValues(lib, Eq, Nil, b) == Ok(b == Nil)
    ensures CompareValues(lib, Eq, a, b) == CompareValues(lib, Eq, b, a)
    ensures a != Nil && b != Nil && ToString(lib, a) == ToString(lib, b) ==> CompareValues(lib, Eq, a, b) == Ok(true)
  {
  }

  /** An integer is equal to its decimal text, and to no other integer. */
  lemma IntegersEqual(lib: Lib, n: int, m: int)
    ensures CompareValues(lib, Eq, Int(n), Str(IntToString(n))) == Ok(true)
    ensures InInt64(n) && InInt64(m) ==> CompareValues(lib, Eq, Int(n), Int(m)) == Ok(n == m)
  {
    if InInt64(n) && InInt64(m) && n != m {
      DecimalsDiffer(n, m);
    }
  }

  lemma DecimalsDiffer(n: int, m: int)
    requires InInt64(n) && InInt64(m) && n != m
    ensures IntToString(n) != IntToString(m)
  {
    ParseIntToString(n);
    ParseIntToString(m);
  }

  /** A JSON number equals an integer exactly when it prints like it. */
  lemma NumbersEqual(lib: Lib, x: real, n: int)
    ensures CompareValues(lib, Eq, Float(x), Int(n)) == Ok(lib.formatFloat(x) == IntToString(n))
  {
  }

  /** On whole numbers, JSON numbers and instants the four verbs are the order of the numbers. */
  lemma NumbersCompare(lib: Lib, m: int, n: int, x: real)
    ensures CompareValues(lib, Gt, Int(m), Int(n)) == Ok(m > n) && CompareValues(lib, Lt, Int(m), Int(n)) == Ok(m < n)
    ensures CompareValues(lib, Gte, Int(m), Int(n)) == Ok(m >= n)
    ensures CompareValues(lib, Lte, Int(m), Int(n)) == Ok(m <= n)
    ensures CompareValues(lib, Gt, Time(m), Time(n)) == Ok(m > n)
    ensures CompareValues(lib, Lt, Time(m), Time(n)) == Ok(m < n)
    ensures CompareValues(lib, Gt, Float(x), Int(n)) == Ok(Trunc(x) > n)
  {
  }

  /** Truncation goes to the nearest whole number toward zero. */
  lemma TruncMeaning(x: real)
    ensures x >= 0.0 ==> 0 <= Trunc(x) && Trunc(x) as real <= x < (Trunc(x) + 1) as real
    ensures x < 0.0 ==> Trunc(x) <= 0 && (Trunc(x) - 1) as real < x <= Trunc(x) as real
  {
    if x < 0.0 {
      var f := (-x).Floor;
      assert f as real <= -x < (f + 1) as real;
      assert Trunc(x) == -f && (-f) as real == -(f as real) && (-f - 1) as real == -((f + 1) as real);
    }
  }

  /** Text that is neither a time nor equal compares at its first difference; a proper prefix comes first. */
  lemma {:induction false} StringsCompare(common: string, a: string, b: string)
    requires a != b && (a != "" && b != "" ==> a[0] != b[0])
    ensures CompareStrings(common + a, common + b) < 0 <==> a == "" || (b != "" && a[0] < b[0])
    decreases |common|
  {
    if common == "" {
      assert "" + a == a && "" + b == b;
    } else {
      assert (common + a)[1..] == common[1..] + a && (common + b)[1..] == common[1..] + b;
      StringsCompare(common[1..], a, b);
    }
  }

  /** On texts that are no times the verbs follow that order. */
  lemma WordsCompare(lib: Lib, a: string, b: string)
    requires lib.parseTime(a).None? && lib.parseTime(b).None?
    ensures CompareValues(lib, Lt, Str(a), Str(b)) == Ok(CompareStrings(a, b) < 0)
    ensures CompareValues(lib, Gt, Str(a), Str(b)) == Ok(CompareStrings(b, a) < 0)
  {
    CompareStringsOrder(a, b, a);
  }

  /** A predicate compares what its path leads to, or nil when there is nothing, with the value of its operand; the
      leaf is taken as it is, zero or not. */
  lemma PredicateMeaning(lib: Lib, env: Env, verb: Verb, path: Path, value: Value, leaf: Option<Rt>, r: Rt)
    requires Resolve(lib, env, path) == Ok(leaf) && Gives(lib, env, value, r)
    ensures EvalPredicate(lib, env, Compare(verb, path, value)) ==
      CompareValues(lib, verb, match leaf case None => Nil case Some(v) => v, r)
    ensures EvalPredicate(lib, env, Present(path)) ==
      Ok(leaf.Some? && leaf.value !in {Nil, Str(""), Arr([]), Obj(map[])})
    ensures EvalPredicate(lib, env, LiteralBool(true)) == Ok(true)
    ensures EvalPredicate(lib, env, LiteralBool(false)) == Ok(false) && EvalPredicate(lib, env, NoPredicate).Err?
  {
  }

  // ---- text, patterns and formats ----

  /** A regex gives the captured group; without a match its default, or nil. A broken pattern, a missing and a
      negative group are errors. */
  lemma RegexMeaning(lib: Lib, env: Env, pattern: string, source: Value, r: Rt, capture: nat, default: Value)
    requires Gives(lib, env, source, r)
    ensures match lib.regex(pattern, ToString(lib, r))
      case Groups(g) =>
        if capture < |g| then Gives(lib, env, Regex(pattern, source, capture, Some(default)), Str(g[capture]))
        else EvalValue(lib, env, Regex(pattern, source, capture, Some(default))).Err?
      case NoMatch =>
        && EvalValue(lib, env, Regex(pattern, source, capture, Some(default))) == EvalValue(lib, env, default)
        && Gives(lib, env, Regex(pattern, source, capture, None), Nil)
      case BadPattern => EvalValue(lib, env, Regex(pattern, source, capture, Some(default))).Err?
    ensures forall below: int | below < 0 :: EvalValue(lib, env, Regex(pattern, source, below, Some(default))).Err?
  {
  }

  lemma Base64Meaning(lib: Lib, env: Env, v: Value, r: Rt)
    requires Gives(lib, env, v, r)
    ensures Gives(lib, env, Base64(v), Str(lib.base64(ToString(lib, r))))
    ensures Gives(lib, env, Format("string", v), Str(ToString(lib, r)))
    ensures Gives(lib, env, Format("url_encode", v), Str(lib.queryEscape(ToString(lib, r))))
  {
  }

  /** The text of a value. */
  lemma TextMeaning(lib: Lib, env: Env, v: Value, r: Rt)
    requires Gives(lib, env, v, r)
    ensures match r
      case Nil => Gives(lib, env, Format("string", v), Str(""))
      case Str(s) => Gives(lib, env, Format("string", v), Str(s))
      case Int(n) => Gives(lib, env, Format("string", v), Str(IntToString(n)))
      case Bool(b) => Gives(lib, env, Format("string", v), Str(if b then "true" else "false"))
      case Float(x) => Gives(lib, env, Format("string", v), Str(lib.formatFloat(x)))
      case Time(t) => Gives(lib, env, Format("string", v), Str(lib.formatTime(true, t)))
      case Dur(d) => Gives(lib, env, Format("string", v), Str(lib.formatDuration(d)))
      case Arr(_) => Gives(lib, env, Format("string", v), Str(lib.sprint(r)))
      case Obj(_) => Gives(lib, env, Format("string", v), Str(lib.sprint(r)))
  {
  }

  /** Numbers: truth values count as one and zero, JSON numbers lose their fraction, and the truth of a number is
      whether it is not zero. */
  lemma NumberFormats(lib: Lib, env: Env, v: Value, b: bool, x: real, n: int)
    ensures Gives(lib, env, v, Bool(b)) ==> Gives(lib, env, Format("int", v), Int(if b then 1 else 0))
    ensures Gives(lib, env, v, Float(x)) ==>
      Gives(lib, env, Format("int", v), Int(Trunc(x))) && Gives(lib, env, Format("bool", v), Bool(x != 0.0))
    ensures Gives(lib, env, v, Int(n)) ==>
      Gives(lib, env, Format("int", v), Int(n)) && Gives(lib, env, Format("bool", v), Bool(n != 0))
    ensures Gives(lib, env, v, Nil) ==>
      EvalValue(lib, env, Format("int", v)).Err? && EvalValue(lib, env, Format("bool", v)).Err?
  {
  }

  /** The texts that count as truth values. */
  lemma TruthTexts(lib: Lib, s: string)
    ensures ToBool(Str(s)) == Some(true) <==> s in {"1", "t", "T", "true", "TRUE", "True"}
    ensures ToBool(Str(s)) == Some(false) <==> s in {"0", "f", "F", "false", "FALSE", "False"}
  {
  }

  /** Instants: a number counts seconds since the epoch, a JSON number with its fraction. */
  lemma InstantFormats(lib: Lib, env: Env, v: Value, r: Rt, t: int)
    requires Gives(lib, env, v, r)
    requires IsTimeAt(lib, r, t) || (r.Int? && t == r.n * SECOND)
    ensures Gives(lib, env, Format("rfc3339", v), Str(lib.formatTime(false, t)))
    ensures Gives(lib, env, Format("rfc3339nano", v), Str(lib.formatTime(true, t)))
    ensures exists s {:trigger Gives(lib, env, Format("unix_seconds", v), Int(s))} ::
      Gives(lib, env, Format("unix_seconds", v), Int(s)) && s * SECOND <= t < (s + 1) * SECOND
    ensures exists ms {:trigger Gives(lib, env, Format("unix_millis", v), Int(ms))} ::
      Gives(lib, env, Format("unix_millis", v), Int(ms)) && ms * 1_000_000 <= t < (ms + 1) * 1_000_000
  {
    assert Gives(lib, env, Format("unix_seconds", v), Int(t / SECOND));
    assert Gives(lib, env, Format("unix_millis", v), Int(t / 1_000_000));
  }

  /** A JSON number counts seconds since the epoch with its fraction, cut to the nanosecond. */
  lemma FractionalInstants(lib: Lib, env: Env, v: Value, x: real) returns (t: int)
    requires Gives(lib, env, v, Float(x))
    ensures -1.0 < t as real - x * SECOND as real < 1.0
    ensures Gives(lib, env, Format("rfc3339", v), Str(lib.formatTime(false, t)))
    ensures Gives(lib, env, Format("unix_seconds", v), Int(t / SECOND))
  {
    var fraction := x - Trunc(x) as real;
    var part := fraction * SECOND as real;
    t := Trunc(x) * SECOND + Trunc(part);
    TruncMeaning(part);
    assert (Trunc(x) * SECOND) as real == Trunc(x) as real * SECOND as real;
    assert t as real == (Trunc(x) * SECOND) as real + Trunc(part) as real;
    assert x * SECOND as real == Trunc(x) as real * SECOND as real + part;
  }

  /** Spans: their canonical text, or their number of nanoseconds. */
  lemma SpanFormats(lib: Lib, env: Env, v: Value, r: Rt, d: int)
    requires Gives(lib, env, v, r)
    requires r in {Dur(d), Int(d)} || (r.Float? && Trunc(r.x) == d) || (r.Str? && lib.parseDuration(r.s) == Some(d))
    ensures Gives(lib, env, Format("duration", v), Str(lib.formatDuration(d)))
    ensures Gives(lib, env, Format("parse_duration", v), Int(d))
  {
  }

  const VERBS := {"string", "int", "bool", "rfc3339", "rfc3339nano", "unix_seconds", "unix_millis", "duration",
                  "url_encode", "parse_duration"}

  /** Any other verb is an error. */
  lemma OtherVerbsFail(lib: Lib, env: Env, verb: string, v: Value)
    requires verb !in VERBS
    ensures EvalValue(lib, env, Format(verb, v)).Err?
  {
  }

  /** A decimal text may carry a sign, and zeros in front: a minus negates, the others change nothing. */
  lemma SignedText(n: int)
    requires 0 <= n <= INT64_MAX
    ensures ToInt(Str("+" + IntToString(n))) == Some(n)
    ensures ToInt(Str("-" + IntToString(n))) == Some(-n)
    ensures ToInt(Str("0" + IntToString(n))) == Some(n)
  {
    var d := IntToString(n);
    assert AllDigits(d) && DigitsValue(d) == n;
    ZeroFirst(d);
    SignIsCut("+", d);
    SignIsCut("-", d);
    assert ("0" + d)[0] == '0';
  }

  lemma SignIsCut(sign: string, d: string)
    requires |sign| == 1 && AllDigits(d) && d != "" && InInt64(DigitsValue(d)) && sign[0] in {'+', '-'}
    ensures ParseInt(sign + d) == Some(if sign[0] == '-' then 0 - DigitsValue(d) else DigitsValue(d))
  {
    assert (sign + d)[1..] == d && (sign + d)[0] == sign[0];
  }

  /** A sign alone, a blank and a letter are no numbers. */
  lemma NoNumber()
    ensures ToInt(Str("")) == None && ToInt(Str("-")) == None && ToInt(Str(" 1")) == None && ToInt(Str("1a")) == None
  {
    assert ("-")[1..] == "";
    assert (" 1")[0] == ' ' && ("1a")[1] == 'a';
  }

  lemma {:induction false} ZeroFirst(d: string)
    requires AllDigits(d)
    ensures AllDigits("0" + d) && DigitsValue("0" + d) == DigitsValue(d)
    decreases |d|
  {
    var z := "0" + d;
    assert forall i | 1 <= i < |z| :: z[i] == d[i - 1];
    if d == "" {
      assert z[..0] == "" && DigitsValue(z) == 10 * DigitsValue(z[..0]) + 0;
    } else {
      assert z[..|z| - 1] == "0" + d[..|d| - 1];
      ZeroFirst(d[..|d| - 1]);
    }
  }
}
