/** The streaming high-water mark: progress `max[state.x, max events.*.f]`, page after page, against one
    maximum over everything (client/value.go reduceExtreme, client/progress.go, client/state.go). */
module HighWater {
  import opened Syntax
  import opened Runtime
  import opened Scopes
  import opened Eval

  // ---- the maximum of one comparable class ----

  /** Nil, or comparable with the class of `cls`. */
  predicate InClass(lib: Lib, cls: Rank, v: Rt) {
    v == Nil || SameClass(RankOf(lib, v), cls)
  }

  predicate AllInClass(lib: Lib, cls: Rank, list: seq<Rt>) {
    forall v | v in list :: InClass(lib, cls, v)
  }

  lemma CompareInClass(lib: Lib, cls: Rank, a: Rt, b: Rt)
    requires InClass(lib, cls, a) && InClass(lib, cls, b) && a != Nil && b != Nil
    ensures SameClass(RankOf(lib, a), RankOf(lib, b))
    ensures OrderedCompare(lib, a, b) == Ok(CompareRanks(RankOf(lib, a), RankOf(lib, b)))
  {
    OrderedCompareMeaning(lib, a, b);
  }

  // ---- the values a maximum can be split over ----

  /** `el` replaces `pick`: the two are comparable in this order and `el` is greater. */
  predicate Beats(lib: Lib, el: Rt, pick: Rt) {
    var c := OrderedCompare(lib, el, pick);
    c.Ok? && c.value > 0
  }

  /** Nil, or one of the given values. */
  ghost predicate Among(s: iset<Rt>, v: Rt) {
    v == Nil || v in s
  }

  ghost predicate AllAmong(s: iset<Rt>, list: seq<Rt>) {
    forall v | v in list :: Among(s, v)
  }

  /** When one value beats another, every third value is beaten by the one or beats the other. */
  ghost predicate Separated(lib: Lib, s: iset<Rt>) {
    forall a, b, c | a in s && b in s && b != Nil && c in s && Beats(lib, c, a) :: Beats(lib, c, b) || Beats(lib, b, a)
  }

  /** An empty string, list or map is beaten by every value that is none. */
  ghost predicate ZerosLeast(lib: Lib, s: iset<Rt>) {
    forall z, v | z in s && z != Nil && IsZero(z) && v in s && !IsZero(v) :: Beats(lib, v, z)
  }

  lemma BeatsIsStrict(lib: Lib, a: Rt, b: Rt)
    ensures !(Beats(lib, a, b) && Beats(lib, b, a))
    ensures !Beats(lib, Nil, a) && !Beats(lib, a, Nil)
  {
    OrderedCompareMeaning(lib, a, b);
    OrderedCompareMeaning(lib, b, a);
    if SameClass(RankOf(lib, a), RankOf(lib, b)) {
      RanksPreorder(RankOf(lib, a), RankOf(lib, b), RankOf(lib, a));
    }
  }

  function Pick(beats: (Rt, Rt) -> bool, pick: Rt, el: Rt): Rt {
    if el != Nil && (pick == Nil || beats(el, pick)) then el else pick
  }

  lemma BetterIsPick(lib: Lib, beats: (Rt, Rt) -> bool, pick: Rt, el: Rt)
    requires beats(el, pick) == Beats(lib, el, pick)
    ensures Better(lib, pick, el, true) == Pick(beats, pick, el)
  {
  }

  lemma PickAssociates(beats: (Rt, Rt) -> bool, a: Rt, b: Rt, c: Rt)
    requires a != Nil && b != Nil && c != Nil && beats(c, a) ==> beats(c, b) || beats(b, a)
    requires a != Nil && b != Nil && c != Nil && beats(c, b) ==> beats(c, a) || beats(a, b)
    requires !(beats(a, b) && beats(b, a))
    ensures Pick(beats, Pick(beats, a, b), c) == Pick(beats, a, Pick(beats, b, c))
  {
  }

  /** Taking the better of two is associative, with ties going to the earlier one. */
  lemma BetterAssociates(lib: Lib, s: iset<Rt>, a: Rt, b: Rt, c: Rt)
    requires Separated(lib, s) && Among(s, a) && Among(s, b) && Among(s, c)
    ensures Better(lib, Better(lib, a, b, true), c, true) == Better(lib, a, Better(lib, b, c, true), true)
    ensures Among(s, Better(lib, a, b, true))
  {
    var beats := (el: Rt, pick: Rt) => Beats(lib, el, pick);
    BeatsIsStrict(lib, a, b);
    BeatsIsStrict(lib, c, a);
    PickAssociates(beats, a, b, c);
    BetterIsPick(lib, beats, a, b);
    BetterIsPick(lib, beats, b, c);
    BetterIsPick(lib, beats, Better(lib, a, b, true), c);
    BetterIsPick(lib, beats, a, Better(lib, b, c, true));
  }

  lemma {:induction false} ExtremeFromPick(lib: Lib, s: iset<Rt>, pick: Rt, list: seq<Rt>)
    requires Separated(lib, s) && Among(s, pick) && AllAmong(s, list)
    ensures Among(s, Extreme(lib, list, true))
    ensures ExtremeFrom(lib, pick, list, true) == Better(lib, pick, Extreme(lib, list, true), true)
    decreases |list|
  {
    if list != [] {
      var head, tail := list[0], list[1..];
      BetterAssociates(lib, s, pick, head, Nil);
      ExtremeFromPick(lib, s, Better(lib, pick, head, true), tail);
      ExtremeFromPick(lib, s, head, tail);
      BetterAssociates(lib, s, pick, head, Extreme(lib, tail, true));
      BetterAssociates(lib, s, head, Extreme(lib, tail, true), Nil);
    }
  }

  lemma {:induction false} ExtremeFromSplit(lib: Lib, pick: Rt, a: seq<Rt>, b: seq<Rt>)
    ensures ExtremeFrom(lib, pick, a + b, true) == ExtremeFrom(lib, ExtremeFrom(lib, pick, a, true), b, true)
    decreases |a|
  {
    if a == [] {
      assert a + b == b;
    } else {
      assert (a + b)[0] == a[0] && (a + b)[1..] == a[1..] + b;
      ExtremeFromSplit(lib, Better(lib, pick, a[0], true), a[1..], b);
    }
  }

  /** The maximum of a concatenation is the better of the two maxima. */
  lemma ExtremeOfBoth(lib: Lib, s: iset<Rt>, a: seq<Rt>, b: seq<Rt>)
    requires Separated(lib, s) && AllAmong(s, a) && AllAmong(s, b)
    ensures Extreme(lib, a + b, true) == Better(lib, Extreme(lib, a, true), Extreme(lib, b, true), true)
  {
    ExtremeFromSplit(lib, Nil, a, b);
    ExtremeFromPick(lib, s, Nil, a);
    ExtremeFromPick(lib, s, Extreme(lib, a, true), b);
  }

  ghost function ClassValues(lib: Lib, cls: Rank): iset<Rt> {
    iset v: Rt | SameClass(RankOf(lib, v), cls)
  }

  /** One comparable class is separated, and its empty string, if it has one, is its least value. */
  lemma ClassSeparates(lib: Lib, cls: Rank)
    ensures Separated(lib, ClassValues(lib, cls))
    ensures lib.parseTime("").None? ==> ZerosLeast(lib, ClassValues(lib, cls))
    ensures forall v :: Among(ClassValues(lib, cls), v) <==> InClass(lib, cls, v)
  {
    var s := ClassValues(lib, cls);
    forall a, b, c | a in s && b in s && b != Nil && c in s && Beats(lib, c, a)
      ensures Beats(lib, c, b) || Beats(lib, b, a)
    {
      OrderedCompareMeaning(lib, c, a);
      OrderedCompareMeaning(lib, c, b);
      OrderedCompareMeaning(lib, b, a);
      RanksPreorder(RankOf(lib, c), RankOf(lib, b), RankOf(lib, a));
    }
  }

  /** At position i there is a greatest element, and everything before it is strictly smaller. */
  ghost predicate FirstGreatest(lib: Lib, list: seq<Rt>, i: int)
  {
    && 0 <= i < |list| && list[i] != Nil
    && (forall j | 0 <= j < |list| && list[j] != Nil ::
          && SameClass(RankOf(lib, list[j]), RankOf(lib, list[i]))
          && CompareRanks(RankOf(lib, list[j]), RankOf(lib, list[i])) <= 0)
    && (forall j | 0 <= j < i && list[j] != Nil :: CompareRanks(RankOf(lib, list[j]), RankOf(lib, list[i])) < 0)
  }

  /** On one class the reducer finds the first greatest element, and nil only if there is nothing else. */
  lemma {:induction false} ExtremeIsFirstGreatest(lib: Lib, cls: Rank, list: seq<Rt>)
    requires AllInClass(lib, cls, list)
    ensures var r := Extreme(lib, list, true);
      if forall v | v in list :: v == Nil then r == Nil else exists i :: FirstGreatest(lib, list, i) && list[i] == r
    decreases |list|
  {
    if list != [] {
      var init, last := list[..|list| - 1], list[|list| - 1];
      assert list == init + [last];
      ExtremeIsFirstGreatest(lib, cls, init);
      ClassSeparates(lib, cls);
      ExtremeOfBoth(lib, ClassValues(lib, cls), init, [last]);
      ExtremeFromPick(lib, ClassValues(lib, cls), Nil, init);
      var one := [last];
      assert one[1..] == [];
      assert ExtremeFrom(lib, Nil, one, true) == ExtremeFrom(lib, last, one[1..], true);
      LastJoins(lib, cls, init, last);
    }
  }

  lemma PickOrLast(lib: Lib, cls: Rank, init: seq<Rt>, last: Rt, i: int)
    requires AllInClass(lib, cls, init + [last]) && last != Nil && FirstGreatest(lib, init, i)
    ensures SameClass(RankOf(lib, last), RankOf(lib, init[i]))
    ensures FirstGreatest(lib, init + [last],
                          if CompareRanks(RankOf(lib, last), RankOf(lib, init[i])) > 0 then |init| else i)
  {
    var list, pick := init + [last], init[i];
    assert list[i] == pick && pick in list && last in list;
    CompareInClass(lib, cls, last, pick);
    var p, l := RankOf(lib, pick), RankOf(lib, last);
    RanksPreorder(l, p, l);
    RanksPreorder(p, l, p);
    forall j | 0 <= j < |init| && list[j] != Nil
      ensures SameClass(RankOf(lib, list[j]), l) && SameClass(RankOf(lib, list[j]), p)
      ensures CompareRanks(RankOf(lib, list[j]), p) <= 0
      ensures CompareRanks(l, p) > 0 ==> CompareRanks(RankOf(lib, list[j]), l) < 0
    {
      assert init[j] == list[j];
      var r := RankOf(lib, list[j]);
      RanksPreorder(r, p, l);
      RanksPreorder(l, r, p);
      RanksPreorder(r, l, r);
    }
  }

  lemma LastJoins(lib: Lib, cls: Rank, init: seq<Rt>, last: Rt)
    requires AllInClass(lib, cls, init + [last])
    requires var r := Extreme(lib, init, true);
      if forall v | v in init :: v == Nil then r == Nil else exists i :: FirstGreatest(lib, init, i) && init[i] == r
    ensures var list := init + [last]; var r := Better(lib, Extreme(lib, init, true), last, true);
      if forall v | v in list :: v == Nil then r == Nil else exists i :: FirstGreatest(lib, list, i) && list[i] == r
  {
    var list := init + [last];
    assert list[|init|] == last && last in list && InClass(lib, cls, last);
    assert forall j | 0 <= j < |init| :: list[j] == init[j] && init[j] in init;
    assert forall v | v in list :: v in init || v == last;
    if forall v | v in init :: v == Nil {
      if last != Nil {
        assert FirstGreatest(lib, list, |init|) by {
          RanksPreorder(RankOf(lib, last), RankOf(lib, last), RankOf(lib, last));
        }
      }
    } else {
      var i :| FirstGreatest(lib, init, i) && init[i] == Extreme(lib, init, true);
      assert list[i] == init[i] && list[i] in list;
      if last != Nil {
        PickOrLast(lib, cls, init, last, i);
        CompareInClass(lib, cls, last, init[i]);
      } else {
        assert FirstGreatest(lib, list, i);
      }
    }
  }

  // ---- one page ----

  /** A ref does not see an empty string, list or map. */
  function Norm(v: Rt): Rt {
    if IsZero(v) then Nil else v
  }

  /** `max[state.x, max events.*.f]` with the given old value and fields. */
  function MarkStep(lib: Lib, x: Rt, fields: seq<Rt>): Rt {
    Better(lib, Norm(x), Extreme(lib, fields, true), true)
  }

  function MarkValue(x: string, field: seq<string>): Value {
    var fields := Reduce(Max, Ref(Path(["events", "*"] + field, false), None));
    Reduce(Max, List([Ref(Path(["state", x], false), None), fields]))
  }

  function FieldsOf(events: Rt, field: seq<string>): seq<Rt> {
    if events.Arr? then Project(events.elems, field) else []
  }

  function FieldOr(state: Bindings, x: string): Rt {
    if x in state then state[x] else Nil
  }

  lemma StateOperand(lib: Lib, env: Env, x: string)
    requires env.alias == ""
    ensures EvalValue(lib, env, Ref(Path(["state", x], false), None)) == Ok(Norm(FieldOr(env.state, x)))
  {
    var path := Path(["state", x], false);
    assert path.parts[1..] == [x] && path.parts[1..][1..] == [];
  }

  lemma FieldsOperand(lib: Lib, env: Env, field: seq<string>)
    requires env.alias == "" && field != []
    ensures EvalValue(lib, env, Reduce(Max, Ref(Path(["events", "*"] + field, false), None))) ==
      Ok(Extreme(lib, FieldsOf(env.events, field), true))
  {
    var path := Path(["events", "*"] + field, false);
    assert path.parts[1..] == ["*"] + field && path.parts[1..][1..] == field;
    assert Resolve(lib, env, path) == ResolveEvents(env.events, ["*"] + field);
    var fields := FieldsOf(env.events, field);
    assert EvalValue(lib, env, Ref(path, None)) == Ok(if env.events.Arr? && fields != [] then Arr(fields) else Nil);
  }

  lemma BetterOfTwo(lib: Lib, x: Rt, y: Rt)
    ensures Extreme(lib, [x, y], true) == Better(lib, x, y, true)
  {
    var list := [x, y];
    assert list[1..] == [y] && list[1..][1..] == [];
    assert Extreme(lib, list, true) == ExtremeFrom(lib, x, list[1..], true);
    assert ExtremeFrom(lib, x, list[1..], true) == ExtremeFrom(lib, Better(lib, x, y, true), list[1..][1..], true);
  }

  lemma ReducesList(lib: Lib, env: Env, list: Value, elems: seq<Rt>)
    requires EvalValue(lib, env, list) == Ok(Arr(elems))
    ensures EvalValue(lib, env, Reduce(Max, list)) == Ok(Extreme(lib, elems, true))
  {
  }

  lemma ListOfTwo(lib: Lib, env: Env, a: Value, b: Value, x: Rt, y: Rt)
    requires EvalValue(lib, env, a) == Ok(x) && EvalValue(lib, env, b) == Ok(y)
    ensures EvalValue(lib, env, List([a, b])) == Ok(Arr([x, y]))
  {
    PairEvaluates(lib, env, a, b);
  }

  lemma TwoOperands(lib: Lib, env: Env, a: Value, b: Value, x: Rt, y: Rt)
    requires EvalValue(lib, env, a) == Ok(x) && EvalValue(lib, env, b) == Ok(y)
    ensures EvalValue(lib, env, Reduce(Max, List([a, b]))) == Ok(Better(lib, x, y, true))
  {
    var list := List([a, b]);
    ListOfTwo(lib, env, a, b, x, y);
    ReducesList(lib, env, list, [x, y]);
    BetterOfTwo(lib, x, y);
  }

  /** The expression means exactly one step of the mark. */
  lemma MarkMeaning(lib: Lib, env: Env, x: string, field: seq<string>)
    requires env.alias == "" && field != []
    ensures EvalValue(lib, env, MarkValue(x, field)) ==
      Ok(MarkStep(lib, FieldOr(env.state, x), FieldsOf(env.events, field)))
  {
    StateOperand(lib, env, x);
    FieldsOperand(lib, env, field);
    TwoOperands(lib, env, Ref(Path(["state", x], false), None),
                Reduce(Max, Ref(Path(["events", "*"] + field, false), None)),
                Norm(FieldOr(env.state, x)), Extreme(lib, FieldsOf(env.events, field), true));
  }

  // ---- many pages ----

  function Streamed(lib: Lib, x: Rt, pages: seq<seq<Rt>>): Rt
    decreases |pages|
  {
    if pages == [] then x else Streamed(lib, MarkStep(lib, x, pages[0]), pages[1..])
  }

  function Joined(pages: seq<seq<Rt>>): seq<Rt> {
    if pages == [] then [] else pages[0] + Joined(pages[1..])
  }

  /** Whether the old value is read as empty or as nil makes no visible difference. */
  lemma NormOfBetter(lib: Lib, s: iset<Rt>, x: Rt, m: Rt)
    requires ZerosLeast(lib, s) && Among(s, x) && Among(s, m)
    ensures Norm(Better(lib, Norm(x), m, true)) == Norm(Better(lib, x, m, true))
  {
  }

  lemma MarkStepAmong(lib: Lib, s: iset<Rt>, x: Rt, fields: seq<Rt>)
    requires Separated(lib, s) && ZerosLeast(lib, s) && Among(s, x) && AllAmong(s, fields)
    ensures Among(s, MarkStep(lib, x, fields))
    ensures Norm(MarkStep(lib, x, fields)) == Norm(Better(lib, x, Extreme(lib, fields, true), true))
  {
    ExtremeFromPick(lib, s, Nil, fields);
    BetterAssociates(lib, s, Norm(x), Extreme(lib, fields, true), Nil);
    NormOfBetter(lib, s, x, Extreme(lib, fields, true));
  }

  lemma HeadFirst(lib: Lib, s: iset<Rt>, x: Rt, list: seq<Rt>)
    requires Separated(lib, s) && Among(s, x) && AllAmong(s, list)
    ensures Extreme(lib, [x] + list, true) == Better(lib, x, Extreme(lib, list, true), true)
  {
    assert ([x] + list)[1..] == list;
    ExtremeFromPick(lib, s, x, list);
  }

  lemma {:induction false} ExtremeFromElement(lib: Lib, pick: Rt, list: seq<Rt>)
    ensures ExtremeFrom(lib, pick, list, true) == pick || ExtremeFrom(lib, pick, list, true) in list
    decreases |list|
  {
    if list != [] {
      ExtremeFromElement(lib, Better(lib, pick, list[0], true), list[1..]);
    }
  }

  /** Whatever the values are, a step keeps the mark as it reads or takes a field of the page that beats it. */
  lemma StepKeepsOrBeats(lib: Lib, x: Rt, fields: seq<Rt>)
    ensures var r := MarkStep(lib, x, fields);
      r == Norm(x) || (r in fields && r != Nil && (Norm(x) == Nil || Beats(lib, r, x)))
  {
    ExtremeFromElement(lib, Nil, fields);
  }

  /** Page after page the mark is, as a ref reads it, the one maximum of its initial value and all fields. */
  ghost predicate Agrees(lib: Lib, x: Rt, pages: seq<seq<Rt>>) {
    Norm(Streamed(lib, x, pages)) == Norm(Extreme(lib, [x] + Joined(pages), true))
  }

  lemma {:induction false} StreamsAgree(lib: Lib, s: iset<Rt>, x: Rt, pages: seq<seq<Rt>>)
    requires Separated(lib, s) && ZerosLeast(lib, s) && Among(s, x) && AllAmong(s, Joined(pages))
    ensures Among(s, Streamed(lib, x, pages)) && Agrees(lib, x, pages)
    decreases |pages|
  {
    if pages == [] {
      assert [x] + Joined(pages) == [x] && [x][1..] == [];
      assert Extreme(lib, [x], true) == ExtremeFrom(lib, x, [x][1..], true);
    } else {
      var fields, rest := pages[0], Joined(pages[1..]);
      assert forall v | v in fields :: v in Joined(pages);
      assert forall v | v in rest :: v in Joined(pages);
      var y, m, n := MarkStep(lib, x, fields), Extreme(lib, fields, true), Extreme(lib, rest, true);
      MarkStepAmong(lib, s, x, fields);
      StreamsAgree(lib, s, y, pages[1..]);
      HeadFirst(lib, s, y, rest);
      HeadFirst(lib, s, x, fields + rest);
      ExtremeOfBoth(lib, s, fields, rest);
      ExtremeFromPick(lib, s, Nil, fields);
      ExtremeFromPick(lib, s, Nil, rest);
      BetterAssociates(lib, s, x, m, n);
      NormOfBetter(lib, s, y, n);
      NormOfBetter(lib, s, Better(lib, x, m, true), n);
    }
  }

  /** On one comparable class streaming computes the batch maximum. */
  lemma StreamIsBatch(lib: Lib, cls: Rank, x: Rt, pages: seq<seq<Rt>>)
    requires InClass(lib, cls, x) && AllInClass(lib, cls, Joined(pages)) && lib.parseTime("").None?
    ensures InClass(lib, cls, Streamed(lib, x, pages)) && Agrees(lib, x, pages)
  {
    ClassSeparates(lib, cls);
    StreamsAgree(lib, ClassValues(lib, cls), x, pages);
  }

  lemma ExtremeOfThree(lib: Lib, a: Rt, b: Rt, c: Rt)
    ensures Extreme(lib, [a, b, c], true) == Better(lib, Better(lib, a, b, true), c, true)
  {
    var list := [a, b, c];
    assert list == [a, b] + [c] && [c][1..] == [];
    ExtremeFromSplit(lib, Nil, [a, b], [c]);
    BetterOfTwo(lib, a, b);
    assert ExtremeFrom(lib, Better(lib, a, b, true), [c], true) ==
      ExtremeFrom(lib, Better(lib, Better(lib, a, b, true), c, true), [c][1..], true);
  }

  /** One page of two fields after the initial value. */
  lemma PageOfTwo(lib: Lib, a: Rt, b: Rt, c: Rt)
    ensures Joined([[b, c]]) == [b, c]
    ensures Streamed(lib, a, [[b, c]]) == Better(lib, Norm(a), Better(lib, b, c, true), true)
    ensures Extreme(lib, [a] + Joined([[b, c]]), true) == Better(lib, Better(lib, a, b, true), c, true)
  {
    var page := [b, c];
    assert [page][1..] == [] && Joined([page]) == page + Joined([page][1..]);
    assert [a] + page == [a, b, c];
    BetterOfTwo(lib, b, c);
    ExtremeOfThree(lib, a, b, c);
    assert Streamed(lib, a, [page]) == Streamed(lib, MarkStep(lib, a, page), [page][1..]);
  }

  /** The initial value a, then the page [b, c], tells streaming and batch apart. */
  lemma MixingDiffers(lib: Lib, s: iset<Rt>, a: Rt, b: Rt, c: Rt)
    requires ZerosLeast(lib, s) && a in s && b in s && c in s && b != Nil
    requires Beats(lib, c, a) && !Beats(lib, c, b) && !Beats(lib, b, a)
    ensures AllAmong(s, Joined([[b, c]])) && !Agrees(lib, a, [[b, c]])
  {
    PageOfTwo(lib, a, b, c);
    BeatsIsStrict(lib, c, a);
    BeatsIsStrict(lib, a, a);
  }

  /** An initial value that reads as nil, then a value that does not beat it. */
  lemma EmptyDiffers(lib: Lib, s: iset<Rt>, z: Rt, v: Rt)
    requires z in s && z != Nil && IsZero(z) && v in s && !IsZero(v) && !Beats(lib, v, z)
    ensures AllAmong(s, Joined([[v, Nil]])) && !Agrees(lib, z, [[v, Nil]])
  {
    PageOfTwo(lib, z, v, Nil);
  }

  /** Over any set of values, streaming agrees with the batch maximum for every initial value and all pages
      exactly when the set is separated and its empty values are least. */
  lemma StreamIsBatchExactly(lib: Lib, s: iset<Rt>)
    ensures (forall x, pages | Among(s, x) && AllAmong(s, Joined(pages)) :: Agrees(lib, x, pages)) <==>
      Separated(lib, s) && ZerosLeast(lib, s)
  {
    if Separated(lib, s) && ZerosLeast(lib, s) {
      forall x, pages | Among(s, x) && AllAmong(s, Joined(pages)) ensures Agrees(lib, x, pages) {
        StreamsAgree(lib, s, x, pages);
      }
    } else if !ZerosLeast(lib, s) {
      var z, v :| z in s && z != Nil && IsZero(z) && v in s && !IsZero(v) && !Beats(lib, v, z);
      EmptyDiffers(lib, s, z, v);
    } else {
      var a, b, c :|
        && a in s && b in s && b != Nil && c in s
        && Beats(lib, c, a) && !Beats(lib, c, b) && !Beats(lib, b, a);
      MixingDiffers(lib, s, a, b, c);
    }
  }

  ghost predicate OneClass(lib: Lib, s: iset<Rt>, cls: Rank) {
    forall v | v in s :: InClass(lib, cls, v)
  }

  /** No word meets a string that reads as a time: such a pair is comparable in one order only. */
  ghost predicate Unmixed(lib: Lib, s: iset<Rt>) {
    forall a, b | a in s && b in s && b.Str? && RankOf(lib, a).Word? :: !RankOf(lib, b).Instant?
  }

  /** Where no word meets a time-shaped string, separated sets are those of one comparable class and those in
      which nothing beats anything. */
  lemma SeparatedMeaning(lib: Lib, s: iset<Rt>)
    requires Unmixed(lib, s)
    ensures Separated(lib, s) <==>
      (forall a, b | a in s && b in s :: !Beats(lib, b, a)) || exists cls: Rank :: OneClass(lib, s, cls)
  {
    forall a, b | a in s && b in s && Beats(lib, b, a) ensures SameClass(RankOf(lib, b), RankOf(lib, a)) {
      OrderedCompareMeaning(lib, b, a);
    }
    if a, c :| a in s && c in s && Beats(lib, c, a) {
      if Separated(lib, s) {
        assert OneClass(lib, s, RankOf(lib, c));
      } else if cls: Rank :| OneClass(lib, s, cls) {
        ClassSeparates(lib, cls);
        assert forall v | v in s && v != Nil :: v in ClassValues(lib, cls);
        BeatsNeedTwo(lib, s);
      }
    }
  }

  lemma BeatsNeedTwo(lib: Lib, s: iset<Rt>)
    ensures forall a, b | a in s && b in s && Beats(lib, b, a) :: a != Nil && b != Nil
  {
    forall a, b | a in s && b in s && Beats(lib, b, a) ensures a != Nil && b != Nil {
      BeatsIsStrict(lib, a, b);
      BeatsIsStrict(lib, b, a);
    }
  }

  /** The mark never decreases. */
  lemma MarkNeverDecreases(lib: Lib, cls: Rank, x: Rt, pages: seq<seq<Rt>>)
    requires InClass(lib, cls, x) && AllInClass(lib, cls, Joined(pages)) && lib.parseTime("").None? && !IsZero(x)
    ensures var r := Streamed(lib, x, pages);
      r != Nil && SameClass(RankOf(lib, x), RankOf(lib, r)) && CompareRanks(RankOf(lib, x), RankOf(lib, r)) <= 0
  {
    var all := [x] + Joined(pages);
    StreamIsBatch(lib, cls, x, pages);
    assert forall v | v in all :: v == x || v in Joined(pages);
    ExtremeIsFirstGreatest(lib, cls, all);
    assert all[0] == x && x in all;
    var i :| FirstGreatest(lib, all, i) && all[i] == Extreme(lib, all, true);
    assert CompareRanks(RankOf(lib, all[0]), RankOf(lib, all[i])) <= 0;
    if IsZero(all[i]) {
      EmptyWordIsLeast(lib, cls, x, all[i]);
    }
  }

  /** Nothing but nil and the empty string ranks at or below the empty string. */
  lemma EmptyWordIsLeast(lib: Lib, cls: Rank, x: Rt, v: Rt)
    requires InClass(lib, cls, x) && InClass(lib, cls, v) && x != Nil && v != Nil && IsZero(v)
    requires lib.parseTime("").None?
    requires SameClass(RankOf(lib, x), RankOf(lib, v)) && CompareRanks(RankOf(lib, x), RankOf(lib, v)) <= 0
    ensures x == Str("")
  {
  }

  /** Pages without the field leave the mark as it reads, and as it is exactly when it is not an empty
      string, list or map. */
  lemma {:induction false} NothingLeavesMark(lib: Lib, x: Rt, fields: seq<Rt>)
    requires forall v | v in fields :: v == Nil
    ensures MarkStep(lib, x, fields) == Norm(x)
    ensures MarkStep(lib, x, fields) == x <==> x == Nil || !IsZero(x)
    decreases |fields|
  {
    if fields != [] {
      assert fields[0] in fields && forall v | v in fields[1..] :: v in fields;
      NothingLeavesMark(lib, x, fields[1..]);
    }
  }

  /** A word hides the number after it on its own page. */
  lemma MixedClassesDiffer(lib: Lib)
    requires lib.parseTime("a").None?
    ensures Streamed(lib, Int(1), [[Str("a"), Int(2)]]) == Int(1)
    ensures Extreme(lib, [Int(1)] + Joined([[Str("a"), Int(2)]]), true) == Int(2)
  {
    PageOfTwo(lib, Int(1), Str("a"), Int(2));
  }
}
