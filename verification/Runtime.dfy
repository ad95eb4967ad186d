/** Runtime values and the operations on them that never look at a scope: coercions, the two
    comparisons, arithmetic, reducers and sub-lists (client/value.go, client/predicate.go). */
module Runtime {
  import opened Syntax
  import opened Text

  /** What evaluation produces. Times and durations are nanosecond counts; `Float` is what the
      JSON decoder makes of a number. */
  datatype Rt =
    | Nil
    | Str(s: string)
    | Int(n: int)
    | Float(x: real)
    | Bool(b: bool)
    | Time(t: int)
    | Dur(d: int)
    | Arr(elems: seq<Rt>)
    | Obj(fields: map<string, Rt>)

  datatype Match = BadPattern | NoMatch | Groups(groups: seq<string>)

  /** The library routines that are not modelled: every theorem holds for any of them. */
  datatype Lib = Lib(
    parseTime: string -> Option<int>,
    parseDuration: string -> Option<int>,
    formatTime: (bool, int) -> string,
    formatDuration: int -> string,
    formatFloat: real -> string,
    sprint: Rt -> string,
    queryEscape: string -> string,
    base64: string -> string,
    regex: (string, string) -> Match,
    canonical: string -> string,
    urlParses: string -> bool,
    yamlScalar: string -> Result<Value>)

  const SECOND := 1_000_000_000

  // ---- coercions ----

  /** float64 to int64 drops the fraction. */
  function Trunc(x: real): int {
    if x >= 0.0 then x.Floor else -((-x).Floor)
  }

  /** nil, "", the empty list and the empty map fall back to a ref's default; 0 and false do not. */
  predicate IsZero(v: Rt) {
    v == Nil || v == Str("") || v == Arr([]) || v == Obj(map[])
  }

  function ToString(lib: Lib, v: Rt): string {
    match v
    case Nil => ""
    case Str(s) => s
    case Bool(b) => if b then "true" else "false"
    case Int(n) => IntToString(n)
    case Float(x) => lib.formatFloat(x)
    case Time(t) => lib.formatTime(true, t)
    case Dur(d) => lib.formatDuration(d)
    case _ => lib.sprint(v)
  }

  function AsTime(lib: Lib, v: Rt): Option<int> {
    match v
    case Time(t) => Some(t)
    case Str(s) => lib.parseTime(s)
    case _ => None
  }

  function AsInt(v: Rt): Option<int> {
    match v
    case Int(n) => Some(n)
    case Float(x) => Some(Trunc(x))
    case _ => None
  }

  function ToDuration(lib: Lib, v: Rt): Option<int> {
    match v
    case Dur(d) => Some(d)
    case Str(s) => lib.parseDuration(s)
    case Int(n) => Some(n)
    case Float(x) => Some(Trunc(x))
    case _ => None
  }

  function ToInt(v: Rt): Option<int> {
    match v
    case Int(n) => Some(n)
    case Float(x) => Some(Trunc(x))
    case Str(s) => ParseInt(s)
    case Bool(b) => Some(if b then 1 else 0)
    case _ => None
  }

  function ToBool(v: Rt): Option<bool> {
    match v
    case Bool(b) => Some(b)
    case Str(s) =>
      if s in {"1", "t", "T", "TRUE", "true", "True"} then Some(true)
      else if s in {"0", "f", "F", "FALSE", "false", "False"} then Some(false)
      else None
    case Int(n) => Some(n != 0)
    case Float(x) => Some(x != 0.0)
    case _ => None
  }

  function ToTime(lib: Lib, v: Rt): Option<int> {
    match v
    case Time(t) => Some(t)
    case Str(s) => lib.parseTime(s)
    case Int(n) => Some(n * SECOND)
    case Float(x) => Some(Trunc(x) * SECOND + Trunc((x - Trunc(x) as real) * SECOND as real))
    case _ => None
  }

  function Lift<T>(o: Option<T>, f: T -> Rt): Result<Rt> {
    match o
    case None => Err
    case Some(x) => Ok(f(x))
  }

  /** The closed set of format verbs. */
  function ApplyFormat(lib: Lib, verb: string, v: Rt): Result<Rt> {
    if verb == "string" then Ok(Str(ToString(lib, v)))
    else if verb == "int" then Lift(ToInt(v), n => Int(n))
    else if verb == "bool" then Lift(ToBool(v), b => Bool(b))
    else if verb == "rfc3339" then Lift(ToTime(lib, v), t => Str(lib.formatTime(false, t)))
    else if verb == "rfc3339nano" then Lift(ToTime(lib, v), t => Str(lib.formatTime(true, t)))
    else if verb == "unix_seconds" then Lift(ToTime(lib, v), t => Int(t / SECOND))
    else if verb == "unix_millis" then Lift(ToTime(lib, v), t => Int(t / 1_000_000))
    else if verb == "duration" then Lift(ToDuration(lib, v), d => Str(lib.formatDuration(d)))
    else if verb == "url_encode" then Ok(Str(lib.queryEscape(ToString(lib, v))))
    else if verb == "parse_duration" then Lift(ToDuration(lib, v), d => Int(d))
    else Err
  }

  // ---- comparison ----

  /** Loose equality: nil equals only nil; otherwise equal values or equal strings. */
  predicate Equal(lib: Lib, a: Rt, b: Rt) {
    if a == Nil || b == Nil then a == b else a == b || ToString(lib, a) == ToString(lib, b)
  }

  function Sign(n: int): int {
    if n < 0 then -1 else if n > 0 then 1 else 0
  }

  /** orderedCompare: the left operand picks the kind of comparison. */
  function OrderedCompare(lib: Lib, a: Rt, b: Rt): Result<int> {
    if AsTime(lib, a).Some? then
      (match AsTime(lib, b) case Some(t) => Ok(Sign(AsTime(lib, a).value - t)) case None => Err)
    else if AsInt(a).Some? then
      (match AsInt(b) case Some(n) => Ok(Sign(AsInt(a).value - n)) case None => Err)
    else if a.Str? then
      (if b.Str? then Ok(CompareStrings(a.s, b.s)) else Err)
    else Err
  }

  /** The comparable class of a value, with its position in the order of that class. */
  datatype Rank = Instant(t: int) | Whole(n: int) | Word(s: string) | Unranked

  function RankOf(lib: Lib, v: Rt): Rank {
    if AsTime(lib, v).Some? then Instant(AsTime(lib, v).value)
    else if AsInt(v).Some? then Whole(AsInt(v).value)
    else if v.Str? then Word(v.s)
    else Unranked
  }

  predicate SameClass(a: Rank, b: Rank) {
    (a.Instant? && b.Instant?) || (a.Whole? && b.Whole?) || (a.Word? && b.Word?)
  }

  function CompareRanks(a: Rank, b: Rank): int
    requires SameClass(a, b)
  {
    match a
    case Instant(t) => Sign(t - b.t)
    case Whole(n) => Sign(n - b.n)
    case Word(s) => CompareStrings(s, b.s)
  }

  /** Inside one class the comparison is the total preorder of the ranks. It answers for no pair of
      different classes, with one exception: a word on the left and a time-shaped string on the
      right are compared as strings, although the opposite order is an error. */
  lemma OrderedCompareMeaning(lib: Lib, a: Rt, b: Rt)
    ensures SameClass(RankOf(lib, a), RankOf(lib, b)) ==>
      OrderedCompare(lib, a, b) == Ok(CompareRanks(RankOf(lib, a), RankOf(lib, b)))
    ensures OrderedCompare(lib, a, b).Ok? <==>
      SameClass(RankOf(lib, a), RankOf(lib, b)) || (RankOf(lib, a).Word? && b.Str?)
  {
    match a {
      case Str(_) =>
      case _ =>
    }
  }

  lemma RanksPreorder(a: Rank, b: Rank, c: Rank)
    requires SameClass(a, b) && SameClass(b, c)
    ensures CompareRanks(a, b) == -CompareRanks(b, a)
    ensures CompareRanks(a, b) <= 0 && CompareRanks(b, c) <= 0 ==> CompareRanks(a, c) <= 0
    ensures CompareRanks(a, b) == 0 <==> a == b
  {
    if a.Word? {
      CompareStringsOrder(a.s, b.s, c.s);
    }
  }

  // ---- arithmetic ----

  function ArithAdd(lib: Lib, a: Rt, b: Rt): Result<Rt> {
    if AsTime(lib, a).Some? then Lift(ToDuration(lib, b), d => Time(AsTime(lib, a).value + d))
    else if AsTime(lib, b).Some? then Lift(ToDuration(lib, a), d => Time(AsTime(lib, b).value + d))
    else if AsInt(a).Some? && AsInt(b).Some? then Ok(Int(Wrap64(AsInt(a).value + AsInt(b).value)))
    else if ToDuration(lib, a).Some? && ToDuration(lib, b).Some? then
      Ok(Dur(Wrap64(ToDuration(lib, a).value + ToDuration(lib, b).value)))
    else Err
  }

  function ArithSubtract(lib: Lib, a: Rt, b: Rt): Result<Rt> {
    if AsTime(lib, a).Some? && AsTime(lib, b).Some? then
      Ok(Dur(Saturate64(AsTime(lib, a).value - AsTime(lib, b).value)))
    else if AsTime(lib, a).Some? then Lift(ToDuration(lib, b), d => Time(AsTime(lib, a).value + Wrap64(-d)))
    else if AsTime(lib, b).Some? then Err
    else if AsInt(a).Some? && AsInt(b).Some? then Ok(Int(Wrap64(AsInt(a).value - AsInt(b).value)))
    else if ToDuration(lib, a).Some? && ToDuration(lib, b).Some? then
      Ok(Dur(Wrap64(ToDuration(lib, a).value - ToDuration(lib, b).value)))
    else Err
  }

  lemma AddCommutes(lib: Lib, a: Rt, b: Rt)
    requires AsTime(lib, a).None? || AsTime(lib, b).None?
    ensures ArithAdd(lib, a, b) == ArithAdd(lib, b, a)
  {
    assert ToDuration(lib, a).Some? && ToDuration(lib, b).Some? ==>
      ToDuration(lib, a).value + ToDuration(lib, b).value == ToDuration(lib, b).value + ToDuration(lib, a).value;
  }

  /** Subtracting a duration undoes adding it, except the one 64-bit duration that has no negation. */
  lemma SubtractUndoesAdd(lib: Lib, t: int, d: int)
    requires InInt64(d)
    ensures ArithAdd(lib, Time(t), Dur(d)) == Ok(Time(t + d))
    ensures ArithSubtract(lib, Time(t + d), Dur(d)) == Ok(Time(t)) <==> d != INT64_MIN
  {
    if d == INT64_MIN {
      assert Wrap64(-d) == d;
    }
  }

  /** On integers and on durations the wrap-around cancels, so the law has no exception. */
  lemma SubtractUndoesWrappedAdd(lib: Lib, m: int, n: int)
    requires InInt64(m) && InInt64(n)
    ensures ArithAdd(lib, Int(m), Int(n)).Ok? && ArithAdd(lib, Dur(m), Dur(n)).Ok?
    ensures ArithSubtract(lib, ArithAdd(lib, Int(m), Int(n)).value, Int(n)) == Ok(Int(m))
    ensures ArithSubtract(lib, ArithAdd(lib, Dur(m), Dur(n)).value, Dur(n)) == Ok(Dur(m))
  {
    assert Wrap64(Wrap64(m + n) - n) == m;
  }

  /** The difference of two times leads back to the first one exactly when it did not saturate. */
  lemma AddUndoesDifference(lib: Lib, t: int, u: int)
    ensures ArithSubtract(lib, Time(t), Time(u)).Ok?
    ensures ArithAdd(lib, Time(u), ArithSubtract(lib, Time(t), Time(u)).value) == Ok(Time(t)) <==> InInt64(t - u)
  {
  }

  // ---- reducers ----

  /** One step of reduceExtreme: `pick` is the best element so far, Nil before the first one. */
  function Better(lib: Lib, pick: Rt, el: Rt, greatest: bool): Rt {
    if el == Nil then pick
    else if pick == Nil then el
    else match OrderedCompare(lib, el, pick)
      case Err => pick
      case Ok(c) => if (greatest && c > 0) || (!greatest && c < 0) then el else pick
  }

  function ExtremeFrom(lib: Lib, pick: Rt, list: seq<Rt>, greatest: bool): Rt
    decreases |list|
  {
    if list == [] then pick else ExtremeFrom(lib, Better(lib, pick, list[0], greatest), list[1..], greatest)
  }

  function Extreme(lib: Lib, list: seq<Rt>, greatest: bool): Rt {
    ExtremeFrom(lib, Nil, list, greatest)
  }

  method ReduceExtreme(lib: Lib, list: seq<Rt>, greatest: bool) returns (pick: Rt)
    ensures pick == Extreme(lib, list, greatest)
  {
    pick := Nil;
    for i := 0 to |list|
      invariant ExtremeFrom(lib, pick, list[i..], greatest) == Extreme(lib, list, greatest)
    {
      assert list[i..][1..] == list[i + 1..];
      var el := list[i];
      if el == Nil {
        continue;
      }
      if pick == Nil {
        pick := el;
        continue;
      }
      match OrderedCompare(lib, el, pick) {
        case Err =>
        case Ok(c) =>
          if greatest && c > 0 {
            pick := el;
          } else if !greatest && c < 0 {
            pick := el;
          }
      }
    }
  }

  ghost predicate FirstAt(list: seq<Rt>, i: int, r: Rt) {
    0 <= i < |list| && list[i] == r && forall j | 0 <= j < i :: list[j] == Nil
  }

  function FirstOf(list: seq<Rt>): (r: Rt)
    ensures r == Nil ==> forall i | 0 <= i < |list| :: list[i] == Nil
    ensures r != Nil ==> exists i :: FirstAt(list, i, r)
  {
    if list == [] then Nil
    else if list[0] != Nil then
      assert FirstAt(list, 0, list[0]);
      list[0]
    else
      var r := FirstOf(list[1..]);
      assert forall i | FirstAt(list[1..], i, r) :: FirstAt(list, i + 1, r);
      r
  }

  function LastOf(list: seq<Rt>): (r: Rt)
    ensures r == Nil ==> forall i | 0 <= i < |list| :: list[i] == Nil
    ensures r != Nil ==> exists i :: 0 <= i < |list| && list[i] == r && forall j | i < j < |list| :: list[j] == Nil
  {
    if list == [] then Nil
    else if list[|list| - 1] != Nil then list[|list| - 1]
    else LastOf(list[..|list| - 1])
  }

  method FirstNonNil(list: seq<Rt>) returns (r: Rt)
    ensures r == FirstOf(list)
  {
    for i := 0 to |list|
      invariant FirstOf(list[i..]) == FirstOf(list)
    {
      assert list[i..][1..] == list[i + 1..];
      if list[i] != Nil {
        return list[i];
      }
    }
    return Nil;
  }

  function Clamp(n: int, lo: int, hi: int): int {
    if n < lo then lo else if n > hi then hi else n
  }

  /** sliceList: half-open bounds, clamped into the list instead of panicking. */
  function SliceOf(list: seq<Rt>, from: Option<int>, to: Option<int>): (r: seq<Rt>) {
    var lo := match from case Some(n) => Clamp(n, 0, |list|) case None => 0;
    var hi := match to case Some(n) => Clamp(n, lo, |list|) case None => |list|;
    list[lo..hi]
  }

  method SliceList(list: seq<Rt>, from: Option<int>, to: Option<int>) returns (out: seq<Rt>)
    ensures out == SliceOf(list, from, to)
  {
    var n := |list|;
    var lo, hi := 0, n;
    if from.Some? { lo := from.value; }
    if to.Some? { hi := to.value; }
    if lo < 0 { lo := 0; }
    if lo > n { lo := n; }
    if hi < lo { hi := lo; }
    if hi > n { hi := n; }
    out := list[lo..hi];
  }

  /** The elements whose index, counted from `i`, respects both bounds. */
  function Window(list: seq<Rt>, i: nat, from: Option<int>, to: Option<int>): seq<Rt> {
    if list == [] then []
    else
      var rest := Window(list[1..], i + 1, from, to);
      if (from.Some? ==> from.value <= i) && (to.Some? ==> i < to.value) then [list[0]] + rest else rest
  }

  /** Clamping keeps exactly the elements inside the bounds, whatever the bounds are. */
  lemma SliceIsWindow(list: seq<Rt>, from: Option<int>, to: Option<int>)
    ensures SliceOf(list, from, to) == Window(list, 0, from, to)
  {
    var lo := match from case Some(n) => n case None => 0;
    var hi := match to case Some(n) => n case None => |list|;
    WindowIsSlice(list, 0, from, to, lo, hi);
  }

  /** Shifting the window by one element. */
  lemma ClampsShift(list: seq<Rt>, lo: int, hi: int)
    requires list != []
    ensures var n := |list| - 1;
      var l, l1 := Clamp(lo, 0, n + 1), Clamp(lo - 1, 0, n);
      var h, h1 := Clamp(hi, l, n + 1), Clamp(hi - 1, l1, n);
      list[l..h] == (if lo <= 0 < hi then [list[0]] else []) + list[1..][l1..h1]
  {
    var n := |list| - 1;
    var l, l1 := Clamp(lo, 0, n + 1), Clamp(lo - 1, 0, n);
    var h, h1 := Clamp(hi, l, n + 1), Clamp(hi - 1, l1, n);
    if lo <= 0 < hi {
      assert l == 0 && l1 == 0 && h == h1 + 1;
      assert list[0..h] == [list[0]] + list[1..h];
    } else if lo > 0 {
      assert l == l1 + 1 && h == h1 + 1;
    } else {
      assert h == 0 && h1 == 0;
    }
  }

  lemma {:induction false} WindowIsSlice(list: seq<Rt>, i: nat, from: Option<int>, to: Option<int>, lo: int, hi: int)
    requires from == Some(lo) || (from == None && lo <= i)
    requires to == Some(hi) || (to == None && hi >= i + |list|)
    ensures var l := Clamp(lo - i, 0, |list|);
      var h := Clamp(hi - i, l, |list|);
      Window(list, i, from, to) == list[l..h]
    decreases |list|
  {
    if list != [] {
      WindowIsSlice(list[1..], i + 1, from, to, lo, hi);
      ClampsShift(list, lo - i, hi - i);
    }
  }
}
