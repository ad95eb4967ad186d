/** The JSON codec of values and predicates (schema/value.go, schema/predicate.go) and the exact set
    of documents that survive a round trip through it. */
module Codec {
  import opened Syntax
  import opened Text
  import opened Runtime
  import opened Paths
  import opened Interpolation

  // ---- discriminator keys ----

  datatype Form =
    | LiteralForm | RefForm | NowForm | ConcatForm | SelectForm | FormatForm | Base64Form | ListForm
    | ObjectForm | AddForm | SubtractForm | MaxForm | MinForm | FirstForm | LastForm | CountForm
    | SliceForm | RegexForm

  const FORMS: seq<Form> := [
    LiteralForm, RefForm, NowForm, ConcatForm, SelectForm, FormatForm, Base64Form, ListForm,
    ObjectForm, AddForm, SubtractForm, MaxForm, MinForm, FirstForm, LastForm, CountForm,
    SliceForm, RegexForm]

  function Key(form: Form): string {
    match form
    case LiteralForm => "literal_string"
    case RefForm => "ref"
    case NowForm => "now"
    case ConcatForm => "concat"
    case SelectForm => "select"
    case FormatForm => "format"
    case Base64Form => "base64"
    case ListForm => "list"
    case ObjectForm => "object"
    case AddForm => "add"
    case SubtractForm => "subtract"
    case MaxForm => "max"
    case MinForm => "min"
    case FirstForm => "first"
    case LastForm => "last"
    case CountForm => "count"
    case SliceForm => "slice"
    case RegexForm => "regex"
  }

  /** The keys that may stand beside each discriminator. */
  function AllowedKeys(form: Form): set<string> {
    match form
    case RefForm => {"ref", "default"}
    case FormatForm => {"format", "value"}
    case _ => {Key(form)}
  }

  datatype Test = VerbTest(verb: Verb) | PresentTest | AndTest | OrTest | NotTest | BoolTest

  const TESTS: seq<Test> := [
    VerbTest(Eq), VerbTest(Gt), VerbTest(Lt), VerbTest(Gte), VerbTest(Lte),
    PresentTest, AndTest, OrTest, NotTest, BoolTest]

  function TestKey(test: Test): string {
    match test
    case VerbTest(Eq) => "eq"
    case VerbTest(Gt) => "gt"
    case VerbTest(Lt) => "lt"
    case VerbTest(Gte) => "gte"
    case VerbTest(Lte) => "lte"
    case PresentTest => "present"
    case AndTest => "and"
    case OrTest => "or"
    case NotTest => "not"
    case BoolTest => "literal_bool"
  }

  function Matching<F>(forms: seq<F>, key: F -> string, keys: set<string>): (r: seq<F>)
    ensures forall f | f in r :: key(f) in keys
  {
    if forms == [] then []
    else (if key(forms[0]) in keys then [forms[0]] else []) + Matching(forms[1..], key, keys)
  }

  /** pickValueDiscriminator: the single discriminator among `keys`. */
  function Pick<F>(forms: seq<F>, key: F -> string, keys: set<string>): (r: Option<F>)
    ensures r.Some? ==> key(r.value) in keys
  {
    var matches := Matching(forms, key, keys);
    if |matches| == 1 then Some(matches[0]) else None
  }

  method PickDiscriminator<F>(forms: seq<F>, key: F -> string, keys: set<string>) returns (r: Option<F>)
    ensures r == Pick(forms, key, keys)
  {
    var matches: seq<F> := [];
    for i := 0 to |forms|
      invariant Matching(forms, key, keys) == matches + Matching(forms[i..], key, keys)
    {
      assert forms[i..][1..] == forms[i + 1..];
      if key(forms[i]) in keys {
        matches := matches + [forms[i]];
      }
    }
    return if |matches| == 1 then Some(matches[0]) else None;
  }

  lemma {:induction false} PickOnly<F>(forms: seq<F>, key: F -> string, keys: set<string>, f: F)
    requires forall i, j | 0 <= i < j < |forms| :: forms[i] != forms[j]
    requires forall g | g in forms :: key(g) in keys ==> g == f
    requires key(f) in keys
    ensures Matching(forms, key, keys) == if f in forms then [f] else []
  {
    if forms != [] {
      PickOnly(forms[1..], key, keys, f);
    }
  }

  lemma KeysDiffer(a: Form, b: Form)
    ensures Key(a) == Key(b) ==> a == b
  {
  }

  lemma SideKeys(form: Form)
    ensures Key(form) !in {"default", "value", "from", "to"}
  {
  }

  lemma TestKeysDiffer(a: Test, b: Test)
    ensures TestKey(a) == TestKey(b) ==> a == b
  {
  }

  lemma PickForm(keys: set<string>, form: Form)
    requires Key(form) in keys && keys <= {Key(form), "default", "value"}
    ensures Pick(FORMS, Key, keys) == Some(form)
  {
    forall g: Form ensures Key(g) in keys ==> g == form {
      KeysDiffer(g, form);
      SideKeys(g);
    }
    assert form in FORMS by {
      assert FORMS[0] == LiteralForm && FORMS[17] == RegexForm;
    }
    PickOnly(FORMS, Key, keys, form);
  }

  lemma PickTest(test: Test)
    ensures Pick(TESTS, TestKey, {TestKey(test)}) == Some(test)
  {
    forall g: Test ensures TestKey(g) in {TestKey(test)} ==> g == test {
      TestKeysDiffer(g, test);
    }
    PickOnly(TESTS, TestKey, {TestKey(test)}, test);
  }

  // ---- encoding ----

  function Single(form: Form, x: Json): Json {
    JObj(map[Key(form) := x])
  }

  function Paired(form: Form, x: Json, k: string, y: Json): Json {
    JObj(map[Key(form) := x, k := y])
  }

  function RefObject(p: Json, d: Option<Json>): Json {
    match d case None => Single(RefForm, p) case Some(x) => Paired(RefForm, p, "default", x)
  }

  function ReducerForm(reducer: Reducer): Form {
    match reducer
    case Max => MaxForm
    case Min => MinForm
    case First => FirstForm
    case Last => LastForm
    case Count => CountForm
  }

  function Wrapped(form: Form, x: Result<Json>): Result<Json> {
    match x case Err => Err case Ok(j) => Ok(Single(form, j))
  }

  function ArrayOf(xs: Result<seq<Json>>): Result<Json> {
    match xs case Err => Err case Ok(js) => Ok(JArr(js))
  }

  function EncodeValue(v: Value): Result<Json>
    decreases v, 1
  {
    match v
    case Null => Ok(JNull)
    case Unset => Err
    case LitInt(n) => Ok(JInt(n))
    case LitBool(b) => Ok(JBool(b))
    case LitStr(s) => Ok(JStr(s))
    case Ref(path, default) =>
      (match EncodeDefault(default)
       case Err => Err
       case Ok(d) => Ok(RefObject(EncodePath(path), d)))
    case Now => Ok(Single(NowForm, JBool(true)))
    case Concat(parts) => if parts == [] then Err else Wrapped(ConcatForm, ArrayOf(EncodeAll(parts)))
    case Select(branches, otherwise) =>
      (match EncodeBranches(branches)
       case Err => Err
       case Ok(bs) => match EncodeValue(otherwise)
         case Err => Err
         case Ok(d) => Ok(Single(SelectForm, JObj(map["branches" := JArr(bs), "default" := d]))))
    case Format(verb, inner) =>
      (match EncodeValue(inner) case Err => Err case Ok(x) => Ok(Paired(FormatForm, JStr(verb), "value", x)))
    case Base64(inner) => Wrapped(Base64Form, EncodeValue(inner))
    case List(elems) => Wrapped(ListForm, ArrayOf(EncodeAll(elems)))
    case Object(fields) =>
      if forall k | k in fields :: EncodeValue(fields[k]).Ok?
      then Ok(Single(ObjectForm, JObj(map k | k in fields :: EncodeValue(fields[k]).value)))
      else Err
    case Arith(op, operands) =>
      Wrapped(if op == AddOp then AddForm else SubtractForm, ArrayOf(EncodeAll(operands)))
    case Reduce(reducer, operand) => Wrapped(ReducerForm(reducer), EncodeValue(operand))
    case Slice(operand, from, to) => EncodeSlice(EncodeValue(operand), from, to)
    case Regex(pattern, source, capture, default) =>
      (match EncodeValue(source)
       case Err => Err
       case Ok(src) => match EncodeDefault(default)
         case Err => Err
         case Ok(d) => Ok(Single(RegexForm, RegexObject(pattern, src, capture, d))))
  }

  function EncodeDefault(default: Option<Value>): Result<Option<Json>>
    decreases default, 0
  {
    match default
    case None => Ok(None)
    case Some(d) => match EncodeValue(d) case Err => Err case Ok(x) => Ok(Some(x))
  }

  /** `omitempty` drops a zero capture and an absent default. */
  function RegexObject(pattern: string, source: Json, capture: int, default: Option<Json>): Json {
    JObj(map["pattern" := JStr(pattern), "from" := source]
      + (if capture == 0 then map[] else map["capture" := JInt(capture)])
      + (match default case None => map[] case Some(d) => map["default" := d]))
  }

  function Bounds(from: Option<int>, to: Option<int>): map<string, Json> {
    (match from case None => map[] case Some(n) => map["from" := JInt(n)])
    + (match to case None => map[] case Some(n) => map["to" := JInt(n)])
  }

  /** The bounds are merged into the operand's own mapping. A null operand leaves a nil Go map,
      which can be printed but not written to. */
  function EncodeSlice(operand: Result<Json>, from: Option<int>, to: Option<int>): Result<Json> {
    match operand
    case Ok(JObj(fields)) => Ok(Single(SliceForm, JObj(fields + Bounds(from, to))))
    case Ok(JNull) => if from == None && to == None then Ok(Single(SliceForm, JNull)) else Err
    case _ => Err
  }

  function EncodeAll(vs: seq<Value>): (r: Result<seq<Json>>)
    ensures r.Ok? ==> |r.value| == |vs|
    decreases vs, 0
  {
    if vs == [] then Ok([])
    else match EncodeValue(vs[0])
      case Err => Err
      case Ok(x) => match EncodeAll(vs[1..]) case Err => Err case Ok(xs) => Ok([x] + xs)
  }

  function EncodeBranches(branches: seq<Branch>): Result<seq<Json>>
    decreases branches, 0
  {
    if branches == [] then Ok([])
    else match EncodeBranch(branches[0])
      case Err => Err
      case Ok(x) => match EncodeBranches(branches[1..]) case Err => Err case Ok(xs) => Ok([x] + xs)
  }

  function EncodeBranch(b: Branch): Result<Json>
    decreases b, 1
  {
    match EncodePredicate(b.when)
    case Err => Err
    case Ok(w) => match EncodeValue(b.value)
      case Err => Err
      case Ok(x) => Ok(JObj(map["when" := w, "value" := x]))
  }

  function Tagged(test: Test, x: Json): Json {
    JObj(map[TestKey(test) := x])
  }

  function EncodePredicate(p: Predicate): Result<Json>
    decreases p, 1
  {
    match p
    case NoPredicate => Err
    case Compare(verb, path, value) =>
      (match EncodeValue(value)
       case Err => Err
       case Ok(x) => Ok(Tagged(VerbTest(verb), JObj(map["path" := EncodePath(path), "value" := x]))))
    case Present(path) => Ok(Tagged(PresentTest, EncodePath(path)))
    case And(all) =>
      if all == [] then Err
      else (match EncodePredicates(all) case Err => Err case Ok(xs) => Ok(Tagged(AndTest, JArr(xs))))
    case Or(any) =>
      if any == [] then Err
      else (match EncodePredicates(any) case Err => Err case Ok(xs) => Ok(Tagged(OrTest, JArr(xs))))
    case Not(q) => (match EncodePredicate(q) case Err => Err case Ok(x) => Ok(Tagged(NotTest, x)))
    case LiteralBool(b) => Ok(Tagged(BoolTest, JBool(b)))
  }

  function EncodePredicates(ps: seq<Predicate>): Result<seq<Json>>
    decreases ps, 0
  {
    if ps == [] then Ok([])
    else match EncodePredicate(ps[0])
      case Err => Err
      case Ok(x) => match EncodePredicates(ps[1..]) case Err => Err case Ok(xs) => Ok([x] + xs)
  }

  // ---- decoding ----

  /** json.Unmarshal leaves a Go string or int untouched on null. */
  function DecodeText(j: Json): Result<string> {
    match j case JNull => Ok("") case JStr(s) => Ok(s) case _ => Err
  }

  function DecodeInt(j: Json): Result<int> {
    match j case JNull => Ok(0) case JInt(n) => if InInt64(n) then Ok(n) else Err case _ => Err
  }

  function DecodeBound(j: Json, k: string): Result<Option<int>>
    requires j.JObj?
  {
    if k !in j.fields then Ok(None)
    else match DecodeInt(j.fields[k]) case Err => Err case Ok(n) => Ok(Some(n))
  }

  function DecodeValue(lib: Lib, j: Json): Result<Value>
    decreases j, 4
  {
    match j
    case JNull => Ok(Null)
    case JBool(b) => Ok(LitBool(b))
    case JInt(n) => if InInt64(n) then Ok(LitInt(n)) else Err
    case JFraction(_) => Err
    case JStr(s) => Desugar(lib, s)
    case JArr(_) => Err
    case JObj(_) => DecodeObject(lib, j, {})
  }

  /** A mapping, not looking at the `hidden` keys. */
  function DecodeObject(lib: Lib, j: Json, hidden: set<string>): Result<Value>
    requires j.JObj?
    decreases j, 3
  {
    var keys := j.fields.Keys - hidden;
    match Pick(FORMS, Key, keys)
    case None => Err
    case Some(form) => if keys <= AllowedKeys(form) then DecodeForm(lib, j, form) else Err
  }

  function DecodeForm(lib: Lib, j: Json, form: Form): Result<Value>
    requires j.JObj? && Key(form) in j.fields
    decreases j, 2
  {
    var x := j.fields[Key(form)];
    match form
    case LiteralForm => (match DecodeText(x) case Err => Err case Ok(s) => Ok(LitStr(s)))
    case RefForm =>
      (match DecodePath(x)
       case Err => Err
       case Ok(path) => match DecodeDefault(lib, j) case Err => Err case Ok(d) => Ok(Ref(path, d)))
    case NowForm => if x == JBool(true) then Ok(Now) else Err
    case ConcatForm =>
      (match DecodeArray(lib, x)
       case Err => Err
       case Ok(vs) => if |vs| < 2 then Err else Ok(Concat(vs)))
    case SelectForm => DecodeSelect(lib, x)
    case FormatForm =>
      (match DecodeText(x)
       case Err => Err
       case Ok(verb) => match DecodeAt(lib, j, "value") case Err => Err case Ok(v) => Ok(Format(verb, v)))
    case Base64Form => (match DecodeValue(lib, x) case Err => Err case Ok(v) => Ok(Base64(v)))
    case ListForm => (match DecodeArray(lib, x) case Err => Err case Ok(vs) => Ok(List(vs)))
    case ObjectForm => DecodeFields(lib, x)
    case AddForm => DecodeArith(lib, x, AddOp)
    case SubtractForm => DecodeArith(lib, x, SubtractOp)
    case MaxForm => DecodeReducer(lib, x, Max)
    case MinForm => DecodeReducer(lib, x, Min)
    case FirstForm => DecodeReducer(lib, x, First)
    case LastForm => DecodeReducer(lib, x, Last)
    case CountForm => DecodeReducer(lib, x, Count)
    case SliceForm => DecodeSlice(lib, x)
    case RegexForm => DecodeRegex(lib, x)
  }

  /** A pointer field: missing and null are both nil. */
  function DecodeDefault(lib: Lib, j: Json): Result<Option<Value>>
    requires j.JObj?
    decreases j, 0
  {
    if "default" !in j.fields || j.fields["default"] == JNull then Ok(None)
    else match DecodeValue(lib, j.fields["default"]) case Err => Err case Ok(v) => Ok(Some(v))
  }

  /** A struct field: missing leaves the Go zero value. */
  function DecodeAt(lib: Lib, j: Json, k: string): Result<Value>
    requires j.JObj?
    decreases j, 0
  {
    if k in j.fields then DecodeValue(lib, j.fields[k]) else Ok(Unset)
  }

  function DecodeArray(lib: Lib, j: Json): Result<seq<Value>>
    decreases j, 0
  {
    match j case JNull => Ok([]) case JArr(elems) => DecodeAll(lib, elems) case _ => Err
  }

  function DecodeAll(lib: Lib, js: seq<Json>): (r: Result<seq<Value>>)
    ensures r.Ok? ==> |r.value| == |js|
    decreases js, 0
  {
    if js == [] then Ok([])
    else match DecodeValue(lib, js[0])
      case Err => Err
      case Ok(v) => match DecodeAll(lib, js[1..]) case Err => Err case Ok(vs) => Ok([v] + vs)
  }

  function DecodeArith(lib: Lib, j: Json, op: ArithOp): Result<Value>
    decreases j, 1
  {
    match DecodeArray(lib, j)
    case Err => Err
    case Ok(vs) => if |vs| == 2 then Ok(Arith(op, vs)) else Err
  }

  /** A bare array is sugar for a list literal. */
  function DecodeReducer(lib: Lib, j: Json, reducer: Reducer): Result<Value>
    decreases j, 5
  {
    if j.JArr? then (match DecodeAll(lib, j.elems) case Err => Err case Ok(vs) => Ok(Reduce(reducer, List(vs))))
    else (match DecodeValue(lib, j) case Err => Err case Ok(v) => Ok(Reduce(reducer, v)))
  }

  function DecodeFields(lib: Lib, j: Json): Result<Value>
    decreases j, 0
  {
    match j
    case JNull => Ok(Object(map[]))
    case JObj(fields) =>
      if forall k | k in fields :: DecodeValue(lib, fields[k]).Ok?
      then Ok(Object(map k | k in fields :: DecodeValue(lib, fields[k]).value))
      else Err
    case _ => Err
  }

  /** The bounds are pulled out and the remaining keys decode as the operand. */
  function DecodeSlice(lib: Lib, j: Json): Result<Value>
    decreases j, 5
  {
    if !j.JObj? || j.fields.Keys <= {"from", "to"} then Err
    else match DecodeBound(j, "from")
      case Err => Err
      case Ok(from) => match DecodeBound(j, "to")
        case Err => Err
        case Ok(to) => match DecodeObject(lib, j, {"from", "to"})
          case Err => Err
          case Ok(operand) => Ok(Slice(operand, from, to))
  }

  function DecodeRegex(lib: Lib, j: Json): Result<Value>
    decreases j, 1
  {
    if !j.JObj? || "pattern" !in j.fields then Err
    else match DecodeText(j.fields["pattern"])
      case Err => Err
      case Ok(pattern) => match DecodeAt(lib, j, "from")
        case Err => Err
        case Ok(source) => match DecodeBound(j, "capture")
          case Err => Err
          case Ok(capture) => match DecodeDefault(lib, j)
            case Err => Err
            case Ok(d) =>
              if pattern == "" then Err
              else Ok(Regex(pattern, source, match capture case None => 0 case Some(n) => n, d))
  }

  function DecodeSelect(lib: Lib, j: Json): Result<Value>
    decreases j, 1
  {
    match j
    case JNull => Ok(Select([], Unset))
    case JObj(fields) =>
      (match (if "branches" in fields then DecodeBranchArray(lib, fields["branches"]) else Ok([]))
       case Err => Err
       case Ok(branches) => match DecodeAt(lib, j, "default")
         case Err => Err
         case Ok(otherwise) => Ok(Select(branches, otherwise)))
    case _ => Err
  }

  function DecodeBranchArray(lib: Lib, j: Json): Result<seq<Branch>>
    decreases j, 0
  {
    match j case JNull => Ok([]) case JArr(elems) => DecodeBranches(lib, elems) case _ => Err
  }

  function DecodeBranches(lib: Lib, js: seq<Json>): Result<seq<Branch>>
    decreases js, 0
  {
    if js == [] then Ok([])
    else match DecodeBranch(lib, js[0])
      case Err => Err
      case Ok(b) => match DecodeBranches(lib, js[1..]) case Err => Err case Ok(bs) => Ok([b] + bs)
  }

  function DecodeBranch(lib: Lib, j: Json): Result<Branch>
    decreases j, 1
  {
    match j
    case JNull => Ok(Branch(NoPredicate, Unset))
    case JObj(fields) =>
      (match (if "when" in fields then DecodePredicate(lib, fields["when"]) else Ok(NoPredicate))
       case Err => Err
       case Ok(when) => match DecodeAt(lib, j, "value")
         case Err => Err
         case Ok(v) => Ok(Branch(when, v)))
    case _ => Err
  }

  function DecodePredicate(lib: Lib, j: Json): Result<Predicate>
    decreases j, 2
  {
    if !j.JObj? then Err
    else match Pick(TESTS, TestKey, j.fields.Keys)
      case None => Err
      case Some(test) =>
        if j.fields.Keys == {TestKey(test)} then DecodeTest(lib, j.fields[TestKey(test)], test) else Err
  }

  function DecodeTest(lib: Lib, x: Json, test: Test): Result<Predicate>
    decreases x, 3
  {
    match test
    case VerbTest(verb) => DecodeCompare(lib, x, verb)
    case PresentTest => (match DecodePath(x) case Err => Err case Ok(path) => Ok(Present(path)))
    case AndTest =>
      (match DecodePredicateArray(lib, x) case Err => Err case Ok(ps) => if ps == [] then Err else Ok(And(ps)))
    case OrTest =>
      (match DecodePredicateArray(lib, x) case Err => Err case Ok(ps) => if ps == [] then Err else Ok(Or(ps)))
    case NotTest => (match DecodePredicate(lib, x) case Err => Err case Ok(q) => Ok(Not(q)))
    case BoolTest =>
      (match x case JNull => Ok(LiteralBool(false)) case JBool(b) => Ok(LiteralBool(b)) case _ => Err)
  }

  function DecodeCompare(lib: Lib, j: Json, verb: Verb): Result<Predicate>
    decreases j, 1
  {
    match j
    case JNull => Ok(Compare(verb, Path([], false), Unset))
    case JObj(fields) =>
      (match (if "path" in fields then DecodePath(fields["path"]) else Ok(Path([], false)))
       case Err => Err
       case Ok(path) => match DecodeAt(lib, j, "value")
         case Err => Err
         case Ok(v) => Ok(Compare(verb, path, v)))
    case _ => Err
  }

  function DecodePredicateArray(lib: Lib, j: Json): Result<seq<Predicate>>
    decreases j, 0
  {
    match j case JNull => Ok([]) case JArr(elems) => DecodePredicates(lib, elems) case _ => Err
  }

  function DecodePredicates(lib: Lib, js: seq<Json>): Result<seq<Predicate>>
    decreases js, 0
  {
    if js == [] then Ok([])
    else match DecodePredicate(lib, js[0])
      case Err => Err
      case Ok(p) => match DecodePredicates(lib, js[1..]) case Err => Err case Ok(ps) => Ok([p] + ps)
  }

  // ---- the values that survive ----

  predicate WellFormed(v: Value)
    decreases v, 1
  {
    match v
    case Null => true
    case Unset => false
    case LitStr(s) => PlainText(s)
    case LitInt(n) => InInt64(n)
    case LitBool(_) => true
    case Ref(path, default) => WellFormedPath(path) && WellFormedDefault(default)
    case Now => true
    case Concat(parts) => |parts| >= 2 && AllWellFormed(parts)
    case Select(branches, otherwise) => BranchesWellFormed(branches) && WellFormed(otherwise)
    case Format(_, inner) => WellFormed(inner)
    case Base64(inner) => WellFormed(inner)
    case List(elems) => AllWellFormed(elems)
    case Object(fields) => forall k | k in fields :: WellFormed(fields[k])
    case Arith(_, operands) => |operands| == 2 && AllWellFormed(operands)
    case Reduce(_, operand) => WellFormed(operand)
    case Slice(operand, from, to) =>
      && !(operand.Null? || operand.LitStr? || operand.LitInt? || operand.LitBool?)
      && WellFormed(operand)
      && (from.Some? ==> InInt64(from.value))
      && (to.Some? ==> InInt64(to.value))
    case Regex(pattern, source, capture, default) =>
      pattern != "" && WellFormed(source) && InInt64(capture) && WellFormedDefault(default)
  }

  predicate WellFormedDefault(default: Option<Value>)
    decreases default, 0
  {
    default.Some? ==> default.value != Null && WellFormed(default.value)
  }

  predicate AllWellFormed(vs: seq<Value>)
    decreases vs, 0
  {
    vs == [] || (WellFormed(vs[0]) && AllWellFormed(vs[1..]))
  }

  predicate BranchesWellFormed(branches: seq<Branch>)
    decreases branches, 0
  {
    branches == [] || (BranchWellFormed(branches[0]) && BranchesWellFormed(branches[1..]))
  }

  predicate BranchWellFormed(b: Branch)
    decreases b, 1
  {
    PredicateWellFormed(b.when) && WellFormed(b.value)
  }

  predicate PredicateWellFormed(p: Predicate)
    decreases p, 1
  {
    match p
    case NoPredicate => false
    case Compare(_, path, value) => WellFormedPath(path) && WellFormed(value)
    case Present(path) => WellFormedPath(path)
    case And(all) => all != [] && PredicatesWellFormed(all)
    case Or(any) => any != [] && PredicatesWellFormed(any)
    case Not(q) => PredicateWellFormed(q)
    case LiteralBool(_) => true
  }

  predicate PredicatesWellFormed(ps: seq<Predicate>)
    decreases ps, 0
  {
    ps == [] || (PredicateWellFormed(ps[0]) && PredicatesWellFormed(ps[1..]))
  }

  // ---- reading back one printed layer ----

  lemma ReadSingle(lib: Lib, form: Form, x: Json)
    ensures DecodeValue(lib, Single(form, x)) == DecodeForm(lib, Single(form, x), form)
    ensures Single(form, x).fields[Key(form)] == x && Single(form, x).fields.Keys == {Key(form)}
  {
    PickForm({Key(form)}, form);
    assert Single(form, x).fields.Keys - {} == {Key(form)};
  }

  lemma ReadPaired(lib: Lib, form: Form, x: Json, k: string, y: Json)
    requires k in {"default", "value"} && AllowedKeys(form) == {Key(form), k}
    ensures DecodeValue(lib, Paired(form, x, k, y)) == DecodeForm(lib, Paired(form, x, k, y), form)
    ensures Paired(form, x, k, y).fields[Key(form)] == x
  {
    SideKeys(form);
    PickForm({Key(form), k}, form);
    assert Paired(form, x, k, y).fields.Keys - {} == {Key(form), k};
  }

  function ReadDefault(lib: Lib, d: Option<Json>): Result<Option<Value>> {
    if d == None || d == Some(JNull) then Ok(None)
    else match DecodeValue(lib, d.value) case Err => Err case Ok(w) => Ok(Some(w))
  }

  lemma ReadRef(lib: Lib, p: Json, d: Option<Json>)
    ensures DecodeValue(lib, RefObject(p, d)) ==
      match DecodePath(p)
      case Err => Err
      case Ok(path) => match ReadDefault(lib, d) case Err => Err case Ok(default) => Ok(Ref(path, default))
  {
    var j := RefObject(p, d);
    SideKeys(RefForm);
    if d == None {
      ReadSingle(lib, RefForm, p);
    } else {
      ReadPaired(lib, RefForm, p, "default", d.value);
      assert j.fields["default"] == d.value;
    }
    assert DecodeDefault(lib, j) == ReadDefault(lib, d);
  }

  lemma ReadFormat(lib: Lib, verb: string, x: Json)
    ensures DecodeValue(lib, Paired(FormatForm, JStr(verb), "value", x)) ==
      match DecodeValue(lib, x) case Err => Err case Ok(v) => Ok(Format(verb, v))
  {
    ReadPaired(lib, FormatForm, JStr(verb), "value", x);
    assert Paired(FormatForm, JStr(verb), "value", x).fields["value"] == x;
  }

  lemma ReadBase64(lib: Lib, x: Json)
    ensures DecodeValue(lib, Single(Base64Form, x)) ==
      match DecodeValue(lib, x) case Err => Err case Ok(v) => Ok(Base64(v))
  {
    ReadSingle(lib, Base64Form, x);
  }

  lemma ReadReducer(lib: Lib, reducer: Reducer, x: Json)
    ensures DecodeValue(lib, Single(ReducerForm(reducer), x)) == DecodeReducer(lib, x, reducer)
  {
    ReadSingle(lib, ReducerForm(reducer), x);
  }

  lemma ReadSlice(lib: Lib, x: Json)
    ensures DecodeValue(lib, Single(SliceForm, x)) == DecodeSlice(lib, x)
  {
    ReadSingle(lib, SliceForm, x);
  }

  lemma ReadRegex(lib: Lib, x: Json)
    ensures DecodeValue(lib, Single(RegexForm, x)) == DecodeRegex(lib, x)
  {
    ReadSingle(lib, RegexForm, x);
  }

  lemma ReadSelect(lib: Lib, x: Json)
    ensures DecodeValue(lib, Single(SelectForm, x)) == DecodeSelect(lib, x)
  {
    ReadSingle(lib, SelectForm, x);
  }

  lemma ReadObject(lib: Lib, x: Json)
    ensures DecodeValue(lib, Single(ObjectForm, x)) == DecodeFields(lib, x)
  {
    ReadSingle(lib, ObjectForm, x);
  }

  lemma TestsNot(lib: Lib, x: Json)
    ensures DecodeTest(lib, x, NotTest) == match DecodePredicate(lib, x) case Err => Err case Ok(q) => Ok(Not(q))
  {
  }

  lemma ReadNot(lib: Lib, x: Json)
    ensures DecodePredicate(lib, Tagged(NotTest, x)) ==
      match DecodePredicate(lib, x) case Err => Err case Ok(q) => Ok(Not(q))
  {
    var test := NotTest;
    ReadTagged(lib, test, x);
    TestsNot(lib, x);
  }

  lemma ReadCompare(lib: Lib, verb: Verb, path: Json, value: Json)
    ensures DecodePredicate(lib, Tagged(VerbTest(verb), JObj(map["path" := path, "value" := value]))) ==
      match DecodePath(path)
      case Err => Err
      case Ok(p) => match DecodeValue(lib, value) case Err => Err case Ok(v) => Ok(Compare(verb, p, v))
  {
    var x := JObj(map["path" := path, "value" := value]);
    ReadTagged(lib, VerbTest(verb), x);
    assert x.fields["path"] == path && x.fields["value"] == value;
    assert DecodeTest(lib, x, VerbTest(verb)) == DecodeCompare(lib, x, verb);
    assert DecodeAt(lib, x, "value") == DecodeValue(lib, value);
  }

  lemma ReadTagged(lib: Lib, test: Test, x: Json)
    ensures DecodePredicate(lib, Tagged(test, x)) == DecodeTest(lib, x, test)
  {
    PickTest(test);
    assert Tagged(test, x).fields.Keys == {TestKey(test)};
  }

  /** The keys of a printed Value: its discriminator, and at most one of the side keys. */
  lemma PrintedKeys(v: Value)
    requires EncodeValue(v).Ok? && EncodeValue(v).value.JObj?
    ensures EncodeValue(v).value.fields.Keys !! {"from", "to"}
    ensures exists form: Form :: Key(form) in EncodeValue(v).value.fields.Keys
  {
    forall form: Form ensures Key(form) !in {"from", "to"} {
      SideKeys(form);
    }
  }

  /** Merging bounds into a printed operand and hiding them again changes nothing. */
  lemma ReadMerged(lib: Lib, v: Value, from: Option<int>, to: Option<int>)
    requires EncodeValue(v).Ok? && EncodeValue(v).value.JObj?
    ensures var j := EncodeValue(v).value; var merged := JObj(j.fields + Bounds(from, to));
      DecodeObject(lib, merged, {"from", "to"}) == DecodeObject(lib, j, {})
  {
    var j := EncodeValue(v).value;
    var merged := JObj(j.fields + Bounds(from, to));
    PrintedKeys(v);
    assert merged.fields.Keys - {"from", "to"} == j.fields.Keys - {};
    match Pick(FORMS, Key, j.fields.Keys - {}) {
      case None =>
      case Some(form) =>
        SideKeys(form);
        SameForm(lib, merged, j, form);
    }
  }

  lemma SameForm(lib: Lib, a: Json, b: Json, form: Form)
    requires a.JObj? && b.JObj? && Key(form) in a.fields && Key(form) in b.fields
    requires a.fields[Key(form)] == b.fields[Key(form)]
    requires forall k | k in {"default", "value"} ::
      if k in a.fields then k in b.fields && a.fields[k] == b.fields[k] else k !in b.fields
    ensures DecodeForm(lib, a, form) == DecodeForm(lib, b, form)
  {
    assert "default" in {"default", "value"} && "value" in {"default", "value"};
    assert DecodeDefault(lib, a) == DecodeDefault(lib, b);
    assert DecodeAt(lib, a, "value") == DecodeAt(lib, b, "value");
  }

  // ---- the round trip, both ways ----

  predicate RoundTrips(lib: Lib, v: Value) {
    EncodeValue(v).Ok? && DecodeValue(lib, EncodeValue(v).value) == Ok(v)
  }

  predicate AllRoundTrip(lib: Lib, vs: seq<Value>) {
    EncodeAll(vs).Ok? && DecodeAll(lib, EncodeAll(vs).value) == Ok(vs)
  }

  predicate PredicateRoundTrips(lib: Lib, p: Predicate) {
    EncodePredicate(p).Ok? && DecodePredicate(lib, EncodePredicate(p).value) == Ok(p)
  }

  /** Printing a Value and reading it back gives the same Value exactly when it is well formed. */
  lemma {:induction false} ValueRoundTrip(lib: Lib, v: Value)
    ensures RoundTrips(lib, v) <==> WellFormed(v)
    decreases v, 1
  {
    match v
    case LitStr(s) => SelfDesugaring(lib, s);
    case Ref(_, _) => RefRoundTrip(lib, v);
    case Now => ReadSingle(lib, NowForm, JBool(true));
    case Select(_, _) => SelectRoundTrip(lib, v);
    case Object(_) => ObjectRoundTrip(lib, v);
    case Slice(_, _, _) => SliceRoundTrip(lib, v);
    case Regex(_, _, _, _) => RegexRoundTrip(lib, v);
    case Concat(parts) => ArrayRoundTrip(lib, v, ConcatForm, parts);
    case List(elems) => ArrayRoundTrip(lib, v, ListForm, elems);
    case Arith(op, operands) => ArrayRoundTrip(lib, v, if op == AddOp then AddForm else SubtractForm, operands);
    case Format(_, _) => UnaryRoundTrip(lib, v);
    case Base64(_) => UnaryRoundTrip(lib, v);
    case Reduce(_, _) => UnaryRoundTrip(lib, v);
    case _ =>
  }

  lemma {:induction false} UnaryRoundTrip(lib: Lib, v: Value)
    requires v.Format? || v.Base64? || v.Reduce?
    ensures RoundTrips(lib, v) <==> WellFormed(v)
    decreases v, 0
  {
    match v {
      case Format(verb, inner) =>
        ValueRoundTrip(lib, inner);
        if EncodeValue(inner).Ok? { ReadFormat(lib, verb, EncodeValue(inner).value); }
      case Base64(inner) =>
        ValueRoundTrip(lib, inner);
        if EncodeValue(inner).Ok? { ReadBase64(lib, EncodeValue(inner).value); }
      case Reduce(reducer, operand) =>
        ValueRoundTrip(lib, operand);
        if EncodeValue(operand).Ok? {
          PrintedShape(operand);
          ReadReducer(lib, reducer, EncodeValue(operand).value);
        }
    }
  }

  /** What an array form reads back, given what its elements do. */
  lemma ReadArray(lib: Lib, form: Form, xs: seq<Json>)
    requires form in {ConcatForm, ListForm, AddForm, SubtractForm}
    ensures DecodeValue(lib, Single(form, JArr(xs))) ==
      match DecodeAll(lib, xs)
      case Err => Err
      case Ok(vs) =>
        if form == ListForm then Ok(List(vs))
        else if form == ConcatForm then (if |vs| < 2 then Err else Ok(Concat(vs)))
        else if |vs| != 2 then Err
        else Ok(Arith(if form == AddForm then AddOp else SubtractOp, vs))
  {
    ReadSingle(lib, form, JArr(xs));
    assert DecodeArray(lib, JArr(xs)) == DecodeAll(lib, xs);
  }

  lemma {:induction false} ArrayRoundTrip(lib: Lib, v: Value, form: Form, vs: seq<Value>)
    requires (v == Concat(vs) && form == ConcatForm) || (v == List(vs) && form == ListForm)
      || (v == Arith(AddOp, vs) && form == AddForm) || (v == Arith(SubtractOp, vs) && form == SubtractForm)
    ensures RoundTrips(lib, v) <==> WellFormed(v)
    decreases v, 0
  {
    AllRoundTrips(lib, vs);
    PrintedArray(v, form, vs);
    if EncodeAll(vs).Ok? {
      ReadArray(lib, form, EncodeAll(vs).value);
    }
  }

  lemma PrintedArray(v: Value, form: Form, vs: seq<Value>)
    requires (v == Concat(vs) && form == ConcatForm) || (v == List(vs) && form == ListForm)
      || (v == Arith(AddOp, vs) && form == AddForm) || (v == Arith(SubtractOp, vs) && form == SubtractForm)
    ensures EncodeValue(v) ==
      if v == Concat([]) then Err else match EncodeAll(vs) case Err => Err case Ok(xs) => Ok(Single(form, JArr(xs)))
    ensures WellFormed(v) <==> AllWellFormed(vs) && (v.Concat? ==> |vs| >= 2) && (v.Arith? ==> |vs| == 2)
  {
  }

  lemma {:induction false} AllRoundTrips(lib: Lib, vs: seq<Value>)
    ensures AllRoundTrip(lib, vs) <==> AllWellFormed(vs)
    decreases vs, 0
  {
    if vs != [] {
      ValueRoundTrip(lib, vs[0]);
      AllRoundTrips(lib, vs[1..]);
      if EncodeAll(vs).Ok? {
        var xs := EncodeAll(vs).value;
        assert xs[0] == EncodeValue(vs[0]).value && xs[1..] == EncodeAll(vs[1..]).value;
        assert vs == [vs[0]] + vs[1..];
      }
    }
  }

  lemma {:induction false} RefRoundTrip(lib: Lib, v: Value)
    requires v.Ref?
    ensures RoundTrips(lib, v) <==> WellFormed(v)
    decreases v, 0
  {
    PathRoundTrip(v.path);
    DefaultRoundTrip(lib, v.default);
    if EncodeDefault(v.default).Ok? {
      ReadRef(lib, EncodePath(v.path), EncodeDefault(v.default).value);
    }
  }

  lemma {:induction false} ObjectRoundTrip(lib: Lib, v: Value)
    requires v.Object?
    ensures RoundTrips(lib, v) <==> WellFormed(v)
    decreases v, 0
  {
    var fields := v.fields;
    forall k | k in fields ensures RoundTrips(lib, fields[k]) <==> WellFormed(fields[k]) {
      ValueRoundTrip(lib, fields[k]);
    }
    if EncodeValue(v).Ok? {
      var x := EncodeValue(v).value.fields[Key(ObjectForm)];
      ReadObject(lib, x);
      assert x.JObj? && x.fields.Keys == fields.Keys;
      assert forall k | k in fields :: x.fields[k] == EncodeValue(fields[k]).value;
      var d := DecodeFields(lib, x);
      if WellFormed(v) {
        assert d.Ok? && d.value.fields == fields;
      }
      if d == Ok(v) {
        forall k | k in fields ensures RoundTrips(lib, fields[k]) {
          assert k in x.fields && d.value.fields[k] == fields[k];
        }
      }
    }
  }

  lemma {:induction false} SliceRoundTrip(lib: Lib, v: Value)
    requires v.Slice?
    ensures RoundTrips(lib, v) <==> WellFormed(v)
    decreases v, 0
  {
    ValueRoundTrip(lib, v.operand);
    match EncodeValue(v.operand) {
      case Err =>
      case Ok(x) => MergedRoundTrip(lib, v, x);
    }
  }

  lemma MergedRoundTrip(lib: Lib, v: Value, x: Json)
    requires v.Slice? && EncodeValue(v.operand) == Ok(x)
    requires RoundTrips(lib, v.operand) <==> WellFormed(v.operand)
    ensures RoundTrips(lib, v) <==> WellFormed(v)
  {
    PrintedShape(v.operand);
    if x.JObj? {
      var merged := JObj(x.fields + Bounds(v.from, v.to));
      ReadSlice(lib, merged);
      ReadMerged(lib, v.operand, v.from, v.to);
      PrintedKeys(v.operand);
      ReadBounds(lib, x.fields, v.from, v.to);
      SliceParts(lib, merged, v);
    } else {
      ReadSlice(lib, JNull);
    }
  }

  /** Scalars and null print as scalars, every other form as a mapping. */
  lemma PrintedShape(v: Value)
    ensures EncodeValue(v).Ok? ==>
      && !EncodeValue(v).value.JArr?
      && (EncodeValue(v).value.JObj? <==> !(v.Null? || v.LitStr? || v.LitInt? || v.LitBool?))
      && (EncodeValue(v).value == JNull <==> v == Null)
  {
  }

  lemma SliceParts(lib: Lib, merged: Json, v: Value)
    requires v.Slice? && merged.JObj? && !(merged.fields.Keys <= {"from", "to"})
    ensures DecodeSlice(lib, merged) == Ok(v) <==>
      && DecodeBound(merged, "from") == Ok(v.from)
      && DecodeBound(merged, "to") == Ok(v.to)
      && DecodeObject(lib, merged, {"from", "to"}) == Ok(v.operand)
  {
  }

  lemma ReadBounds(lib: Lib, fields: map<string, Json>, from: Option<int>, to: Option<int>)
    requires fields.Keys !! {"from", "to"} && fields != map[]
    ensures var merged := JObj(fields + Bounds(from, to));
      && !(merged.fields.Keys <= {"from", "to"})
      && (DecodeBound(merged, "from") == Ok(from) <==> (from.Some? ==> InInt64(from.value)))
      && (DecodeBound(merged, "to") == Ok(to) <==> (to.Some? ==> InInt64(to.value)))
  {
    var k :| k in fields;
    assert k in fields + Bounds(from, to) && k !in {"from", "to"};
  }

  lemma {:induction false} RegexRoundTrip(lib: Lib, v: Value)
    requires v.Regex?
    ensures RoundTrips(lib, v) <==> WellFormed(v)
    decreases v, 0
  {
    ValueRoundTrip(lib, v.source);
    DefaultRoundTrip(lib, v.default);
    if EncodeValue(v.source).Ok? && EncodeDefault(v.default).Ok? {
      var src, d := EncodeValue(v.source).value, EncodeDefault(v.default).value;
      ReadRegex(lib, RegexObject(v.pattern, src, v.capture, d));
      ReadRegexObject(lib, v.pattern, src, v.capture, d);
    }
  }

  lemma {:induction false} DefaultRoundTrip(lib: Lib, default: Option<Value>)
    ensures WellFormedDefault(default) <==>
      EncodeDefault(default).Ok? && ReadDefault(lib, EncodeDefault(default).value) == Ok(default)
    decreases default, 0
  {
    if default.Some? {
      ValueRoundTrip(lib, default.value);
      PrintedShape(default.value);
    }
  }

  lemma ReadRegexObject(lib: Lib, pattern: string, src: Json, capture: int, d: Option<Json>)
    ensures var x := RegexObject(pattern, src, capture, d);
      DecodeRegex(lib, x) ==
        match DecodeValue(lib, src)
        case Err => Err
        case Ok(source) =>
          if !InInt64(capture) || pattern == "" then Err
          else match ReadDefault(lib, d)
            case Err => Err
            case Ok(default) => Ok(Regex(pattern, source, capture, default))
  {
    var x := RegexObject(pattern, src, capture, d);
    assert x.fields["pattern"] == JStr(pattern) && x.fields["from"] == src;
    assert if capture == 0 then "capture" !in x.fields else x.fields["capture"] == JInt(capture);
    assert if d == None then "default" !in x.fields else x.fields["default"] == d.value;
  }

  lemma {:induction false} SelectRoundTrip(lib: Lib, v: Value)
    requires v.Select?
    ensures RoundTrips(lib, v) <==> WellFormed(v)
    decreases v, 0
  {
    BranchesRoundTrip(lib, v.branches);
    ValueRoundTrip(lib, v.otherwise);
    if EncodeBranches(v.branches).Ok? && EncodeValue(v.otherwise).Ok? {
      var bs, d := EncodeBranches(v.branches).value, EncodeValue(v.otherwise).value;
      var x := JObj(map["branches" := JArr(bs), "default" := d]);
      ReadSelect(lib, x);
      assert x.fields["branches"] == JArr(bs) && x.fields["default"] == d;
    }
  }

  lemma {:induction false} BranchesRoundTrip(lib: Lib, branches: seq<Branch>)
    ensures BranchesWellFormed(branches) <==>
      EncodeBranches(branches).Ok? && DecodeBranches(lib, EncodeBranches(branches).value) == Ok(branches)
    decreases branches, 0
  {
    if branches != [] {
      BranchRoundTrip(lib, branches[0]);
      BranchesRoundTrip(lib, branches[1..]);
      if EncodeBranches(branches).Ok? {
        var xs := EncodeBranches(branches).value;
        assert xs[0] == EncodeBranch(branches[0]).value && xs[1..] == EncodeBranches(branches[1..]).value;
        assert branches == [branches[0]] + branches[1..];
      }
    }
  }

  lemma {:induction false} BranchRoundTrip(lib: Lib, b: Branch)
    ensures BranchWellFormed(b) <==> EncodeBranch(b).Ok? && DecodeBranch(lib, EncodeBranch(b).value) == Ok(b)
    decreases b, 1
  {
    PredicateRoundTrip(lib, b.when);
    ValueRoundTrip(lib, b.value);
  }

  lemma {:induction false} PredicateRoundTrip(lib: Lib, p: Predicate)
    ensures PredicateRoundTrips(lib, p) <==> PredicateWellFormed(p)
    decreases p, 1
  {
    match p
    case NoPredicate =>
    case LiteralBool(_) => LeafRoundTrip(lib, p);
    case Present(_) => LeafRoundTrip(lib, p);
    case Compare(_, _, _) => CompareRoundTrip(lib, p);
    case And(all) => JunctionRoundTrip(lib, p, all, AndTest);
    case Or(any) => JunctionRoundTrip(lib, p, any, OrTest);
    case Not(q) =>
      PredicateRoundTrip(lib, q);
      NotRoundTrip(lib, q);
  }

  lemma LeafRoundTrip(lib: Lib, p: Predicate)
    requires p.LiteralBool? || p.Present?
    ensures PredicateRoundTrips(lib, p) <==> PredicateWellFormed(p)
  {
    if p.LiteralBool? {
      ReadTagged(lib, BoolTest, JBool(p.b));
    } else {
      PathRoundTrip(p.path);
      ReadTagged(lib, PresentTest, EncodePath(p.path));
    }
  }

  lemma NotRoundTrip(lib: Lib, q: Predicate)
    requires PredicateRoundTrips(lib, q) <==> PredicateWellFormed(q)
    ensures PredicateRoundTrips(lib, Not(q)) <==> PredicateWellFormed(Not(q))
  {
    if EncodePredicate(q).Ok? {
      ReadNot(lib, EncodePredicate(q).value);
    }
  }

  lemma {:induction false} CompareRoundTrip(lib: Lib, p: Predicate)
    requires p.Compare?
    ensures PredicateRoundTrips(lib, p) <==> PredicateWellFormed(p)
    decreases p, 0
  {
    PathRoundTrip(p.path);
    ValueRoundTrip(lib, p.value);
    if EncodeValue(p.value).Ok? {
      ReadCompare(lib, p.op, EncodePath(p.path), EncodeValue(p.value).value);
    }
  }

  lemma {:induction false} JunctionRoundTrip(lib: Lib, p: Predicate, ps: seq<Predicate>, test: Test)
    requires (p == And(ps) && test == AndTest) || (p == Or(ps) && test == OrTest)
    ensures PredicateRoundTrips(lib, p) <==> PredicateWellFormed(p)
    decreases p, 0
  {
    PredicatesRoundTrip(lib, ps);
    if EncodePredicates(ps).Ok? {
      var x := JArr(EncodePredicates(ps).value);
      ReadTagged(lib, test, x);
      assert DecodePredicateArray(lib, x) == DecodePredicates(lib, x.elems);
    }
  }

  lemma {:induction false} PredicatesRoundTrip(lib: Lib, ps: seq<Predicate>)
    ensures PredicatesWellFormed(ps) <==>
      EncodePredicates(ps).Ok? && DecodePredicates(lib, EncodePredicates(ps).value) == Ok(ps)
    decreases ps, 0
  {
    if ps != [] {
      PredicateRoundTrip(lib, ps[0]);
      PredicatesRoundTrip(lib, ps[1..]);
      if EncodePredicates(ps).Ok? {
        var xs := EncodePredicates(ps).value;
        assert xs[0] == EncodePredicate(ps[0]).value && xs[1..] == EncodePredicates(ps[1..]).value;
        assert ps == [ps[0]] + ps[1..];
      }
    }
  }
}
