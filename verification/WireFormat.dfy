/** How documents are written: what the decoder makes of each form of values and predicates, by its literal keys
    (schema/value.go, schema/predicate.go, docs/format.md). */
module WireFormat {
  import opened Syntax
  import opened Text
  import opened Runtime
  import opened Paths
  import opened Interpolation
  import opened Codec

  /** The JSON decodes to this value. */
  predicate Reads(lib: Lib, j: Json, v: Value) {
    DecodeValue(lib, j) == Ok(v)
  }

  predicate ReadsTest(lib: Lib, j: Json, p: Predicate) {
    DecodePredicate(lib, j) == Ok(p)
  }

  // ---- scalars ----

  /** A scalar stands for itself; a text is scanned for holes unless it is marked as literal. Fractions, integers
      beyond 64 bits and bare lists are refused. */
  lemma ScalarsRead(lib: Lib, s: string, n: int, b: bool, elems: seq<Json>)
    ensures Reads(lib, JNull, Null) && Reads(lib, JBool(b), LitBool(b))
    ensures DecodeValue(lib, JInt(n)) == if InInt64(n) then Ok(LitInt(n)) else Err
    ensures DecodeValue(lib, JStr(s)) == Desugar(lib, s)
    ensures Reads(lib, JObj(map["literal_string" := JStr(s)]), LitStr(s))
    ensures DecodeValue(lib, JFraction(s)).Err? && DecodeValue(lib, JArr(elems)).Err?
  {
    ReadSingle(lib, LiteralForm, JStr(s));
  }

  /** `ref` with a path, and with a default that is not null. */
  lemma RefsRead(lib: Lib, text: string, d: Json, default: Value)
    requires ParsePath(text).Ok?
    ensures Reads(lib, JObj(map["ref" := JStr(text)]), Ref(ParsePath(text).value, None))
    ensures Reads(lib, JObj(map["ref" := JStr(text), "default" := JNull]), Ref(ParsePath(text).value, None))
    ensures d != JNull && Reads(lib, d, default) ==>
      Reads(lib, JObj(map["ref" := JStr(text), "default" := d]), Ref(ParsePath(text).value, Some(default)))
  {
    ReadSingle(lib, RefForm, JStr(text));
    ReadPaired(lib, RefForm, JStr(text), "default", JNull);
    ReadPaired(lib, RefForm, JStr(text), "default", d);
  }

  /** A path is its segments between dots; each must be there, and the first must be a root or an alias. */
  lemma PathsRead(parts: seq<string>)
    requires parts != [] && forall p | p in parts :: p != "" && '.' !in p
    ensures ParsePath(Join(parts)) == if ValidRoot(parts[0]) then Ok(Path(parts, false)) else Err
    ensures ParsePath("") == Ok(Path([], true)) && ParsePath(Join(parts) + ".").Err?
  {
    SplitJoin(parts);
    JoinEmpty(parts);
    DotAtTheEnd(parts);
  }

  /** The six roots are read in either form, and the three names that were roots once are refused in both. */
  lemma RootsRead(name: string)
    requires name in {"state", "cache", "events", "extract", "steps", "response"}
    ensures ParsePath(name) == Ok(Path([name], false))
    ensures DecodePath(JObj(map["parts" := JArr([JStr(name)])])) == Ok(Path([name], false))
  {
    SingleSegment(name);
    SinglePart(name);
  }

  lemma FormerRootsFail(name: string)
    requires name in {"cursor", "body", "item"}
    ensures ParsePath(name) == Err && DecodePath(JObj(map["parts" := JArr([JStr(name)])])) == Err
  {
    NoLongerRoot(name);
    SingleSegment(name);
    SinglePart(name);
  }

  lemma NoLongerRoot(name: string)
    requires name in REMOVED_ROOTS
    ensures name !in CLOSED_ROOTS
  {
    assert |name| == 4 || (|name| == 6 && name[0] == 'c');
    assert forall root | root in CLOSED_ROOTS :: |root| != 4 && (|root| == 6 ==> root[0] == 'e');
  }

  lemma SingleSegment(name: string)
    requires name != "" && '.' !in name
    ensures ParsePath(name) == if ValidRoot(name) then Ok(Path([name], false)) else Err
  {
    SplitPrefix(name, "");
  }

  lemma SinglePart(name: string)
    requires name != ""
    ensures DecodePath(JObj(map["parts" := JArr([JStr(name)])])) ==
            if ValidRoot(name) then Ok(Path([name], false)) else Err
  {
    var arr := [JStr(name)];
    assert seq(|arr|, i requires 0 <= i < |arr| => if arr[i].JStr? then arr[i].s else "") == [name];
  }

  /** An alias is a name of letters, digits and underscores with no digit in front. */
  lemma AliasesRead(first: char, rest: string)
    requires first != '.' && '.' !in rest && [first] + rest !in {"cursor", "body", "item"}
    ensures ParsePath([first] + rest) ==
            if (first == '_' || 'a' <= first <= 'z' || 'A' <= first <= 'Z')
               && forall c | c in rest :: c == '_' || 'a' <= c <= 'z' || 'A' <= c <= 'Z' || '0' <= c <= '9'
            then Ok(Path([[first] + rest], false)) else Err
  {
    var name := [first] + rest;
    SingleSegment(name);
    assert forall i | 0 <= i < |rest| :: rest[i] == name[i + 1];
    assert forall i | 1 <= i < |name| :: name[i] in rest;
    if name in CLOSED_ROOTS {
      RootIsIdentifier(name);
    }
  }

  lemma RootIsIdentifier(name: string)
    requires name in CLOSED_ROOTS
    ensures IsIdentifier(name)
  {
  }

  lemma {:induction false} DotAtTheEnd(parts: seq<string>)
    requires parts != [] && forall p | p in parts :: p != "" && '.' !in p
    ensures Split(Join(parts) + ".") == parts + [""]
  {
    SplitPrefix(parts[0], "");
    if |parts| == 1 {
      assert parts[0] + "." + "" == Join(parts) + "." && Split("") == [""];
      assert parts == [parts[0]];
    } else {
      var rest := parts[1..];
      assert forall p | p in rest :: p in parts;
      DotAtTheEnd(rest);
      SplitPrefix(parts[0], Join(rest) + ".");
      assert Join(parts) == parts[0] + "." + Join(rest);
      assert parts[0] + "." + Join(rest) + "." == parts[0] + "." + (Join(rest) + ".");
      assert parts == [parts[0]] + rest && [parts[0]] + (rest + [""]) == parts + [""];
    }
  }

  // ---- operators ----

  lemma PairReads(lib: Lib, x: Json, y: Json, a: Value, b: Value)
    requires Reads(lib, x, a) && Reads(lib, y, b)
    ensures DecodeAll(lib, [x, y]) == Ok([a, b])
  {
    assert [x, y][1..] == [y] && [y][1..] == [] && DecodeAll(lib, []) == Ok([]);
    assert [b] + [] == [b] && [a] + [b] == [a, b];
    assert DecodeAll(lib, [y]) == Ok([b]);
  }

  /** `add` and `subtract` take two operands. */
  lemma ArithmeticReads(lib: Lib, x: Json, y: Json, a: Value, b: Value)
    requires Reads(lib, x, a) && Reads(lib, y, b)
    ensures Reads(lib, JObj(map["add" := JArr([x, y])]), Arith(AddOp, [a, b]))
    ensures Reads(lib, JObj(map["subtract" := JArr([x, y])]), Arith(SubtractOp, [a, b]))
  {
    ReadSingle(lib, AddForm, JArr([x, y]));
    ReadSingle(lib, SubtractForm, JArr([x, y]));
    OperandsRead(lib, x, y, a, b, AddOp);
    OperandsRead(lib, x, y, a, b, SubtractOp);
  }

  lemma OperandsRead(lib: Lib, x: Json, y: Json, a: Value, b: Value, op: ArithOp)
    requires Reads(lib, x, a) && Reads(lib, y, b)
    ensures DecodeArith(lib, JArr([x, y]), op) == Ok(Arith(op, [a, b]))
  {
    PairReads(lib, x, y, a, b);
  }

  lemma ArrayReads(lib: Lib, xs: seq<Json>)
    ensures DecodeArray(lib, JArr(xs)) == DecodeAll(lib, xs)
  {
  }

  /** No other number of operands is accepted. */
  lemma OperandsCount(lib: Lib, xs: seq<Json>)
    requires |xs| != 2
    ensures DecodeValue(lib, JObj(map["add" := JArr(xs)])).Err?
    ensures DecodeValue(lib, JObj(map["subtract" := JArr(xs)])).Err?
  {
    ArrayReads(lib, xs);
    ReadSingle(lib, AddForm, JArr(xs));
    ReadSingle(lib, SubtractForm, JArr(xs));
    assert DecodeArith(lib, JArr(xs), AddOp).Err? && DecodeArith(lib, JArr(xs), SubtractOp).Err?;
  }

  lemma PartsCount(lib: Lib, xs: seq<Json>)
    requires |xs| < 2
    ensures DecodeValue(lib, JObj(map["concat" := JArr(xs)])).Err?
  {
    ArrayReads(lib, xs);
    ReadSingle(lib, ConcatForm, JArr(xs));
  }

  /** `concat` takes at least two parts, `list` any number. */
  lemma SequencesRead(lib: Lib, x: Json, y: Json, a: Value, b: Value)
    requires Reads(lib, x, a) && Reads(lib, y, b)
    ensures Reads(lib, JObj(map["concat" := JArr([x, y])]), Concat([a, b]))
    ensures Reads(lib, JObj(map["list" := JArr([x, y])]), List([a, b]))
    ensures Reads(lib, JObj(map["list" := JArr([])]), List([]))
  {
    PairReads(lib, x, y, a, b);
    ReadSingle(lib, ConcatForm, JArr([x, y]));
    ReadSingle(lib, ListForm, JArr([x, y]));
    ReadSingle(lib, ListForm, JArr([]));
  }

  function ReducerName(reducer: Reducer): string {
    match reducer case Max => "max" case Min => "min" case First => "first" case Last => "last" case Count => "count"
  }

  lemma ReducerKey(reducer: Reducer)
    ensures Key(ReducerForm(reducer)) == ReducerName(reducer)
  {
  }

  lemma ReducerDecodes(lib: Lib, reducer: Reducer, name: string, x: Json)
    requires name == Key(ReducerForm(reducer))
    ensures DecodeValue(lib, JObj(map[name := x])) == DecodeReducer(lib, x, reducer)
  {
    ReadReducer(lib, reducer, x);
  }

  /** The reducers, by key; a bare list is short for a list value. */
  lemma ReducersRead(lib: Lib, x: Json, y: Json, a: Value, b: Value, reducer: Reducer)
    requires Reads(lib, x, a) && Reads(lib, y, b)
    ensures Reads(lib, JObj(map[ReducerName(reducer) := JArr([x, y])]), Reduce(reducer, List([a, b])))
    ensures Reads(lib, JObj(map[ReducerName(reducer) := x]), Reduce(reducer, a))
  {
    PairReads(lib, x, y, a, b);
    ReducerKey(reducer);
    ReducerDecodes(lib, reducer, ReducerName(reducer), JArr([x, y]));
    ReducerDecodes(lib, reducer, ReducerName(reducer), x);
  }

  /** `now` is written with true. */
  lemma NowReads(lib: Lib, b: bool)
    ensures DecodeValue(lib, JObj(map["now" := JBool(b)])) == if b then Ok(Now) else Err
  {
    ReadSingle(lib, NowForm, JBool(b));
  }

  /** `format` with its `value`. */
  lemma FormatReads(lib: Lib, x: Json, a: Value, verb: string)
    requires Reads(lib, x, a)
    ensures Reads(lib, JObj(map["format" := JStr(verb), "value" := x]), Format(verb, a))
  {
    ReadPaired(lib, FormatForm, JStr(verb), "value", x);
    assert DecodeAt(lib, JObj(map["format" := JStr(verb), "value" := x]), "value") == Ok(a);
  }

  lemma Base64Reads(lib: Lib, x: Json, a: Value)
    requires Reads(lib, x, a)
    ensures Reads(lib, JObj(map["base64" := x]), Base64(a))
  {
    ReadSingle(lib, Base64Form, x);
  }

  lemma ObjectReads(lib: Lib, x: Json, a: Value, k: string)
    requires Reads(lib, x, a)
    ensures Reads(lib, JObj(map["object" := JObj(map[k := x])]), Object(map[k := a]))
  {
    var fields := JObj(map[k := x]);
    ReadSingle(lib, ObjectForm, fields);
    assert fields.fields[k] == x && DecodeValue(lib, fields.fields[k]) == Ok(a);
    assert (map n | n in fields.fields :: DecodeValue(lib, fields.fields[n]).value) == map[k := a];
    assert DecodeFields(lib, fields) == Ok(Object(map[k := a]));
  }

  lemma RegexDecodes(lib: Lib, j: Json, pattern: string, a: Value, n: Option<int>, d: Option<Value>)
    requires j.JObj? && "pattern" in j.fields && j.fields["pattern"] == JStr(pattern) && pattern != ""
    requires DecodeAt(lib, j, "from") == Ok(a) && DecodeBound(j, "capture") == Ok(n) && DecodeDefault(lib, j) == Ok(d)
    ensures DecodeRegex(lib, j) == Ok(Regex(pattern, a, match n case None => 0 case Some(k) => k, d))
  {
  }

  /** `regex` has a pattern and a source; the group is the whole match and there is no default. */
  lemma RegexReads(lib: Lib, x: Json, a: Value, pattern: string)
    requires Reads(lib, x, a) && pattern != ""
    ensures Reads(lib, JObj(map["regex" := JObj(map["pattern" := JStr(pattern), "from" := x])]),
                  Regex(pattern, a, 0, None))
  {
    var j := JObj(map["pattern" := JStr(pattern), "from" := x]);
    ReadRegex(lib, j);
    assert DecodeAt(lib, j, "from") == Ok(a);
    RegexDecodes(lib, j, pattern, a, None, None);
  }

  /** Unless they are given. */
  lemma FullRegexReads(lib: Lib, j: Json, x: Json, a: Value, pattern: string, n: int, d: Json, default: Value)
    requires Reads(lib, x, a) && pattern != "" && InInt64(n) && d != JNull && Reads(lib, d, default)
    requires j.JObj? && j.fields.Keys == {"pattern", "from", "capture", "default"}
    requires j.fields["pattern"] == JStr(pattern) && j.fields["from"] == x
    requires j.fields["capture"] == JInt(n) && j.fields["default"] == d
    ensures Reads(lib, JObj(map["regex" := j]), Regex(pattern, a, n, Some(default)))
  {
    ReadRegex(lib, j);
    RegexParts(lib, j, x, a, n, d, default);
    RegexDecodes(lib, j, pattern, a, Some(n), Some(default));
  }

  lemma RegexParts(lib: Lib, j: Json, x: Json, a: Value, n: int, d: Json, default: Value)
    requires j.JObj? && j.fields.Keys == {"pattern", "from", "capture", "default"}
    requires j.fields["from"] == x && j.fields["capture"] == JInt(n) && j.fields["default"] == d
    requires Reads(lib, x, a) && InInt64(n) && d != JNull && Reads(lib, d, default)
    ensures DecodeAt(lib, j, "from") == Ok(a) && DecodeBound(j, "capture") == Ok(Some(n))
    ensures DecodeDefault(lib, j) == Ok(Some(default))
  {
  }

  /** `slice` holds its bounds beside the key of its operand. */
  lemma SliceReads(lib: Lib, j: Json, text: string, bound: string, n: int)
    requires ParsePath(text).Ok? && InInt64(n) && bound in {"from", "to"}
    requires j == JObj(map["ref" := JStr(text), bound := JInt(n)])
    ensures Reads(lib, JObj(map["slice" := j]),
                  Slice(Ref(ParsePath(text).value, None), if bound == "from" then Some(n) else None,
                        if bound == "to" then Some(n) else None))
  {
    SlicedRef(lib, text, bound, JInt(n));
    assert j.fields.Keys == {"ref", bound};
    SliceDecodes(lib, j, bound, n, Ref(ParsePath(text).value, None));
    UnderSlice(lib, "slice", j);
  }

  lemma UnderSlice(lib: Lib, key: string, j: Json)
    requires key == Key(SliceForm)
    ensures DecodeValue(lib, JObj(map[key := j])) == DecodeSlice(lib, j)
  {
    ReadSlice(lib, j);
  }

  lemma SliceDecodes(lib: Lib, j: Json, bound: string, n: int, operand: Value)
    requires j.JObj? && "ref" in j.fields && j.fields.Keys == {"ref", bound} && bound in {"from", "to"}
    requires j.fields[bound] == JInt(n) && InInt64(n) && DecodeObject(lib, j, {"from", "to"}) == Ok(operand)
    ensures DecodeSlice(lib, j) ==
      Ok(Slice(operand, if bound == "from" then Some(n) else None, if bound == "to" then Some(n) else None))
  {
    assert DecodeBound(j, bound) == Ok(Some(n));
    assert DecodeBound(j, if bound == "from" then "to" else "from") == Ok(None);
  }

  lemma RefDecodes(lib: Lib, j: Json, text: string)
    requires j.JObj? && "ref" in j.fields && j.fields["ref"] == JStr(text) && "default" !in j.fields
    requires ParsePath(text).Ok?
    ensures DecodeForm(lib, j, RefForm) == Ok(Ref(ParsePath(text).value, None))
  {
  }

  lemma HiddenKeys(lib: Lib, j: Json, hidden: set<string>, form: Form)
    requires j.JObj? && j.fields.Keys - hidden == {Key(form)}
    ensures DecodeObject(lib, j, hidden) == DecodeForm(lib, j, form)
  {
    PickForm({Key(form)}, form);
  }

  lemma SlicedRef(lib: Lib, text: string, bound: string, n: Json)
    requires ParsePath(text).Ok? && bound in {"from", "to"}
    ensures DecodeObject(lib, JObj(map["ref" := JStr(text), bound := n]), {"from", "to"}) ==
      Ok(Ref(ParsePath(text).value, None))
  {
    var j := JObj(map["ref" := JStr(text), bound := n]);
    assert j.fields.Keys - {"from", "to"} == {"ref"};
    HiddenKeys(lib, j, {"from", "to"}, RefForm);
    RefDecodes(lib, j, text);
  }

  /** `select` has branches and a default. */
  lemma SelectReads(lib: Lib, w: Json, x: Json, y: Json, p: Predicate, a: Value, b: Value)
    requires ReadsTest(lib, w, p) && Reads(lib, x, a) && Reads(lib, y, b)
    ensures Reads(lib, JObj(map["select" := JObj(map["branches" := JArr([JObj(map["when" := w, "value" := x])]),
                                                     "default" := y])]),
                  Select([Branch(p, a)], b))
  {
    var branch := JObj(map["when" := w, "value" := x]);
    var select := JObj(map["branches" := JArr([branch]), "default" := y]);
    ReadSingle(lib, SelectForm, select);
    assert DecodeBranch(lib, branch) == Ok(Branch(p, a));
    assert [branch][1..] == [] && DecodeBranches(lib, []) == Ok([]) && [Branch(p, a)] + [] == [Branch(p, a)];
    assert DecodeBranches(lib, [branch]) == Ok([Branch(p, a)]);
    assert DecodeSelect(lib, select) == Ok(Select([Branch(p, a)], b));
  }

  /** Two discriminators at once are refused, and so is a key that has no place beside one. */
  lemma AmbiguousFormsFail(lib: Lib, a: Form, b: Form, x: Json, y: Json)
    requires a != b
    ensures DecodeValue(lib, JObj(map[Key(a) := x, Key(b) := y])).Err?
  {
    KeysDiffer(a, b);
    var both := JObj(map[Key(a) := x, Key(b) := y]);
    assert both.fields.Keys - {} == {Key(a), Key(b)};
    BothMatch(a, b, {Key(a), Key(b)});
    assert DecodeObject(lib, both, {}) == Err;
  }

  lemma StrayKeysFail(lib: Lib, form: Form, x: Json, y: Json, other: string)
    requires other !in AllowedKeys(form) && other in {"default", "value", "comment"}
    ensures DecodeValue(lib, JObj(map[Key(form) := x, other := y])).Err?
  {
    var j := JObj(map[Key(form) := x, other := y]);
    assert j.fields.Keys - {} == {Key(form), other};
    StrayIsNoForm(form, other);
    assert DecodeObject(lib, j, {}) == Err;
  }

  lemma StrayIsNoForm(form: Form, other: string)
    requires other in {"default", "value", "comment"}
    ensures Pick(FORMS, Key, {Key(form), other}) == Some(form)
  {
    forall g: Form ensures Key(g) in {Key(form), other} ==> g == form {
      KeysDiffer(g, form);
      SideKeys(g);
      assert Key(g) != "comment";
    }
    AllForms(form);
    PickOnly(FORMS, Key, {Key(form), other}, form);
  }

  lemma AllForms(f: Form)
    ensures f in FORMS
  {
    assert FORMS[0] == LiteralForm && FORMS[17] == RegexForm;
  }

  lemma {:induction false} MatchesInclude(forms: seq<Form>, keys: set<string>, f: Form)
    requires f in forms && Key(f) in keys
    ensures f in Matching(forms, Key, keys)
  {
    if forms[0] != f {
      MatchesInclude(forms[1..], keys, f);
    }
  }

  lemma BothMatch(a: Form, b: Form, keys: set<string>)
    requires a != b && Key(a) in keys && Key(b) in keys
    ensures Pick(FORMS, Key, keys) == None
  {
    AllForms(a);
    AllForms(b);
    var forms := FORMS;
    MatchesInclude(forms, keys, a);
    MatchesInclude(forms, keys, b);
    TwoOfThem(Matching(forms, Key, keys), a, b);
  }

  lemma TwoOfThem(list: seq<Form>, a: Form, b: Form)
    requires a in list && b in list && a != b
    ensures |list| != 1
  {
  }

  // ---- predicates ----

  /** The comparisons, by key. */
  lemma ComparisonsRead(lib: Lib, text: string, x: Json, a: Value, verb: Verb)
    requires ParsePath(text).Ok? && Reads(lib, x, a)
    ensures var key := match verb
        case Eq => "eq" case Gt => "gt" case Lt => "lt" case Gte => "gte" case Lte => "lte";
      ReadsTest(lib, JObj(map[key := JObj(map["path" := JStr(text), "value" := x])]),
                Compare(verb, ParsePath(text).value, a))
  {
    var j := JObj(map["path" := JStr(text), "value" := x]);
    ReadTagged(lib, VerbTest(verb), j);
    assert DecodeAt(lib, j, "value") == Ok(a) && DecodePath(JStr(text)) == Ok(ParsePath(text).value);
    assert DecodeCompare(lib, j, verb) == Ok(Compare(verb, ParsePath(text).value, a));
  }

  /** `present` and `literal_bool`. */
  lemma PresentReads(lib: Lib, text: string)
    requires ParsePath(text).Ok?
    ensures ReadsTest(lib, JObj(map["present" := JStr(text)]), Present(ParsePath(text).value))
  {
    ReadTagged(lib, PresentTest, JStr(text));
  }

  lemma FlagReads(lib: Lib, b: bool)
    ensures ReadsTest(lib, JObj(map["literal_bool" := JBool(b)]), LiteralBool(b))
  {
    ReadTagged(lib, BoolTest, JBool(b));
  }

  /** `not`, `and` and `or`; the last two need operands. */
  lemma ConnectivesRead(lib: Lib, x: Json, p: Predicate)
    requires ReadsTest(lib, x, p)
    ensures ReadsTest(lib, JObj(map["not" := x]), Not(p))
    ensures ReadsTest(lib, JObj(map["and" := JArr([x])]), And([p]))
    ensures ReadsTest(lib, JObj(map["or" := JArr([x])]), Or([p]))
  {
    ConnectiveReads(lib, x, p, NotTest, TestKey(NotTest));
    ConnectiveReads(lib, x, p, AndTest, TestKey(AndTest));
    ConnectiveReads(lib, x, p, OrTest, TestKey(OrTest));
  }

  lemma ConnectiveReads(lib: Lib, x: Json, p: Predicate, test: Test, key: string)
    requires ReadsTest(lib, x, p) && key == TestKey(test)
    ensures test == NotTest ==> ReadsTest(lib, JObj(map[key := x]), Not(p))
    ensures test == AndTest ==> ReadsTest(lib, JObj(map[key := JArr([x])]), And([p]))
    ensures test == OrTest ==> ReadsTest(lib, JObj(map[key := JArr([x])]), Or([p]))
  {
    ReadTagged(lib, test, x);
    ReadTagged(lib, test, JArr([x]));
    OperandReads(lib, x, p);
  }

  lemma OperandReads(lib: Lib, x: Json, p: Predicate)
    requires ReadsTest(lib, x, p)
    ensures DecodePredicateArray(lib, JArr([x])) == Ok([p])
  {
    assert [x][1..] == [] && DecodePredicates(lib, []) == Ok([]) && [p] + [] == [p];
    assert DecodePredicates(lib, [x]) == Ok([p]);
  }

  lemma NoOperands(lib: Lib, test: Test)
    requires test in {AndTest, OrTest}
    ensures DecodeTest(lib, JArr([]), test) == Err
  {
    assert DecodePredicateArray(lib, JArr([])) == DecodePredicates(lib, []);
    assert DecodePredicates(lib, []) == Ok([]);
  }

  lemma NoOperandsFail(lib: Lib, key: string)
    requires key in {"and", "or"}
    ensures DecodePredicate(lib, JObj(map[key := JArr([])])) == Err
  {
    var test := if key == "and" then AndTest else OrTest;
    assert key == TestKey(test);
    ReadTagged(lib, test, JArr([]));
    NoOperands(lib, test);
  }
}
