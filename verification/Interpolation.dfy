/** `${path|default}` interpolation in string scalars (schema/value.go desugarInterpolation). */
module Interpolation {
  import opened Syntax
  import opened Text
  import opened Runtime
  import opened Scopes
  import opened Eval
  import opened Paths

  predicate StartsWith(s: string, a: char, b: char) {
    |s| >= 2 && s[0] == a && s[1] == b
  }

  /** The body of a segment, with `\{` unescaped, and the text after its closing brace. */
  function Segment(s: string): (r: Result<(string, string)>)
    ensures r.Ok? ==> |r.value.1| < |s| && r.value.1 == s[|s| - |r.value.1|..]
  {
    if s == "" then Err
    else if StartsWith(s, '\\', '{') then
      Extend("{", Segment(s[2..]))
    else if s[0] == '}' then Ok(("", s[1..]))
    else Extend([s[0]], Segment(s[1..]))
  }

  function Extend(head: string, tail: Result<(string, string)>): Result<(string, string)> {
    match tail case Err => Err case Ok((body, rest)) => Ok((head + body, rest))
  }

  lemma ExtendTwice(a: string, b: string, t: Result<(string, string)>)
    ensures Extend(a + b, t) == Extend(a, Extend(b, t))
  {
    if t.Ok? {
      assert a + b + t.value.0 == a + (b + t.value.0);
    }
  }

  /** One step of the scan at position i. */
  lemma SegmentAt(s: string, i: nat)
    requires i < |s|
    ensures Segment(s[i..]) ==
      if StartsWith(s[i..], '\\', '{') then Extend("{", Segment(s[i + 2..]))
      else if s[i] == '}' then Ok(("", s[i + 1..]))
      else Extend([s[i]], Segment(s[i + 1..]))
  {
    assert s[i..][1..] == s[i + 1..];
    assert i + 2 <= |s| ==> s[i..][2..] == s[i + 2..];
  }

  lemma ExtendNothing(t: Result<(string, string)>)
    ensures Extend("", t) == t
  {
    assert t.Ok? ==> "" + t.value.0 == t.value.0;
  }

  /** scanInterpSegment. */
  method ScanSegment(s: string, start: nat) returns (ok: bool, end: nat, body: string)
    requires start <= |s|
    ensures ok <==> Segment(s[start..]).Ok?
    ensures ok ==> start < end <= |s| && Segment(s[start..]) == Ok((body, s[end..]))
  {
    body := "";
    var i := start;
    ExtendNothing(Segment(s[start..]));
    while i < |s|
      invariant start <= i <= |s|
      invariant Segment(s[start..]) == Extend(body, Segment(s[i..]))
    {
      SegmentAt(s, i);
      if s[i] == '\\' && i + 1 < |s| && s[i + 1] == '{' {
        ExtendTwice(body, "{", Segment(s[i + 2..]));
        body := body + "{";
        i := i + 2;
        continue;
      }
      if s[i] == '}' {
        assert body + "" == body;
        return true, i + 1, body;
      }
      ExtendTwice(body, [s[i]], Segment(s[i + 1..]));
      body := body + [s[i]];
      i := i + 1;
    }
    return false, 0, "";
  }

  /** parseInterpDefault: the empty default is the empty string, anything else goes to YAML. */
  function ParseDefault(lib: Lib, text: string): Result<Value> {
    if text == "" then Ok(LitStr("")) else lib.yamlScalar(text)
  }

  /** parseInterpSegment: the path up to the first bar, and the default after it. */
  function ParseSegment(lib: Lib, body: string): (r: Result<Value>)
    ensures r.Ok? ==> r.value.Ref?
  {
    var bar := IndexOf(body, '|');
    var pathText := TrimSpace(body[..bar]);
    if pathText == "" then Err
    else match ParsePath(pathText)
      case Err => Err
      case Ok(path) =>
        if bar == |body| then Ok(Ref(path, None))
        else match ParseDefault(lib, body[bar + 1..])
          case Err => Err
          case Ok(d) => Ok(Ref(path, Some(d)))
  }

  function Flush(lit: string): seq<Value> {
    if lit == "" then [] else [LitStr(lit)]
  }

  function Prepend(head: seq<Value>, tail: Result<seq<Value>>): Result<seq<Value>> {
    match tail case Err => Err case Ok(vs) => Ok(head + vs)
  }

  /** The segments of `s`, when `lit` is the literal text still pending in front of it. */
  function Segments(lib: Lib, lit: string, s: string): Result<seq<Value>>
    decreases |s|
  {
    if s == "" then Ok(Flush(lit))
    else if StartsWith(s, '\\', '$') then Segments(lib, lit + "$", s[2..])
    else if StartsWith(s, '$', '{') then
      match Segment(s[2..])
      case Err => Err
      case Ok((body, rest)) => match ParseSegment(lib, body)
        case Err => Err
        case Ok(ref) => Prepend(Flush(lit) + [ref], Segments(lib, "", rest))
    else Segments(lib, lit + [s[0]], s[1..])
  }

  function FromSegments(vs: seq<Value>): Value {
    if vs == [] then LitStr("") else if |vs| == 1 then vs[0] else Concat(vs)
  }

  function Desugar(lib: Lib, s: string): Result<Value> {
    if '$' !in s then Ok(LitStr(s))
    else match Segments(lib, "", s) case Err => Err case Ok(vs) => Ok(FromSegments(vs))
  }

  lemma PrependTwice(a: seq<Value>, b: seq<Value>, t: Result<seq<Value>>)
    ensures Prepend(a + b, t) == Prepend(a, Prepend(b, t))
  {
    if t.Ok? {
      assert a + b + t.value == a + (b + t.value);
    }
  }

  /** One step of the scan at position i: an escaped dollar or an ordinary character. */
  lemma TextAt(lib: Lib, lit: string, s: string, i: nat)
    requires i < |s| && !StartsWith(s[i..], '$', '{')
    ensures Segments(lib, lit, s[i..]) ==
      if StartsWith(s[i..], '\\', '$') then Segments(lib, lit + "$", s[i + 2..])
      else Segments(lib, lit + [s[i]], s[i + 1..])
  {
    assert s[i..][1..] == s[i + 1..];
    assert i + 2 <= |s| ==> s[i..][2..] == s[i + 2..];
  }

  /** One step of the scan at position i: a `${` whose segment has been scanned. */
  lemma HoleAt(lib: Lib, lit: string, s: string, i: nat)
    requires i + 2 <= |s| && StartsWith(s[i..], '$', '{')
    ensures Segments(lib, lit, s[i..]) ==
      var hole := Segment(s[i + 2..]);
      if hole.Err? || ParseSegment(lib, hole.value.0).Err? then Err
      else Prepend(Flush(lit) + [ParseSegment(lib, hole.value.0).value], Segments(lib, "", hole.value.1))
  {
    assert s[i..][2..] == s[i + 2..];
  }

  method DesugarInterpolation(lib: Lib, s: string) returns (r: Result<Value>)
    ensures r == Desugar(lib, s)
  {
    if '$' !in s {
      return Ok(LitStr(s));
    }
    var segments: seq<Value> := [];
    var lit := "";
    var i := 0;
    assert s[0..] == s;
    assert forall vs: seq<Value> :: [] + vs == vs;
    while i < |s|
      invariant 0 <= i <= |s|
      invariant Segments(lib, "", s) == Prepend(segments, Segments(lib, lit, s[i..]))
    {
      if s[i] == '\\' && i + 1 < |s| && s[i + 1] == '$' {
        TextAt(lib, lit, s, i);
        lit := lit + "$";
        i := i + 2;
        continue;
      }
      if s[i] == '$' && i + 1 < |s| && s[i + 1] == '{' {
        HoleAt(lib, lit, s, i);
        var ok, end, body := ScanSegment(s, i + 2);
        if !ok {
          return Err;
        }
        var ref := ParseSegment(lib, body);
        if ref.Err? {
          return Err;
        }
        PrependTwice(segments, Flush(lit) + [ref.value], Segments(lib, "", s[end..]));
        segments := segments + (Flush(lit) + [ref.value]);
        lit := "";
        i := end;
        continue;
      }
      TextAt(lib, lit, s, i);
      lit := lit + [s[i]];
      i := i + 1;
    }
    segments := segments + Flush(lit);
    return Ok(FromSegments(segments));
  }

  // ---- the shape of the result ----

  /** Literals are not empty and never stand side by side; everything else is a ref. */
  predicate Alternating(vs: seq<Value>) {
    && (forall i | 0 <= i < |vs| :: vs[i].Ref? || (vs[i].LitStr? && vs[i].text != ""))
    && (forall i | 0 <= i < |vs| - 1 :: vs[i].Ref? || vs[i + 1].Ref?)
  }

  lemma {:induction false} SegmentsAlternate(lib: Lib, lit: string, s: string)
    requires Segments(lib, lit, s).Ok?
    ensures Alternating(Segments(lib, lit, s).value)
    decreases |s|
  {
    if s == "" {
    } else if StartsWith(s, '\\', '$') {
      SegmentsAlternate(lib, lit + "$", s[2..]);
    } else if StartsWith(s, '$', '{') {
      var (body, rest) := Segment(s[2..]).value;
      SegmentsAlternate(lib, "", rest);
    } else {
      SegmentsAlternate(lib, lit + [s[0]], s[1..]);
    }
  }

  lemma DesugarShape(lib: Lib, s: string)
    requires Desugar(lib, s).Ok?
    ensures var v := Desugar(lib, s).value;
      v.LitStr? || v.Ref? || (v.Concat? && |v.parts| >= 2 && Alternating(v.parts))
  {
    if '$' in s {
      SegmentsAlternate(lib, "", s);
    }
  }

  // ---- the meaning of the result ----

  /** A hole in front of its first bar, and behind it if there is one. */
  function Cut(body: string): (string, Option<string>) {
    if body == "" then ("", None)
    else if body[0] == '|' then ("", Some(body[1..]))
    else var (before, after) := Cut(body[1..]); ([body[0]] + before, after)
  }

  /** The text behind the bar: a scalar, and the empty string when there is nothing. */
  function DefaultText(lib: Lib, env: Env, after: Option<string>): Result<string> {
    match after
    case None => Ok("")
    case Some(text) =>
      if text == "" then Ok("")
      else match lib.yamlScalar(text)
        case Err => Err
        case Ok(d) => match EvalValue(lib, env, d) case Err => Err case Ok(r) => Ok(ToString(lib, r))
  }

  /** The text of a hole: that of the leaf its path leads to, or of the default when the leaf is absent or empty.
      A default that is no scalar is an error even when it is not needed. */
  function HoleText(lib: Lib, env: Env, body: string): Result<string> {
    var (before, after) := Cut(body);
    var name := TrimSpace(before);
    if name == "" || ParsePath(name).Err? then Err
    else if after.Some? && after.value != "" && lib.yamlScalar(after.value).Err? then Err
    else match Resolve(lib, env, ParsePath(name).value)
      case Err => Err
      case Ok(leaf) =>
        if leaf.Some? && !IsZero(leaf.value) then Ok(ToString(lib, leaf.value)) else DefaultText(lib, env, after)
  }

  lemma {:induction false} CutAtBar(body: string)
    ensures var bar := IndexOf(body, '|');
      Cut(body) == (body[..bar], if bar == |body| then None else Some(body[bar + 1..]))
  {
    if body != "" && body[0] != '|' {
      CutAtBar(body[1..]);
      var bar := IndexOf(body[1..], '|');
      assert body[..bar + 1] == [body[0]] + body[1..][..bar];
      assert bar < |body[1..]| ==> body[1..][bar + 1..] == body[bar + 2..];
    }
  }

  lemma DefaultReads(lib: Lib, env: Env, text: string)
    requires ParseDefault(lib, text).Ok?
    ensures var d := ParseDefault(lib, text).value;
      DefaultText(lib, env, Some(text)) ==
        match EvalValue(lib, env, d) case Err => Err case Ok(r) => Ok(ToString(lib, r))
  {
  }

  /** What a parsed hole evaluates to is its text. */
  lemma HoleReads(lib: Lib, env: Env, body: string)
    ensures HoleText(lib, env, body) ==
      match ParseSegment(lib, body)
      case Err => Err
      case Ok(ref) => match EvalValue(lib, env, ref) case Err => Err case Ok(r) => Ok(ToString(lib, r))
  {
    CutAtBar(body);
    var (before, after) := Cut(body);
    if after.Some? && ParseDefault(lib, after.value).Ok? {
      DefaultReads(lib, env, after.value);
    }
  }

  /** `path|default` is the reference with that default, `path|` has the empty string as its default, and `path` has
      none; blanks around the path do not matter. */
  lemma HoleIsReference(lib: Lib, text: string, default: string)
    requires '|' !in text && TrimSpace(text) != "" && ParsePath(TrimSpace(text)).Ok?
    ensures var path := ParsePath(TrimSpace(text)).value;
      && ParseSegment(lib, text) == Ok(Ref(path, None))
      && ParseSegment(lib, text + "|") == Ok(Ref(path, Some(LitStr(""))))
      && (default != "" ==>
            ParseSegment(lib, text + "|" + default) ==
              if lib.yamlScalar(default).Err? then Err else Ok(Ref(path, Some(lib.yamlScalar(default).value))))
  {
    BarAfter(text, "");
    BarAfter(text, default);
    assert text + "|" + "" == text + "|";
    var whole := text + "|" + default;
    assert IndexOf(text, '|') == |text| && text[..|text|] == text;
    assert whole[..|text|] == text && whole[|text| + 1..] == default;
    assert (text + "|")[..|text|] == text && (text + "|")[|text| + 1..] == "";
  }

  lemma BarAfter(text: string, rest: string)
    requires '|' !in text
    ensures IndexOf(text + "|" + rest, '|') == |text|
  {
    var s := text + "|" + rest;
    assert s[|text|] == '|' && s[..|text|] == text;
  }

  /** A `{` may be written `\{`. */
  function Quoted(text: string): string {
    if text == "" then "" else (if text[0] == '{' then "\\{" else [text[0]]) + Quoted(text[1..])
  }

  lemma Step(s: string, c: char, tail: string)
    requires s == [c] + tail && c != '}' && c != '\\'
    ensures Segment(s) == Extend([c], Segment(tail))
  {
    assert s[1..] == tail;
  }

  lemma EscapeStep(s: string, tail: string)
    requires s == "\\{" + tail
    ensures Segment(s) == Extend("{", Segment(tail))
  {
    assert s[2..] == tail;
  }

  /** A segment ends at its first closing brace, and without one there is no segment; the brace of an opening one
      may be written either way. */
  lemma {:induction false} SegmentMeaning(text: string, rest: string)
    requires '}' !in text && '\\' !in text
    ensures Segment(text + "}" + rest) == Ok((text, rest)) && Segment(text).Err?
    ensures Segment(Quoted(text) + "}" + rest) == Ok((text, rest))
  {
    if text == "" {
      assert "" + "}" + rest == "}" + rest && ("}" + rest)[1..] == rest;
    } else {
      var c, tail := text[0], text[1..];
      assert c in text && '}' !in tail && '\\' !in tail && text == [c] + tail;
      SegmentMeaning(tail, rest);
      assert text + "}" + rest == [c] + (tail + "}" + rest);
      Step(text, c, tail);
      Step(text + "}" + rest, c, tail + "}" + rest);
      QuotedStep(c, tail, rest);
    }
  }

  lemma QuotedStep(c: char, tail: string, rest: string)
    requires c != '}' && c != '\\'
    ensures Segment(Quoted([c] + tail) + "}" + rest) == Extend([c], Segment(Quoted(tail) + "}" + rest))
  {
    assert ([c] + tail)[1..] == tail;
    var more := Quoted(tail) + "}" + rest;
    if c == '{' {
      assert Quoted([c] + tail) + "}" + rest == "\\{" + more;
      EscapeStep("\\{" + more, more);
    } else {
      assert Quoted([c] + tail) + "}" + rest == [c] + more;
      Step([c] + more, c, more);
    }
  }

  /** Direct substitution, left to right: escapes resolved, each hole replaced by its text. */
  function Render(lib: Lib, env: Env, s: string): Result<string>
    decreases |s|
  {
    if s == "" then Ok("")
    else if StartsWith(s, '\\', '$') then Glue("$", Render(lib, env, s[2..]))
    else if StartsWith(s, '$', '{') then
      match Segment(s[2..])
      case Err => Err
      case Ok((body, rest)) => match HoleText(lib, env, body)
        case Err => Err
        case Ok(text) => Glue(text, Render(lib, env, rest))
    else Glue([s[0]], Render(lib, env, s[1..]))
  }

  function Glue(head: string, tail: Result<string>): Result<string> {
    match tail case Err => Err case Ok(t) => Ok(head + t)
  }

  /** What a list of segments evaluates to, as text. */
  function TextOf(lib: Lib, env: Env, vs: seq<Value>): Result<string> {
    match EvalAll(lib, env, vs) case Err => Err case Ok(list) => Ok(ConcatStrings(lib, list))
  }

  lemma TextOfCons(lib: Lib, env: Env, v: Value, vs: seq<Value>)
    ensures TextOf(lib, env, [v] + vs) ==
      match EvalValue(lib, env, v) case Err => Err case Ok(r) => Glue(ToString(lib, r), TextOf(lib, env, vs))
  {
    assert ([v] + vs)[1..] == vs;
    var e, es := EvalValue(lib, env, v), EvalAll(lib, env, vs);
    if e.Ok? && es.Ok? {
      assert ([e.value] + es.value)[1..] == es.value;
    }
  }

  lemma TextOfFlush(lib: Lib, env: Env, lit: string, vs: seq<Value>)
    ensures TextOf(lib, env, Flush(lit) + vs) == Glue(lit, TextOf(lib, env, vs))
  {
    if lit == "" {
      assert Flush(lit) + vs == vs;
      GlueNothing(TextOf(lib, env, vs));
    } else {
      TextOfCons(lib, env, LitStr(lit), vs);
    }
  }

  function TextOfSegments(lib: Lib, env: Env, segments: Result<seq<Value>>): Result<string> {
    match segments case Err => Err case Ok(vs) => TextOf(lib, env, vs)
  }

  lemma {:induction false} SegmentsMeaning(lib: Lib, env: Env, lit: string, s: string)
    ensures TextOfSegments(lib, env, Segments(lib, lit, s)) == Glue(lit, Render(lib, env, s))
    decreases |s|, 1
  {
    if s == "" {
      assert TextOf(lib, env, []) == Ok("") == Render(lib, env, s);
      TextOfFlush(lib, env, lit, []);
      assert Flush(lit) + [] == Flush(lit);
    } else if StartsWith(s, '\\', '$') {
      SegmentsMeaning(lib, env, lit + "$", s[2..]);
      GlueTwice(lit, "$", Render(lib, env, s[2..]));
    } else if StartsWith(s, '$', '{') {
      HoleMeaning(lib, env, lit, s);
    } else {
      SegmentsMeaning(lib, env, lit + [s[0]], s[1..]);
      GlueTwice(lit, [s[0]], Render(lib, env, s[1..]));
    }
  }

  lemma {:induction false} HoleMeaning(lib: Lib, env: Env, lit: string, s: string)
    requires StartsWith(s, '$', '{')
    ensures TextOfSegments(lib, env, Segments(lib, lit, s)) == Glue(lit, Render(lib, env, s))
    decreases |s|, 0
  {
    var segment := Segment(s[2..]);
    if segment.Ok? {
      var (body, rest) := segment.value;
      SegmentsMeaning(lib, env, "", rest);
      GlueNothing(Render(lib, env, rest));
      HoleReads(lib, env, body);
      HoleJoins(lib, env, lit, ParseSegment(lib, body), HoleText(lib, env, body), Segments(lib, "", rest));
    }
  }

  /** A hole between the pending text and the segments behind it. */
  lemma HoleJoins(lib: Lib, env: Env, lit: string, parsed: Result<Value>, text: Result<string>,
                  tail: Result<seq<Value>>)
    requires text == match parsed
      case Err => Err
      case Ok(ref) => match EvalValue(lib, env, ref) case Err => Err case Ok(r) => Ok(ToString(lib, r))
    ensures TextOfSegments(lib, env, match parsed case Err => Err case Ok(ref) => Prepend(Flush(lit) + [ref], tail)) ==
      Glue(lit, match text case Err => Err case Ok(t) => Glue(t, TextOfSegments(lib, env, tail)))
  {
    if parsed.Ok? && tail.Ok? {
      var ref, vs := parsed.value, tail.value;
      TextOfCons(lib, env, ref, vs);
      TextOfFlush(lib, env, lit, [ref] + vs);
      assert Flush(lit) + [ref] + vs == Flush(lit) + ([ref] + vs);
    }
  }

  lemma GlueTwice(a: string, b: string, t: Result<string>)
    ensures Glue(a + b, t) == Glue(a, Glue(b, t))
  {
    if t.Ok? {
      assert a + b + t.value == a + (b + t.value);
    }
  }

  lemma GlueNothing(t: Result<string>)
    ensures Glue("", t) == t
  {
    if t.Ok? {
      assert "" + t.value == t.value;
    }
  }

  lemma {:induction false} PlainRenders(lib: Lib, env: Env, lit: string, s: string)
    requires '$' !in s
    ensures Render(lib, env, s) == Ok(s)
    ensures Segments(lib, lit, s) == Ok(Flush(lit + s))
    decreases |s|
  {
    if s == "" {
      assert lit + s == lit;
    } else {
      PlainRenders(lib, env, lit + [s[0]], s[1..]);
      assert [s[0]] + s[1..] == s && lit + [s[0]] + s[1..] == lit + s;
    }
  }

  /** Interpolation means direct substitution: in every scope the text of the desugared Value is the
      left-to-right substitution of the original string, and a malformed or failing hole makes one
      fail exactly when it makes the other fail. */
  lemma InterpolationMeaning(lib: Lib, env: Env, s: string)
    ensures Render(lib, env, s) ==
      match Desugar(lib, s)
      case Err => Err
      case Ok(v) => match EvalValue(lib, env, v) case Err => Err case Ok(r) => Ok(ToString(lib, r))
  {
    if '$' !in s {
      PlainRenders(lib, env, "", s);
    } else {
      SegmentsMeaning(lib, env, "", s);
      GlueNothing(Render(lib, env, s));
      var segments := Segments(lib, "", s);
      if segments.Ok? && |segments.value| == 1 {
        var v := segments.value[0];
        assert segments.value == [v] + [];
        TextOfCons(lib, env, v, []);
        var e := EvalValue(lib, env, v);
        if e.Ok? {
          assert ToString(lib, e.value) + "" == ToString(lib, e.value);
        }
      }
    }
  }

  /** A string that is one hole and nothing else is the reference itself, so that its value keeps its type. */
  lemma LoneHole(lib: Lib, text: string)
    requires '}' !in text && '\\' !in text
    ensures Desugar(lib, "${" + text + "}") == ParseSegment(lib, text)
  {
    var s := "${" + text + "}";
    SegmentMeaning(text, "");
    assert s[2..] == text + "}" + "" && '$' == s[0] && StartsWith(s, '$', '{');
    if ParseSegment(lib, text).Ok? {
      var ref := ParseSegment(lib, text).value;
      assert Segments(lib, "", "") == Ok([]) && Flush("") + [ref] + [] == [ref];
    }
  }

  /** The fast path for strings without a dollar sign is what the scanning loop would return. */
  lemma FastPathAgrees(lib: Lib, s: string)
    requires '$' !in s
    ensures Segments(lib, "", s).Ok?
    ensures Desugar(lib, s) == Ok(FromSegments(Segments(lib, "", s).value))
  {
    var env :| env == Env(map[], map[], map[], map[], map[], Nil, Nil, map[], Nil, "", 0);
    PlainRenders(lib, env, "", s);
    assert "" + s == s;
  }

  // ---- strings that stand for themselves ----

  /** No interpolation and no escape anywhere. */
  predicate PlainText(s: string) {
    forall i | 0 <= i < |s| - 1 :: !(s[i] == '$' && s[i + 1] == '{') && !(s[i] == '\\' && s[i + 1] == '$')
  }

  lemma {:induction false} LiteralSegments(lib: Lib, lit: string, s: string)
    ensures PlainText(s) ==> Segments(lib, lit, s) == Ok(Flush(lit + s))
    ensures !PlainText(s) ==> Segments(lib, lit, s) != Ok([LitStr(lit + s)])
    decreases |s|
  {
    if s == "" {
      assert lit + s == lit;
    } else if StartsWith(s, '\\', '$') {
      ShortLiteral(lib, lit + "$", s[2..]);
      assert !PlainText(s);
    } else if StartsWith(s, '$', '{') {
      assert !PlainText(s);
      if Segments(lib, lit, s).Ok? {
        var (body, rest) := Segment(s[2..]).value;
        var ref := ParseSegment(lib, body).value;
        assert Segments(lib, lit, s).value[|Flush(lit)|] == ref;
      }
    } else {
      LiteralSegments(lib, lit + [s[0]], s[1..]);
      assert lit + [s[0]] + s[1..] == lit + s;
      assert forall i | 1 <= i < |s| - 1 :: s[i] == s[1..][i - 1] && s[i + 1] == s[1..][i];
      assert PlainText(s) <==> PlainText(s[1..]) by {
        assert forall i | 0 <= i < |s[1..]| :: s[1..][i] == s[i + 1];
      }
    }
  }

  /** Scanning never lengthens the literal text. */
  lemma {:induction false} ShortLiteral(lib: Lib, lit: string, s: string)
    ensures
      Segments(lib, lit, s).Ok? && |Segments(lib, lit, s).value| == 1 && Segments(lib, lit, s).value[0].LitStr? ==>
      |Segments(lib, lit, s).value[0].text| <= |lit| + |s|
    decreases |s|
  {
    if s == "" {
    } else if StartsWith(s, '\\', '$') {
      ShortLiteral(lib, lit + "$", s[2..]);
    } else if StartsWith(s, '$', '{') {
      if Segments(lib, lit, s).Ok? {
        var (body, rest) := Segment(s[2..]).value;
        assert Segments(lib, lit, s).value[|Flush(lit)|] == ParseSegment(lib, body).value;
      }
    } else {
      ShortLiteral(lib, lit + [s[0]], s[1..]);
    }
  }

  /** A string desugars to itself exactly when it holds neither `${` nor `\$`. */
  lemma SelfDesugaring(lib: Lib, s: string)
    ensures Desugar(lib, s) == Ok(LitStr(s)) <==> PlainText(s)
  {
    LiteralSegments(lib, "", s);
    assert "" + s == s;
    if '$' in s {
      var vs := Segments(lib, "", s);
      if vs.Ok? && FromSegments(vs.value) == LitStr(s) {
        assert vs.value != [];
        assert vs.value == [LitStr(s)];
      }
    }
  }
}
