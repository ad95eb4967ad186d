/** The string routines the interpreter relies on: decimal integers (strconv), dotted joins and
    splits, trimming, and the byte order of strings. */
module Text {
  import opened Syntax

  const INT64_MIN := -0x8000_0000_0000_0000
  const INT64_MAX := 0x7fff_ffff_ffff_ffff

  predicate InInt64(n: int) {
    INT64_MIN <= n <= INT64_MAX
  }

  /** Two's-complement wrap-around of 64-bit arithmetic. */
  function Wrap64(n: int): (r: int)
    ensures InInt64(r)
    ensures InInt64(n) ==> r == n
  {
    (n - INT64_MIN) % 0x1_0000_0000_0000_0000 + INT64_MIN
  }

  /** time.Time.Sub saturates instead of wrapping. */
  function Saturate64(n: int): (r: int)
    ensures InInt64(r)
    ensures InInt64(n) ==> r == n
  {
    if n < INT64_MIN then INT64_MIN else if n > INT64_MAX then INT64_MAX else n
  }

  // ---- decimal integers ----

  function DigitChar(d: nat): (c: char)
    requires d < 10
    ensures '0' <= c <= '9' && c as int - '0' as int == d
  {
    ('0' as int + d) as char
  }

  function Digits(n: nat): (s: string)
    ensures s != "" && AllDigits(s) && DigitsValue(s) == n
  {
    if n < 10 then [DigitChar(n)] else Digits(n / 10) + [DigitChar(n % 10)]
  }

  predicate AllDigits(s: string) {
    forall i | 0 <= i < |s| :: '0' <= s[i] <= '9'
  }

  function DigitsValue(s: string): nat
    requires AllDigits(s)
  {
    if s == "" then 0 else 10 * DigitsValue(s[..|s| - 1]) + (s[|s| - 1] as int - '0' as int)
  }

  /** strconv.FormatInt in base 10. */
  function IntToString(n: int): (s: string)
    ensures s != ""
  {
    if n < 0 then "-" + Digits(-n) else Digits(n)
  }

  /** strconv.Atoi and strconv.ParseInt(_, 10, 64): an optional sign, then digits, in range. */
  function ParseInt(s: string): Option<int> {
    var negative := s != "" && s[0] == '-';
    var digits := if s != "" && (s[0] == '-' || s[0] == '+') then s[1..] else s;
    if digits == "" || !AllDigits(digits) then None
    else
      var n: int := if negative then 0 - DigitsValue(digits) else DigitsValue(digits);
      if InInt64(n) then Some(n) else None
  }

  lemma ParseIntToString(n: int)
    ensures ParseInt(IntToString(n)) == if InInt64(n) then Some(n) else None
  {
    if n < 0 {
      assert IntToString(n)[1..] == Digits(-n);
    } else {
      assert AllDigits(IntToString(n)) && '0' <= IntToString(n)[0];
    }
  }

  // ---- dotted joins ----

  /** strings.Join(parts, "."). */
  function Join(parts: seq<string>): string {
    if parts == [] then "" else if |parts| == 1 then parts[0] else parts[0] + "." + Join(parts[1..])
  }

  /** strings.Split(s, "."): always at least one part. */
  function Split(s: string): (parts: seq<string>)
    ensures parts != []
  {
    if s == "" then [""]
    else if s[0] == '.' then [""] + Split(s[1..])
    else var rest := Split(s[1..]); [[s[0]] + rest[0]] + rest[1..]
  }

  lemma {:induction false} SplitPrefix(seg: string, rest: string)
    requires '.' !in seg
    ensures Split(seg) == [seg]
    ensures Split(seg + "." + rest) == [seg] + Split(rest)
  {
    var s := seg + "." + rest;
    if seg == "" {
      assert s[1..] == rest;
    } else {
      SplitPrefix(seg[1..], rest);
      assert s[1..] == seg[1..] + "." + rest;
      assert [seg[0]] + seg[1..] == seg;
    }
  }

  lemma {:induction false} SplitJoin(parts: seq<string>)
    requires parts != [] && forall p | p in parts :: '.' !in p
    ensures Split(Join(parts)) == parts
  {
    if |parts| == 1 {
      SplitPrefix(parts[0], "");
    } else {
      SplitPrefix(parts[0], Join(parts[1..]));
      SplitJoin(parts[1..]);
    }
  }

  // ---- order ----

  /** Go's `<` on strings, as -1, 0 or 1. */
  function CompareStrings(a: string, b: string): (c: int)
    ensures -1 <= c <= 1
    ensures c == 0 <==> a == b
  {
    if a == "" then (if b == "" then 0 else -1)
    else if b == "" then 1
    else if a[0] < b[0] then -1
    else if b[0] < a[0] then 1
    else
      assert a == [a[0]] + a[1..] && b == [b[0]] + b[1..];
      CompareStrings(a[1..], b[1..])
  }

  lemma {:induction false} CompareStringsOrder(a: string, b: string, c: string)
    ensures CompareStrings(a, b) == -CompareStrings(b, a)
    ensures CompareStrings(a, b) <= 0 && CompareStrings(b, c) <= 0 ==> CompareStrings(a, c) <= 0
    decreases |a| + |b| + |c|
  {
    if a != "" && b != "" {
      CompareStringsOrder(a[1..], b[1..], if c == "" then "" else c[1..]);
    }
  }

  // ---- trimming and searching ----

  predicate IsSpace(c: char) {
    c in {'\t', '\n', 0x0B as char, 0x0C as char, '\r', ' '}
  }

  /** strings.TrimSpace on ASCII text. */
  function TrimSpace(s: string): string
    decreases |s|
  {
    if s == "" then ""
    else if IsSpace(s[0]) then TrimSpace(s[1..])
    else if IsSpace(s[|s| - 1]) then TrimSpace(s[..|s| - 1])
    else s
  }

  predicate AllSpaces(s: string) {
    forall i | 0 <= i < |s| :: IsSpace(s[i])
  }

  /** Trimming cuts off the blanks at both ends, all of them and nothing else. */
  lemma {:induction false} TrimMeaning(s: string) returns (a: string, b: string)
    ensures s == a + TrimSpace(s) + b && AllSpaces(a) && AllSpaces(b)
    ensures var t := TrimSpace(s); t != "" ==> !IsSpace(t[0]) && !IsSpace(t[|t| - 1])
    decreases |s|
  {
    a, b := "", "";
    if s != "" && IsSpace(s[0]) {
      a, b := TrimMeaning(s[1..]);
      SpacesJoin([s[0]], a);
      assert s == [s[0]] + s[1..] == [s[0]] + a + TrimSpace(s[1..]) + b;
      a := [s[0]] + a;
    } else if s != "" && IsSpace(s[|s| - 1]) {
      a, b := TrimMeaning(s[..|s| - 1]);
      SpacesJoin(b, [s[|s| - 1]]);
      assert s == s[..|s| - 1] + [s[|s| - 1]] == a + TrimSpace(s[..|s| - 1]) + (b + [s[|s| - 1]]);
      b := b + [s[|s| - 1]];
    }
  }

  lemma SpacesJoin(a: string, b: string)
    requires AllSpaces(a) && AllSpaces(b)
    ensures AllSpaces(a + b)
  {
  }

  /** The index of the first `c` in `s`, or |s| when there is none. */
  function IndexOf(s: string, c: char): (i: nat)
    ensures i <= |s| && c !in s[..i] && (i < |s| ==> s[i] == c)
  {
    if s == "" || s[0] == c then 0
    else
      var i := 1 + IndexOf(s[1..], c);
      assert s[..i] == [s[0]] + s[1..][..i - 1];
      i
  }
}
