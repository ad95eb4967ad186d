/** Paths and their JSON codec (schema/path.go). */
module Paths {
  import opened Syntax
  import opened Text

  /** JSON as a tree (RFC 8259, section 3). `JFraction` is a number that is not an integer literal. */
  datatype Json =
    | JNull
    | JBool(b: bool)
    | JInt(n: int)
    | JFraction(text: string)
    | JStr(s: string)
    | JArr(elems: seq<Json>)
    | JObj(fields: map<string, Json>)

  const CLOSED_ROOTS := {"state", "cache", "events", "extract", "steps", "response"}
  const REMOVED_ROOTS := {"cursor", "body", "item"}

  predicate IsLetter(c: char) {
    c == '_' || 'a' <= c <= 'z' || 'A' <= c <= 'Z'
  }

  predicate IsIdentifier(s: string) {
    s != "" && IsLetter(s[0]) && forall i | 0 <= i < |s| :: IsLetter(s[i]) || '0' <= s[i] <= '9'
  }

  predicate ValidRoot(root: string) {
    root in CLOSED_ROOTS || (root !in REMOVED_ROOTS && IsIdentifier(root))
  }

  function ParsePath(s: string): Result<Path> {
    if s == "" then Ok(Path([], true))
    else
      var parts := Split(s);
      if "" in parts || !ValidRoot(parts[0]) then Err else Ok(Path(parts, false))
  }

  predicate NeedsEscape(p: Path) {
    exists i | 0 <= i < |p.parts| :: '.' in p.parts[i]
  }

  function EncodePath(p: Path): Json {
    if p.IsEmpty() then JStr("")
    else if NeedsEscape(p) then
      JObj(map["parts" := JArr(seq(|p.parts|, i requires 0 <= i < |p.parts| => JStr(p.parts[i])))])
    else JStr(Join(p.parts))
  }

  function DecodePath(j: Json): Result<Path> {
    match j
    case JNull => Ok(Path([], true))
    case JStr(s) => ParsePath(s)
    case JObj(fields) =>
      if "parts" !in fields || !fields["parts"].JArr? then Err
      else
        var arr := fields["parts"].elems;
        if arr == [] || exists i | 0 <= i < |arr| :: !arr[i].JStr? || arr[i].s == "" then Err
        else
          var parts := seq(|arr|, i requires 0 <= i < |arr| => if arr[i].JStr? then arr[i].s else "");
          if ValidRoot(parts[0]) then Ok(Path(parts, false)) else Err
    case _ => Err
  }

  /** What the decoder can produce: the zero path, or non-empty segments under a legal root. */
  predicate WellFormedPath(p: Path) {
    if p.isZero then p.parts == [] else p.parts != [] && "" !in p.parts && ValidRoot(p.parts[0])
  }

  lemma JoinEmpty(parts: seq<string>)
    requires parts != [] && "" !in parts
    ensures Join(parts) != ""
  {
  }

  /** Printing and reading back is the identity on exactly the well-formed paths. */
  lemma PathRoundTrip(p: Path)
    ensures DecodePath(EncodePath(p)) == Ok(p) <==> WellFormedPath(p)
  {
    if p.IsEmpty() {
    } else if NeedsEscape(p) {
      var arr := seq(|p.parts|, i requires 0 <= i < |p.parts| => JStr(p.parts[i]));
      assert EncodePath(p) == JObj(map["parts" := JArr(arr)]);
      var parts := seq(|arr|, i requires 0 <= i < |arr| => if arr[i].JStr? then arr[i].s else "");
      assert parts == p.parts;
      assert "" in p.parts <==> exists i | 0 <= i < |arr| :: !arr[i].JStr? || arr[i].s == "";
    } else {
      SplitJoin(p.parts);
      if "" !in p.parts {
        JoinEmpty(p.parts);
      }
    }
  }

  /** Decoding accepts nothing else: whatever it returns is well formed. */
  lemma DecodedPathsAreWellFormed(j: Json)
    ensures DecodePath(j).Ok? ==> WellFormedPath(DecodePath(j).value)
  {
    if j.JObj? && DecodePath(j).Ok? {
      var arr := j.fields["parts"].elems;
      var parts := DecodePath(j).value.parts;
      assert forall i | 0 <= i < |arr| :: parts[i] == arr[i].s && parts[i] != "";
    }
  }
}
