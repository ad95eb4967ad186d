/** The namespaces of one drain and how a path reads them (client/state.go, client/bodypath.go). */
module Scopes {
  import opened Syntax
  import opened Text
  import opened Runtime

  /** Canonical header name to values; a nil header set reads like an empty one. */
  type Headers = map<string, seq<string>>

  type Bindings = map<string, Rt>

  /** The value of a scope at one moment. `events` is Nil or Arr, `alias` is "" outside a fan-out,
      and `now` is what the spec clock shows. */
  datatype Env = Env(
    state: Bindings,
    cache: Bindings,
    extract: Bindings,
    steps: Bindings,
    stepHeaders: map<string, Headers>,
    events: Rt,
    body: Rt,
    headers: Headers,
    item: Rt,
    alias: string,
    now: int)

  /** Both bindings hold the same for `f`: the same value, or nothing. */
  predicate SameField(a: Bindings, b: Bindings, f: string) {
    if f in a then f in b && a[f] == b[f] else f !in b
  }

  /** Err is a malformed path; None an absent leaf. */
  type Lookup = Result<Option<Rt>>

  /** walk: map keys only. */
  function Walk(v: Rt, rest: seq<string>): Option<Rt>
    decreases |rest|
  {
    if rest == [] then Some(v)
    else if v.Obj? && rest[0] in v.fields then Walk(v.fields[rest[0]], rest[1..])
    else None
  }

  /** lookupBodyPath: map keys, and decimal indices into lists. */
  function LookupBody(v: Rt, parts: seq<string>): Option<Rt>
    decreases |parts|
  {
    if parts == [] then Some(v)
    else if v.Obj? && parts[0] in v.fields then LookupBody(v.fields[parts[0]], parts[1..])
    else if v.Arr? then
      match ParseInt(parts[0])
      case Some(i) => if 0 <= i < |v.elems| then LookupBody(v.elems[i], parts[1..]) else None
      case None => None
    else None
  }

  function HeaderLookup(lib: Lib, h: Headers, name: string): Option<Rt> {
    var key := lib.canonical(name);
    if key in h && h[key] != [] then Some(Str(h[key][0])) else None
  }

  function Named(m: Bindings, rest: seq<string>): Lookup {
    if rest == [] then Err
    else if rest[0] in m then Ok(Walk(m[rest[0]], rest[1..]))
    else Ok(None)
  }

  function Project(list: seq<Rt>, rest: seq<string>): (r: seq<Rt>)
    ensures |r| == |list|
    ensures forall i | 0 <= i < |list| :: r[i] == match Walk(list[i], rest) case Some(v) => v case None => Nil
  {
    seq(|list|, i requires 0 <= i < |list| => match Walk(list[i], rest) case Some(v) => v case None => Nil)
  }

  function ResolveEvents(events: Rt, rest: seq<string>): Lookup {
    if rest == [] then Ok(if events == Nil then None else Some(events))
    else if !events.Arr? then Ok(if rest == ["count"] then Some(Int(0)) else None)
    else
      var list := events.elems;
      if rest[0] == "count" then (if |rest| == 1 then Ok(Some(Int(|list|))) else Err)
      else if rest[0] == "first" then Ok(if list == [] then None else Walk(list[0], rest[1..]))
      else if rest[0] == "last" then Ok(if list == [] then None else Walk(list[|list| - 1], rest[1..]))
      else if rest[0] == "*" then Ok(Some(if |rest| == 1 then events else Arr(Project(list, rest[1..]))))
      else match ParseInt(rest[0])
        case Some(i) => Ok(if 0 <= i < |list| then Walk(list[i], rest[1..]) else None)
        case None => Ok(None)
  }

  function ResolveSteps(lib: Lib, env: Env, rest: seq<string>): Lookup {
    if |rest| < 2 then Err
    else if rest[1] == "body" then
      Ok(if rest[0] in env.steps then Walk(env.steps[rest[0]], rest[2..]) else None)
    else if rest[1] == "header" then
      if |rest| < 3 then Err
      else Ok(if rest[0] in env.stepHeaders then HeaderLookup(lib, env.stepHeaders[rest[0]], rest[2]) else None)
    else Err
  }

  function ResolveResponse(lib: Lib, env: Env, rest: seq<string>): Lookup {
    if rest == [] then Err
    else if rest[0] == "body" then Ok(if env.body == Nil then None else LookupBody(env.body, rest[1..]))
    else if rest[0] == "header" then (if |rest| < 2 then Err else Ok(HeaderLookup(lib, env.headers, rest[1])))
    else Err
  }

  /** resolveNamespaceRef: an active fan-out alias wins over the closed roots. */
  function Resolve(lib: Lib, env: Env, p: Path): Lookup {
    if p.IsEmpty() then Err
    else
      var root, rest := p.parts[0], p.parts[1..];
      if env.alias != "" && root == env.alias then Ok(if env.item == Nil then None else Walk(env.item, rest))
      else if root == "state" then Named(env.state, rest)
      else if root == "cache" then Named(env.cache, rest)
      else if root == "events" then ResolveEvents(env.events, rest)
      else if root == "extract" then Named(env.extract, rest)
      else if root == "steps" then ResolveSteps(lib, env, rest)
      else if root == "response" then ResolveResponse(lib, env, rest)
      else Err
  }

  // ---- state destinations ----

  /** stateFieldName: the field a `to: state.<name>` path writes. */
  function StateField(p: Path): Option<string> {
    if |p.parts| == 2 && p.parts[0] == "state" then Some(p.parts[1]) else None
  }

  function CacheSlot(p: Path): Option<string> {
    if |p.parts| == 2 && p.parts[0] == "cache" then Some(p.parts[1]) else None
  }

  // ---- locating the events of a page ----

  /** stripBodyRoot: the segments to walk and the step whose body they walk ("" for the local body). */
  function StripBodyRoot(p: Path): Result<(seq<string>, string)> {
    if p.IsEmpty() then Ok(([], ""))
    else if p.parts[0] == "response" then
      if |p.parts| < 2 || p.parts[1] != "body" then Err else Ok((p.parts[2..], ""))
    else if p.parts[0] == "steps" then
      if |p.parts| < 3 || p.parts[2] != "body" then Err else Ok((p.parts[3..], p.parts[1]))
    else Err
  }

  /** The lists found in the rows, concatenated; a row without the path contributes nothing. */
  function RowEvents(rows: seq<Rt>, at: seq<string>): Result<seq<Rt>> {
    if rows == [] then Ok([])
    else match LookupBody(rows[0], at)
      case None => RowEvents(rows[1..], at)
      case Some(v) =>
        if !v.Arr? then Err
        else match RowEvents(rows[1..], at)
          case Err => Err
          case Ok(tail) => Ok(v.elems + tail)
  }

  /** locateEvents: None is Go's nil slice, which leaves the events namespace unbound. */
  function LocateEvents(body: Rt, at: seq<string>, rowOriented: bool): Result<Option<seq<Rt>>> {
    if rowOriented then
      if !body.Arr? then Err
      else if at == [] then Ok(Some(body.elems))
      else match RowEvents(body.elems, at)
        case Err => Err
        case Ok(evs) => Ok(if evs == [] then None else Some(evs))
    else if at == [] then
      Ok(if body.Arr? then Some(body.elems) else if body == Nil then None else Some([body]))
    else match LookupBody(body, at)
      case None => Ok(None)
      case Some(Nil) => Ok(None)
      case Some(Arr(elems)) => Ok(Some(elems))
      case Some(_) => Err
  }

  // ---- how the lookups relate ----

  /** Where walking maps finds something, looking into a body finds the same; bodies add list indices. */
  lemma {:induction false} LookupExtendsWalk(v: Rt, rest: seq<string>)
    ensures Walk(v, rest).Some? ==> LookupBody(v, rest) == Walk(v, rest)
    decreases |rest|
  {
    if rest != [] && v.Obj? && rest[0] in v.fields {
      LookupExtendsWalk(v.fields[rest[0]], rest[1..]);
    }
  }

  function Appended(a: Result<seq<Rt>>, b: Result<seq<Rt>>): Result<seq<Rt>> {
    if a.Err? || b.Err? then Err else Ok(a.value + b.value)
  }

  /** The events of a list of rows are those of its parts, one after the other; one bad row spoils all. */
  lemma {:induction false} RowEventsSplit(a: seq<Rt>, b: seq<Rt>, at: seq<string>)
    ensures RowEvents(a + b, at) == Appended(RowEvents(a, at), RowEvents(b, at))
    decreases |a|
  {
    if a == [] {
      assert a + b == b;
      assert RowEvents(b, at).Ok? ==> [] + RowEvents(b, at).value == RowEvents(b, at).value;
    } else {
      assert (a + b)[0] == a[0] && (a + b)[1..] == a[1..] + b;
      RowEventsSplit(a[1..], b, at);
      var x, y := RowEvents(a[1..], at), RowEvents(b, at);
      match LookupBody(a[0], at) {
        case Some(Arr(elems)) =>
          if x.Ok? && y.Ok? {
            assert elems + (x.value + y.value) == elems + x.value + y.value;
          }
        case _ =>
      }
    }
  }
}
