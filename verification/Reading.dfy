/** What a path reads, root by root, and where the events of a response are found (client/state.go
    resolveNamespaceRef, client/bodypath.go). */
module Reading {
  import opened Syntax
  import opened Text
  import opened Runtime
  import opened Scopes
  import opened Drains

  // ---- walking ----

  /** A value at the end of a chain of map keys. */
  function Nested(path: seq<string>, v: Rt): Rt {
    if path == [] then v else Obj(map[path[0] := Nested(path[1..], v)])
  }

  /** What was put at the end of a chain of keys is read back along them. */
  lemma {:induction false} NestedReads(path: seq<string>, v: Rt)
    ensures Walk(Nested(path, v), path) == Some(v) && LookupBody(Nested(path, v), path) == Some(v)
  {
    if path != [] {
      NestedReads(path[1..], v);
    }
  }

  /** Reading along two paths in a row is reading along their concatenation. */
  lemma {:induction false} ReadingSplits(v: Rt, a: seq<string>, b: seq<string>)
    ensures Walk(v, a + b) == match Walk(v, a) case None => None case Some(u) => Walk(u, b)
    ensures LookupBody(v, a + b) == match LookupBody(v, a) case None => None case Some(u) => LookupBody(u, b)
    decreases |a|
  {
    if a == [] {
      assert a + b == b;
    } else {
      assert (a + b)[0] == a[0] && (a + b)[1..] == a[1..] + b;
      if v.Obj? && a[0] in v.fields {
        ReadingSplits(v.fields[a[0]], a[1..], b);
      }
      if v.Arr? && ParseInt(a[0]).Some? && 0 <= ParseInt(a[0]).value < |v.elems| {
        ReadingSplits(v.elems[ParseInt(a[0]).value], a[1..], b);
      }
    }
  }

  /** A missing key and a step into a value that is no map lead nowhere. */
  lemma DeadEnds(v: Rt, key: string, rest: seq<string>)
    ensures Walk(v, [key] + rest).Some? ==> v.Obj? && key in v.fields
    ensures LookupBody(v, [key] + rest).Some? ==> (v.Obj? && key in v.fields) || v.Arr?
  {
  }

  /** In a response body a list is entered by the position, counted from zero. */
  lemma PositionsRead(list: seq<Rt>, i: int, rest: seq<string>)
    requires InInt64(i)
    ensures LookupBody(Arr(list), [IntToString(i)] + rest) ==
      if 0 <= i < |list| then LookupBody(list[i], rest) else None
  {
    ParseIntToString(i);
    assert ([IntToString(i)] + rest)[1..] == rest;
  }

  /** A header is read by its canonical name, and is the first of its values. */
  lemma HeaderMeaning(lib: Lib, h: Headers, name: string, value: string, more: seq<string>)
    ensures HeaderLookup(lib, h[lib.canonical(name) := [value] + more], name) == Some(Str(value))
    ensures lib.canonical(name) !in h ==> HeaderLookup(lib, h, name) == None
    ensures HeaderLookup(lib, h[lib.canonical(name) := []], name) == None
  {
  }

  // ---- roots ----

  /** What a namespace of named values reads: the value along the rest, nothing for an unknown name, and an error
      without a name. */
  predicate ReadsNamed(lib: Lib, env: Env, root: string, names: Bindings, name: string, rest: seq<string>) {
    && Resolve(lib, env, Path([root, name] + rest, false)) ==
         Ok(if name in names then Walk(names[name], rest) else None)
    && Resolve(lib, env, Path([root], false)).Err?
  }

  lemma TailsOf(a: string, b: string, rest: seq<string>)
    ensures ([a, b] + rest)[1..] == [b] + rest && ([b] + rest)[1..] == rest && ([a] + rest)[1..] == rest
  {
  }

  lemma NamespacesRead(lib: Lib, env: Env, name: string, rest: seq<string>)
    requires env.alias == ""
    ensures ReadsNamed(lib, env, "state", env.state, name, rest)
    ensures ReadsNamed(lib, env, "cache", env.cache, name, rest)
    ensures ReadsNamed(lib, env, "extract", env.extract, name, rest)
  {
    TailsOf("state", name, rest);
    TailsOf("cache", name, rest);
    TailsOf("extract", name, rest);
  }

  /** The response of the step that just ran: its body with positions, its headers by name, and nothing while there
      is none. */
  lemma ResponseReads(lib: Lib, env: Env, rest: seq<string>, name: string)
    requires env.alias == ""
    ensures Resolve(lib, env, Path(["response", "body"] + rest, false)) ==
      Ok(if env.body == Nil then None else LookupBody(env.body, rest))
    ensures Resolve(lib, env, Path(["response", "header", name], false)) == Ok(HeaderLookup(lib, env.headers, name))
    ensures Resolve(lib, env, Path(["response"], false)).Err?
    ensures Resolve(lib, env, Path(["response", "header"], false)).Err?
  {
    TailsOf("response", "body", rest);
    TailsOf("response", "header", [name]);
    assert ["response", "header", name][1..] == ["header", name];
  }

  /** Inside a fan-out the alias reads the item along the rest, whatever root it may hide; elsewhere a name that is
      no root is an error. */
  lemma AliasReads(lib: Lib, env: Env, name: string, rest: seq<string>)
    ensures env.alias == name != "" ==>
      Resolve(lib, env, Path([name] + rest, false)) == Ok(if env.item == Nil then None else Walk(env.item, rest))
    ensures env.alias != name && name !in {"state", "cache", "events", "extract", "steps", "response"} ==>
      Resolve(lib, env, Path([name] + rest, false)).Err?
    ensures Resolve(lib, env, Path([], false)).Err? && Resolve(lib, env, Path([name] + rest, true)).Err?
  {
    assert ([name] + rest)[1..] == rest;
  }

  /** The events of the page, and zero of them when there are none. */
  lemma EventsRead(lib: Lib, env: Env, rest: seq<string>)
    requires env.alias == ""
    ensures Resolve(lib, env, Path(["events"] + rest, false)) == ResolveEvents(env.events, rest)
    ensures env.events == Nil ==> Resolve(lib, env, Path(["events", "count"], false)) == Ok(Some(Int(0)))
    ensures env.events == Nil && rest != [] && rest != ["count"] ==>
      Resolve(lib, env, Path(["events"] + rest, false)) == Ok(None)
  {
    assert (["events"] + rest)[1..] == rest && ["events", "count"][1..] == ["count"];
  }

  /** The whole page, and the views that lead nowhere: the outer events of an empty page, a position outside it and a
      name that is no view. The count has no parts. */
  lemma PagesRead(lib: Lib, env: Env, list: seq<Rt>, rest: seq<string>, i: int, name: string)
    requires env.alias == "" && env.events == Arr(list)
    ensures Resolve(lib, env, Path(["events"], false)) == Ok(Some(Arr(list)))
    ensures list == [] ==> Resolve(lib, env, Path(["events", "first"] + rest, false)) == Ok(None)
    ensures list == [] ==> Resolve(lib, env, Path(["events", "last"] + rest, false)) == Ok(None)
    ensures rest != [] ==> Resolve(lib, env, Path(["events", "count"] + rest, false)).Err?
    ensures InInt64(i) && !(0 <= i < |list|) ==>
      Resolve(lib, env, Path(["events", IntToString(i)] + rest, false)) == Ok(None)
    ensures ParseInt(name).None? && name !in {"count", "first", "last", "*"} ==>
      Resolve(lib, env, Path(["events", name] + rest, false)) == Ok(None)
  {
    assert ["events"][1..] == [];
    TailsOf("events", "first", rest);
    TailsOf("events", "last", rest);
    TailsOf("events", "count", rest);
    TailsOf("events", name, rest);
    NoPosition(list, rest, i);
    TailsOf("events", IntToString(i), rest);
  }

  lemma NoPosition(list: seq<Rt>, rest: seq<string>, i: int)
    ensures InInt64(i) && !(0 <= i < |list|) ==> ResolveEvents(Arr(list), [IntToString(i)] + rest) == Ok(None)
  {
    var first := IntToString(i)[0];
    ParseIntToString(i);
    assert first == '-' || '0' <= first <= '9';
    assert "count"[0] == 'c' && "first"[0] == 'f' && "last"[0] == 'l' && "*"[0] == '*';
  }

  /** A step or response reference that stops short of a body or a header, or names another part, is an error. */
  lemma PartsOfResults(lib: Lib, env: Env, id: string, part: string, rest: seq<string>)
    requires env.alias == ""
    ensures Resolve(lib, env, Path(["steps", id], false)).Err?
    ensures Resolve(lib, env, Path(["steps", id, "header"], false)).Err?
    ensures part !in {"body", "header"} ==>
      && Resolve(lib, env, Path(["steps", id, part] + rest, false)).Err?
      && Resolve(lib, env, Path(["response", part] + rest, false)).Err?
    ensures id !in env.steps ==> Resolve(lib, env, Path(["steps", id, "body"] + rest, false)) == Ok(None)
    ensures id !in env.stepHeaders ==> Resolve(lib, env, Path(["steps", id, "header", part], false)) == Ok(None)
  {
    assert ["steps", id][1..] == [id] && ["steps", id, "header"][1..] == [id, "header"];
    assert ["steps", id, "header", part][1..] == [id, "header", part];
    assert (["steps", id, part] + rest)[1..] == [id, part] + rest;
    assert (["steps", id, "body"] + rest)[1..] == [id, "body"] + rest;
    TailsOf("response", part, rest);
  }

  /** Reading nothing but `state.<name>` and `cache.<name>` names a field or a slot to write. */
  lemma TargetsMeaning(root: string, name: string, rest: seq<string>)
    ensures StateField(Path(["state", name], false)) == Some(name)
    ensures CacheSlot(Path(["cache", name], false)) == Some(name)
    ensures root != "state" || rest != [] ==> StateField(Path([root, name] + rest, false)) == None
    ensures root != "cache" || rest != [] ==> CacheSlot(Path([root, name] + rest, false)) == None
  {
    assert rest == [] ==> [root, name] + rest == [root, name];
  }

  // ---- the events of a response ----

  /** The list at the path; nothing when the path is absent or nil, and an error when it leads to something else.
      Without a path the body itself, a lone object counting as one event. */
  lemma ListedEvents(body: Rt, at: seq<string>)
    ensures at != [] ==>
      match LookupBody(body, at)
      case None => LocateEvents(body, at, false) == Ok(None)
      case Some(v) =>
        if v.Arr? then LocateEvents(body, at, false) == Ok(Some(v.elems))
        else if v == Nil then LocateEvents(body, at, false) == Ok(None)
        else LocateEvents(body, at, false).Err?
    ensures body.Arr? ==> LocateEvents(body, [], false) == Ok(Some(body.elems))
    ensures body == Nil ==> LocateEvents(body, [], false) == Ok(None)
    ensures !body.Arr? && body != Nil ==> LocateEvents(body, [], false) == Ok(Some([body]))
  {
  }

  /** Row by row: a body that is a list of rows gives the lists at the path of its rows one after the other, rows
      without the path giving nothing. */
  lemma RowEventsMeaning(rows: seq<Rt>, row: Rt, at: seq<string>)
    ensures match LookupBody(row, at)
      case None => RowEvents([row], at) == Ok([])
      case Some(v) => if v.Arr? then RowEvents([row], at) == Ok(v.elems) else RowEvents([row], at).Err?
    ensures RowEvents([], at) == Ok([])
    ensures LocateEvents(Arr(rows), [], true) == Ok(Some(rows))
    ensures at != [] ==>
      match RowEvents(rows, at)
      case Err => LocateEvents(Arr(rows), at, true).Err?
      case Ok(events) => LocateEvents(Arr(rows), at, true) == Ok(if events == [] then None else Some(events))
    ensures !row.Arr? ==> LocateEvents(row, at, true).Err?
  {
    assert [row][1..] == [] && RowEvents([row][1..], at) == Ok([]);
    if LookupBody(row, at).Some? && LookupBody(row, at).value.Arr? {
      assert LookupBody(row, at).value.elems + [] == LookupBody(row, at).value.elems;
    }
  }

  /** The producer's events path looks into its own body under `response.body`, into an earlier answer under
      `steps.<id>.body`, and an answer that was never given is an error. */
  lemma EventsPathMeaning(env: Env, req: Request, body: Rt, id: string, at: seq<string>)
    requires req.eventsAt.Some?
    ensures req.eventsAt.value == Path(["response", "body"] + at, false) ==>
      ProducerEvents(env, req, body) == LocateEvents(body, at, req.rowOriented)
    ensures req.eventsAt.value == Path([], true) ==>
      ProducerEvents(env, req, body) == LocateEvents(body, [], req.rowOriented)
    ensures req.eventsAt.value == Path(["steps", id, "body"] + at, false) && id != "" ==>
      if id in env.steps then ProducerEvents(env, req, body) == LocateEvents(env.steps[id], at, req.rowOriented)
      else ProducerEvents(env, req, body).Err?
  {
    assert (["response", "body"] + at)[2..] == at && (["steps", id, "body"] + at)[3..] == at;
  }
}
