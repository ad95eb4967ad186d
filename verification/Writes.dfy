/** The three kinds of state writes: progress, pagination advance and extracts
    (client/progress.go, client/pagination.go, client/extract.go). */
module Writes {
  import opened Syntax
  import opened Runtime
  import opened Scopes
  import opened Eval
  import opened Session

  // ---- staged writes ----

  /** The optional regex, then the optional coercion; both skip nil. */
  function Transform(lib: Lib, regex: string, coerce: string, v: Rt): Result<Rt> {
    match (if regex == "" || v == Nil then Ok(Some(v)) else RegexResult(lib, regex, Ok(v), 0))
    case Err => Err
    case Ok(m) =>
      var matched := if m.Some? then m.value else Nil;
      if coerce == "" || matched == Nil then Ok(matched) else ApplyFormat(lib, coerce, matched)
  }

  function StageOne(lib: Lib, env: Env, w: Write): Result<Rt> {
    match EvalValue(lib, env, w.from) case Err => Err case Ok(v) => Transform(lib, w.regex, w.coerce, v)
  }

  function StageAll(lib: Lib, env: Env, writes: seq<Write>): (r: Result<seq<Rt>>)
    ensures r.Ok? ==> |r.value| == |writes|
  {
    if writes == [] then Ok([])
    else match StageOne(lib, env, writes[0])
      case Err => Err
      case Ok(v) => match StageAll(lib, env, writes[1..]) case Err => Err case Ok(vs) => Ok([v] + vs)
  }

  /** The state after a pass over the write list, and whether the pass reached its end. */
  datatype Committed = Committed(state: Bindings, ok: bool)

  function Commit(state: Bindings, writes: seq<Write>, staged: seq<Rt>): Committed
    requires |staged| == |writes|
    decreases |writes|
  {
    if writes == [] then Committed(state, true)
    else match StateField(writes[0].to)
      case None => Committed(state, false)
      case Some(f) => Commit(state[f := staged[0]], writes[1..], staged[1..])
  }

  function Progressed(lib: Lib, env: Env, writes: seq<Write>): Committed {
    match StageAll(lib, env, writes)
    case Err => Committed(env.state, false)
    case Ok(staged) => Commit(env.state, writes, staged)
  }

  method TransformValue(lib: Lib, regex: string, coerce: string, v: Rt) returns (r: Result<Rt>)
    ensures r == Transform(lib, regex, coerce, v)
  {
    var value := v;
    if regex != "" && value != Nil {
      var m := ApplyRegex(lib, regex, ToString(lib, value), 0);
      if m.Err? {
        return Err;
      }
      value := if m.value.Some? then Str(m.value.value) else Nil;
    }
    if coerce != "" && value != Nil {
      r := ApplyFormat(lib, coerce, value);
      return;
    }
    return Ok(value);
  }

  function Onto(head: seq<Rt>, tail: Result<seq<Rt>>): Result<seq<Rt>> {
    match tail case Err => Err case Ok(vs) => Ok(head + vs)
  }

  method StageWrites(s: Scope, writes: seq<Write>) returns (ok: bool, staged: seq<Rt>)
    ensures ok <==> StageAll(s.world.lib, s.Current(), writes).Ok?
    ensures ok ==> StageAll(s.world.lib, s.Current(), writes) == Ok(staged)
  {
    var lib, env := s.world.lib, s.Current();
    staged := [];
    assert writes[0..] == writes && forall vs: seq<Rt> :: [] + vs == vs;
    for i := 0 to |writes|
      invariant StageAll(lib, env, writes) == Onto(staged, StageAll(lib, env, writes[i..]))
    {
      var w := writes[i];
      var got := EvalValue(lib, env, w.from);
      if got.Err? {
        return false, staged;
      }
      var value := TransformValue(lib, w.regex, w.coerce, got.value);
      if value.Err? {
        return false, staged;
      }
      ghost var rest := StageAll(lib, env, writes[i + 1..]);
      assert writes[i..][1..] == writes[i + 1..];
      assert rest.Ok? ==> staged + ([value.value] + rest.value) == (staged + [value.value]) + rest.value;
      staged := staged + [value.value];
    }
    assert staged + [] == staged;
    return true, staged;
  }

  method CommitWrites(s: Scope, writes: seq<Write>, staged: seq<Rt>) returns (ok: bool)
    requires |staged| == |writes|
    modifies s`state
    ensures s.View() == WithState(old(s.View()), Commit(old(s.state), writes, staged).state)
    ensures ok == Commit(old(s.state), writes, staged).ok
  {
    for i := 0 to |writes|
      invariant Commit(old(s.state), writes, staged) == Commit(s.state, writes[i..], staged[i..])
    {
      assert writes[i..][1..] == writes[i + 1..] && staged[i..][1..] == staged[i + 1..];
      var field := StateField(writes[i].to);
      if field.None? {
        return false;
      }
      s.state := s.state[field.value := staged[i]];
    }
    return true;
  }

  method ApplyProgress(s: Scope, writes: seq<Write>) returns (ok: bool)
    modifies s`state
    ensures s.View() == WithState(old(s.View()), Progressed(s.world.lib, old(s.Current()), writes).state)
    ensures ok == Progressed(s.world.lib, old(s.Current()), writes).ok
  {
    var staged;
    ok, staged := StageWrites(s, writes);
    if ok {
      ok := CommitWrites(s, writes, staged);
    }
  }

  // ---- writes are one simultaneous assignment ----

  predicate AllToState(writes: seq<Write>) {
    forall w | w in writes :: StateField(w.to).Some?
  }

  predicate DistinctTargets(writes: seq<Write>) {
    forall i, j | 0 <= i < j < |writes| :: StateField(writes[i].to) != StateField(writes[j].to)
  }

  function Targets(writes: seq<Write>): set<string> {
    set w | w in writes && StateField(w.to).Some? :: StateField(w.to).value
  }

  lemma {:induction false} StageMeaning(lib: Lib, env: Env, writes: seq<Write>)
    ensures StageAll(lib, env, writes).Ok? <==> forall w | w in writes :: StageOne(lib, env, w).Ok?
    ensures StageAll(lib, env, writes).Ok? ==>
      forall i | 0 <= i < |writes| :: StageOne(lib, env, writes[i]) == Ok(StageAll(lib, env, writes).value[i])
  {
    if writes != [] {
      StageMeaning(lib, env, writes[1..]);
      assert forall w | w in writes :: w == writes[0] || w in writes[1..];
    }
  }

  /** After the pass, each target holds its staged value and every other field is as before. */
  ghost predicate AssignedAtOnce(before: Bindings, after: Bindings, writes: seq<Write>, staged: seq<Rt>)
    requires |staged| == |writes| && AllToState(writes)
  {
    && after.Keys == before.Keys + Targets(writes)
    && (forall i | 0 <= i < |writes| ::
          StateField(writes[i].to).value in after && after[StateField(writes[i].to).value] == staged[i])
    && (forall f | f in before && f !in Targets(writes) :: f in after && after[f] == before[f])
  }

  lemma {:induction false} CommitMeaning(state: Bindings, writes: seq<Write>, staged: seq<Rt>)
    requires |staged| == |writes| && AllToState(writes) && DistinctTargets(writes)
    ensures Commit(state, writes, staged).ok
    ensures AssignedAtOnce(state, Commit(state, writes, staged).state, writes, staged)
    decreases |writes|
  {
    if writes != [] {
      var f := StateField(writes[0].to).value;
      TailTargets(writes);
      CommitMeaning(state[f := staged[0]], writes[1..], staged[1..]);
      var after := Commit(state, writes, staged).state;
      assert after == Commit(state[f := staged[0]], writes[1..], staged[1..]).state;
      forall i | 0 <= i < |writes|
        ensures StateField(writes[i].to).value in after && after[StateField(writes[i].to).value] == staged[i]
      {
        if i > 0 {
          assert writes[1..][i - 1] == writes[i] && staged[1..][i - 1] == staged[i];
        }
      }
    }
  }

  lemma TailTargets(writes: seq<Write>)
    requires writes != [] && AllToState(writes) && DistinctTargets(writes)
    ensures AllToState(writes[1..]) && DistinctTargets(writes[1..])
    ensures StateField(writes[0].to).value !in Targets(writes[1..])
    ensures Targets(writes) == {StateField(writes[0].to).value} + Targets(writes[1..])
  {
    assert forall i | 0 <= i < |writes[1..]| :: writes[1..][i] == writes[i + 1];
    assert forall w | w in writes :: w == writes[0] || w in writes[1..];
  }

  /** Every `from` reads the state as it was before the first write: with proper, distinct targets
      the list either fails and leaves the state alone, or assigns all targets at once. */
  lemma ProgressIsSimultaneous(lib: Lib, env: Env, writes: seq<Write>)
    requires AllToState(writes) && DistinctTargets(writes)
    ensures var r := Progressed(lib, env, writes);
      if forall w | w in writes :: StageOne(lib, env, w).Ok?
      then r.ok && AssignedAtOnce(env.state, r.state, writes,
                                  seq(|writes|, i requires 0 <= i < |writes| => StageOne(lib, env, writes[i]).value))
      else r == Committed(env.state, false)
  {
    StageMeaning(lib, env, writes);
    if StageAll(lib, env, writes).Ok? {
      var staged := StageAll(lib, env, writes).value;
      assert staged == seq(|writes|, i requires 0 <= i < |writes| => StageOne(lib, env, writes[i]).value);
      CommitMeaning(env.state, writes, staged);
    }
  }

  lemma ValueAtTarget(lib: Lib, env: Env, writes: seq<Write>, w: Write)
    requires AllToState(writes) && DistinctTargets(writes) && w in writes
    requires forall v | v in writes :: StageOne(lib, env, v).Ok?
    ensures var after := Progressed(lib, env, writes).state; var f := StateField(w.to).value;
      f in after && after[f] == StageOne(lib, env, w).value
  {
    ProgressIsSimultaneous(lib, env, writes);
    var i :| 0 <= i < |writes| && writes[i] == w;
  }

  /** The order of the list is irrelevant: any other list of the same writes has the same effect. */
  lemma OrderOfWritesIsIrrelevant(lib: Lib, env: Env, a: seq<Write>, b: seq<Write>)
    requires AllToState(a) && DistinctTargets(a) && DistinctTargets(b)
    requires forall w :: w in a <==> w in b
    ensures Progressed(lib, env, a) == Progressed(lib, env, b)
  {
    ProgressIsSimultaneous(lib, env, a);
    ProgressIsSimultaneous(lib, env, b);
    if forall w | w in a :: StageOne(lib, env, w).Ok? {
      forall f ensures SameField(Progressed(lib, env, a).state, Progressed(lib, env, b).state, f) {
        SameAssignment(lib, env, a, b, f);
      }
      SameEverywhere(Progressed(lib, env, a).state, Progressed(lib, env, b).state);
    }
  }

  lemma SameAssignment(lib: Lib, env: Env, a: seq<Write>, b: seq<Write>, f: string)
    requires AllToState(a) && DistinctTargets(a) && AllToState(b) && DistinctTargets(b)
    requires forall w :: w in a <==> w in b
    requires forall w | w in a :: StageOne(lib, env, w).Ok?
    ensures SameField(Progressed(lib, env, a).state, Progressed(lib, env, b).state, f)
  {
    if w :| w in a && StateField(w.to) == Some(f) {
      ValueAtTarget(lib, env, a, w);
      ValueAtTarget(lib, env, b, w);
    } else {
      ProgressTouchesTargets(lib, env, a, f);
      ProgressTouchesTargets(lib, env, b, f);
    }
  }

  lemma SameEverywhere(x: Bindings, y: Bindings)
    requires forall f :: SameField(x, y, f)
    ensures x == y
  {
    assert forall f :: f in x <==> f in y by {
      forall f ensures f in x <==> f in y {
        assert SameField(x, y, f);
      }
    }
    forall f | f in x ensures x[f] == y[f] {
      assert SameField(x, y, f);
    }
  }

  lemma ProgressTouchesTargets(lib: Lib, env: Env, writes: seq<Write>, f: string)
    requires f !in Targets(writes)
    ensures SameField(env.state, Progressed(lib, env, writes).state, f)
  {
    match StageAll(lib, env, writes) {
      case Err =>
      case Ok(staged) => CommitTouchesTargets(env.state, writes, staged, f);
    }
  }

  /** A pass never touches anything but its targets, however it ends. */
  lemma {:induction false} CommitTouchesTargets(state: Bindings, writes: seq<Write>, staged: seq<Rt>, f: string)
    requires |staged| == |writes| && f !in Targets(writes)
    ensures SameField(state, Commit(state, writes, staged).state, f)
    decreases |writes|
  {
    if writes != [] && StateField(writes[0].to).Some? {
      assert writes[0] in writes && StateField(writes[0].to).value in Targets(writes);
      assert Targets(writes[1..]) <= Targets(writes);
      CommitTouchesTargets(state[StateField(writes[0].to).value := staged[0]], writes[1..], staged[1..], f);
    }
  }

  // ---- extracts ----

  /** extractDest: a state field or a per-iteration name. */
  datatype Dest = ToState(name: string) | ToExtract(name: string)

  function ExtractDest(p: Path): Option<Dest> {
    if |p.parts| != 2 then None
    else if p.parts[0] == "state" then Some(ToState(p.parts[1]))
    else if p.parts[0] == "extract" then Some(ToExtract(p.parts[1]))
    else None
  }

  function OrNil(v: Option<Rt>): Rt {
    match v case None => Nil case Some(x) => x
  }

  /** resolveExtractFrom: unresolved leaves are nil. */
  function ExtractSource(lib: Lib, env: Env, body: Rt, headers: Headers, p: Path): Result<Rt> {
    if p.IsEmpty() then Err
    else if p.parts[0] == "response" then
      if |p.parts| < 2 then Err
      else if p.parts[1] == "body" then Ok(OrNil(LookupBody(body, p.parts[2..])))
      else if p.parts[1] == "header" && |p.parts| >= 3 then Ok(OrNil(HeaderLookup(lib, headers, p.parts[2])))
      else Err
    else if p.parts[0] == "steps" then
      if |p.parts| < 3 then Err
      else if p.parts[2] == "body" then
        Ok(if p.parts[1] in env.steps then OrNil(LookupBody(env.steps[p.parts[1]], p.parts[3..])) else Nil)
      else if p.parts[2] == "header" && |p.parts| >= 4 then
        Ok(if p.parts[1] in env.stepHeaders then OrNil(HeaderLookup(lib, env.stepHeaders[p.parts[1]], p.parts[3]))
           else Nil)
      else Err
    else Err
  }

  function ExtractOne(lib: Lib, env: Env, body: Rt, headers: Headers, ev: Extract): Result<Env> {
    match ExtractDest(ev.to)
    case None => Err
    case Some(dest) => match ExtractSource(lib, env, body, headers, ev.from)
      case Err => Err
      case Ok(raw) => match Transform(lib, ev.regex, ev.coerce, raw)
        case Err => Err
        case Ok(v) => match dest
          case ToState(name) => Ok(env.(state := env.state[name := v]))
          case ToExtract(name) => Ok(env.(extract := env.extract[name := v]))
  }

  /** The scope after the extracts up to the first failing one, and whether none failed. */
  function Extracted(lib: Lib, env: Env, body: Rt, headers: Headers, vars: seq<Extract>): (Env, bool)
    decreases |vars|
  {
    if vars == [] then (env, true)
    else match ExtractOne(lib, env, body, headers, vars[0])
      case Err => (env, false)
      case Ok(next) => Extracted(lib, next, body, headers, vars[1..])
  }

  method RunExtracts(s: Scope, body: Rt, headers: Headers, vars: seq<Extract>) returns (ok: bool)
    modifies s`state, s`extract
    ensures var (env, done) := Extracted(s.world.lib, old(s.Current()), body, headers, vars);
      s.View() == old(s.View()).(env := env) && ok == done
  {
    var lib := s.world.lib;
    for i := 0 to |vars|
      invariant Extracted(lib, old(s.Current()), body, headers, vars) ==
        Extracted(lib, s.Current(), body, headers, vars[i..])
      invariant s.View() == old(s.View()).(env := s.Current())
    {
      assert vars[i..][1..] == vars[i + 1..];
      var ev := vars[i];
      var dest := ExtractDest(ev.to);
      if dest.None? {
        return false;
      }
      var raw := ExtractSource(lib, s.Current(), body, headers, ev.from);
      if raw.Err? {
        return false;
      }
      var v := TransformValue(lib, ev.regex, ev.coerce, raw.value);
      if v.Err? {
        return false;
      }
      ghost var next := ExtractOne(lib, s.Current(), body, headers, ev);
      match dest.value {
        case ToState(name) => s.state := s.state[name := v.value];
        case ToExtract(name) => s.extract := s.extract[name := v.value];
      }
      assert next == Ok(s.Current());
    }
    return true;
  }

  function ExtractTargets(vars: seq<Extract>): set<string> {
    set ev | ev in vars && StateField(ev.to).Some? :: StateField(ev.to).value
  }

  lemma ExtractTouchesTarget(lib: Lib, env: Env, body: Rt, headers: Headers, ev: Extract, f: string)
    requires StateField(ev.to) != Some(f)
    ensures var r := ExtractOne(lib, env, body, headers, ev); r.Ok? ==>
      && SameField(env.state, r.value.state, f)
      && r.value == env.(state := r.value.state, extract := r.value.extract)
  {
  }

  lemma {:induction false} ExtractsTouchTargets(lib: Lib, env: Env, body: Rt, headers: Headers, vars: seq<Extract>,
                                                f: string)
    requires f !in ExtractTargets(vars)
    ensures var after := Extracted(lib, env, body, headers, vars).0;
      && SameField(env.state, after.state, f)
      && after == env.(state := after.state, extract := after.extract)
    decreases |vars|
  {
    if vars != [] && ExtractOne(lib, env, body, headers, vars[0]).Ok? {
      var ev := vars[0];
      assert ev in vars && (StateField(ev.to).Some? ==> StateField(ev.to).value in ExtractTargets(vars));
      assert ExtractTargets(vars[1..]) <= ExtractTargets(vars);
      ExtractTouchesTarget(lib, env, body, headers, ev, f);
      ExtractsTouchTargets(lib, ExtractOne(lib, env, body, headers, ev).value, body, headers, vars[1..], f);
    }
  }

  // ---- what a write makes of its source ----

  /** The part of a value a pattern keeps: its whole match as text, and nothing when it does not match. */
  predicate Matches(lib: Lib, regex: string, v: Rt, kept: Rt) {
    if regex == "" then kept == v
    else match lib.regex(regex, ToString(lib, v))
      case Groups(g) => g != [] && kept == Str(g[0])
      case NoMatch => kept == Nil
      case BadPattern => false
  }

  /** A write stores what the pattern keeps, in the asked-for format; nil passes through unchanged, before the
      pattern and before the format. */
  lemma TransformMeaning(lib: Lib, regex: string, coerce: string, v: Rt, kept: Rt)
    ensures Transform(lib, regex, coerce, Nil) == Ok(Nil)
    ensures v != Nil && Matches(lib, regex, v, kept) ==>
      Transform(lib, regex, coerce, v) ==
        if kept == Nil || coerce == "" then Ok(kept) else ApplyFormat(lib, coerce, kept)
    ensures v != Nil && (forall r :: !Matches(lib, regex, v, r)) ==> Transform(lib, regex, coerce, v).Err?
  {
    if v != Nil && regex != "" {
      match lib.regex(regex, ToString(lib, v)) {
        case Groups(g) =>
          if g != [] {
            assert Matches(lib, regex, v, Str(g[0]));
          }
        case NoMatch => assert Matches(lib, regex, v, Nil);
        case BadPattern =>
      }
    } else if regex == "" {
      assert Matches(lib, regex, v, v);
    }
  }

  /** A staged write is what its source evaluates to, transformed. */
  lemma StagedValue(lib: Lib, env: Env, w: Write, v: Rt)
    requires EvalValue(lib, env, w.from) == Ok(v)
    ensures StageOne(lib, env, w) == Transform(lib, w.regex, w.coerce, v)
    ensures w.regex == "" && w.coerce == "" ==> StageOne(lib, env, w) == Ok(v)
  {
  }

  /** Where an extract takes its value from: the response at hand, or an earlier step's, in the body with positions
      or by header name. What is not there is nil. */
  lemma SourceMeaning(lib: Lib, env: Env, body: Rt, headers: Headers, id: string, rest: seq<string>, name: string)
    ensures ExtractSource(lib, env, body, headers, Path(["response", "body"] + rest, false)) ==
      Ok(OrNil(LookupBody(body, rest)))
    ensures ExtractSource(lib, env, body, headers, Path(["response", "header", name], false)) ==
      Ok(OrNil(HeaderLookup(lib, headers, name)))
    ensures ExtractSource(lib, env, body, headers, Path(["steps", id, "body"] + rest, false)) ==
      Ok(if id in env.steps then OrNil(LookupBody(env.steps[id], rest)) else Nil)
    ensures ExtractSource(lib, env, body, headers, Path(["steps", id, "header", name], false)) ==
      Ok(if id in env.stepHeaders then OrNil(HeaderLookup(lib, env.stepHeaders[id], name)) else Nil)
  {
    assert (["response", "body"] + rest)[2..] == rest && (["steps", id, "body"] + rest)[3..] == rest;
  }

  /** An extract puts the transformed value under its name, in the state or among the iteration's extracts, and
      nothing else; a source outside the two roots and a destination outside the two namespaces are errors. */
  lemma ExtractMeaning(lib: Lib, env: Env, body: Rt, headers: Headers, ev: Extract, name: string, raw: Rt, v: Rt)
    requires ExtractSource(lib, env, body, headers, ev.from) == Ok(raw)
    requires Transform(lib, ev.regex, ev.coerce, raw) == Ok(v)
    ensures ev.to == Path(["state", name], false) ==>
      ExtractOne(lib, env, body, headers, ev) == Ok(env.(state := env.state[name := v]))
    ensures ev.to == Path(["extract", name], false) ==>
      ExtractOne(lib, env, body, headers, ev) == Ok(env.(extract := env.extract[name := v]))
    ensures ev.to.parts != [] && ev.to.parts[0] !in {"state", "extract"} ==>
      ExtractOne(lib, env, body, headers, ev).Err?
  {
  }

  /** Extracts run in order: what a list does is what its front does, then its rest, up to the first failure. */
  lemma {:induction false} ExtractsInOrder(lib: Lib, env: Env, body: Rt, headers: Headers, a: seq<Extract>,
                                           b: seq<Extract>)
    ensures var (between, ok) := Extracted(lib, env, body, headers, a);
      Extracted(lib, env, body, headers, a + b) ==
        if ok then Extracted(lib, between, body, headers, b) else (between, false)
    decreases |a|
  {
    if a == [] {
      assert a + b == b;
    } else {
      assert (a + b)[0] == a[0] && (a + b)[1..] == a[1..] + b;
      match ExtractOne(lib, env, body, headers, a[0]) {
        case Err =>
        case Ok(next) => ExtractsInOrder(lib, next, body, headers, a[1..], b);
      }
    }
  }
}
