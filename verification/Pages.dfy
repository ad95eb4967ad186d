/** The pagination variants: when the page loop stops and what it writes (client/pagination.go). */
module Pages {
  import opened Syntax
  import opened Text
  import opened Runtime
  import opened Scopes
  import opened Eval
  import opened Session
  import opened Writes

  datatype Turn = Stop | Continue | Broken

  datatype Advanced = Advanced(turn: Turn, state: Bindings)

  /** An author's predicate decides when there is one, the variant's default otherwise. */
  function Done(lib: Lib, env: Env, until: Option<Predicate>, default: bool): Result<bool> {
    match until case Some(p) => EvalPredicate(lib, env, p) case None => Ok(default)
  }

  function Settle(env: Env, done: Result<bool>, to: Path, v: Rt): Advanced {
    match done
    case Err => Advanced(Broken, env.state)
    case Ok(true) => Advanced(Stop, env.state)
    case Ok(false) => match StateField(to)
      case None => Advanced(Broken, env.state)
      case Some(f) => Advanced(Continue, env.state[f := v])
  }

  /** counterPagination.resolveInt. */
  function ResolveInt(lib: Lib, env: Env, v: Option<Value>): Option<int> {
    match v
    case None => Some(1)
    case Some(x) => match EvalValue(lib, env, x) case Err => None case Ok(r) => ToInt(r)
  }

  function EventCount(lib: Lib, env: Env): Result<int> {
    match Resolve(lib, env, Path(["events", "count"], false))
    case Err => Err
    case Ok(got) => match AsInt(OrNil(got)) case Some(n) => Ok(n) case None => Ok(0)
  }

  /** The counter's write: an unset field counts as `first`. */
  function CounterStep(env: Env, to: Path, first: int, n: int): Advanced {
    match StateField(to)
    case None => Advanced(Broken, env.state)
    case Some(f) =>
      var current := if f in env.state && env.state[f] != Nil then ToInt(env.state[f]) else Some(first);
      match current
      case None => Advanced(Broken, env.state)
      case Some(i) => Advanced(Continue, env.state[f := Int(Wrap64(i + n))])
  }

  function AdvanceCounter(lib: Lib, env: Env, to: Path, start: Option<Value>, step: Option<Value>,
                          until: Option<Predicate>): Advanced {
    match ResolveInt(lib, env, step)
    case None => Advanced(Broken, env.state)
    case Some(n) =>
      var count := EventCount(lib, env);
      if until.None? && count.Err? then Advanced(Broken, env.state)
      else match Done(lib, env, until, count.Ok? && count.value < n)
        case Err => Advanced(Broken, env.state)
        case Ok(true) => Advanced(Stop, env.state)
        case Ok(false) => match ResolveInt(lib, env, start)
          case None => Advanced(Broken, env.state)
          case Some(first) => CounterStep(env, to, first, n)
  }

  /** The post-regex link of next_url; None when the path is absent or the regex did not match. */
  function NextLink(lib: Lib, got: Option<Rt>, regex: string, capture: int): Result<Option<Rt>> {
    if regex == "" || OrNil(got) == Nil then Ok(got) else RegexResult(lib, regex, Ok(OrNil(got)), capture)
  }

  function AdvancePage(lib: Lib, env: Env, p: Pagination): Advanced {
    match p
    case NoPagination => Advanced(Stop, env.state)
    case CursorToken(from, to, until) =>
      (match Resolve(lib, env, from)
       case Err => Advanced(Broken, env.state)
       case Ok(got) => Settle(env, Done(lib, env, until, IsZero(OrNil(got))), to, OrNil(got)))
    case NextUrl(from, to, regex, capture, until) =>
      (match Resolve(lib, env, from)
       case Err => Advanced(Broken, env.state)
       case Ok(got) => match NextLink(lib, got, regex, capture)
         case Err => Advanced(Broken, env.state)
         case Ok(link) => Settle(env, Done(lib, env, until, IsZero(OrNil(link))), to, OrNil(link)))
    case Counter(to, start, step, until) => AdvanceCounter(lib, env, to, start, step, until)
    case Custom(advance, until) =>
      (match EvalPredicate(lib, env, until)
       case Err => Advanced(Broken, env.state)
       case Ok(true) => Advanced(Stop, env.state)
       case Ok(false) =>
         var c := Progressed(lib, env, advance);
         Advanced(if c.ok then Continue else Broken, c.state))
  }

  method Advance(s: Scope, p: Pagination) returns (turn: Turn)
    modifies s`state
    ensures var a := AdvancePage(s.world.lib, old(s.Current()), p);
      turn == a.turn && s.View() == WithState(old(s.View()), a.state)
  {
    var lib := s.world.lib;
    match p {
      case NoPagination => return Stop;
      case CursorToken(from, to, until) =>
        var got := Resolve(lib, s.Current(), from);
        if got.Err? { return Broken; }
        var value := OrNil(got.value);
        turn := WriteNext(s, until, value, to);
      case NextUrl(from, to, regex, capture, until) =>
        var got := Resolve(lib, s.Current(), from);
        if got.Err? { return Broken; }
        var value := OrNil(got.value);
        if regex != "" && value != Nil {
          var m := ApplyRegex(lib, regex, ToString(lib, value), capture);
          if m.Err? { return Broken; }
          value := if m.value.Some? then Str(m.value.value) else Nil;
        }
        turn := WriteNext(s, until, value, to);
      case Counter(_, _, _, _) => turn := AdvanceByStep(s, p);
      case Custom(advance, until) =>
        var done := EvalPredicate(lib, s.Current(), until);
        if done.Err? { return Broken; }
        if done.value { return Stop; }
        var ok, staged := StageWrites(s, advance);
        if !ok { return Broken; }
        ok := CommitWrites(s, advance, staged);
        return if ok then Continue else Broken;
    }
  }

  /** The shared tail of cursor_token and next_url. */
  method WriteNext(s: Scope, until: Option<Predicate>, value: Rt, to: Path) returns (turn: Turn)
    modifies s`state
    ensures var a := Settle(old(s.Current()), Done(s.world.lib, old(s.Current()), until, IsZero(value)), to, value);
      turn == a.turn && s.View() == WithState(old(s.View()), a.state)
  {
    var done := Done(s.world.lib, s.Current(), until, IsZero(value));
    if done.Err? { return Broken; }
    if done.value { return Stop; }
    var field := StateField(to);
    if field.None? { return Broken; }
    s.state := s.state[field.value := value];
    return Continue;
  }

  method AdvanceByStep(s: Scope, p: Pagination) returns (turn: Turn)
    requires p.Counter?
    modifies s`state
    ensures var a := AdvanceCounter(s.world.lib, old(s.Current()), p.to, p.start, p.step, p.terminateWhen);
      turn == a.turn && s.View() == WithState(old(s.View()), a.state)
  {
    var lib, env := s.world.lib, s.Current();
    var step := ResolveInt(lib, env, p.step);
    if step.None? { return Broken; }
    var done;
    if p.terminateWhen.Some? {
      done := EvalPredicate(lib, env, p.terminateWhen.value);
    } else {
      var count := EventCount(lib, env);
      done := match count case Err => Err case Ok(n) => Ok(n < step.value);
    }
    if done.Err? { return Broken; }
    if done.value { return Stop; }
    var start := ResolveInt(lib, env, p.start);
    if start.None? { return Broken; }
    var field := StateField(p.to);
    if field.None? { return Broken; }
    var n := start.value;
    if field.value in s.state && s.state[field.value] != Nil {
      var current := ToInt(s.state[field.value]);
      if current.None? { return Broken; }
      n := current.value;
    }
    s.state := s.state[field.value := Int(Wrap64(n + step.value))];
    return Continue;
  }

  // ---- which fields a variant may write ----

  function PageTargets(p: Pagination): set<string> {
    match p
    case NoPagination => {}
    case CursorToken(_, to, _) => FieldSet(to)
    case NextUrl(_, to, _, _, _) => FieldSet(to)
    case Counter(to, _, _, _) => FieldSet(to)
    case Custom(advance, _) => Targets(advance)
  }

  function FieldSet(to: Path): set<string> {
    match StateField(to) case None => {} case Some(f) => {f}
  }

  /** Advancing touches only the variant's own fields, and nothing at all on the page that stops. */
  lemma AdvanceTouchesTargets(lib: Lib, env: Env, p: Pagination, f: string)
    ensures f !in PageTargets(p) ==> SameField(env.state, AdvancePage(lib, env, p).state, f)
    ensures AdvancePage(lib, env, p).turn == Stop ==> AdvancePage(lib, env, p).state == env.state
  {
    if p.Custom? && f !in PageTargets(p) {
      ProgressTouchesTargets(lib, env, p.advance, f);
    }
  }

  /** A custom advance that goes on is one simultaneous assignment too; a failing one changes nothing. */
  lemma CustomAdvanceIsSimultaneous(lib: Lib, env: Env, advance: seq<Write>, until: Predicate)
    requires AllToState(advance) && DistinctTargets(advance)
    ensures var a := AdvancePage(lib, env, Custom(advance, until));
      && (a.turn != Continue ==> a.state == env.state)
      && (a.turn == Continue <==>
            EvalPredicate(lib, env, until) == Ok(false) && forall w | w in advance :: StageOne(lib, env, w).Ok?)
      && (a.turn == Continue ==>
            AssignedAtOnce(env.state, a.state, advance,
                           seq(|advance|, i requires 0 <= i < |advance| => StageOne(lib, env, advance[i]).value)))
  {
    ProgressIsSimultaneous(lib, env, advance);
  }

  /** Without a regex, next_url is cursor_token under another name. */
  lemma NextUrlWithoutRegex(lib: Lib, env: Env, from: Path, to: Path, capture: int, until: Option<Predicate>)
    ensures AdvancePage(lib, env, NextUrl(from, to, "", capture, until)) ==
      AdvancePage(lib, env, CursorToken(from, to, until))
  {
  }

  // ---- when a variant stops, and what it writes ----

  /** The page loop is over: the author's predicate says so or, when there is none, the variant's own rule. */
  predicate Over(lib: Lib, env: Env, until: Option<Predicate>, byDefault: bool) {
    if until.Some? then EvalPredicate(lib, env, until.value) == Ok(true) else byDefault
  }

  /** The author's predicate fails. */
  predicate Undecided(lib: Lib, env: Env, until: Option<Predicate>) {
    until.Some? && EvalPredicate(lib, env, until.value).Err?
  }

  /** Without pagination every page is the last. */
  lemma NoPaginationMeaning(lib: Lib, env: Env)
    ensures AdvancePage(lib, env, NoPagination) == Advanced(Stop, env.state)
  {
  }

  /** A cursor is over when it is absent or empty, unless an author's predicate decides instead; otherwise it is
      written. A predicate that fails breaks the drain. */
  lemma CursorMeaning(lib: Lib, env: Env, from: Path, to: Path, until: Option<Predicate>, f: string)
    requires Resolve(lib, env, from).Ok? && StateField(to) == Some(f)
    ensures var leaf := OrNil(Resolve(lib, env, from).value);
      AdvancePage(lib, env, CursorToken(from, to, until)) ==
        if Undecided(lib, env, until) then Advanced(Broken, env.state)
        else if Over(lib, env, until, leaf in {Nil, Str(""), Arr([]), Obj(map[])}) then Advanced(Stop, env.state)
        else Advanced(Continue, env.state[f := leaf])
  {
  }

  /** The link of next_url: the captured part of the leaf, nothing when the leaf is absent or does not match. */
  predicate IsLink(lib: Lib, leaf: Rt, regex: string, capture: nat, link: Rt) {
    if leaf == Nil then link == Nil
    else match lib.regex(regex, ToString(lib, leaf))
      case Groups(g) => capture < |g| && link == Str(g[capture])
      case NoMatch => link == Nil
      case BadPattern => false
  }

  /** With a regex the loop follows the link: it is over when there is none, unless an author's predicate decides. A
      broken pattern and a missing group break the drain. */
  lemma NextUrlMeaning(lib: Lib, env: Env, from: Path, to: Path, regex: string, capture: nat,
                       until: Option<Predicate>, f: string, link: Rt)
    requires Resolve(lib, env, from).Ok? && StateField(to) == Some(f) && regex != ""
    ensures var leaf := OrNil(Resolve(lib, env, from).value);
      var a := AdvancePage(lib, env, NextUrl(from, to, regex, capture, until));
      && (IsLink(lib, leaf, regex, capture, link) ==>
            a == if Undecided(lib, env, until) then Advanced(Broken, env.state)
                 else if Over(lib, env, until, link in {Nil, Str("")}) then Advanced(Stop, env.state)
                 else Advanced(Continue, env.state[f := link]))
      && ((forall l :: !IsLink(lib, leaf, regex, capture, l)) ==> a == Advanced(Broken, env.state))
  {
    var leaf := OrNil(Resolve(lib, env, from).value);
    if leaf != Nil {
      match lib.regex(regex, ToString(lib, leaf)) {
        case Groups(g) =>
          if capture < |g| {
            assert IsLink(lib, leaf, regex, capture, Str(g[capture]));
          }
        case NoMatch => assert IsLink(lib, leaf, regex, capture, Nil);
        case BadPattern =>
      }
    } else {
      assert IsLink(lib, leaf, regex, capture, Nil);
    }
  }

  /** A given step or start is the integer it evaluates to; a missing one is one. */
  predicate Counts(lib: Lib, env: Env, v: Option<Value>, n: int) {
    if v.None? then n == 1 else EvalValue(lib, env, v.value) == Ok(Int(n))
  }

  lemma Resolves(lib: Lib, env: Env, v: Option<Value>, n: int)
    requires Counts(lib, env, v, n)
    ensures ResolveInt(lib, env, v) == Some(n)
  {
  }

  lemma CountsEvents(lib: Lib, env: Env)
    requires env.alias == "" && (env.events == Nil || env.events.Arr?)
    ensures EventCount(lib, env) == Ok(if env.events.Arr? then |env.events.elems| else 0)
  {
    assert Path(["events", "count"], false).parts[1..] == ["count"];
  }

  lemma CounterTurn(lib: Lib, env: Env, to: Path, start: Option<Value>, step: Option<Value>,
                    until: Option<Predicate>, f: string, first: int, n: int, count: int)
    requires StateField(to) == Some(f) && ResolveInt(lib, env, step) == Some(n)
    requires ResolveInt(lib, env, start) == Some(first) && EventCount(lib, env) == Ok(count)
    requires f in env.state ==> env.state[f] == Nil || env.state[f].Int?
    ensures var current := if f in env.state && env.state[f] != Nil then env.state[f].n else first;
      AdvanceCounter(lib, env, to, start, step, until) ==
        if Undecided(lib, env, until) then Advanced(Broken, env.state)
        else if Over(lib, env, until, count < n) then Advanced(Stop, env.state)
        else Advanced(Continue, env.state[f := Int(Wrap64(current + n))])
  {
  }

  /** The counter is over on a page with fewer events than the step, unless an author's predicate decides; otherwise
      the step is added to the field, or to the start while the field is not set. */
  lemma CounterMeaning(lib: Lib, env: Env, to: Path, start: Option<Value>, step: Option<Value>,
                       until: Option<Predicate>, f: string, first: int, n: int, count: int)
    requires StateField(to) == Some(f) && Counts(lib, env, step, n) && Counts(lib, env, start, first)
    requires env.alias == "" && count == (if env.events.Arr? then |env.events.elems| else 0)
    requires env.events == Nil || env.events.Arr?
    requires f in env.state ==> env.state[f] == Nil || env.state[f].Int?
    ensures var current := if f in env.state && env.state[f] != Nil then env.state[f].n else first;
      var a := AdvancePage(lib, env, Counter(to, start, step, until));
      && (Undecided(lib, env, until) ==> a == Advanced(Broken, env.state))
      && (!Undecided(lib, env, until) && Over(lib, env, until, count < n) ==> a == Advanced(Stop, env.state))
      && (!Undecided(lib, env, until) && !Over(lib, env, until, count < n) ==>
            && a.turn == Continue && (InInt64(current + n) ==> a.state == env.state[f := Int(current + n)]))
  {
    CountsEvents(lib, env);
    Resolves(lib, env, step, n);
    Resolves(lib, env, start, first);
    CounterTurn(lib, env, to, start, step, until, f, first, n, count);
  }

  /** A custom advance stops exactly when its predicate holds, and breaks when it fails. */
  lemma CustomMeaning(lib: Lib, env: Env, advance: seq<Write>, until: Predicate)
    ensures var a := AdvancePage(lib, env, Custom(advance, until));
      && (a.turn == Stop <==> EvalPredicate(lib, env, until) == Ok(true))
      && (EvalPredicate(lib, env, until).Err? ==> a == Advanced(Broken, env.state))
  {
  }
}
