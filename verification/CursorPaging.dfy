/** Completeness of cursor paging: the cursor_token template against the cursor server
    (templates/cursor_token.yml, internal/testserver/cursor_token.go). */
module CursorPaging {
  import opened Syntax
  import opened Text
  import opened Runtime
  import opened Scopes
  import opened Eval
  import opened Session
  import opened Writes
  import opened Pages
  import opened Requests
  import opened Drains
  import opened Servers
  import opened Paging

  const PATH := "/cursor_token/findings"

  function CursorQuery(): map<string, Value> {
    map["cursor" := Ref(StateRef("next_token"), Some(LitStr(""))), "limit" := Ref(StateRef("page_size"), None)]
  }

  function CreatedAt(): Value {
    Ref(Path(["events", "*", "created_at"], false), None)
  }

  /** The template's high-water mark; the server's events have no such field. */
  function Mark(): Value {
    Reduce(Max, List([Ref(StateRef("last_timestamp"), None), Reduce(Max, CreatedAt())]))
  }

  function CursorRequest(): Request {
    PlainRequest(UrlOf(PATH), CursorQuery(), [], "findings")
  }

  function CursorDoc(): Doc {
    Doc(map["url" := FieldDecl("url", Some(LitStr("http://localhost:9999"))),
            "page_size" := FieldDecl("int", Some(LitInt(5))),
            "api_key" := FieldDecl("secret", Some(LitStr("test-bearer-token-12345"))),
            "next_token" := FieldDecl("string", None),
            "last_timestamp" := FieldDecl("timestamp", Some(Arith(SubtractOp, [Now, LitStr("720h")])))],
        ApiKey(),
        [CursorRequest()],
        CursorToken(BodyAt("next_cursor"), StateRef("next_token"), None),
        [Write(StateRef("last_timestamp"), Mark(), "", "")], Standard)
  }

  function CursorTo(offset: nat): string {
    "page:" + IntToString(offset)
  }

  /** No cursor yet, or the cursor of the next page. */
  predicate CursorAt(env: Env, offset: nat) {
    if offset == 0 then "next_token" !in env.state
    else "next_token" in env.state && env.state["next_token"] == Str(CursorTo(offset))
  }

  function CursorText(offset: nat): string {
    if offset == 0 then "" else CursorTo(offset)
  }

  lemma CursorParams(lib: Lib, env: Env, offset: nat, size: int, base: string, key: string)
    requires Configured(env, size, base, key) && CursorAt(env, offset)
    ensures EvalValue(lib, env, CursorQuery()["cursor"]) == Ok(Str(CursorText(offset)))
    ensures EvalValue(lib, env, CursorQuery()["limit"]) == Ok(Int(size))
  {
    StateRefReads(lib, env, "next_token", Some(LitStr("")));
    StateRefReads(lib, env, "page_size", None);
  }

  /** The call asks for the page by the cursor it was promised under. */
  predicate AsksForPage(call: Call, base: string, offset: nat, size: int) {
    && call.Fetch? && call.url == base + PATH
    && Get(call.query, "cursor") == CursorText(offset) && Get(call.query, "limit") == IntToString(size)
  }

  function Asks(base: string, size: int): Asking {
    (call: Call, offset: nat) => AsksForPage(call, base, offset, size)
  }

  lemma CursorCall(lib: Lib, env: Env, offset: nat, size: int, base: string, key: string)
    requires Configured(env, size, base, key) && CursorAt(env, offset) && lib.urlParses(base + PATH)
    ensures var call := BuildCall(lib, env, 0, CursorRequest());
      call.Ok? && AsksForPage(call.value, base, offset, size)
  {
    CursorParams(lib, env, offset, size, base, key);
    CallBuilds(lib, env, size, base, key, PATH, CursorQuery(), [], "findings");
  }

  lemma CursorsDecode(offset: nat)
    requires offset <= INT64_MAX
    ensures CursorOffset(CursorText(offset)) == Some(offset) && (CursorText(offset) == "" <==> offset == 0)
  {
    ParseIntToString(offset);
    assert CursorTo(offset)[5..] == IntToString(offset);
  }

  /** The cursor after the page at `offset`; Nil on the last one. */
  function CursorAfter(opts: Options, all: seq<Rt>, offset: nat): Rt
    requires 0 < opts.pageSize
  {
    if offset + opts.pageSize < |all| then Str(CursorTo(offset + opts.pageSize)) else Nil
  }

  function CursorBody(opts: Options, all: seq<Rt>, offset: nat): Rt
    requires 0 < opts.pageSize && offset <= |all|
  {
    Obj(map["findings" := JsonList(Chunk(all, offset, opts.pageSize)), "next_cursor" := CursorAfter(opts, all, offset)])
  }

  lemma NextCursorIs(opts: Options, all: seq<Rt>, offset: nat)
    requires 0 < opts.pageSize && offset <= |all| && |all| + opts.pageSize <= INT64_MAX
    ensures NextCursor(opts, all, offset) == CursorAfter(opts, all, offset)
  {
  }

  lemma CursorReplies(opts: Options, st: Store, clock: int, query: Query, all: seq<Rt>, offset: nat)
    requires 0 < opts.pageSize && offset <= |all| && |all| + opts.pageSize <= INT64_MAX
    requires Get(query, "cursor") == CursorText(offset)
    requires all == (if offset == 0 then Replenished(opts, st, clock) else st).events
    ensures var (live, reply) := CursorServed(opts, st, clock, query);
      live.events == all && reply == Reply(200, map[], Some(CursorBody(opts, all, offset)))
  {
    CursorsDecode(offset);
    NextCursorIs(opts, all, offset);
    SliceIsChunk(all, offset, opts.pageSize);
  }

  // ---- progress and advance ----

  lemma MarkEvaluates(lib: Lib, env: Env)
    requires env.alias == ""
    ensures EvalValue(lib, env, Mark()).Ok?
  {
    StateRefReads(lib, env, "last_timestamp", None);
    EventsProject(lib, env);
    PairEvaluates(lib, env, Ref(StateRef("last_timestamp"), None), Reduce(Max, CreatedAt()));
  }

  lemma EventsProject(lib: Lib, env: Env)
    requires env.alias == ""
    ensures EvalValue(lib, env, Reduce(Max, CreatedAt())).Ok?
  {
    var path := CreatedAt().path;
    assert path.parts[1..] == ["*", "created_at"];
    assert Resolve(lib, env, path) == ResolveEvents(env.events, ["*", "created_at"]);
    assert EvalValue(lib, env, CreatedAt()).Ok?;
    assert AsList(EvalValue(lib, env, CreatedAt())).Ok?;
  }

  lemma CursorProgress(lib: Lib, env: Env)
    requires env.alias == ""
    ensures var c := Progressed(lib, env, CursorDoc().progress);
      c.ok && c.state == env.state["last_timestamp" := EvalValue(lib, env, Mark()).value]
  {
    MarkEvaluates(lib, env);
    var writes := CursorDoc().progress;
    assert writes[1..] == [];
    var v := EvalValue(lib, env, Mark()).value;
    assert StageOne(lib, env, writes[0]) == Ok(v);
    assert StageAll(lib, env, writes) == Ok([v] + []);
    assert Commit(env.state["last_timestamp" := v], writes[1..], [v][1..]) ==
      Committed(env.state["last_timestamp" := v], true);
  }

  lemma CursorTurns(lib: Lib, env: Env, opts: Options, all: seq<Rt>, offset: nat)
    requires env.alias == "" && 0 < opts.pageSize && offset <= |all| && env.body == CursorBody(opts, all, offset)
    ensures AdvancePage(lib, env, CursorDoc().pagination) ==
      if |all| <= offset + opts.pageSize then Advanced(Stop, env.state)
      else Advanced(Continue, env.state["next_token" := Str(CursorTo(offset + opts.pageSize))])
  {
    var path := BodyAt("next_cursor");
    assert path.parts[1..] == ["body", "next_cursor"] && path.parts[1..][1..] == ["next_cursor"];
    assert ["next_cursor"][1..] == [];
    assert LookupBody(env.body, ["next_cursor"]) == Some(CursorAfter(opts, all, offset));
    assert Resolve(lib, env, path) == Ok(Some(CursorAfter(opts, all, offset)));
  }

  // ---- one page ----

  predicate CursorReady(opts: Options, all: seq<Rt>, env: Env, wire: seq<Call>, offset: nat, size: int, base: string,
                        key: string) {
    && Configured(env, size, base, key) && CursorAt(env, offset)
    && 0 < opts.pageSize && offset <= |all| && |all| + opts.pageSize <= INT64_MAX
    && var st := Answered(CursorHandler(opts), opts, wire).0;
       all == (if offset == 0 then Replenished(opts, st, opts.now(|wire|)) else st).events
  }

  lemma CursorAnswers(opts: Options, all: seq<Rt>, env: Env, wire: seq<Call>, call: Call, offset: nat, size: int,
                      base: string, key: string)
    requires CursorReady(opts, all, env, wire, offset, size, base, key)
    requires AsksForPage(call, base, offset, size)
    ensures var (live, reply) := Answered(CursorHandler(opts), opts, wire + [call]);
      live.events == all && reply == Reply(200, map[], Some(CursorBody(opts, all, offset)))
  {
    AnsweredNext(CursorHandler(opts), opts, wire, call);
    CursorReplies(opts, Answered(CursorHandler(opts), opts, wire).0, opts.now(|wire|), call.query, all, offset);
  }

  lemma CursorFetch(w: World, opts: Options, all: seq<Rt>, se: Session, offset: nat, size: int, base: string,
                    key: string)
    returns (call: Call)
    requires CursorReady(opts, all, se.env, se.wire, offset, size, base, key)
    requires ServedBy(w, CursorHandler(opts), opts, base + PATH)
    ensures BuildCall(w.lib, Unbound(IterationStart(se)).env, 0, CursorRequest()) == Ok(call)
    ensures AsksForPage(call, base, offset, size)
    ensures Answered(CursorHandler(opts), opts, se.wire + [call]).0.events == all
    ensures w.reply(se.wire + [call]) == Reply(200, map[], Some(CursorBody(opts, all, offset)))
  {
    var env := Unbound(IterationStart(se)).env;
    CursorCall(w.lib, env, offset, size, base, key);
    call := BuildCall(w.lib, env, 0, CursorRequest()).value;
    CursorAnswers(opts, all, se.env, se.wire, call, offset, size, base, key);
  }

  /** The state after the page: the mark is written on every page, the cursor on every page but the last. */
  function CursorMoved(before: Bindings, mark: Rt, opts: Options, all: seq<Rt>, offset: nat): Bindings
    requires 0 < opts.pageSize
  {
    var marked := before["last_timestamp" := mark];
    if |all| <= offset + opts.pageSize then marked else marked["next_token" := Str(CursorTo(offset + opts.pageSize))]
  }

  lemma CursorSettled(w: World, bound: Session, page: Page, opts: Options, all: seq<Rt>, offset: nat)
    requires bound.env.alias == "" && 0 < opts.pageSize && offset <= |all|
    requires bound.env.body == CursorBody(opts, all, offset)
    requires page.kind == Accepted
    ensures EvalValue(w.lib, bound.env, Mark()).Ok?
    ensures Turned(bound, Settled(w, CursorDoc(), bound, page), page.sunk, |all| <= offset + opts.pageSize,
                   CursorMoved(bound.env.state, EvalValue(w.lib, bound.env, Mark()).value, opts, all, offset))
  {
    MarkEvaluates(w.lib, bound.env);
    CursorProgress(w.lib, bound.env);
    var progressed := WithState(bound, Progressed(w.lib, bound.env, CursorDoc().progress).state);
    CursorTurns(w.lib, progressed.env, opts, all, offset);
  }

  function CursorReadiness(opts: Options, all: seq<Rt>, size: int, base: string, key: string): Readiness {
    (env: Env, wire: seq<Call>, offset: nat) => CursorReady(opts, all, env, wire, offset, size, base, key)
  }

  lemma CursorStepDone(opts: Options, all: seq<Rt>, se: Session, sunk: seq<Rt>, bound: Session, page: Page, call: Call,
                       mark: Rt, offset: nat, size: int, base: string, key: string)
    requires CursorReady(opts, all, se.env, se.wire, offset, size, base, key)
    requires Answered(CursorHandler(opts), opts, se.wire + [call]).0.events == all
    requires bound.wire == se.wire + [call] && bound.checks == se.checks && AsksForPage(call, base, offset, size)
    requires bound.env.state == se.env.state && bound.env.alias == se.env.alias
    requires Turned(bound, page, sunk + Chunk(all, offset, opts.pageSize), |all| <= offset + opts.pageSize,
                    CursorMoved(bound.env.state, mark, opts, all, offset))
    ensures ChunkStep(CursorReadiness(opts, all, size, base, key), Asks(base, size), all, se, sunk, page, offset,
                      opts.pageSize, 1)
  {
    if offset + opts.pageSize < |all| {
      CursorNext(bound.env, page.after.env, mark, opts, all, offset, size, base, key);
    }
  }

  lemma CursorNext(before: Env, after: Env, mark: Rt, opts: Options, all: seq<Rt>, offset: nat, size: int, base: string,
                   key: string)
    requires Configured(before, size, base, key) && after.alias == before.alias
    requires 0 < opts.pageSize && offset + opts.pageSize < |all|
    requires after.state == CursorMoved(before.state, mark, opts, all, offset)
    ensures Configured(after, size, base, key) && CursorAt(after, offset + opts.pageSize)
  {
  }

  lemma CursorPage(w: World, opts: Options, all: seq<Rt>, se: Session, sunk: seq<Rt>, offset: nat, size: int,
                   base: string, key: string)
    requires CursorReady(opts, all, se.env, se.wire, offset, size, base, key)
    requires ServedBy(w, CursorHandler(opts), opts, base + PATH)
    ensures ChunkStep(CursorReadiness(opts, all, size, base, key), Asks(base, size), all, se, sunk,
                      PageDone(w, CursorDoc(), se, sunk), offset, opts.pageSize, 1)
  {
    var call := CursorFetch(w, opts, all, se, offset, size, base, key);
    var list, body := Chunk(all, offset, opts.pageSize), CursorBody(opts, all, offset);
    var bound, pending := Bound(w, se, call, body, list), Delivered(w, se, sunk, call, body, list);
    PlainPageSettles(w, CursorDoc(), se, sunk, UrlOf(PATH), CursorQuery(), [], "findings", call, body, list, size,
                     base, key);
    BoundFacts(w, se, call, body, list);
    CursorSettled(w, bound, pending, opts, all, offset);
    CursorStepDone(opts, all, se, sunk, bound, PageDone(w, CursorDoc(), se, sunk), call,
                   EvalValue(w.lib, bound.env, Mark()).value, offset, size, base, key);
  }

  // ---- whole drains ----

  /** ceil(n / size), but at least one. */
  function CursorPages(n: nat, size: int): nat
    requires 0 < size
  {
    if n == 0 then 1 else (n + size - 1) / size
  }

  lemma {:induction false} CursorPageCount(n: nat, size: nat)
    requires 0 < size
    ensures PagesFrom(n, size, 1) == CursorPages(n, size)
  {
    if n > size {
      QuotientSteps(n + size - 1, size);
      CursorPageCount(n - size, size);
    } else if n > 0 {
      QuotientIs(n + size - 1, size, 1);
    }
  }

  lemma CursorReset(lib: Lib, env: Env)
    ensures Reset(lib, CursorDoc(), env, ["next_token"]) == Committed(env.state - {"next_token"}, true)
    ensures ScratchFields(CursorDoc()) == {"next_token"}
  {
    var order := ["next_token"];
    assert order[1..] == [];
    assert CursorDoc().state["next_token"].default == None;
  }

  lemma CursorDrainPages(w: World, opts: Options, all: seq<Rt>, size: int, base: string, key: string)
    requires ServedBy(w, CursorHandler(opts), opts, base + PATH) && 0 < opts.pageSize
    ensures Winding(PagerOf(w, CursorDoc()))
    ensures Covering(CursorReadiness(opts, all, size, base, key), Asks(base, size), all, PagerOf(w, CursorDoc()),
                     opts.pageSize, 1)
  {
    PagesWind(w, CursorDoc());
    forall b: Session, s: seq<Rt>, offset: nat
      ensures PageCovers(CursorReadiness(opts, all, size, base, key), Asks(base, size), all, PagerOf(w, CursorDoc()),
                         b, s, offset, opts.pageSize, 1)
    {
      if CursorReady(opts, all, b.env, b.wire, offset, size, base, key) {
        CursorPage(w, opts, all, b, s, offset, size, base, key);
      }
    }
  }

  lemma CursorLoops(w: World, opts: Options, all: seq<Rt>, cap: int, se: Session, size: int, base: string, key: string)
    requires ServedBy(w, CursorHandler(opts), opts, base + PATH) && 0 < opts.pageSize
    requires CursorReady(opts, all, se.env, se.wire, 0, size, base, key)
    requires PagesFrom(|all|, opts.pageSize, 1) <= se.checks && (cap <= 0 || PagesFrom(|all|, opts.pageSize, 1) <= cap)
    ensures FetchedAll(Asks(base, size), all, se, PageLoop(w, CursorDoc(), cap, se), PagesFrom(|all|, opts.pageSize, 1),
                       opts.pageSize)
  {
    CursorDrainPages(w, opts, all, size, base, key);
    LoopCovers(w, CursorDoc(), CursorReadiness(opts, all, size, base, key), Asks(base, size), all, cap, se,
               opts.pageSize, 1);
  }

  /** One drain of the cursor template emits the server's N events once and in order, with
      max(1, ceil(N / page size)) requests, each of which carries the cursor of its page. */
  lemma CursorPagingIsComplete(w: World, opts: Options, maxPages: int, loaded: Session, size: int, base: string,
                               key: string)
    requires ServedBy(w, CursorHandler(opts), opts, base + PATH)
    requires Configured(loaded.env, size, base, key) && 0 < opts.pageSize && opts.perDrain + opts.pageSize <= INT64_MAX
    requires RoomFor(loaded, maxPages, CursorPages(opts.perDrain, opts.pageSize))
    ensures FetchedAll(Asks(base, size), NextDrain(CursorHandler(opts), opts, loaded.wire), loaded,
                       Drained(w, CursorDoc(), maxPages, loaded, ["next_token"]),
                       CursorPages(opts.perDrain, opts.pageSize), opts.pageSize)
  {
    var all := NextDrain(CursorHandler(opts), opts, loaded.wire);
    CursorReset(w.lib, loaded.env);
    CursorPageCount(opts.perDrain, opts.pageSize);
    CursorLoops(w, opts, all, PageCap(maxPages), WithState(loaded, loaded.env.state - {"next_token"}), size, base, key);
  }
}
