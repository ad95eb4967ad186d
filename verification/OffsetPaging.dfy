/** Completeness of counter pagination: the offset_pagination template against the offset server
    (templates/offset_pagination.yml, internal/testserver/offset.go). */
module OffsetPaging {
  import opened Syntax
  import opened Text
  import opened Runtime
  import opened Scopes
  import opened Eval
  import opened Evaluation
  import opened Session
  import opened Writes
  import opened Pages
  import opened Requests
  import opened Drains
  import opened Servers
  import opened Paging

  const PATH := "/offset/findings"

  function OffsetQuery(): map<string, Value> {
    map["offset" := Ref(StateRef("offset"), Some(LitInt(0))),
        "limit" := Ref(StateRef("page_size"), None),
        "end" := Arith(AddOp, [Ref(StateRef("offset"), Some(LitInt(0))), Ref(StateRef("page_size"), None)])]
  }

  function OffsetRequest(): Request {
    PlainRequest(UrlOf(PATH), OffsetQuery(), [200, 204], "items")
  }

  function OffsetDoc(): Doc {
    Doc(map["url" := FieldDecl("url", Some(LitStr("http://localhost:9999"))),
            "page_size" := FieldDecl("int", Some(LitInt(5))),
            "api_key" := FieldDecl("secret", Some(LitStr("test-bearer-token-12345"))),
            "offset" := FieldDecl("int", None)],
        ApiKey(),
        [OffsetRequest()],
        Counter(StateRef("offset"), Some(LitInt(0)), Some(Ref(StateRef("page_size"), None)), None), [], Standard)
  }

  /** The counter has not been written yet, or holds the offset of the next page. */
  predicate CounterAt(env: Env, offset: nat) {
    if offset == 0 then "offset" !in env.state else "offset" in env.state && env.state["offset"] == Int(offset)
  }

  lemma EndIsSum(lib: Lib, env: Env, from: Value, size: Value, offset: nat, step: nat)
    requires EvalValue(lib, env, from) == Ok(Int(offset)) && EvalValue(lib, env, size) == Ok(Int(step))
    requires offset + step <= INT64_MAX
    ensures EvalValue(lib, env, Arith(AddOp, [from, size])) == Ok(Int(offset + step))
  {
    IntegerArithmetic(lib, env, from, size, offset, step);
  }

  lemma OffsetParams(lib: Lib, env: Env, offset: nat, step: nat, base: string, key: string)
    requires Configured(env, step, base, key) && CounterAt(env, offset) && offset + step <= INT64_MAX
    ensures EvalValue(lib, env, OffsetQuery()["offset"]) == Ok(Int(offset))
    ensures EvalValue(lib, env, OffsetQuery()["limit"]) == Ok(Int(step))
    ensures EvalValue(lib, env, OffsetQuery()["end"]) == Ok(Int(offset + step))
  {
    StateRefReads(lib, env, "offset", Some(LitInt(0)));
    StateRefReads(lib, env, "page_size", None);
    EndIsSum(lib, env, Ref(StateRef("offset"), Some(LitInt(0))), Ref(StateRef("page_size"), None), offset, step);
  }

  /** The call asks for the page: where it starts, how long it is and where it ends. */
  predicate AsksForPage(call: Call, base: string, offset: nat, step: nat) {
    && call.Fetch? && call.url == base + PATH
    && Get(call.query, "offset") == IntToString(offset)
    && Get(call.query, "limit") == IntToString(step)
    && Get(call.query, "end") == IntToString(offset + step)
  }

  lemma OffsetCall(lib: Lib, env: Env, offset: nat, step: nat, base: string, key: string)
    requires Configured(env, step, base, key) && CounterAt(env, offset) && lib.urlParses(base + PATH)
    requires offset + step <= INT64_MAX
    ensures var call := BuildCall(lib, env, 0, OffsetRequest());
      call.Ok? && AsksForPage(call.value, base, offset, step)
  {
    OffsetParams(lib, env, offset, step, base, key);
    PageIsAskedFor(lib, env, offset, step, base, key, OffsetQuery());
  }

  lemma PageIsAskedFor(lib: Lib, env: Env, offset: nat, step: nat, base: string, key: string,
                       query: map<string, Value>)
    requires Configured(env, step, base, key) && lib.urlParses(base + PATH)
    requires query.Keys == {"offset", "limit", "end"}
    requires EvalValue(lib, env, query["offset"]) == Ok(Int(offset))
    requires EvalValue(lib, env, query["limit"]) == Ok(Int(step))
    requires EvalValue(lib, env, query["end"]) == Ok(Int(offset + step))
    ensures var call := BuildCall(lib, env, 0, PlainRequest(UrlOf(PATH), query, [200, 204], "items"));
      call.Ok? && AsksForPage(call.value, base, offset, step)
  {
    CallBuilds(lib, env, step, base, key, PATH, query, [200, 204], "items");
    var call := BuildCall(lib, env, 0, PlainRequest(UrlOf(PATH), query, [200, 204], "items")).value;
    TextsAsk(lib, call, offset, step, base);
  }

  lemma TextsAsk(lib: Lib, call: Call, offset: nat, step: nat, base: string)
    requires call.Fetch? && call.url == base + PATH
    requires Get(call.query, "offset") == ToString(lib, Int(offset))
    requires Get(call.query, "limit") == ToString(lib, Int(step))
    requires Get(call.query, "end") == ToString(lib, Int(offset + step))
    ensures AsksForPage(call, base, offset, step)
  {
  }

  function Asks(base: string, step: nat): Asking {
    (call: Call, offset: nat) => AsksForPage(call, base, offset, step)
  }

  lemma OffsetReplies(opts: Options, st: Store, clock: int, query: Query, all: seq<Rt>, offset: nat, step: nat)
    requires 0 < step && offset <= |all| && |all| + step <= INT64_MAX
    requires Get(query, "offset") == IntToString(offset) && Get(query, "limit") == IntToString(step)
    requires all == (if offset == 0 then Replenished(opts, st, clock) else st).events
    ensures var (live, reply) := OffsetServed(opts, st, clock, query);
      live.events == all && reply == Reply(200, map[], Some(Obj(map["items" := JsonList(Chunk(all, offset, step))])))
  {
    DecimalsDecode(offset);
    DecimalsDecode(step);
    SliceIsChunk(all, offset, step);
  }

  lemma OffsetTurns(lib: Lib, env: Env, offset: nat, step: nat, base: string, key: string, list: seq<Rt>)
    requires Configured(env, step, base, key) && CounterAt(env, offset) && offset + step <= INT64_MAX
    requires env.events == JsonList(list)
    ensures AdvancePage(lib, env, OffsetDoc().pagination) ==
      if |list| < step then Advanced(Stop, env.state) else Advanced(Continue, env.state["offset" := Int(offset + step)])
  {
    StateRefReads(lib, env, "page_size", None);
    var size := Ref(StateRef("page_size"), None);
    CounterMeaning(lib, env, StateRef("offset"), Some(LitInt(0)), Some(size), None, "offset", 0, step, |list|);
  }

  // ---- one page ----

  predicate OffsetReady(opts: Options, all: seq<Rt>, env: Env, wire: seq<Call>, offset: nat, step: nat, base: string,
                        key: string) {
    && Configured(env, step, base, key) && CounterAt(env, offset)
    && 0 < step && offset <= |all| && |all| + step <= INT64_MAX
    && var st := Answered(OffsetHandler(opts), opts, wire).0;
       all == (if offset == 0 then Replenished(opts, st, opts.now(|wire|)) else st).events
  }

  function OffsetBody(all: seq<Rt>, offset: nat, step: nat): Rt
    requires offset <= |all|
  {
    Obj(map["items" := JsonList(Chunk(all, offset, step))])
  }

  lemma OffsetAnswers(opts: Options, all: seq<Rt>, env: Env, wire: seq<Call>, call: Call, offset: nat, step: nat,
                      base: string, key: string)
    requires OffsetReady(opts, all, env, wire, offset, step, base, key)
    requires AsksForPage(call, base, offset, step)
    ensures var (live, reply) := Answered(OffsetHandler(opts), opts, wire + [call]);
      live.events == all && reply == Reply(200, map[], Some(OffsetBody(all, offset, step)))
  {
    AnsweredNext(OffsetHandler(opts), opts, wire, call);
    OffsetReplies(opts, Answered(OffsetHandler(opts), opts, wire).0, opts.now(|wire|), call.query, all, offset, step);
  }

  /** The request of the page at `offset` brings back its chunk. */
  lemma OffsetFetch(w: World, opts: Options, all: seq<Rt>, se: Session, offset: nat, step: nat, base: string,
                    key: string)
    returns (call: Call)
    requires OffsetReady(opts, all, se.env, se.wire, offset, step, base, key)
    requires ServedBy(w, OffsetHandler(opts), opts, base + PATH)
    ensures BuildCall(w.lib, Unbound(IterationStart(se)).env, 0, OffsetRequest()) == Ok(call)
    ensures AsksForPage(call, base, offset, step)
    ensures Answered(OffsetHandler(opts), opts, se.wire + [call]).0.events == all
    ensures w.reply(se.wire + [call]) == Reply(200, map[], Some(OffsetBody(all, offset, step)))
  {
    var env := Unbound(IterationStart(se)).env;
    OffsetCall(w.lib, env, offset, step, base, key);
    call := BuildCall(w.lib, env, 0, OffsetRequest()).value;
    OffsetAnswers(opts, all, se.env, se.wire, call, offset, step, base, key);
  }

  /** A short page ends the drain, a full one moves the counter on. */
  lemma OffsetSettled(w: World, bound: Session, page: Page, offset: nat, step: nat, base: string, key: string,
                      list: seq<Rt>)
    requires Configured(bound.env, step, base, key) && CounterAt(bound.env, offset) && offset + step <= INT64_MAX
    requires bound.env.events == JsonList(list) && page.kind == Accepted
    ensures Turned(bound, Settled(w, OffsetDoc(), bound, page), page.sunk, |list| < step,
                   if |list| < step then bound.env.state else bound.env.state["offset" := Int(offset + step)])
  {
    OffsetTurns(w.lib, bound.env, offset, step, base, key, list);
    assert Progressed(w.lib, bound.env, []) == Committed(bound.env.state, true);
    assert WithState(bound, bound.env.state) == bound;
  }

  function OffsetReadiness(opts: Options, all: seq<Rt>, step: nat, base: string, key: string): Readiness {
    (env: Env, wire: seq<Call>, offset: nat) => OffsetReady(opts, all, env, wire, offset, step, base, key)
  }

  lemma OffsetStepDone(opts: Options, all: seq<Rt>, se: Session, sunk: seq<Rt>, bound: Session, page: Page, call: Call,
                       offset: nat, step: nat, base: string, key: string)
    requires OffsetReady(opts, all, se.env, se.wire, offset, step, base, key)
    requires Answered(OffsetHandler(opts), opts, se.wire + [call]).0.events == all
    requires bound.wire == se.wire + [call] && bound.checks == se.checks && AsksForPage(call, base, offset, step)
    requires bound.env.state == se.env.state && bound.env.alias == se.env.alias
    requires var short := |all| - offset < step;
      Turned(bound, page, sunk + Chunk(all, offset, step), short,
             if short then bound.env.state else bound.env.state["offset" := Int(offset + step)])
    ensures ChunkStep(OffsetReadiness(opts, all, step, base, key), Asks(base, step), all, se, sunk, page, offset, step,
                      0)
  {
  }

  lemma OffsetPage(w: World, opts: Options, all: seq<Rt>, se: Session, sunk: seq<Rt>, offset: nat, step: nat,
                   base: string, key: string)
    requires OffsetReady(opts, all, se.env, se.wire, offset, step, base, key)
    requires ServedBy(w, OffsetHandler(opts), opts, base + PATH)
    ensures ChunkStep(OffsetReadiness(opts, all, step, base, key), Asks(base, step), all, se, sunk,
                      PageDone(w, OffsetDoc(), se, sunk), offset, step, 0)
  {
    var call := OffsetFetch(w, opts, all, se, offset, step, base, key);
    var list, body := Chunk(all, offset, step), OffsetBody(all, offset, step);
    var bound, pending := Bound(w, se, call, body, list), Delivered(w, se, sunk, call, body, list);
    PlainPageSettles(w, OffsetDoc(), se, sunk, UrlOf(PATH), OffsetQuery(), [200, 204], "items", call, body, list, step,
                     base, key);
    BoundFacts(w, se, call, body, list);
    OffsetSettled(w, bound, pending, offset, step, base, key, list);
    OffsetStepDone(opts, all, se, sunk, bound, PageDone(w, OffsetDoc(), se, sunk), call, offset, step, base, key);
  }

  // ---- whole drains ----

  lemma {:induction false} ShortPageCount(n: nat, step: nat)
    requires 0 < step
    ensures PagesFrom(n, step, 0) == n / step + 1
  {
    if n < step {
      QuotientIs(n, step, 0);
    } else {
      QuotientSteps(n, step);
      ShortPageCount(n - step, step);
    }
  }

  lemma OffsetReset(lib: Lib, env: Env)
    ensures Reset(lib, OffsetDoc(), env, ["offset"]) == Committed(env.state - {"offset"}, true)
    ensures ScratchFields(OffsetDoc()) == {"offset"}
  {
    var order := ["offset"];
    assert order[1..] == [];
    assert OffsetDoc().state["offset"].default == None;
  }

  lemma OffsetPages(w: World, opts: Options, all: seq<Rt>, step: nat, base: string, key: string)
    requires ServedBy(w, OffsetHandler(opts), opts, base + PATH)
    ensures Winding(PagerOf(w, OffsetDoc()))
    ensures Covering(OffsetReadiness(opts, all, step, base, key), Asks(base, step), all, PagerOf(w, OffsetDoc()), step,
                     0)
  {
    PagesWind(w, OffsetDoc());
    forall b: Session, s: seq<Rt>, offset: nat
      ensures PageCovers(OffsetReadiness(opts, all, step, base, key), Asks(base, step), all, PagerOf(w, OffsetDoc()),
                         b, s, offset, step, 0)
    {
      if OffsetReady(opts, all, b.env, b.wire, offset, step, base, key) {
        OffsetPage(w, opts, all, b, s, offset, step, base, key);
      }
    }
  }

  lemma OffsetLoops(w: World, opts: Options, all: seq<Rt>, cap: int, se: Session, step: nat, base: string, key: string)
    requires ServedBy(w, OffsetHandler(opts), opts, base + PATH) && 0 < step
    requires OffsetReady(opts, all, se.env, se.wire, 0, step, base, key)
    requires PagesFrom(|all|, step, 0) <= se.checks && (cap <= 0 || PagesFrom(|all|, step, 0) <= cap)
    ensures FetchedAll(Asks(base, step), all, se, PageLoop(w, OffsetDoc(), cap, se), PagesFrom(|all|, step, 0), step)
  {
    OffsetPages(w, opts, all, step, base, key);
    LoopCovers(w, OffsetDoc(), OffsetReadiness(opts, all, step, base, key), Asks(base, step), all, cap, se, step, 0);
  }

  /** Whatever the store held before, one drain of the offset template emits the server's N events once and
      in order, with N / step + 1 requests, each of which names the start, the length and the end of its page. */
  lemma OffsetPagingIsComplete(w: World, opts: Options, maxPages: int, loaded: Session, step: nat, base: string,
                               key: string)
    requires ServedBy(w, OffsetHandler(opts), opts, base + PATH)
    requires Configured(loaded.env, step, base, key) && 0 < step && opts.perDrain + step <= INT64_MAX
    requires RoomFor(loaded, maxPages, opts.perDrain / step + 1)
    ensures FetchedAll(Asks(base, step), NextDrain(OffsetHandler(opts), opts, loaded.wire), loaded,
                       Drained(w, OffsetDoc(), maxPages, loaded, ["offset"]), opts.perDrain / step + 1, step)
  {
    var all := NextDrain(OffsetHandler(opts), opts, loaded.wire);
    OffsetReset(w.lib, loaded.env);
    ShortPageCount(|all|, step);
    OffsetLoops(w, opts, all, PageCap(maxPages), WithState(loaded, loaded.env.state - {"offset"}), step, base, key);
  }
}
