/** Drains that page through a list on a server, one plain request per page: what one page does, and how a
    run of such pages covers the list (client/runner.go Drain, client/http.go). */
module Paging {
  import opened Syntax
  import opened Text
  import opened Runtime
  import opened Scopes
  import opened Eval
  import opened Session
  import opened Requests
  import opened Drains
  import opened Frames
  import opened Ledger
  import opened Servers

  // ---- documents with one plain request ----

  function StateRef(name: string): Path {
    Path(["state", name], false)
  }

  function BodyAt(field: string): Path {
    Path(["response", "body", field], false)
  }

  function PlainRequest(url: Value, query: map<string, Value>, expected: seq<int>, field: string): Request {
    Request("", url, query, map[], false, [], None, expected, None, None, map[], Some(BodyAt(field)), None)
  }

  /** The documents' operator fields, and no alias in the way. */
  predicate Configured(env: Env, step: int, url: string, key: string) {
    && env.alias == ""
    && "page_size" in env.state && env.state["page_size"] == Int(step)
    && "url" in env.state && env.state["url"] == Str(url) && url != ""
    && "api_key" in env.state && env.state["api_key"] == Str(key) && key != ""
  }

  function ApiKey(): Auth {
    Bearer(Ref(StateRef("api_key"), None))
  }

  lemma StateRefReads(lib: Lib, env: Env, name: string, default: Option<Value>)
    requires env.alias == ""
    ensures EvalValue(lib, env, Ref(StateRef(name), default)) ==
      if name in env.state && !IsZero(env.state[name]) then Ok(env.state[name]) else EvalDefault(lib, env, default)
  {
    assert StateRef(name).parts[1..][1..] == [];
  }

  function UrlOf(path: string): Value {
    Concat([Ref(StateRef("url"), None), LitStr(path)])
  }

  lemma PairConcatenates(lib: Lib, a: string, b: string)
    ensures ConcatStrings(lib, [Str(a), Str(b)]) == a + b
  {
    var parts := [Str(a), Str(b)];
    assert parts[1..] == [Str(b)] && parts[1..][1..] == [];
    assert ConcatStrings(lib, parts[1..]) == b + ConcatStrings(lib, parts[1..][1..]);
    assert b + "" == b;
  }

  lemma UrlEvaluates(lib: Lib, env: Env, step: int, url: string, key: string, path: string)
    requires Configured(env, step, url, key)
    ensures EvalValue(lib, env, UrlOf(path)) == Ok(Str(url + path))
  {
    StateRefReads(lib, env, "url", None);
    PairEvaluates(lib, env, Ref(StateRef("url"), None), LitStr(path));
    PairConcatenates(lib, url, path);
  }

  /** What the one request of a page brings back: the session with the reply bound. */
  function Landed(w: World, se: Session, call: Call, body: Rt): Session {
    var after := Exchanged(w, Unbound(IterationStart(se)), call);
    after.(env := after.env.(body := body, headers := map[]))
  }

  function PlainIteration(body: Rt, events: Option<seq<Rt>>): Iteration {
    Iteration(Accepted, body, map[], events)
  }

  predicate PlainDoc(doc: Doc, url: Value, query: map<string, Value>, expected: seq<int>, field: string) {
    doc.requests == [PlainRequest(url, query, expected, field)] && doc.auth == ApiKey()
  }

  lemma PlainExchange(w: World, doc: Doc, se: Session, url: Value, query: map<string, Value>, expected: seq<int>,
                      field: string, call: Call, body: Rt, step: int, base: string, key: string)
    requires PlainDoc(doc, url, query, expected, field) && Configured(se.env, step, base, key)
    requires BuildCall(w.lib, se.env, 0, doc.requests[0]) == Ok(call)
    requires w.reply(se.wire + [call]) == Reply(200, map[], Some(body)) && StatusExpected(expected, 200)
    ensures var after := Exchanged(w, se, call);
      Requested(w, doc, se, 0, doc.requests[0]) ==
        (after.(env := after.env.(body := body, headers := map[])), StepOk(map[], body))
  {
    StateRefReads(w.lib, se.env, "api_key", None);
    assert AuthApplied(w, se, doc.auth) == (se, true);
    assert Executed(w, se, 0, doc.requests[0], doc.auth) == (Exchanged(w, se, call), Got(map[], body));
  }

  lemma PlainConclusion(doc: Doc, env: Env, url: Value, query: map<string, Value>, expected: seq<int>, field: string,
                        body: Rt, events: Option<seq<Rt>>)
    requires PlainDoc(doc, url, query, expected, field) && LocateEvents(body, [field], false) == Ok(events)
    ensures Concluded(doc, env, Chain(Accepted, body, map[], true)) == PlainIteration(body, events)
  {
    assert BodyAt(field).parts[2..] == [field];
  }

  /** One page of such a document: its request succeeds, and the page is finished with its events. */
  lemma PlainPage(w: World, doc: Doc, se: Session, sunk: seq<Rt>, url: Value, query: map<string, Value>,
                  expected: seq<int>, field: string, call: Call, body: Rt, events: Option<seq<Rt>>,
                  step: int, base: string, key: string)
    requires PlainDoc(doc, url, query, expected, field) && Configured(se.env, step, base, key)
    requires BuildCall(w.lib, Unbound(IterationStart(se)).env, 0, doc.requests[0]) == Ok(call)
    requires w.reply(se.wire + [call]) == Reply(200, map[], Some(body)) && StatusExpected(expected, 200)
    requires LocateEvents(body, [field], false) == Ok(events)
    ensures var chained := Landed(w, se, call, body);
      PageDone(w, doc, se, sunk) ==
        PageFinished(w, doc, chained, PlainIteration(body, events), sunk,
                     Blank(se, chained, Accepted, sunk))
  {
    var start := IterationStart(se);
    var chain := Chain(Accepted, Nil, map[], false);
    PlainExchange(w, doc, Unbound(start), url, query, expected, field, call, body, step, base, key);
    var chained := Landed(w, se, call, body);
    assert RequestStepDone(w, doc, Unbound(start), 0, chain) == (chained, Next(Chain(Accepted, body, map[], true)));
    assert ChainDone(w, doc, start, 0, chain) == (chained, Next(Chain(Accepted, body, map[], true)));
    PlainConclusion(doc, chained.env, url, query, expected, field, body, events);
    PageParts(w, doc, se, sunk);
  }

  // ---- the world of a test server ----

  /** The wire ends at the handler, the sink takes everything and the URL is well formed. */
  ghost predicate ServedBy(w: World, h: Handler, opts: Options, url: string) {
    && (forall calls: seq<Call> :: w.reply(calls) == Answered(h, opts, calls).1)
    && (forall sunk: seq<Rt> :: w.takes(sunk))
    && w.lib.urlParses(url)
  }

  lemma AllOffered(w: World, sunk: seq<Rt>, events: seq<Rt>)
    requires forall s: seq<Rt> :: w.takes(s)
    ensures Offered(w, sunk, events) == (sunk + events, true)
  {
    OfferedMeaning(w, sunk, events);
  }

  /** With such a sink an accepted page is settled with all its events delivered. */
  lemma AcceptedPage(w: World, doc: Doc, chained: Session, it: Iteration, sunk: seq<Rt>, blank: Page)
    requires (forall s: seq<Rt> :: w.takes(s)) && it.kind == Accepted
    ensures var bound := BindPage(chained, it);
      PageFinished(w, doc, chained, it, sunk, blank) ==
        Settled(w, doc, bound, blank.(after := bound, events := EventList(it), sunk := sunk + EventList(it)))
  {
    AllOffered(w, sunk, EventList(it));
  }

  /** A call goes out when the URL parses and every parameter has a value. */
  lemma CallBuilds(lib: Lib, env: Env, step: int, base: string, key: string, path: string, query: map<string, Value>,
                   expected: seq<int>, field: string)
    requires Configured(env, step, base, key) && lib.urlParses(base + path)
    requires forall k | k in query :: EvalValue(lib, env, query[k]).Ok? && EvalValue(lib, env, query[k]).value != Nil
    ensures var call := BuildCall(lib, env, 0, PlainRequest(UrlOf(path), query, expected, field));
      && call.Ok? && call.value.Fetch?
      && call.value.url == base + path && call.value.query.Keys == query.Keys
      && forall k | k in query :: Get(call.value.query, k) == ToString(lib, EvalValue(lib, env, query[k]).value)
  {
    UrlEvaluates(lib, env, step, base, key, path);
    assert EvalStrings(lib, env, map[], false) == Ok(map[]);
  }

  /** One turn of the page loop that gets past its two guards. */
  lemma OneTurn(pager: Pager, cap: int, se: Session, pages: nat, sunk: seq<Rt>)
    requires Winding(pager) && 0 < se.checks && !(0 < cap <= pages)
    ensures var page := pager(se.(checks := se.checks - 1), sunk);
      Looped(pager, cap, se, pages, sunk) ==
        match page.exit
        case Some(exit) => Run(page.after, exit, page.sunk, [page])
        case None =>
          var rest := Looped(pager, cap, page.after, pages + 1, page.sunk);
          rest.(ledger := [page] + rest.ledger)
  {
  }

  /** The events of one page. */
  function Chunk(all: seq<Rt>, offset: nat, size: nat): seq<Rt>
    requires offset <= |all|
  {
    all[offset..if offset + size < |all| then offset + size else |all|]
  }

  function JsonList(list: seq<Rt>): Rt {
    if list == [] then Nil else Arr(list)
  }

  lemma SliceIsChunk(all: seq<Rt>, offset: nat, size: nat)
    requires offset <= |all| && 0 < size && offset + size <= INT64_MAX
    ensures Sliced(all, offset, size) == Some(JsonList(Chunk(all, offset, size)))
  {
  }

  lemma DecimalsDecode(n: nat)
    requires n <= INT64_MAX
    ensures PositiveParam(IntToString(n), 0) == n && (IntToString(n) == "0" <==> n == 0) && IntToString(n) != ""
    ensures 0 < n ==> forall other :: PositiveParam(IntToString(n), other) == n
  {
    ParseIntToString(n);
    ParseIntToString(0);
    assert Digits(0) == "0";
  }

  lemma Located(list: seq<Rt>, body: Rt, field: string)
    requires body.Obj? && field in body.fields && body.fields[field] == JsonList(list)
    ensures LocateEvents(body, [field], false) == Ok(if list == [] then None else Some(list))
  {
    assert [field][1..] == [];
    assert LookupBody(body, [field]) == Some(JsonList(list));
  }

  /** The session of a page once its events are bound. */
  function Bound(w: World, se: Session, call: Call, body: Rt, list: seq<Rt>): Session {
    BindPage(Landed(w, se, call, body), PlainIteration(body, if list == [] then None else Some(list)))
  }

  lemma BoundFacts(w: World, se: Session, call: Call, body: Rt, list: seq<Rt>)
    ensures var r := Bound(w, se, call, body, list);
      && r.wire == se.wire + [call] && r.checks == se.checks
      && r.env.state == se.env.state && r.env.alias == se.env.alias
      && r.env.body == body && r.env.events == JsonList(list)
  {
  }

  /** A page that has delivered its events and is about to settle. */
  function Delivered(w: World, se: Session, sunk: seq<Rt>, call: Call, body: Rt, list: seq<Rt>): Page {
    Blank(se, Landed(w, se, call, body), Accepted, sunk).(after := Bound(w, se, call, body, list), events := list,
                                                          sunk := sunk + list)
  }

  lemma PlainPageSettles(w: World, doc: Doc, se: Session, sunk: seq<Rt>, url: Value, query: map<string, Value>,
                         expected: seq<int>, field: string, call: Call, body: Rt, list: seq<Rt>,
                         step: int, base: string, key: string)
    requires PlainDoc(doc, url, query, expected, field) && Configured(se.env, step, base, key)
    requires BuildCall(w.lib, Unbound(IterationStart(se)).env, 0, doc.requests[0]) == Ok(call)
    requires w.reply(se.wire + [call]) == Reply(200, map[], Some(body)) && StatusExpected(expected, 200)
    requires body.Obj? && field in body.fields && body.fields[field] == JsonList(list)
    requires forall s: seq<Rt> :: w.takes(s)
    ensures PageDone(w, doc, se, sunk) ==
      Settled(w, doc, Bound(w, se, call, body, list), Delivered(w, se, sunk, call, body, list))
  {
    var events := if list == [] then None else Some(list);
    var chained := Landed(w, se, call, body);
    Located(list, body, field);
    PlainPage(w, doc, se, sunk, url, query, expected, field, call, body, events, step, base, key);
    AcceptedPage(w, doc, chained, PlainIteration(body, events), sunk, Blank(se, chained, Accepted, sunk));
  }

  /** How a page settled: the state it left and whether it was the last one. */
  ghost predicate Turned(bound: Session, page: Page, sunk: seq<Rt>, last: bool, state: Bindings) {
    page.sunk == sunk && page.after == WithState(bound, state) && page.exit == (if last then Some(Finished) else None)
  }

  // ---- runs that cover a list ----

  /** The pages from here on: the last one is the first that has fewer than `size + slack` events left. */
  function PagesFrom(left: nat, size: nat, slack: nat): (r: nat)
    requires 0 < size
    ensures 0 < r
  {
    if left < size + slack then 1 else PagesFrom(left - size, size, slack) + 1
  }

  /** A session that is about to fetch the page at an offset. */
  type Readiness = (Env, seq<Call>, nat) -> bool

  /** Whether a call asks for the page at an offset. */
  type Asking = (Call, nat) -> bool

  /** The calls ask for the pages at these offsets, one after the other. */
  predicate AsksInTurn(asks: Asking, calls: seq<Call>, offset: nat, size: nat) {
    calls == [] || (asks(calls[0], offset) && AsksInTurn(asks, calls[1..], offset + size, size))
  }

  /** What the page at `offset` must bring about. */
  ghost predicate ChunkStep(ready: Readiness, asks: Asking, all: seq<Rt>, se: Session, sunk: seq<Rt>, page: Page,
                            offset: nat, size: nat, slack: nat)
    requires offset <= |all|
  {
    && page.sunk == sunk + Chunk(all, offset, size)
    && |page.after.wire| == |se.wire| + 1 && page.after.checks == se.checks
    && se.wire == page.after.wire[..|se.wire|] && asks(page.after.wire[|se.wire|], offset)
    && page.exit == (if |all| - offset < size + slack then Some(Finished) else None)
    && (page.exit == None ==> ready(page.after.env, page.after.wire, offset + size))
  }

  ghost predicate PageCovers(ready: Readiness, asks: Asking, all: seq<Rt>, pager: Pager, b: Session, s: seq<Rt>,
                             offset: nat, size: nat, slack: nat) {
    ready(b.env, b.wire, offset) ==>
      offset <= |all| && ChunkStep(ready, asks, all, b, s, pager(b, s), offset, size, slack)
  }

  ghost predicate Covering(ready: Readiness, asks: Asking, all: seq<Rt>, pager: Pager, size: nat, slack: nat) {
    forall b: Session, s: seq<Rt>, offset: nat :: PageCovers(ready, asks, all, pager, b, s, offset, size, slack)
  }

  /** The run emitted the whole list in that many requests, the calls asking for the pages in turn. */
  ghost predicate FetchedAll(asks: Asking, all: seq<Rt>, se: Session, run: Run, requests: nat, size: nat) {
    run.sunk == all && Fetched(asks, se, run, requests, 0, size)
  }

  ghost predicate Fetched(asks: Asking, se: Session, run: Run, requests: nat, offset: nat, size: nat) {
    && run.exit == Finished && |run.ledger| == requests
    && |run.session.wire| == |se.wire| + requests && se.wire == run.session.wire[..|se.wire|]
    && AsksInTurn(asks, run.session.wire[|se.wire|..], offset, size)
  }

  /** The first call in front of the calls of the rest of the run. */
  lemma AsksFirst(asks: Asking, before: seq<Call>, between: seq<Call>, wire: seq<Call>, offset: nat, size: nat)
    requires |between| == |before| + 1 && between[..|before|] == before && asks(between[|before|], offset)
    requires |between| <= |wire| && wire[..|between|] == between
    requires AsksInTurn(asks, wire[|between|..], offset + size, size)
    ensures before == wire[..|before|] && AsksInTurn(asks, wire[|before|..], offset, size)
  {
    assert wire[..|before|] == between[..|before|];
    assert wire[|before|..][0] == wire[..|between|][|before|] == between[|before|];
    assert wire[|before|..][1..] == wire[|between|..];
  }

  lemma ChunkExtends(all: seq<Rt>, offset: nat, size: nat)
    requires offset <= |all|
    ensures all[..offset] + Chunk(all, offset, size) == if offset + size < |all| then all[..offset + size] else all
  {
  }

  lemma {:induction false} RunsCover(ready: Readiness, asks: Asking, all: seq<Rt>, pager: Pager, cap: int,
                                     se: Session, pages: nat, sunk: seq<Rt>, offset: nat, size: nat, slack: nat)
    requires Winding(pager) && Covering(ready, asks, all, pager, size, slack) && 0 < size && slack <= 1
    requires ready(se.env, se.wire, offset) && offset <= |all| && sunk == all[..offset]
    requires var left := PagesFrom(|all| - offset, size, slack);
      left <= se.checks && (cap <= 0 || pages + left <= cap)
    ensures var run := Looped(pager, cap, se, pages, sunk);
      run.sunk == all && Fetched(asks, se, run, PagesFrom(|all| - offset, size, slack), offset, size)
    decreases |all| - offset
  {
    var live := se.(checks := se.checks - 1);
    var page := pager(live, sunk);
    assert PageCovers(ready, asks, all, pager, live, sunk, offset, size, slack);
    ChunkExtends(all, offset, size);
    OneTurn(pager, cap, se, pages, sunk);
    if page.exit == None {
      RunsCover(ready, asks, all, pager, cap, page.after, pages + 1, page.sunk, offset + size, size, slack);
      var rest := Looped(pager, cap, page.after, pages + 1, page.sunk);
      AsksFirst(asks, se.wire, page.after.wire, rest.session.wire, offset, size);
    } else {
      assert page.after.wire[|page.after.wire|..] == [];
      AsksFirst(asks, se.wire, page.after.wire, page.after.wire, offset, size);
    }
  }

  lemma LoopCovers(w: World, doc: Doc, ready: Readiness, asks: Asking, all: seq<Rt>, cap: int, se: Session, size: nat,
                   slack: nat)
    requires Winding(PagerOf(w, doc)) && Covering(ready, asks, all, PagerOf(w, doc), size, slack)
    requires 0 < size && slack <= 1 && ready(se.env, se.wire, 0)
    requires PagesFrom(|all|, size, slack) <= se.checks && (cap <= 0 || PagesFrom(|all|, size, slack) <= cap)
    ensures FetchedAll(asks, all, se, PageLoop(w, doc, cap, se), PagesFrom(|all|, size, slack), size)
  {
    assert all[..0] == [];
    RunsCover(ready, asks, all, PagerOf(w, doc), cap, se, 0, [], 0, size, slack);
  }

  lemma ProductsGrow(a: int, b: int, d: nat)
    ensures a <= b ==> a * d <= b * d
  {
  }

  lemma QuotientIs(n: nat, d: nat, q: nat)
    requires 0 < d && q * d <= n < q * d + d
    ensures n / d == q
  {
    var p := n / d;
    assert n == p * d + n % d;
    ProductsGrow(p + 1, q, d);
    ProductsGrow(q + 1, p, d);
    assert (p + 1) * d == p * d + d && (q + 1) * d == q * d + d;
  }

  lemma QuotientSteps(n: nat, d: nat)
    requires 0 < d <= n
    ensures n / d == (n - d) / d + 1
  {
    var q := (n - d) / d;
    assert n - d == q * d + (n - d) % d;
    assert (q + 1) * d == q * d + d;
    QuotientIs(n, d, q + 1);
  }

  /** The events the server will have for the next drain. */
  function NextDrain(h: Handler, opts: Options, wire: seq<Call>): seq<Rt> {
    Replenished(opts, Answered(h, opts, wire).0, opts.now(|wire|)).events
  }

  /** The context and the page cap leave room for that many pages. */
  predicate RoomFor(loaded: Session, maxPages: int, pages: nat) {
    pages <= loaded.checks && (PageCap(maxPages) <= 0 || pages <= PageCap(maxPages))
  }
}
