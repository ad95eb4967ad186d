/** Where the stores do not pay for the retries: a leading fan-out that invalidates retries for nothing
    (client/fanout.go, client/runner.go). */
module FreeRetries {
  import opened Syntax
  import opened Runtime
  import opened Scopes
  import opened Eval
  import opened Session
  import opened Caching
  import opened Requests
  import opened FanOuts
  import opened Drains
  import opened Frames
  import opened Retries

  /** The credentials are static and evaluate. */
  predicate AuthReady(lib: Lib, env: Env, auth: Auth) {
    match auth
    case Plain(credentials) => EvalAll(lib, env, credentials).Ok?
    case Bearer(token) => EvalValue(lib, env, token).Ok? && EvalValue(lib, env, token).value != Nil
    case _ => false
  }

  /** The scope of the first item of a fan-out. */
  function ItemEnv(env: Env, f: FanOut, items: seq<Rt>): Env
    requires items != []
  {
    env.(alias := f.alias, item := items[0])
  }

  /** The document starts with an ungated fan-out that has an item and whose call can be built, from the scope
      an iteration starts with. */
  predicate Leads(lib: Lib, doc: Doc, env: Env) {
    && doc.requests != [] && doc.requests[0].gate.None? && doc.requests[0].fanOut.Some?
    && var f := doc.requests[0].fanOut.value;
       var items := FanOutItems(lib, env, f.over);
       && items.Some? && items.value != []
       && BuildCall(lib, ItemEnv(env, f, items.value), 0, doc.requests[0]).Ok?
       && AuthReady(lib, ItemEnv(env, f, items.value), doc.auth)
  }

  function OneStatus(status: int): seq<Call> -> Reply {
    (calls: seq<Call>) => Reply(status, map[], None)
  }

  function Standing(now: int): nat -> int {
    (n: nat) => now
  }

  function Willing(sunk: seq<Rt>): bool {
    true
  }

  /** A server that gives every call the same status, and a clock that stands still. */
  function Refusing(lib: Lib, status: int, now: int): World {
    World(lib, OneStatus(status), Standing(now), Willing, true, true)
  }

  /** A session at the start of an iteration, with an empty cache, whose clock shows what the world says. */
  predicate Poised(lib: Lib, doc: Doc, env: Env, se: Session) {
    IterationStart(se).env == env && env.cache == map[] && Leads(lib, doc, env)
  }

  lemma LeadAuth(w: World, se: Session, auth: Auth)
    requires AuthReady(w.lib, se.env, auth)
    ensures AuthApplied(w, se, auth) == (se, true)
  {
  }

  /** The first item is rejected and ends the fan-out. */
  lemma LeadItem(w: World, doc: Doc, se: Session, status: int)
    requires w == Refusing(w.lib, status, se.env.now) && se.env.cache == map[]
    requires doc.requests != [] && InvalidatesOn(doc.requests[0], status)
    requires BuildCall(w.lib, se.env, 0, doc.requests[0]).Ok? && AuthReady(w.lib, se.env, doc.auth)
    ensures var (after, verdict) := ItemDone(w, doc, se, 0, doc.requests[0]);
      verdict == EndInvalid && after.env == se.env && after.stored == se.stored && after.checks == se.checks
  {
    var req := doc.requests[0];
    var call := BuildCall(w.lib, se.env, 0, req).value;
    LeadAuth(w, se, doc.auth);
    var after := Exchanged(w, se, call);
    assert Received(w, after, req, w.reply(after.wire)) == (after, Rejected(status));
    assert Executed(w, se, 0, req, doc.auth) == (after, Rejected(status));
    assert after.env == se.env && Invalidate(after, doc).env.cache == map[];
  }

  lemma LeadFanOut(w: World, doc: Doc, se: Session, status: int)
    requires w == Refusing(w.lib, status, se.env.now) && se.env.cache == map[] && Leads(w.lib, doc, se.env)
    requires InvalidatesOn(doc.requests[0], status)
    ensures var (after, result) := FannedOut(w, doc, se, 0, doc.requests[0], doc.requests[0].fanOut.value);
      result == FanInvalidated && after.env == se.env && after.stored == se.stored && after.checks == se.checks
  {
    var req := doc.requests[0];
    var f := req.fanOut.value;
    var items := FanOutItems(w.lib, se.env, f.over).value;
    var start := se.(env := se.env.(alias := f.alias));
    LeadItem(w, doc, WithItem(start, items[0]), status);
    var verdicts := ItemsDone(w, doc, start, 0, req, items).1;
    assert verdicts == [EndInvalid];
    assert KeptBodies([EndInvalid][1..]) == [] && KeptBodies(verdicts) == [];
  }

  /** The page is invalidated, nothing was stored, and the next iteration starts from the same scope. */
  lemma LeadPage(w: World, doc: Doc, env: Env, se: Session, sunk: seq<Rt>, status: int)
    requires w == Refusing(w.lib, status, env.now) && Poised(w.lib, doc, env, se)
    requires InvalidatesOn(doc.requests[0], status)
    ensures var page := PageDone(w, doc, se, sunk);
      && page.kind == Invalidated && page.exit == None && page.sunk == sunk
      && page.after.stored == se.stored && page.after.checks == se.checks && Poised(w.lib, doc, env, page.after)
  {
    var start := IterationStart(se);
    var chain := Chain(Accepted, Nil, map[], false);
    assert Unbound(start) == start;
    LeadFanOut(w, doc, start, status);
    var after := FannedOut(w, doc, start, 0, doc.requests[0], doc.requests[0].fanOut.value).0;
    assert StepDone(w, doc, start, 0, chain) == (after, EndWith(Invalidated));
    ChainUnfolds(w, doc, start, 0, chain);
    PageParts(w, doc, se, sunk);
  }

  /** From every ready session a page is invalidated for nothing, and leaves a ready session. */
  ghost predicate Freely(ready: Session -> bool, pager: Pager) {
    && (forall b: Session, n: nat :: ready(b) ==> ready(b.(checks := n)))
    && (forall b: Session, s: seq<Rt> :: ready(b) ==> FreePage(b, s, pager(b, s)) && ready(pager(b, s).after))
  }

  predicate FreePage(b: Session, sunk: seq<Rt>, page: Page) {
    && page.kind == Invalidated && page.exit == None && page.sunk == sunk
    && page.after.stored == b.stored && page.after.checks == b.checks
  }

  /** How many pages a drain can start that never leaves by itself. */
  function PagesToCome(cap: int, checks: nat, pages: nat): nat {
    if cap <= 0 || checks <= cap - pages then checks else if pages <= cap then cap - pages else 0
  }

  lemma {:induction false} RunsForFree(ready: Session -> bool, pager: Pager, cap: int, se: Session, pages: nat,
                                       sunk: seq<Rt>)
    requires Winding(pager) && Freely(ready, pager) && ready(se) && (cap <= 0 || pages <= cap)
    ensures var r := Looped(pager, cap, se, pages, sunk);
      Invalidations(r.ledger) == PagesToCome(cap, se.checks, pages) && r.session.stored == se.stored
    decreases se.checks
  {
    if se.checks > 0 && !(0 < cap <= pages) {
      var live := se.(checks := se.checks - 1);
      var page := pager(live, sunk);
      assert ready(live) && FreePage(live, sunk, pager(live, sunk));
      RunsForFree(ready, pager, cap, page.after, pages + 1, page.sunk);
      var rest := Looped(pager, cap, page.after, pages + 1, page.sunk);
      assert ([page] + rest.ledger)[1..] == rest.ledger;
    }
  }

  /** Against that server a drain of such a document retries until its context dies or its pages run out, and
      never stores anything. */
  lemma FanOutsRetryForFree(lib: Lib, doc: Doc, cap: int, se: Session, status: int)
    requires Leads(lib, doc, IterationStart(se).env) && se.env.cache == map[] && InvalidatesOn(doc.requests[0], status)
    ensures var r := PageLoop(Refusing(lib, status, se.env.now), doc, cap, se);
      Invalidations(r.ledger) == PagesToCome(cap, se.checks, 0) && r.session.stored == se.stored
  {
    var w, env := Refusing(lib, status, se.env.now), IterationStart(se).env;
    PagesWind(w, doc);
    var ready := (b: Session) => Poised(lib, doc, env, b);
    forall b: Session, s: seq<Rt>
      ensures ready(b) ==> FreePage(b, s, PagerOf(w, doc)(b, s)) && ready(PagerOf(w, doc)(b, s).after)
    {
      if ready(b) {
        LeadPage(w, doc, env, b, s, status);
      }
    }
    RunsForFree(ready, PagerOf(w, doc), cap, se, 0, []);
  }

  ghost predicate StoresPay(w: World, doc: Doc, cap: int, se: Session) {
    var r := PageLoop(w, doc, cap, se);
    Invalidations(r.ledger) + |se.stored| <= |r.session.stored|
  }

  /** The other fan-outs of the document do not invalidate. */
  predicate OnlyFirstInvalidates(doc: Doc) {
    forall i | 0 < i < |doc.requests| && doc.requests[i].fanOut.Some? :: !Invalidates(doc.requests[i])
  }

  /** For documents that start with such a fan-out: the stores pay for the retries in every world exactly when
      the fan-out maps no status that it does not expect to an invalidation. */
  lemma StoresPayExactly(lib: Lib, doc: Doc, cap: int, se: Session)
    requires Leads(lib, doc, IterationStart(se).env) && OnlyFirstInvalidates(doc)
    requires se.env.cache == map[] && se.checks > 0
    ensures (forall w: World | w.lib == lib :: StoresPay(w, doc, cap, se)) <==> NoFreeInvalidation(doc)
  {
    if NoFreeInvalidation(doc) {
      forall w: World | w.lib == lib ensures StoresPay(w, doc, cap, se) {
        StoresPayForRetries(w, doc, cap, se);
      }
    } else {
      assert Invalidates(doc.requests[0]);
      var status :| status in doc.requests[0].onStatus && InvalidatesOn(doc.requests[0], status);
      FanOutsRetryForFree(lib, doc, cap, se, status);
      assert !StoresPay(Refusing(lib, status, se.env.now), doc, cap, se);
    }
  }

  // ---- a member of the class ----

  /** What the validator asks of the request list: ids are unique, exactly one request produces the events, and
      none both caches and fans out. */
  predicate RequestListOk(requests: seq<Request>) {
    && requests != []
    && (forall i, j | 0 <= i < j < |requests| && requests[i].id != "" :: requests[i].id != requests[j].id)
    && (exists i | 0 <= i < |requests| ::
          requests[i].eventsAt.Some? && forall j | 0 <= j < |requests| && j != i :: requests[j].eventsAt.None?)
    && (forall r | r in requests :: r.cache.None? || r.fanOut.None?)
  }

  function PlainRequest(id: string): Request {
    Request(id, LitStr("u"), map[], map[], false, [], None, [], None, None, map[], None, None)
  }

  /** The producer fans out over one item and drops the caches on 500; the other step caches its response. */
  function SampleDoc(): Doc {
    var producer := PlainRequest("pull").(
      fanOut := Some(FanOut(List([LitInt(1)]), "it", Flatten)), onStatus := map[500 := InvalidateCache],
      eventsAt := Some(Path(["response", "body"], false)));
    var lookup := PlainRequest("lookup").(cache := Some(Cache(Path(["cache", "page"], false), LitInt(60), "0s")));
    Doc(map[], Plain([]), [producer, lookup], NoPagination, [], Standard)
  }

  lemma SampleSlots()
    ensures RequestListOk(SampleDoc().requests) && "page" in Reachable(SampleDoc())
  {
    var requests := SampleDoc().requests;
    assert requests[0].eventsAt.Some? && requests[1].eventsAt.None?;
    assert CacheSlot(requests[1].cache.value.to) == Some("page") && SlotSet(requests[1].cache) == {"page"};
    assert requests[1] in requests && "page" in RequestSlots(requests);
  }

  lemma SampleLeads(lib: Lib, env: Env)
    requires lib.urlParses("u")
    ensures Leads(lib, SampleDoc(), env) && OnlyFirstInvalidates(SampleDoc()) && !NoFreeInvalidation(SampleDoc())
    ensures RequestListOk(SampleDoc().requests) && "page" in Reachable(SampleDoc())
  {
    var producer := SampleDoc().requests[0];
    OneEvaluates(lib, env, LitInt(1));
    assert FanOutItems(lib, env, producer.fanOut.value.over) == Some([Int(1)]);
    assert InvalidatesOn(producer, 500) && Invalidates(producer);
    assert producer in SampleDoc().requests;
    SampleSlots();
  }
}
