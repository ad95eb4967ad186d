/** Invalidations and the cache over whole drains: what every step does to the cache and its logs, and how
    often a drain can retry a page (client/runner.go, client/cache.go, client/fanout.go). */
module Retries {
  import opened Syntax
  import opened Runtime
  import opened Scopes
  import opened Session
  import opened Writes
  import opened Caching
  import opened CacheLog
  import opened Requests
  import opened FanOuts
  import opened Drains
  import opened Frames
  import opened Ledger

  // ---- exchanges ----

  lemma StoreIfAskedGrows(slots: set<string>, lib: Lib, se: Session, cache: Option<Cache>, bound: Rt, value: Rt)
    requires SlotSet(cache) <= slots
    ensures var r := StoreIfAsked(lib, se, cache, bound, value); r.Ok? ==> Grows(slots, se, r.value)
  {
    match cache {
      case None => GrowsStill(slots, se, se);
      case Some(c) => StoreGrows(slots, lib, se, c, bound, value);
    }
  }

  lemma TokenGrows(slots: set<string>, w: World, se: Session, grant: Grant)
    requires SlotSet(grant.cache) <= slots
    ensures Grows(slots, se, Authorized(w, se, grant).0)
  {
    if CachedToken(w.lib, se.env, grant.cache) {
      HitGrows(slots, w.lib, se, grant.cache.value);
    } else {
      match TokenCall(w.lib, se.env, grant) {
        case Err => GrowsStill(slots, se, se);
        case Ok(call) => FetchGrows(slots, w, se, grant, call);
      }
    }
  }

  lemma FetchGrows(slots: set<string>, w: World, se: Session, grant: Grant, call: Call)
    requires SlotSet(grant.cache) <= slots && !CachedToken(w.lib, se.env, grant.cache)
    requires TokenCall(w.lib, se.env, grant) == Ok(call)
    ensures Grows(slots, se, Authorized(w, se, grant).0)
  {
    var after := Exchanged(w, se, call);
    GrowsStill(slots, se, after);
    match AccessToken(w.reply(after.wire)) {
      case None =>
      case Some((tok, body)) =>
        StoreIfAskedGrows(slots, w.lib, after, grant.cache, body, Str(tok));
        var kept := StoreIfAsked(w.lib, after, grant.cache, body, Str(tok));
        if kept.Ok? {
          GrowsTrans(slots, se, after, kept.value);
        }
    }
  }

  lemma {:induction false} AuthGrows(slots: set<string>, w: World, se: Session, auth: Auth)
    requires AuthSlots(auth) <= slots
    ensures Grows(slots, se, AuthApplied(w, se, auth).0)
    decreases auth, 1
  {
    match auth {
      case OAuth2(grant) => TokenGrows(slots, w, se, grant);
      case MultiMode(branches, otherwise) =>
        BranchesGrow(slots, w, se, branches);
        AuthGrows(slots, w, se, otherwise);
      case Plain(_) => GrowsStill(slots, se, se);
      case Bearer(_) => GrowsStill(slots, se, se);
    }
  }

  lemma {:induction false} BranchesGrow(slots: set<string>, w: World, se: Session, branches: seq<AuthBranch>)
    requires BranchSlots(branches) <= slots
    ensures var r := BranchApplied(w, se, branches); r.Some? ==> Grows(slots, se, r.value.0)
    decreases branches, 0
  {
    if branches != [] {
      ArmGrows(slots, w, se, branches[0]);
      BranchesGrow(slots, w, se, branches[1..]);
    }
  }

  lemma {:induction false} ArmGrows(slots: set<string>, w: World, se: Session, b: AuthBranch)
    requires ArmSlots(b) <= slots
    ensures var r := ArmApplied(w, se, b); r.Some? ==> Grows(slots, se, r.value.0)
    decreases b, 1
  {
    AuthGrows(slots, w, se, b.auth);
    GrowsStill(slots, se, se);
  }

  lemma ReceivedGrows(slots: set<string>, w: World, se: Session, req: Request, reply: Reply)
    requires SlotSet(req.cache) <= slots
    ensures Grows(slots, se, Received(w, se, req, reply).0)
  {
    GrowsStill(slots, se, se);
    if reply.Reply? && reply.body.Some? {
      StoreIfAskedGrows(slots, w.lib, se, req.cache, reply.body.value, reply.body.value);
    }
  }

  lemma FiredOffGrows(w: World, doc: Doc, se: Session, req: Request, call: Call)
    requires req in doc.requests
    ensures var (ready, ok) := AuthApplied(w, se, doc.auth); var after := Exchanged(w, ready, call);
      && Grows(Reachable(doc), se, ready)
      && Grows(Reachable(doc), se, Received(w, after, req, w.reply(after.wire)).0)
  {
    var slots := Reachable(doc);
    AuthGrows(slots, w, se, doc.auth);
    var ready := AuthApplied(w, se, doc.auth).0;
    var after := Exchanged(w, ready, call);
    GrowsStill(slots, ready, after);
    GrowsTrans(slots, se, ready, after);
    ReceivedGrows(slots, w, after, req, w.reply(after.wire));
    GrowsTrans(slots, se, after, Received(w, after, req, w.reply(after.wire)).0);
  }

  lemma ExecutedGrows(w: World, doc: Doc, se: Session, step: nat, req: Request)
    requires req in doc.requests
    ensures Grows(Reachable(doc), se, Executed(w, se, step, req, doc.auth).0)
  {
    match CacheHit(w.lib, se.env, req.cache) {
      case Some(_) => HitGrows(Reachable(doc), w.lib, se, req.cache.value);
      case None =>
        match BuildCall(w.lib, se.env, step, req) {
          case Err => GrowsStill(Reachable(doc), se, se);
          case Ok(call) => FiredOffGrows(w, doc, se, req, call);
        }
    }
  }

  // ---- what a retry costs ----

  predicate Holds(slots: set<string>, se: Session) {
    slots * se.env.cache.Keys != {}
  }

  /** A retry leaves no slot behind, and there was one before it or a store since. */
  predicate Retried(slots: set<string>, a: Session, b: Session) {
    !Holds(slots, b) && (Holds(slots, a) || |a.stored| < |b.stored|)
  }

  ghost predicate Moves(slots: set<string>, a: Session, b: Session, retry: bool) {
    Grows(slots, a, b) && (retry ==> Retried(slots, a, b))
  }

  lemma MovesAfter(slots: set<string>, a: Session, b: Session, c: Session, retry: bool)
    requires Grows(slots, a, b) && Moves(slots, b, c, retry)
    ensures Moves(slots, a, c, retry)
  {
    GrowsTrans(slots, a, b, c);
    HeldBecauseStored(slots, a, b);
  }

  /** Slots appear in the cache only by a store. */
  lemma HeldBecauseStored(slots: set<string>, a: Session, b: Session)
    requires Grows(slots, a, b)
    ensures Holds(slots, b) ==> Holds(slots, a) || |a.stored| < |b.stored|
  {
    if Holds(slots, b) && |a.stored| == |b.stored| {
      var s :| s in slots * b.env.cache.Keys;
      assert b.stored[|a.stored|..] == [];
      assert Explained(a.env.cache, [], b.env.cache, s);
      assert s in slots * a.env.cache.Keys;
    }
  }

  lemma WipeMoves(doc: Doc, se: Session, retry: bool)
    requires retry ==> Holds(Reachable(doc), se)
    ensures Moves(Reachable(doc), se, Invalidate(se, doc), retry) && !Holds(Reachable(doc), Invalidate(se, doc))
  {
    WipeGrows(doc, se);
  }

  lemma DispatchMoves(doc: Doc, se: Session, req: Request, ex: Exchange)
    requires !ex.Got?
    ensures var (after, status) := Dispatched(doc, se, req, ex);
      Moves(Reachable(doc), se, after, status.StepInvalidate?)
  {
    WipeMoves(doc, se, Holds(Reachable(doc), se));
    GrowsStill(Reachable(doc), se, se);
  }

  lemma FiredMoves(w: World, doc: Doc, se: Session, step: nat, req: Request)
    requires req in doc.requests
    ensures var (after, status) := Fired(w, doc, se, step, req);
      Moves(Reachable(doc), se, after, status == Some(StepInvalidate))
  {
    var (after, ex) := Executed(w, se, step, req, doc.auth);
    var (end, status) := Fired(w, doc, se, step, req);
    ExecutedGrows(w, doc, se, step, req);
    FiredParts(w, doc, se, step, req);
    if ex.Got? {
      GrowsStill(Reachable(doc), after, end);
    } else {
      DispatchMoves(doc, after, req, ex);
    }
    MovesAfter(Reachable(doc), se, after, end, status == Some(StepInvalidate));
  }

  lemma {:induction false} RequestedMoves(w: World, doc: Doc, se: Session, step: nat, req: Request)
    requires req in doc.requests
    ensures var (after, status) := Requested(w, doc, se, step, req);
      Moves(Reachable(doc), se, after, status.StepInvalidate?)
    decreases se.checks
  {
    FiredMoves(w, doc, se, step, req);
    var (seen, status) := Fired(w, doc, se, step, req);
    if status.None? && seen.checks > 0 {
      var next := seen.(checks := seen.checks - 1);
      RequestedMoves(w, doc, next, step, req);
      GrowsStill(Reachable(doc), seen, next);
      GrowsTrans(Reachable(doc), se, seen, next);
      var (end, last) := Requested(w, doc, next, step, req);
      MovesAfter(Reachable(doc), se, next, end, last.StepInvalidate?);
    }
  }

  // ---- fan-outs ----

  /** A status that the request does not expect is mapped to an invalidation. */
  predicate InvalidatesOn(req: Request, status: int) {
    status in req.onStatus && req.onStatus[status] == InvalidateCache && !StatusExpected(req.expectStatus, status)
  }

  predicate Invalidates(req: Request) {
    exists status | status in req.onStatus :: InvalidatesOn(req, status)
  }

  lemma RejectedIsUnexpected(w: World, se: Session, step: nat, req: Request, auth: Auth)
    ensures var ex := Executed(w, se, step, req, auth).1; ex.Rejected? ==> !StatusExpected(req.expectStatus, ex.status)
  {
  }

  lemma ItemDispatchGrows(doc: Doc, se: Session, req: Request, ex: Exchange)
    requires !ex.Got? && (ex.Rejected? ==> !StatusExpected(req.expectStatus, ex.status))
    ensures var (after, verdict) := ItemDispatched(doc, se, req, ex);
      && Grows(Reachable(doc), se, after)
      && (verdict.EndInvalid? ==> !Holds(Reachable(doc), after) && Invalidates(req))
  {
    WipeMoves(doc, se, false);
    GrowsStill(Reachable(doc), se, se);
    if ex.Rejected? && ex.status in req.onStatus && req.onStatus[ex.status] == InvalidateCache {
      assert InvalidatesOn(req, ex.status);
    }
  }

  lemma ExtractKeepsCache(lib: Lib, env: Env, body: Rt, headers: Headers, ev: Extract)
    ensures var r := ExtractOne(lib, env, body, headers, ev); r.Ok? ==> r.value.cache == env.cache
  {
  }

  lemma {:induction false} ExtractedKeepsCache(lib: Lib, env: Env, body: Rt, headers: Headers, vars: seq<Extract>)
    ensures Extracted(lib, env, body, headers, vars).0.cache == env.cache
    decreases |vars|
  {
    if vars != [] && ExtractOne(lib, env, body, headers, vars[0]).Ok? {
      ExtractKeepsCache(lib, env, body, headers, vars[0]);
      ExtractedKeepsCache(lib, ExtractOne(lib, env, body, headers, vars[0]).value, body, headers, vars[1..]);
    }
  }

  lemma ItemGrows(w: World, doc: Doc, se: Session, step: nat, req: Request)
    requires req in doc.requests
    ensures var (after, verdict) := ItemDone(w, doc, se, step, req);
      && Grows(Reachable(doc), se, after)
      && (verdict.EndInvalid? ==> !Holds(Reachable(doc), after) && Invalidates(req))
  {
    var (after, ex) := Executed(w, se, step, req, doc.auth);
    ExecutedGrows(w, doc, se, step, req);
    var end := ItemDone(w, doc, se, step, req).0;
    if ex.Got? {
      ExtractedKeepsCache(w.lib, after.env, ex.body, ex.headers, req.extract);
      GrowsStill(Reachable(doc), after, end);
    } else {
      RejectedIsUnexpected(w, se, step, req, doc.auth);
      ItemDispatchGrows(doc, after, req, ex);
    }
    GrowsTrans(Reachable(doc), se, after, end);
  }

  lemma {:induction false} ItemsGrow(w: World, doc: Doc, se: Session, step: nat, req: Request, items: seq<Rt>)
    requires req in doc.requests
    ensures var (after, verdicts) := ItemsDone(w, doc, se, step, req, items);
      && Grows(Reachable(doc), se, after)
      && (verdicts != [] && verdicts[|verdicts| - 1].EndInvalid? ==> !Holds(Reachable(doc), after) && Invalidates(req))
    decreases |items|
  {
    if items == [] {
      GrowsStill(Reachable(doc), se, se);
    } else {
      var start := WithItem(se, items[0]);
      GrowsStill(Reachable(doc), se, start);
      ItemGrows(w, doc, start, step, req);
      var (after, verdict) := ItemDone(w, doc, start, step, req);
      GrowsTrans(Reachable(doc), se, start, after);
      if !verdict.Ends() {
        ItemsGrow(w, doc, after, step, req, items[1..]);
        GrowsTrans(Reachable(doc), se, after, ItemsDone(w, doc, after, step, req, items[1..]).0);
      }
    }
  }

  lemma FanOutGrows(w: World, doc: Doc, se: Session, step: nat, req: Request, f: FanOut)
    requires req in doc.requests
    ensures var (after, result) := FannedOut(w, doc, se, step, req, f);
      && Grows(Reachable(doc), se, after)
      && (result.FanInvalidated? ==> !Holds(Reachable(doc), after) && Invalidates(req))
  {
    match FanOutItems(w.lib, se.env, f.over) {
      case None => GrowsStill(Reachable(doc), se, se);
      case Some(items) =>
        var slots, start := Reachable(doc), se.(env := se.env.(alias := f.alias));
        GrowsStill(slots, se, start);
        ItemsGrow(w, doc, start, step, req, items);
        var end := ItemsDone(w, doc, start, step, req, items).0;
        GrowsTrans(slots, se, start, end);
        GrowsStill(slots, end, FannedOut(w, doc, se, step, req, f).0);
        GrowsTrans(slots, se, end, FannedOut(w, doc, se, step, req, f).0);
    }
  }

  // ---- chains and pages ----

  /** No fanned-out step maps a status it does not expect to an invalidation; those report one even for an
      empty cache. */
  predicate NoFreeInvalidation(doc: Doc) {
    forall r | r in doc.requests && r.fanOut.Some? :: !Invalidates(r)
  }

  /** What happened to the cache between two points, the second one perhaps an invalidation. */
  ghost predicate Spent(doc: Doc, a: Session, b: Session, invalidated: bool) {
    && Grows(Reachable(doc), a, b)
    && (invalidated ==> !Holds(Reachable(doc), b))
    && (invalidated && NoFreeInvalidation(doc) ==> Retried(Reachable(doc), a, b))
  }

  lemma SpentAfter(doc: Doc, a: Session, b: Session, c: Session, invalidated: bool)
    requires Grows(Reachable(doc), a, b) && Spent(doc, b, c, invalidated)
    ensures Spent(doc, a, c, invalidated)
  {
    MovesAfter(Reachable(doc), a, b, c, invalidated && NoFreeInvalidation(doc));
  }

  lemma FanStepSpent(w: World, doc: Doc, se: Session, i: nat, chain: Chain, f: FanOut)
    requires i < |doc.requests| && doc.requests[i].fanOut == Some(f)
    ensures var (after, link) := FanStepDone(w, doc, se, i, chain, f);
      Spent(doc, se, after, link == EndWith(Invalidated))
  {
    var req := doc.requests[i];
    FanOutGrows(w, doc, se, i, req, f);
    var (after, result) := FannedOut(w, doc, se, i, req, f);
    GrowsStill(Reachable(doc), after, FanStepDone(w, doc, se, i, chain, f).0);
    GrowsTrans(Reachable(doc), se, after, FanStepDone(w, doc, se, i, chain, f).0);
  }

  lemma BindKeepsCache(se: Session, id: string, body: Rt, headers: Option<Headers>)
    ensures SameCache(se, BindStep(se, id, body, headers))
  {
  }

  lemma OkStepKeepsCache(w: World, doc: Doc, se: Session, i: nat, chain: Chain, headers: Headers, body: Rt)
    requires i < |doc.requests| && Requested(w, doc, se, i, doc.requests[i]).1 == StepOk(headers, body)
    ensures SameCache(Requested(w, doc, se, i, doc.requests[i]).0, RequestStepDone(w, doc, se, i, chain).0)
  {
    var req, after := doc.requests[i], Requested(w, doc, se, i, doc.requests[i]).0;
    var (env, ok) := Extracted(w.lib, after.env, body, headers, req.extract);
    ExtractedKeepsCache(w.lib, after.env, body, headers, req.extract);
    BindKeepsCache(after.(env := env), req.id, body, Some(headers));
  }

  /** After its request a step touches neither the cache nor the logs. */
  lemma RequestStepKeepsCache(w: World, doc: Doc, se: Session, i: nat, chain: Chain)
    requires i < |doc.requests|
    ensures SameCache(Requested(w, doc, se, i, doc.requests[i]).0, RequestStepDone(w, doc, se, i, chain).0)
  {
    match Requested(w, doc, se, i, doc.requests[i]).1 {
      case StepOk(headers, body) => OkStepKeepsCache(w, doc, se, i, chain, headers, body);
      case _ =>
    }
  }

  lemma RequestStepInvalidates(w: World, doc: Doc, se: Session, i: nat, chain: Chain)
    requires i < |doc.requests|
    ensures RequestStepDone(w, doc, se, i, chain).1 == EndWith(Invalidated) <==>
      Requested(w, doc, se, i, doc.requests[i]).1.StepInvalidate?
  {
  }

  lemma SpentStill(doc: Doc, a: Session, b: Session, c: Session, invalidated: bool)
    requires Moves(Reachable(doc), a, b, invalidated) && SameCache(b, c)
    ensures Spent(doc, a, c, invalidated)
  {
    GrowsStill(Reachable(doc), b, c);
    GrowsTrans(Reachable(doc), a, b, c);
  }

  lemma RequestStepSpent(w: World, doc: Doc, se: Session, i: nat, chain: Chain)
    requires i < |doc.requests|
    ensures var (after, link) := RequestStepDone(w, doc, se, i, chain);
      Spent(doc, se, after, link == EndWith(Invalidated))
  {
    RequestedMoves(w, doc, se, i, doc.requests[i]);
    RequestStepKeepsCache(w, doc, se, i, chain);
    RequestStepInvalidates(w, doc, se, i, chain);
    var (after, status) := Requested(w, doc, se, i, doc.requests[i]);
    SpentStill(doc, se, after, RequestStepDone(w, doc, se, i, chain).0, status.StepInvalidate?);
  }

  lemma StepSpent(w: World, doc: Doc, se: Session, i: nat, chain: Chain)
    requires i < |doc.requests|
    ensures var (after, link) := StepDone(w, doc, se, i, chain); Spent(doc, se, after, link == EndWith(Invalidated))
  {
    var unbound := Unbound(se);
    GrowsStill(Reachable(doc), se, unbound);
    match doc.requests[i].fanOut {
      case Some(f) =>
        FanStepSpent(w, doc, unbound, i, chain, f);
        var (after, link) := FanStepDone(w, doc, unbound, i, chain, f);
        SpentAfter(doc, se, unbound, after, link == EndWith(Invalidated));
      case None =>
        RequestStepSpent(w, doc, unbound, i, chain);
        var (after, link) := RequestStepDone(w, doc, unbound, i, chain);
        SpentAfter(doc, se, unbound, after, link == EndWith(Invalidated));
    }
  }

  lemma {:induction false} ChainSpent(w: World, doc: Doc, se: Session, i: nat, chain: Chain)
    requires i <= |doc.requests|
    ensures var (after, link) := ChainDone(w, doc, se, i, chain); Spent(doc, se, after, link == EndWith(Invalidated))
    decreases |doc.requests| - i
  {
    if i == |doc.requests| {
      GrowsStill(Reachable(doc), se, se);
    } else {
      ChainUnfolds(w, doc, se, i, chain);
      StepSpent(w, doc, se, i, chain);
      var (after, link) := StepDone(w, doc, se, i, chain);
      if link.Next? {
        ChainSpent(w, doc, after, i + 1, link.chain);
        var (end, last) := ChainDone(w, doc, after, i + 1, link.chain);
        SpentAfter(doc, se, after, end, last == EndWith(Invalidated));
      }
    }
  }

  predicate StillGoing(chain: Chain) {
    chain.kind in {Accepted, Skipped, Emptied}
  }

  lemma StepKinds(w: World, doc: Doc, se: Session, i: nat, chain: Chain)
    requires i < |doc.requests| && StillGoing(chain)
    ensures var link := StepDone(w, doc, se, i, chain).1; link.Next? ==> StillGoing(link.chain)
  {
  }

  /** The verdict of a chain that ran to its end is never an invalidation. */
  lemma {:induction false} ChainKinds(w: World, doc: Doc, se: Session, i: nat, chain: Chain)
    requires i <= |doc.requests| && StillGoing(chain)
    ensures var link := ChainDone(w, doc, se, i, chain).1; link.Next? ==> StillGoing(link.chain)
    decreases |doc.requests| - i
  {
    if i < |doc.requests| {
      ChainUnfolds(w, doc, se, i, chain);
      StepKinds(w, doc, se, i, chain);
      var (after, link) := StepDone(w, doc, se, i, chain);
      if link.Next? {
        ChainKinds(w, doc, after, i + 1, link.chain);
      }
    }
  }

  lemma IterationSpent(w: World, doc: Doc, se: Session)
    ensures var (after, it) := IterationDone(w, doc, se); Spent(doc, se, after, it.kind == Invalidated)
  {
    ChainSpent(w, doc, se, 0, Chain(Accepted, Nil, map[], false));
    ChainKinds(w, doc, se, 0, Chain(Accepted, Nil, map[], false));
  }

  lemma SettledKeepsCache(w: World, doc: Doc, bound: Session, page: Page)
    ensures SameCache(bound, Settled(w, doc, bound, page).after)
  {
  }

  lemma FinishedKeepsCache(w: World, doc: Doc, chained: Session, it: Iteration, sunk: seq<Rt>, blank: Page)
    ensures SameCache(chained, PageFinished(w, doc, chained, it, sunk, blank).after)
  {
    var bound := BindPage(chained, it);
    var events := if it.kind == Accepted then EventList(it) else [];
    var page := blank.(after := bound, events := events, sunk := Offered(w, sunk, events).0);
    SettledKeepsCache(w, doc, bound, page);
  }

  /** Over a page the cache holds what the logged stores explain and true logs stay true; an invalidated page
      ends with every declared slot gone. */
  lemma PageSpent(w: World, doc: Doc, se: Session, sunk: seq<Rt>)
    ensures var page := PageDone(w, doc, se, sunk);
      page.before == se && Spent(doc, se, page.after, page.kind == Invalidated)
  {
    PageParts(w, doc, se, sunk);
    var start := IterationStart(se);
    var (chained, it) := IterationDone(w, doc, start);
    IterationSpent(w, doc, start);
    GrowsStill(Reachable(doc), se, start);
    SpentAfter(doc, se, start, chained, it.kind == Invalidated);
    FinishedKeepsCache(w, doc, chained, it, sunk, Blank(se, chained, it.kind, sunk));
    if it.kind !in {Aborted, Broke, Invalidated} {
      GrowsStill(Reachable(doc), chained, PageDone(w, doc, se, sunk).after);
      GrowsTrans(Reachable(doc), se, chained, PageDone(w, doc, se, sunk).after);
    }
  }

  // ---- runs ----

  function Invalidations(ledger: seq<Page>): nat {
    if ledger == [] then 0 else (if ledger[0].kind == Invalidated then 1 else 0) + Invalidations(ledger[1..])
  }

  /** An invalidation that had something to drop: a slot held when the page began, or stored by the page. */
  predicate Costs(slots: set<string>, page: Page) {
    page.kind == Invalidated && (Holds(slots, page.before) || |page.before.stored| < |page.after.stored|)
  }

  function CostlyInvalidations(slots: set<string>, ledger: seq<Page>): nat {
    if ledger == [] then 0 else (if Costs(slots, ledger[0]) then 1 else 0) + CostlyInvalidations(slots, ledger[1..])
  }

  function Held(slots: set<string>, se: Session): nat {
    if Holds(slots, se) then 1 else 0
  }

  /** A page grows the cache by its stores, and an invalidated one leaves no slot behind. */
  ghost predicate Emptying(slots: set<string>, b: Session, page: Page) {
    page.before == b && Grows(slots, b, page.after) && (page.kind == Invalidated ==> !Holds(slots, page.after))
  }

  ghost predicate Paying(slots: set<string>, pager: Pager) {
    forall b: Session, s: seq<Rt> :: Emptying(slots, b, pager(b, s))
  }

  /** The stores of a run, and a slot held at its start, cover its costly invalidations and a slot held at its
      end. */
  ghost predicate Paid(slots: set<string>, se: Session, run: Run) {
    && |se.stored| <= |run.session.stored|
    && CostlyInvalidations(slots, run.ledger) + Held(slots, run.session) <=
         Held(slots, se) + |run.session.stored| - |se.stored|
  }

  lemma PaidCons(slots: set<string>, se: Session, page: Page, rest: Run)
    requires Emptying(slots, se, page) && Paid(slots, page.after, rest)
    ensures Paid(slots, se, rest.(ledger := [page] + rest.ledger))
  {
    HeldBecauseStored(slots, se, page.after);
    assert ([page] + rest.ledger)[1..] == rest.ledger;
  }

  lemma {:induction false} RunsPay(slots: set<string>, pager: Pager, cap: int, se: Session, pages: nat, sunk: seq<Rt>)
    requires Winding(pager) && Paying(slots, pager)
    ensures Paid(slots, se, Looped(pager, cap, se, pages, sunk))
    decreases se.checks
  {
    var a := Attempted(pager, cap, se, pages, sunk);
    if a.done != [] {
      var live := se.(checks := se.checks - 1);
      assert Emptying(slots, live, pager(live, sunk));
      if a.out.None? {
        RunsPay(slots, pager, cap, a.after, pages + 1, a.sunk);
        PaidCons(slots, live, a.done[0], Looped(pager, cap, a.after, pages + 1, a.sunk));
      } else {
        PaidCons(slots, live, a.done[0], Run(a.after, a.out.value, a.sunk, []));
      }
    }
  }

  lemma DrainPays(w: World, doc: Doc)
    ensures Winding(PagerOf(w, doc)) && Paying(Reachable(doc), PagerOf(w, doc))
  {
    PagesWind(w, doc);
    forall b: Session, s: seq<Rt> ensures Emptying(Reachable(doc), b, PagerOf(w, doc)(b, s)) {
      PageSpent(w, doc, b, s);
    }
  }

  /** Whatever the document: the stores of a drain, and a slot held at its start, cover all its invalidations
      that had something to drop. */
  lemma StoresPayForDrops(w: World, doc: Doc, cap: int, se: Session)
    ensures Paid(Reachable(doc), se, PageLoop(w, doc, cap, se))
  {
    DrainPays(w, doc);
    RunsPay(Reachable(doc), PagerOf(w, doc), cap, se, 0, []);
  }

  ghost predicate AllCost(slots: set<string>, ledger: seq<Page>) {
    forall page | page in ledger :: page.kind == Invalidated ==> Costs(slots, page)
  }

  lemma {:induction false} CostlyIsAll(slots: set<string>, ledger: seq<Page>)
    requires AllCost(slots, ledger)
    ensures CostlyInvalidations(slots, ledger) == Invalidations(ledger)
  {
    if ledger != [] {
      assert ledger[0] in ledger && forall page | page in ledger[1..] :: page in ledger;
      CostlyIsAll(slots, ledger[1..]);
    }
  }

  /** When no fan-out invalidates on a status it does not expect, every invalidation had something to drop. */
  lemma InvalidationsCost(w: World, doc: Doc, cap: int, se: Session)
    requires NoFreeInvalidation(doc)
    ensures AllCost(Reachable(doc), PageLoop(w, doc, cap, se).ledger)
  {
    PagesWind(w, doc);
    forall b: Session, s: seq<Rt>
      ensures PagerOf(w, doc)(b, s).kind == Invalidated ==> Costs(Reachable(doc), PagerOf(w, doc)(b, s))
    {
      PageSpent(w, doc, b, s);
    }
    AllPages(PagerOf(w, doc), cap, se, (page: Page) => page.kind == Invalidated ==> Costs(Reachable(doc), page));
  }

  /** Such a drain never retries a page more often than it stored something in the cache, if the cache was empty
      at its start. */
  lemma StoresPayForRetries(w: World, doc: Doc, cap: int, se: Session)
    requires NoFreeInvalidation(doc) && !Holds(Reachable(doc), se)
    ensures var r := PageLoop(w, doc, cap, se);
      |se.stored| <= |r.session.stored| && Invalidations(r.ledger) <= |r.session.stored| - |se.stored|
  {
    StoresPayForDrops(w, doc, cap, se);
    InvalidationsCost(w, doc, cap, se);
    CostlyIsAll(Reachable(doc), PageLoop(w, doc, cap, se).ledger);
  }
}
