/** What one iteration of the chain can change in the state namespace: the extract targets, and
    nothing else (client/runner.go, client/http.go, client/cache.go, client/fanout.go). */
module Frames {
  import opened Syntax
  import opened Runtime
  import opened Scopes
  import opened Session
  import opened Writes
  import opened Pages
  import opened Requests
  import opened FanOuts
  import opened Drains

  /** An exchange leaves everything but the cache, the clock and the logs alone. */
  predicate OnlyCache(a: Session, b: Session) {
    b == a.(env := a.env.(cache := b.env.cache, now := b.env.now), wire := b.wire, stored := b.stored, marks := b.marks)
  }

  lemma TokenOnlyCache(w: World, se: Session, grant: Grant)
    ensures OnlyCache(se, Authorized(w, se, grant).0)
  {
  }

  lemma {:induction false} AuthOnlyCache(w: World, se: Session, auth: Auth)
    ensures OnlyCache(se, AuthApplied(w, se, auth).0)
    decreases auth, 1
  {
    match auth {
      case OAuth2(grant) => TokenOnlyCache(w, se, grant);
      case MultiMode(branches, otherwise) =>
        BranchesOnlyCache(w, se, branches);
        AuthOnlyCache(w, se, otherwise);
      case _ =>
    }
  }

  lemma {:induction false} BranchesOnlyCache(w: World, se: Session, branches: seq<AuthBranch>)
    ensures var r := BranchApplied(w, se, branches); r.Some? ==> OnlyCache(se, r.value.0)
    decreases branches, 0
  {
    if branches != [] {
      ArmOnlyCache(w, se, branches[0]);
      BranchesOnlyCache(w, se, branches[1..]);
    }
  }

  lemma {:induction false} ArmOnlyCache(w: World, se: Session, b: AuthBranch)
    ensures var r := ArmApplied(w, se, b); r.Some? ==> OnlyCache(se, r.value.0)
    decreases b, 1
  {
    AuthOnlyCache(w, se, b.auth);
  }

  lemma ExecutedOnlyCache(w: World, se: Session, step: nat, req: Request, auth: Auth)
    ensures OnlyCache(se, Executed(w, se, step, req, auth).0)
  {
    AuthOnlyCache(w, se, auth);
  }

  /** One pass of the request loop: the exchange, then either its reply is bound or its failure dispatched. */
  lemma FiredParts(w: World, doc: Doc, se: Session, step: nat, req: Request)
    ensures var (after, ex) := Executed(w, se, step, req, doc.auth);
      var (end, status) := Fired(w, doc, se, step, req);
      if ex.Got? then
        end == after.(env := after.env.(body := ex.body, headers := ex.headers)) && status != Some(StepInvalidate)
      else (end, status) == (Dispatched(doc, after, req, ex).0, Some(Dispatched(doc, after, req, ex).1))
  {
  }

  lemma DispatchOnlyCache(doc: Doc, se: Session, req: Request, ex: Exchange)
    requires !ex.Got?
    ensures OnlyCache(se, Dispatched(doc, se, req, ex).0)
  {
  }

  lemma FiredKeepsState(w: World, doc: Doc, se: Session, step: nat, req: Request)
    ensures Fired(w, doc, se, step, req).0.env.state == se.env.state
    ensures Fired(w, doc, se, step, req).0.env.alias == se.env.alias
  {
    ExecutedOnlyCache(w, se, step, req, doc.auth);
    FiredParts(w, doc, se, step, req);
    var (after, ex) := Executed(w, se, step, req, doc.auth);
    if !ex.Got? {
      DispatchOnlyCache(doc, after, req, ex);
    }
  }

  lemma {:induction false} RequestedKeepsState(w: World, doc: Doc, se: Session, step: nat, req: Request)
    ensures Requested(w, doc, se, step, req).0.env.state == se.env.state
    decreases se.checks
  {
    FiredKeepsState(w, doc, se, step, req);
    var (seen, status) := Fired(w, doc, se, step, req);
    if status.None? && seen.checks > 0 {
      RequestedKeepsState(w, doc, seen.(checks := seen.checks - 1), step, req);
    }
  }

  lemma ItemKeepsField(w: World, doc: Doc, se: Session, step: nat, req: Request, f: string)
    requires f !in ExtractTargets(req.extract)
    ensures SameField(se.env.state, ItemDone(w, doc, se, step, req).0.env.state, f)
  {
    ExecutedOnlyCache(w, se, step, req, doc.auth);
    var (after, ex) := Executed(w, se, step, req, doc.auth);
    if ex.Got? {
      ExtractsTouchTargets(w.lib, after.env, ex.body, ex.headers, req.extract, f);
    }
  }

  lemma {:induction false} ItemsKeepField(w: World, doc: Doc, se: Session, step: nat, req: Request, items: seq<Rt>,
                                          f: string)
    requires f !in ExtractTargets(req.extract)
    ensures SameField(se.env.state, ItemsDone(w, doc, se, step, req, items).0.env.state, f)
    decreases |items|
  {
    if items != [] {
      ItemKeepsField(w, doc, WithItem(se, items[0]), step, req, f);
      var (after, verdict) := ItemDone(w, doc, WithItem(se, items[0]), step, req);
      if !verdict.Ends() {
        ItemsKeepField(w, doc, after, step, req, items[1..], f);
      }
    }
  }

  lemma StepKeepsField(w: World, doc: Doc, se: Session, i: nat, chain: Chain, f: string)
    requires i < |doc.requests| && f !in ExtractTargets(doc.requests[i].extract)
    ensures SameField(se.env.state, StepDone(w, doc, se, i, chain).0.env.state, f)
  {
    var unbound := Unbound(se);
    match doc.requests[i].fanOut {
      case Some(fan) => FanStepKeepsField(w, doc, unbound, i, chain, fan, f);
      case None => RequestStepKeepsField(w, doc, unbound, i, chain, f);
    }
  }

  lemma FanStepKeepsField(w: World, doc: Doc, se: Session, i: nat, chain: Chain, fan: FanOut, f: string)
    requires i < |doc.requests| && f !in ExtractTargets(doc.requests[i].extract)
    ensures SameField(se.env.state, FanStepDone(w, doc, se, i, chain, fan).0.env.state, f)
  {
    var items := FanOutItems(w.lib, se.env, fan.over);
    if items.Some? {
      ItemsKeepField(w, doc, se.(env := se.env.(alias := fan.alias)), i, doc.requests[i], items.value, f);
    }
  }

  lemma RequestStepKeepsField(w: World, doc: Doc, se: Session, i: nat, chain: Chain, f: string)
    requires i < |doc.requests| && f !in ExtractTargets(doc.requests[i].extract)
    ensures SameField(se.env.state, RequestStepDone(w, doc, se, i, chain).0.env.state, f)
  {
    var req := doc.requests[i];
    RequestedKeepsState(w, doc, se, i, req);
    var (after, status) := Requested(w, doc, se, i, req);
    if status.StepOk? {
      ExtractsTouchTargets(w.lib, after.env, status.body, status.headers, req.extract, f);
    }
  }

  // ---- the chain as a fold ----

  /** What one step does, as a function of the session, its position and the chain so far. */
  type Stepper = (Session, nat, Chain) -> (Session, Link)

  function StepperOf(w: World, doc: Doc): Stepper {
    (se: Session, i: nat, chain: Chain) =>
      if i < |doc.requests| then StepDone(w, doc, se, i, chain) else (se, Next(chain))
  }

  /** The first n steps, from the i-th on, up to one that ends the chain. */
  function Folded(step: Stepper, n: nat, se: Session, i: nat, chain: Chain): (Session, Link)
    decreases n - i
  {
    if i >= n then (se, Next(chain))
    else match step(se, i, chain)
      case (after, EndWith(kind)) => (after, EndWith(kind))
      case (after, Next(c)) => Folded(step, n, after, i + 1, c)
  }

  /** The chain after its i-th step. */
  lemma ChainUnfolds(w: World, doc: Doc, se: Session, i: nat, chain: Chain)
    requires i < |doc.requests|
    ensures var (after, link) := StepDone(w, doc, se, i, chain);
      ChainDone(w, doc, se, i, chain) ==
        match link case EndWith(_) => (after, link) case Next(c) => ChainDone(w, doc, after, i + 1, c)
  {
  }

  lemma {:induction false} ChainIsFolded(w: World, doc: Doc, se: Session, i: nat, chain: Chain)
    requires i <= |doc.requests|
    ensures ChainDone(w, doc, se, i, chain) == Folded(StepperOf(w, doc), |doc.requests|, se, i, chain)
    decreases |doc.requests| - i
  {
    if i < |doc.requests| {
      ChainUnfolds(w, doc, se, i, chain);
      var (after, link) := StepDone(w, doc, se, i, chain);
      if link.Next? {
        ChainIsFolded(w, doc, after, i + 1, link.chain);
      }
    }
  }

  /** Reflexive, transitive, and kept by every step. */
  ghost predicate Keeping(rel: (Session, Session) -> bool, step: Stepper) {
    && (forall a: Session :: rel(a, a))
    && (forall a: Session, b: Session, c: Session :: rel(a, b) && rel(b, c) ==> rel(a, c))
    && (forall a: Session, i: nat, chain: Chain :: rel(a, step(a, i, chain).0))
  }

  lemma {:induction false} FoldedKeeps(rel: (Session, Session) -> bool, step: Stepper, n: nat, se: Session, i: nat,
                                       chain: Chain)
    requires Keeping(rel, step)
    ensures rel(se, Folded(step, n, se, i, chain).0)
    decreases n - i
  {
    if i < n {
      var (after, link) := step(se, i, chain);
      assert rel(se, step(se, i, chain).0);
      if link.Next? {
        FoldedKeeps(rel, step, n, after, i + 1, link.chain);
      }
    }
  }

  lemma ChainKeepsField(w: World, doc: Doc, se: Session, chain: Chain, f: string)
    requires f !in ExtractFields(doc)
    ensures SameField(se.env.state, ChainDone(w, doc, se, 0, chain).0.env.state, f)
  {
    var rel := (a: Session, b: Session) => SameField(a.env.state, b.env.state, f);
    forall a: Session, i: nat, c: Chain ensures rel(a, StepperOf(w, doc)(a, i, c).0) {
      if i < |doc.requests| {
        assert doc.requests[i] in doc.requests;
        StepKeepsField(w, doc, a, i, c, f);
      }
    }
    ChainIsFolded(w, doc, se, 0, chain);
    FoldedKeeps(rel, StepperOf(w, doc), |doc.requests|, se, 0, chain);
  }

  /** No request, gate, authentication, retry or fan-out touches a field that is not an extract target. */
  lemma IterationKeepsField(w: World, doc: Doc, se: Session, f: string)
    requires f !in ExtractFields(doc)
    ensures SameField(se.env.state, IterationDone(w, doc, se).0.env.state, f)
  {
    ChainKeepsField(w, doc, se, Chain(Accepted, Nil, map[], false), f);
  }

  /** The page after its chain: untouched, or finished as a page-response. */
  lemma PageParts(w: World, doc: Doc, se: Session, sunk: seq<Rt>)
    ensures var page := PageDone(w, doc, se, sunk);
      var (chained, it) := IterationDone(w, doc, IterationStart(se));
      var blank := Blank(se, chained, it.kind, sunk);
      && page.before == se && page.chained == chained && page.kind == it.kind
      && if it.kind == Aborted then page == blank.(exit := Some(Errored))
         else if it.kind == Broke then page == blank.(exit := Some(StandardBreak))
         else if it.kind == Invalidated then page == blank
         else page == PageFinished(w, doc, chained, it, sunk, blank)
  {
  }

  /** Up to the end of the chain only extracts write state. */
  lemma ChainPartKeepsField(w: World, doc: Doc, se: Session, sunk: seq<Rt>, f: string)
    requires f !in ExtractFields(doc)
    ensures SameField(se.env.state, PageDone(w, doc, se, sunk).chained.env.state, f)
  {
    PageParts(w, doc, se, sunk);
    IterationKeepsField(w, doc, IterationStart(se), f);
  }

  // ---- iterations are isolated ----

  /** The sessions differ at most in what one iteration leaves behind for the next. */
  predicate SameButScratch(a: Session, b: Session) {
    b == a.(env := a.env.(extract := b.env.extract, steps := b.env.steps, stepHeaders := b.env.stepHeaders,
                          events := b.env.events, body := b.env.body, headers := b.env.headers))
  }

  /** No page sees the extracts, step results, events or response of the page before it. */
  lemma PagesAreIsolated(w: World, doc: Doc, a: Session, b: Session, sunk: seq<Rt>)
    requires SameButScratch(a, b)
    ensures PageDone(w, doc, b, sunk) == PageDone(w, doc, a, sunk).(before := b)
  {
    assert IterationStart(a) == IterationStart(b);
    PageParts(w, doc, a, sunk);
    PageParts(w, doc, b, sunk);
    var (chained, it) := IterationDone(w, doc, IterationStart(a));
    FinishedIgnoresBefore(w, doc, chained, it, sunk, Blank(a, chained, it.kind, sunk), b);
  }

  lemma FinishedIgnoresBefore(w: World, doc: Doc, chained: Session, it: Iteration, sunk: seq<Rt>, blank: Page,
                              b: Session)
    ensures PageFinished(w, doc, chained, it, sunk, blank.(before := b)) ==
      PageFinished(w, doc, chained, it, sunk, blank).(before := b)
  {
  }

  // ---- the fan-out alias never outlives its step ----

  lemma ExtractKeepsAlias(lib: Lib, env: Env, body: Rt, headers: Headers, ev: Extract)
    ensures var r := ExtractOne(lib, env, body, headers, ev); r.Ok? ==> r.value.alias == env.alias
  {
  }

  lemma {:induction false} ExtractedKeepsAlias(lib: Lib, env: Env, body: Rt, headers: Headers, vars: seq<Extract>)
    ensures Extracted(lib, env, body, headers, vars).0.alias == env.alias
    decreases |vars|
  {
    if vars != [] && ExtractOne(lib, env, body, headers, vars[0]).Ok? {
      ExtractKeepsAlias(lib, env, body, headers, vars[0]);
      ExtractedKeepsAlias(lib, ExtractOne(lib, env, body, headers, vars[0]).value, body, headers, vars[1..]);
    }
  }

  lemma {:induction false} RequestedKeepsAlias(w: World, doc: Doc, se: Session, step: nat, req: Request)
    ensures Requested(w, doc, se, step, req).0.env.alias == se.env.alias
    decreases se.checks
  {
    FiredKeepsState(w, doc, se, step, req);
    var (seen, status) := Fired(w, doc, se, step, req);
    if status.None? && seen.checks > 0 {
      RequestedKeepsAlias(w, doc, seen.(checks := seen.checks - 1), step, req);
    }
  }

  lemma RequestStepKeepsAlias(w: World, doc: Doc, se: Session, i: nat, chain: Chain)
    requires i < |doc.requests|
    ensures RequestStepDone(w, doc, se, i, chain).0.env.alias == se.env.alias
  {
    var req := doc.requests[i];
    RequestedKeepsAlias(w, doc, se, i, req);
    var (after, status) := Requested(w, doc, se, i, req);
    if status.StepOk? {
      ExtractedKeepsAlias(w.lib, after.env, status.body, status.headers, req.extract);
    }
  }

  lemma StepKeepsAlias(w: World, doc: Doc, se: Session, i: nat, chain: Chain)
    requires i < |doc.requests|
    ensures StepDone(w, doc, se, i, chain).0.env.alias == se.env.alias
  {
    RequestStepKeepsAlias(w, doc, Unbound(se), i, chain);
  }

  lemma ChainKeepsAlias(w: World, doc: Doc, se: Session, chain: Chain)
    ensures ChainDone(w, doc, se, 0, chain).0.env.alias == se.env.alias
  {
    var rel := (a: Session, b: Session) => b.env.alias == a.env.alias;
    forall a: Session, i: nat, c: Chain ensures rel(a, StepperOf(w, doc)(a, i, c).0) {
      if i < |doc.requests| {
        StepKeepsAlias(w, doc, a, i, c);
      }
    }
    ChainIsFolded(w, doc, se, 0, chain);
    FoldedKeeps(rel, StepperOf(w, doc), |doc.requests|, se, 0, chain);
  }

  lemma IterationKeepsAlias(w: World, doc: Doc, se: Session)
    ensures IterationDone(w, doc, se).0.env.alias == se.env.alias
  {
    ChainKeepsAlias(w, doc, se, Chain(Accepted, Nil, map[], false));
  }

  // ---- no drain loses a field ----

  ghost predicate KeysKept(a: Env, b: Env) {
    a.state.Keys <= b.state.Keys
  }

  lemma {:induction false} CommitKeepsKeys(state: Bindings, writes: seq<Write>, staged: seq<Rt>)
    requires |staged| == |writes|
    ensures state.Keys <= Commit(state, writes, staged).state.Keys
    decreases |writes|
  {
    if writes != [] && StateField(writes[0].to).Some? {
      CommitKeepsKeys(state[StateField(writes[0].to).value := staged[0]], writes[1..], staged[1..]);
    }
  }

  lemma ProgressKeepsKeys(lib: Lib, env: Env, writes: seq<Write>)
    ensures env.state.Keys <= Progressed(lib, env, writes).state.Keys
  {
    match StageAll(lib, env, writes) {
      case Err =>
      case Ok(staged) => CommitKeepsKeys(env.state, writes, staged);
    }
  }

  lemma AdvanceKeepsKeys(lib: Lib, env: Env, p: Pagination)
    ensures env.state.Keys <= AdvancePage(lib, env, p).state.Keys
  {
    if p.Custom? {
      ProgressKeepsKeys(lib, env, p.advance);
    }
  }

  lemma ExtractKeepsKeys(lib: Lib, env: Env, body: Rt, headers: Headers, ev: Extract)
    ensures var r := ExtractOne(lib, env, body, headers, ev); r.Ok? ==> KeysKept(env, r.value)
  {
  }

  lemma {:induction false} ExtractsKeepKeys(lib: Lib, env: Env, body: Rt, headers: Headers, vars: seq<Extract>)
    ensures KeysKept(env, Extracted(lib, env, body, headers, vars).0)
    decreases |vars|
  {
    if vars != [] && ExtractOne(lib, env, body, headers, vars[0]).Ok? {
      ExtractKeepsKeys(lib, env, body, headers, vars[0]);
      ExtractsKeepKeys(lib, ExtractOne(lib, env, body, headers, vars[0]).value, body, headers, vars[1..]);
    }
  }

  lemma ItemKeepsKeys(w: World, doc: Doc, se: Session, step: nat, req: Request)
    ensures KeysKept(se.env, ItemDone(w, doc, se, step, req).0.env)
  {
    ExecutedOnlyCache(w, se, step, req, doc.auth);
    var (after, ex) := Executed(w, se, step, req, doc.auth);
    if ex.Got? {
      ExtractsKeepKeys(w.lib, after.env, ex.body, ex.headers, req.extract);
    }
  }

  lemma {:induction false} ItemsKeepKeys(w: World, doc: Doc, se: Session, step: nat, req: Request, items: seq<Rt>)
    ensures KeysKept(se.env, ItemsDone(w, doc, se, step, req, items).0.env)
    decreases |items|
  {
    if items != [] {
      ItemKeepsKeys(w, doc, WithItem(se, items[0]), step, req);
      ItemsKeepKeys(w, doc, ItemDone(w, doc, WithItem(se, items[0]), step, req).0, step, req, items[1..]);
    }
  }

  lemma FanStepKeepsKeys(w: World, doc: Doc, se: Session, i: nat, chain: Chain, f: FanOut)
    requires i < |doc.requests|
    ensures KeysKept(se.env, FanStepDone(w, doc, se, i, chain, f).0.env)
  {
    var items := FanOutItems(w.lib, se.env, f.over);
    if items.Some? {
      ItemsKeepKeys(w, doc, se.(env := se.env.(alias := f.alias)), i, doc.requests[i], items.value);
    }
  }

  lemma RequestStepKeepsKeys(w: World, doc: Doc, se: Session, i: nat, chain: Chain)
    requires i < |doc.requests|
    ensures KeysKept(se.env, RequestStepDone(w, doc, se, i, chain).0.env)
  {
    var req := doc.requests[i];
    RequestedKeepsState(w, doc, se, i, req);
    var (after, status) := Requested(w, doc, se, i, req);
    if status.StepOk? {
      ExtractsKeepKeys(w.lib, after.env, status.body, status.headers, req.extract);
    }
  }

  lemma StepKeepsKeys(w: World, doc: Doc, se: Session, i: nat, chain: Chain)
    requires i < |doc.requests|
    ensures KeysKept(se.env, StepDone(w, doc, se, i, chain).0.env)
  {
    match doc.requests[i].fanOut {
      case None => RequestStepKeepsKeys(w, doc, Unbound(se), i, chain);
      case Some(f) => FanStepKeepsKeys(w, doc, Unbound(se), i, chain, f);
    }
  }

  lemma ChainKeepsKeys(w: World, doc: Doc, se: Session, chain: Chain)
    ensures KeysKept(se.env, ChainDone(w, doc, se, 0, chain).0.env)
  {
    var rel := (a: Session, b: Session) => KeysKept(a.env, b.env);
    forall a: Session, i: nat, c: Chain ensures rel(a, StepperOf(w, doc)(a, i, c).0) {
      if i < |doc.requests| {
        StepKeepsKeys(w, doc, a, i, c);
      }
    }
    ChainIsFolded(w, doc, se, 0, chain);
    FoldedKeeps(rel, StepperOf(w, doc), |doc.requests|, se, 0, chain);
  }

  lemma SettledKeepsKeys(w: World, doc: Doc, bound: Session, page: Page)
    ensures KeysKept(bound.env, Settled(w, doc, bound, page).after.env)
  {
    ProgressKeepsKeys(w.lib, bound.env, doc.progress);
    var c := ProgressOf(w.lib, doc, bound, page.kind);
    AdvanceKeepsKeys(w.lib, WithState(bound, c.state).env, doc.pagination);
  }

  lemma FinishedKeepsKeys(w: World, doc: Doc, chained: Session, it: Iteration, sunk: seq<Rt>, blank: Page)
    ensures KeysKept(chained.env, PageFinished(w, doc, chained, it, sunk, blank).after.env)
  {
    var bound := BindPage(chained, it);
    var events := if it.kind == Accepted then EventList(it) else [];
    SettledKeepsKeys(w, doc, bound, blank.(after := bound, events := events, sunk := Offered(w, sunk, events).0));
  }

  lemma PageKeepsKeys(w: World, doc: Doc, se: Session, sunk: seq<Rt>)
    ensures KeysKept(se.env, PageDone(w, doc, se, sunk).after.env)
  {
    PageParts(w, doc, se, sunk);
    ChainKeepsKeys(w, doc, IterationStart(se), Chain(Accepted, Nil, map[], false));
    var (chained, it) := IterationDone(w, doc, IterationStart(se));
    FinishedKeepsKeys(w, doc, chained, it, sunk, Blank(se, chained, it.kind, sunk));
  }

  lemma {:induction false} RunsKeepKeys(pager: Pager, cap: int, se: Session, pages: nat, sunk: seq<Rt>)
    requires Winding(pager)
    requires forall b: Session, s: seq<Rt> :: KeysKept(b.env, pager(b, s).after.env)
    ensures KeysKept(se.env, Looped(pager, cap, se, pages, sunk).session.env)
    decreases se.checks
  {
    var a := Attempted(pager, cap, se, pages, sunk);
    if a.done != [] {
      assert KeysKept(se.env, a.after.env);
      if a.out.None? {
        RunsKeepKeys(pager, cap, a.after, pages + 1, a.sunk);
      }
    }
  }

  lemma DrainKeepsKeys(w: World, doc: Doc, cap: int, se: Session)
    ensures KeysKept(se.env, PageLoop(w, doc, cap, se).session.env)
  {
    PagesWind(w, doc);
    forall b: Session, s: seq<Rt> ensures KeysKept(b.env, PagerOf(w, doc)(b, s).after.env) {
      PageKeepsKeys(w, doc, b, s);
    }
    RunsKeepKeys(PagerOf(w, doc), cap, se, 0, []);
  }
}
