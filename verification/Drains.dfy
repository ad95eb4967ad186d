/** The drain: one iteration of the request chain, the page loop, and the start and end of a pull
    session (client/runner.go, client/state.go). */
module Drains {
  import opened Syntax
  import opened Runtime
  import opened Scopes
  import opened Eval
  import opened Session
  import opened Writes
  import opened Pages
  import opened Requests
  import opened FanOuts

  // ---- one iteration of the chain ----

  /** iterKind; `Aborted` is an iteration that ended with an error. */
  datatype Verdict = Accepted | Skipped | Emptied | Invalidated | Warned | Broke | Aborted

  /** What the chain knows about the producer so far. */
  datatype Chain = Chain(kind: Verdict, body: Rt, headers: Headers, ran: bool)

  datatype Link = Next(chain: Chain) | EndWith(kind: Verdict)

  function ProducerIndex(requests: seq<Request>): int {
    if requests == [] then -1
    else if requests[0].eventsAt.Some? then 0
    else var i := ProducerIndex(requests[1..]); if i < 0 then -1 else i + 1
  }

  function Unbound(se: Session): Session {
    se.(env := se.env.(body := Nil, headers := map[]))
  }

  /** Binds a finished step's body under its id. */
  function BindStep(se: Session, id: string, body: Rt, headers: Option<Headers>): Session {
    if id == "" then se
    else se.(env := se.env.(
      steps := se.env.steps[id := body],
      stepHeaders := match headers case None => se.env.stepHeaders case Some(h) => se.env.stepHeaders[id := h]))
  }

  function Capture(chain: Chain, producer: bool, body: Rt, headers: Headers): Chain {
    if producer then chain.(body := body, headers := headers, ran := true) else chain
  }

  function FanStepDone(w: World, doc: Doc, se: Session, i: nat, chain: Chain, f: FanOut): (r: (Session, Link))
    requires i < |doc.requests|
    ensures r.0.checks <= se.checks
  {
    var req := doc.requests[i];
    var (after, result) := FannedOut(w, doc, se, i, req, f);
    match result
    case FanFatal => (after, EndWith(Aborted))
    case FanInvalidated => (after, EndWith(Invalidated))
    case FanBreak => (after, EndWith(Broke))
    case Merged(body, headers) =>
      var h := match headers case None => map[] case Some(x) => x;
      (BindStep(after, req.id, body, headers), Next(Capture(chain, i == ProducerIndex(doc.requests), body, h)))
  }

  function RequestStepDone(w: World, doc: Doc, se: Session, i: nat, chain: Chain): (r: (Session, Link))
    requires i < |doc.requests|
    ensures r.0.checks <= se.checks
  {
    var req := doc.requests[i];
    var producer := i == ProducerIndex(doc.requests);
    var (after, status) := Requested(w, doc, se, i, req);
    match status
    case StepFatal => (after, EndWith(Aborted))
    case StepBreak => (after, EndWith(Broke))
    case StepInvalidate => (after, EndWith(Invalidated))
    case StepWarn => (after, EndWith(Warned))
    case StepSkip => (after, Next(if producer then Chain(Skipped, Nil, map[], true) else chain))
    case StepEmpty => (after, Next(if producer then Chain(Emptied, Nil, map[], true) else chain))
    case StepOk(headers, body) =>
      var (env, ok) := Extracted(w.lib, after.env, body, headers, req.extract);
      var extracted := after.(env := env);
      if !ok then (extracted, EndWith(Aborted))
      else (BindStep(extracted, req.id, body, Some(headers)), Next(Capture(chain, producer, body, headers)))
  }

  function StepDone(w: World, doc: Doc, se: Session, i: nat, chain: Chain): (r: (Session, Link))
    requires i < |doc.requests|
    ensures r.0.checks <= se.checks
  {
    var req := doc.requests[i];
    var unbound := Unbound(se);
    match (match req.gate case None => Ok(true) case Some(p) => EvalPredicate(w.lib, unbound.env, p))
    case Err => (unbound, EndWith(Aborted))
    case Ok(false) => (unbound, Next(chain))
    case Ok(true) =>
      match req.fanOut
      case Some(f) => FanStepDone(w, doc, unbound, i, chain, f)
      case None => RequestStepDone(w, doc, unbound, i, chain)
  }

  function ChainDone(w: World, doc: Doc, se: Session, i: nat, chain: Chain): (r: (Session, Link))
    requires i <= |doc.requests|
    ensures r.0.checks <= se.checks
    decreases |doc.requests| - i
  {
    if i == |doc.requests| then (se, Next(chain))
    else
      var (after, link) := StepDone(w, doc, se, i, chain);
      match link
      case EndWith(_) => (after, link)
      case Next(c) => ChainDone(w, doc, after, i + 1, c)
  }

  /** locateProducerEvents. */
  function ProducerEvents(env: Env, req: Request, body: Rt): Result<Option<seq<Rt>>>
    requires req.eventsAt.Some?
  {
    match StripBodyRoot(req.eventsAt.value)
    case Err => Err
    case Ok((parts, id)) =>
      if id == "" then LocateEvents(body, parts, req.rowOriented)
      else if id in env.steps then LocateEvents(env.steps[id], parts, req.rowOriented)
      else Err
  }

  datatype Iteration = Iteration(kind: Verdict, body: Rt, headers: Headers, events: Option<seq<Rt>>)

  /** The verdict of a chain that ran to its end. */
  function Concluded(doc: Doc, env: Env, chain: Chain): Iteration {
    var producer := ProducerIndex(doc.requests);
    if !chain.ran && chain.kind == Accepted then Iteration(Warned, chain.body, chain.headers, None)
    else if chain.kind != Accepted || !(0 <= producer < |doc.requests|) || doc.requests[producer].eventsAt.None? then
      Iteration(chain.kind, chain.body, chain.headers, None)
    else match ProducerEvents(env, doc.requests[producer], chain.body)
      case Err => Iteration(Aborted, Nil, map[], None)
      case Ok(events) => Iteration(Accepted, chain.body, chain.headers, events)
  }

  function IterationDone(w: World, doc: Doc, se: Session): (r: (Session, Iteration))
    ensures r.0.checks <= se.checks
  {
    var (after, link) := ChainDone(w, doc, se, 0, Chain(Accepted, Nil, map[], false));
    match link
    case EndWith(kind) => (after, Iteration(kind, Nil, map[], None))
    case Next(chain) => (after, Concluded(doc, after.env, chain))
  }

  // ---- one page ----

  datatype Exit = Finished | StandardBreak | Cancelled | Capped | SinkRefused | Errored

  /** Offers the events one by one, up to the first refusal. */
  function Offered(w: World, sunk: seq<Rt>, events: seq<Rt>): (r: (seq<Rt>, bool))
    decreases |events|
  {
    if events == [] then (sunk, true)
    else
      var next := sunk + [events[0]];
      if w.takes(next) then Offered(w, next, events[1..]) else (next, false)
  }

  /** One entry of the drain's ledger: the sessions before the iteration, after its chain, after its
      progress and after the whole page, the verdict with the accepted events, the sink calls so far,
      which of the two state updates were attempted, and the way out if the page ended the drain. */
  datatype Page = Page(
    before: Session,
    chained: Session,
    written: Session,
    after: Session,
    kind: Verdict,
    events: seq<Rt>,
    sunk: seq<Rt>,
    progressed: bool,
    advanced: bool,
    exit: Option<Exit>)

  /** A page that goes no further than its chain. */
  function Blank(before: Session, chained: Session, kind: Verdict, sunk: seq<Rt>): Page {
    Page(before, chained, chained, chained, kind, [], sunk, false, false, None)
  }

  function BindPage(se: Session, it: Iteration): Session {
    se.(env := se.env.(body := it.body, headers := it.headers,
                       events := match it.events case None => Nil case Some(list) => Arr(list)))
  }

  function EventList(it: Iteration): seq<Rt> {
    match it.events case None => [] case Some(list) => list
  }

  /** A warning makes no progress. */
  function ProgressOf(lib: Lib, doc: Doc, bound: Session, kind: Verdict): Committed {
    if kind == Warned then Committed(bound.env.state, true) else Progressed(lib, bound.env, doc.progress)
  }

  /** The progress, then the pagination advance. */
  function Settled(w: World, doc: Doc, bound: Session, page: Page): (r: Page)
    ensures r.after.checks == bound.checks
    ensures r.before == page.before && r.chained == page.chained && r.kind == page.kind
  {
    var c := ProgressOf(w.lib, doc, bound, page.kind);
    var progressed := WithState(bound, c.state);
    if !c.ok then page.(written := progressed, after := progressed, progressed := true, exit := Some(Errored))
    else
      var a := AdvancePage(w.lib, progressed.env, doc.pagination);
      page.(written := progressed, after := WithState(progressed, a.state),
            progressed := page.kind != Warned, advanced := true,
            exit := match a.turn case Stop => Some(Finished) case Broken => Some(Errored) case Continue => None)
  }

  /** A page-response: bind it, offer its events when it was accepted, settle. */
  function PageFinished(w: World, doc: Doc, chained: Session, it: Iteration, sunk: seq<Rt>, blank: Page): (r: Page)
    ensures r.after.checks == chained.checks
    ensures r.before == blank.before && r.chained == blank.chained && r.kind == blank.kind
  {
    var bound := BindPage(chained, it);
    var events := if it.kind == Accepted then EventList(it) else [];
    var (offered, ok) := Offered(w, sunk, events);
    var page := blank.(after := bound, events := events, sunk := offered);
    if ok then Settled(w, doc, bound, page) else page.(exit := Some(SinkRefused))
  }

  function PageDone(w: World, doc: Doc, se: Session, sunk: seq<Rt>): (r: Page)
    ensures r.after.checks <= se.checks
  {
    var (chained, it) := IterationDone(w, doc, IterationStart(se));
    var blank := Blank(se, chained, it.kind, sunk);
    if it.kind == Aborted then blank.(exit := Some(Errored))
    else if it.kind == Broke then blank.(exit := Some(StandardBreak))
    else if it.kind == Invalidated then blank
    else PageFinished(w, doc, chained, it, sunk, blank)
  }

  // ---- the page loop ----

  datatype Run = Run(session: Session, exit: Exit, sunk: seq<Rt>, ledger: seq<Page>)

  /** What one page does, as a function of the session and the events offered so far. */
  type Pager = (Session, seq<Rt>) -> Page

  function PagerOf(w: World, doc: Doc): Pager {
    (se: Session, sunk: seq<Rt>) => PageDone(w, doc, se, sunk)
  }

  /** A page never gives context checks back. */
  ghost predicate Winding(pager: Pager) {
    forall se: Session, sunk: seq<Rt> :: pager(se, sunk).after.checks <= se.checks
  }

  /** One turn of the loop: the context check, the page cap, then a page. `cap` is the page limit; zero
      or less means none. */
  datatype Attempt = Attempt(after: Session, out: Option<Exit>, sunk: seq<Rt>, done: seq<Page>)

  function Attempted(pager: Pager, cap: int, se: Session, pages: nat, sunk: seq<Rt>): Attempt {
    if se.checks == 0 then Attempt(se, Some(Cancelled), sunk, [])
    else
      var live := se.(checks := se.checks - 1);
      if 0 < cap <= pages then Attempt(live, Some(Capped), sunk, [])
      else
        var page := pager(live, sunk);
        Attempt(page.after, page.exit, page.sunk, [page])
  }

  ghost function Looped(pager: Pager, cap: int, se: Session, pages: nat, sunk: seq<Rt>): Run
    requires Winding(pager)
    decreases se.checks
  {
    var a := Attempted(pager, cap, se, pages, sunk);
    match a.out
    case Some(exit) => Run(a.after, exit, a.sunk, a.done)
    case None =>
      var rest := Looped(pager, cap, a.after, pages + 1, a.sunk);
      rest.(ledger := a.done + rest.ledger)
  }

  lemma PagesWind(w: World, doc: Doc)
    ensures Winding(PagerOf(w, doc))
  {
  }

  ghost function PageLoop(w: World, doc: Doc, cap: int, se: Session): Run {
    PagesWind(w, doc);
    Looped(PagerOf(w, doc), cap, se, 0, [])
  }

  // ---- lifetimes ----

  function ScratchFields(doc: Doc): set<string> {
    PageTargets(doc.pagination)
  }

  function ExtractFields(doc: Doc): set<string> {
    set r, f | r in doc.requests && f in ExtractTargets(r.extract) :: f
  }

  function PersistentFields(doc: Doc): set<string> {
    Targets(doc.progress) + ExtractFields(doc)
  }

  // ---- start and end of a drain ----

  /** seedDefaults, visiting the declared fields in the given order; None when a default fails. */
  function Seeded(lib: Lib, doc: Doc, env: Env, order: seq<string>): Option<Bindings>
    decreases |order|
  {
    if order == [] then Some(env.state)
    else if order[0] !in doc.state || doc.state[order[0]].default.None? then Seeded(lib, doc, env, order[1..])
    else match EvalValue(lib, env, doc.state[order[0]].default.value)
      case Err => None
      case Ok(v) => Seeded(lib, doc, env.(state := env.state[order[0] := v]), order[1..])
  }

  /** resetPerDrainScratch over the scratch fields in the given order. */
  function Reset(lib: Lib, doc: Doc, env: Env, order: seq<string>): Committed
    decreases |order|
  {
    if order == [] then Committed(env.state, true)
    else
      var f := order[0];
      if f !in doc.state || doc.state[f].default.None? then Reset(lib, doc, env.(state := env.state - {f}), order[1..])
      else match EvalValue(lib, env, doc.state[f].default.value)
        case Err => Committed(env.state, false)
        case Ok(v) => Reset(lib, doc, env.(state := env.state[f := v]), order[1..])
  }

  function SnapshotOf(doc: Doc, state: Bindings): Bindings {
    map f | f in state && f in doc.state && f !in ScratchFields(doc) :: state[f]
  }

  /** newScope: defaults first, the snapshot on top. */
  function Opened(w: World, doc: Doc, snap: Bindings, checks: nat, order: seq<string>): Option<Session> {
    var empty := Opening(w, checks);
    match Seeded(w.lib, doc, empty.env, order)
    case None => None
    case Some(state) => Some(WithState(empty, state + snap))
  }

  const DEFAULT_MAX_PAGES := 10_000

  function PageCap(maxPages: int): int {
    if maxPages == 0 then DEFAULT_MAX_PAGES else maxPages
  }

  /** Everything between the load and the teardown. */
  ghost function Drained(w: World, doc: Doc, maxPages: int, loaded: Session, order: seq<string>): Run {
    var c := Reset(w.lib, doc, loaded.env, order);
    var ready := WithState(loaded, c.state);
    if c.ok then PageLoop(w, doc, PageCap(maxPages), ready) else Run(ready, Errored, [], [])
  }
}
