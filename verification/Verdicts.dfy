/** From what a server answers to what becomes of the page: statuses, `on_status`, `error.mode`, and the step that
    produces the events (client/http.go, client/runner.go runRequest and runIteration, docs/runtime.md). */
module Verdicts {
  import opened Syntax
  import opened Runtime
  import opened Scopes
  import opened Eval
  import opened Session
  import opened Writes
  import opened Pages
  import opened Requests
  import opened FanOuts
  import opened Drains
  import opened Frames
  import opened Ledger
  import opened StepResults

  // ---- one request ----

  /** Without a list only 200 is expected, with one exactly its members are. */
  lemma ExpectedStatuses(list: seq<int>, status: int)
    ensures StatusExpected([], status) <==> status == 200
    ensures list != [] ==> (StatusExpected(list, status) <==> exists i :: 0 <= i < |list| && list[i] == status)
  {
  }

  /** What a call brings back. A reply with an expected status and a body that decodes is a response with that body
      and those headers, unless its cache block cannot store it; an unexpected status is rejected; no reply and a
      body that does not decode are failures. Nothing is bound in the scope. */
  lemma ReplyMeaning(w: World, se: Session, req: Request, reply: Reply)
    ensures var (after, ex) := Received(w, se, req, reply);
      && after.env == se.env.(cache := after.env.cache) && after.wire == se.wire
      && (reply.Reply? && !StatusExpected(req.expectStatus, reply.status) ==>
            ex == Rejected(reply.status) && after == se)
      && (reply.Reply? && StatusExpected(req.expectStatus, reply.status) && reply.body.Some? && ex.Got? ==>
            ex == Got(reply.headers, reply.body.value))
      && (reply.Reply? && StatusExpected(req.expectStatus, reply.status) && reply.body.Some? && req.cache.None? ==>
            ex.Got? && after == se)
      && (reply.Down? || (StatusExpected(req.expectStatus, reply.status) && reply.body.None?) ==>
            ex == Failed && after == se)
  {
  }

  /** A response is bound in the scope. */
  function Seen(after: Session, ex: Exchange): Session
    requires ex.Got?
  {
    after.(env := after.env.(body := ex.body, headers := ex.headers))
  }

  /** The request's own predicate turns the response down while the context is live. */
  predicate TurnedDown(w: World, seen: Session, req: Request) {
    && req.terminateWhen.Some? && EvalPredicate(w.lib, seen.env, req.terminateWhen.value) == Ok(false)
    && seen.checks > 0
  }

  function NextTry(seen: Session): Session
    requires seen.checks > 0
  {
    seen.(checks := seen.checks - 1)
  }

  /** The last exchange of a request, with the scope that sees its response: the first failure, or the first response
      that is not turned down. */
  function LastFiring(w: World, doc: Doc, se: Session, step: nat, req: Request): (Session, Exchange)
    decreases se.checks
  {
    var (after, ex) := Executed(w, se, step, req, doc.auth);
    if !ex.Got? then (after, ex)
    else if TurnedDown(w, Seen(after, ex), req) then LastFiring(w, doc, NextTry(Seen(after, ex)), step, req)
    else (Seen(after, ex), ex)
  }

  function LastExchange(w: World, doc: Doc, se: Session, step: nat, req: Request): Exchange {
    LastFiring(w, doc, se, step, req).1
  }

  /** The step a response that is not turned down leads to. */
  predicate SucceedsAs(w: World, req: Request, seen: Session, ex: Exchange, status: Step)
    requires ex.Got?
  {
    if req.terminateWhen.None? || EvalPredicate(w.lib, seen.env, req.terminateWhen.value) == Ok(true)
    then status == StepOk(ex.headers, ex.body)
    else status == StepFatal
  }

  lemma FiringSettles(w: World, doc: Doc, se: Session, step: nat, req: Request)
    requires Executed(w, se, step, req, doc.auth).1.Got?
    ensures var (after, ex) := Executed(w, se, step, req, doc.auth);
      !TurnedDown(w, Seen(after, ex), req) ==>
        SucceedsAs(w, req, Seen(after, ex), ex, Requested(w, doc, se, step, req).1)
  {
  }

  lemma FiresAgain(w: World, doc: Doc, se: Session, step: nat, req: Request)
    requires Executed(w, se, step, req, doc.auth).1.Got?
    ensures var (after, ex) := Executed(w, se, step, req, doc.auth); var seen := Seen(after, ex);
      TurnedDown(w, seen, req) ==>
        seen.checks <= se.checks && Requested(w, doc, se, step, req) == Requested(w, doc, NextTry(seen), step, req)
  {
  }

  /** A request that ends in a response succeeds with it when its predicate accepts it, or when it has none; it is
      fatal when the predicate fails, or turns the response down in a context that is over. */
  lemma {:induction false} ResponseMeaning(w: World, doc: Doc, se: Session, step: nat, req: Request)
    requires LastExchange(w, doc, se, step, req).Got?
    ensures var (seen, ex) := LastFiring(w, doc, se, step, req);
      && seen.env.body == ex.body && seen.env.headers == ex.headers
      && SucceedsAs(w, req, seen, ex, Requested(w, doc, se, step, req).1)
    decreases se.checks
  {
    var (after, ex) := Executed(w, se, step, req, doc.auth);
    if ex.Got? {
      FiringSettles(w, doc, se, step, req);
      FiresAgain(w, doc, se, step, req);
      if TurnedDown(w, Seen(after, ex), req) {
        ResponseMeaning(w, doc, NextTry(Seen(after, ex)), step, req);
      }
    }
  }

  /** The mode's answer to a failure nobody asked for. */
  predicate FallsBack(mode: ErrorMode, status: Step) {
    && (mode == Standard <==> status == StepBreak)
    && (mode == WarnMode <==> status == StepWarn)
    && (mode == FailMode <==> status == StepFatal)
  }

  /** What `on_status` says for a status, and `error.mode` when it says nothing, or when there was no status. */
  predicate EndsAs(doc: Doc, req: Request, ex: Exchange, status: Step)
    requires !ex.Got?
  {
    && (ex.Failed? || ex.status !in req.onStatus ==> FallsBack(doc.errorMode, status))
    && (ex.Rejected? && ex.status in req.onStatus ==>
          && (req.onStatus[ex.status] == Skip <==> status == StepSkip)
          && (req.onStatus[ex.status] == Fail <==> status == StepFatal)
          && (req.onStatus[ex.status] == EmptyEvents ==> status == StepEmpty)
          && (req.onStatus[ex.status] == InvalidateCache ==> status in {StepEmpty, StepInvalidate})
          && status !in {StepWarn, StepBreak})
  }

  lemma DispatchEnds(doc: Doc, se: Session, req: Request, ex: Exchange)
    requires !ex.Got?
    ensures EndsAs(doc, req, ex, Dispatched(doc, se, req, ex).1)
  {
  }

  /** A request that ends in a failure ends that way. */
  lemma {:induction false} FailureMeaning(w: World, doc: Doc, se: Session, step: nat, req: Request)
    requires !LastExchange(w, doc, se, step, req).Got?
    ensures EndsAs(doc, req, LastExchange(w, doc, se, step, req), Requested(w, doc, se, step, req).1)
    decreases se.checks
  {
    FailsAtOnce(w, doc, se, step, req);
    var (after, ex) := Executed(w, se, step, req, doc.auth);
    if ex.Got? {
      FiresAgain(w, doc, se, step, req);
      FailureMeaning(w, doc, NextTry(Seen(after, ex)), step, req);
    } else {
      DispatchEnds(doc, after, req, ex);
    }
  }

  lemma FailsAtOnce(w: World, doc: Doc, se: Session, step: nat, req: Request)
    ensures var (after, ex) := Executed(w, se, step, req, doc.auth);
      !ex.Got? ==> Requested(w, doc, se, step, req) == Dispatched(doc, after, req, ex)
  {
  }

  // ---- where the chain is ----

  const FIRST := Chain(Accepted, Nil, map[], false)

  /** The iteration gets to its k-th step, with this session and this much of the chain behind it. */
  predicate Reaches(w: World, doc: Doc, se: Session, k: nat, at: Session, chain: Chain)
    requires k <= |doc.requests|
  {
    Folded(StepperOf(w, doc), k, IterationStart(se), 0, FIRST) == (at, Next(chain))
  }

  lemma {:induction false} FoldedOn(step: Stepper, k: nat, n: nat, se: Session, i: nat, chain: Chain)
    requires i <= k <= n
    ensures var (at, link) := Folded(step, k, se, i, chain);
      link.Next? ==> Folded(step, n, se, i, chain) == Folded(step, n, at, k, link.chain)
    decreases k - i
  {
    if i < k {
      var (after, link) := step(se, i, chain);
      if link.Next? {
        FoldedOn(step, k, n, after, i + 1, link.chain);
      }
    }
  }

  /** From the k-th step on, the iteration is the chain from there. */
  lemma IterationFrom(w: World, doc: Doc, se: Session, k: nat, at: Session, chain: Chain)
    requires k < |doc.requests| && Reaches(w, doc, se, k, at, chain)
    ensures var (after, link) := StepDone(w, doc, at, k, chain);
      ChainDone(w, doc, IterationStart(se), 0, FIRST) ==
        match link case EndWith(_) => (after, link) case Next(c) => ChainDone(w, doc, after, k + 1, c)
  {
    var step, n := StepperOf(w, doc), |doc.requests|;
    FoldedOn(step, k, n, IterationStart(se), 0, FIRST);
    ChainIsFolded(w, doc, IterationStart(se), 0, FIRST);
    ChainIsFolded(w, doc, at, k, chain);
    ChainUnfolds(w, doc, at, k, chain);
  }

  /** The gate is open. */
  predicate Open(lib: Lib, env: Env, gate: Option<Predicate>) {
    gate.Some? ==> EvalPredicate(lib, env, gate.value) == Ok(true)
  }

  /** Nothing was delivered, and neither the progress nor the pagination ran. */
  predicate Idle(page: Page) {
    page.events == [] && !page.progressed && !page.advanced && page.after == page.chained
  }

  /** A step that ends the chain decides the page. */
  lemma EndDecidesPage(w: World, doc: Doc, se: Session, sunk: seq<Rt>, k: nat, at: Session, chain: Chain)
    requires k < |doc.requests| && Reaches(w, doc, se, k, at, chain)
    requires StepDone(w, doc, at, k, chain).1.EndWith?
    ensures var page, kind := PageDone(w, doc, se, sunk), StepDone(w, doc, at, k, chain).1.kind;
      && page.kind == kind
      && (kind == Aborted ==> page.exit == Some(Errored) && Idle(page))
      && (kind == Broke ==> page.exit == Some(StandardBreak) && Idle(page))
      && (kind == Invalidated ==> page.exit == None && Idle(page))
      && (kind == Warned ==> page.events == [] && !page.progressed && page.advanced)
  {
    IterationFrom(w, doc, se, k, at, chain);
    PageParts(w, doc, se, sunk);
    PageObeysVerdict(w, doc, se, sunk);
    PageOffers(w, doc, se, sunk);
  }

  // ---- failures ----

  /** The k-th step is a single request, and its exchange fails. */
  predicate FailsAt(w: World, doc: Doc, at: Session, k: nat, ex: Exchange)
    requires k < |doc.requests|
  {
    var req := doc.requests[k];
    && req.fanOut.None? && Open(w.lib, Unbound(at).env, req.gate)
    && LastExchange(w, doc, Unbound(at), k, req) == ex && !ex.Got?
  }

  lemma FailedStep(w: World, doc: Doc, at: Session, k: nat, chain: Chain, ex: Exchange)
    requires k < |doc.requests| && FailsAt(w, doc, at, k, ex)
    ensures var status := Requested(w, doc, Unbound(at), k, doc.requests[k]).1;
      var link := StepDone(w, doc, at, k, chain).1;
      && (status == StepFatal ==> link == EndWith(Aborted))
      && (status == StepBreak ==> link == EndWith(Broke))
      && (status == StepWarn ==> link == EndWith(Warned))
      && (status == StepInvalidate ==> link == EndWith(Invalidated))
      && (status in {StepSkip, StepEmpty} && k != ProducerIndex(doc.requests) ==> link == Next(chain))
      && (status == StepSkip && k == ProducerIndex(doc.requests) ==> link == Next(Chain(Skipped, Nil, map[], true)))
      && (status == StepEmpty && k == ProducerIndex(doc.requests) ==> link == Next(Chain(Emptied, Nil, map[], true)))
  {
  }

  /** A status mapped to `fail`, on any step: the page ends the drain with an error, and nothing is delivered, written
      or advanced. */
  lemma FailAbortsPage(w: World, doc: Doc, se: Session, sunk: seq<Rt>, k: nat, at: Session, chain: Chain, s: int)
    requires k < |doc.requests| && Reaches(w, doc, se, k, at, chain) && FailsAt(w, doc, at, k, Rejected(s))
    requires s in doc.requests[k].onStatus && doc.requests[k].onStatus[s] == Fail
    ensures var page := PageDone(w, doc, se, sunk);
      page.kind == Aborted && page.exit == Some(Errored) && Idle(page)
  {
    FailureMeaning(w, doc, Unbound(at), k, doc.requests[k]);
    FailedStep(w, doc, at, k, chain, Rejected(s));
    EndDecidesPage(w, doc, se, sunk, k, at, chain);
  }

  /** A response whose extracts cannot all be taken, on any step, is an error in every mode. */
  lemma FailedExtractAbortsPage(w: World, doc: Doc, se: Session, sunk: seq<Rt>, k: nat, at: Session, chain: Chain,
                                headers: Headers, body: Rt)
    requires k < |doc.requests| && Reaches(w, doc, se, k, at, chain)
    requires doc.requests[k].fanOut.None? && Open(w.lib, Unbound(at).env, doc.requests[k].gate)
    requires Requested(w, doc, Unbound(at), k, doc.requests[k]).1 == StepOk(headers, body)
    requires var seen := Requested(w, doc, Unbound(at), k, doc.requests[k]).0;
      !Extracted(w.lib, seen.env, body, headers, doc.requests[k].extract).1
    ensures var page := PageDone(w, doc, se, sunk);
      page.kind == Aborted && page.exit == Some(Errored) && Idle(page)
  {
    ExtractsFailStep(w, doc, at, k, chain, headers, body);
    EndDecidesPage(w, doc, se, sunk, k, at, chain);
  }

  lemma ExtractsFailStep(w: World, doc: Doc, at: Session, k: nat, chain: Chain, headers: Headers, body: Rt)
    requires k < |doc.requests| && doc.requests[k].fanOut.None?
    requires Open(w.lib, Unbound(at).env, doc.requests[k].gate)
    requires Requested(w, doc, Unbound(at), k, doc.requests[k]).1 == StepOk(headers, body)
    requires var seen := Requested(w, doc, Unbound(at), k, doc.requests[k]).0;
      !Extracted(w.lib, seen.env, body, headers, doc.requests[k].extract).1
    ensures StepDone(w, doc, at, k, chain).1 == EndWith(Aborted)
  {
  }

  /** A status nobody mapped, or a failure without a status, on any step: `standard` ends the drain quietly, `warn`
      only advances, `fail` is an error. */
  lemma UnmappedFailureDecidesPage(w: World, doc: Doc, se: Session, sunk: seq<Rt>, k: nat, at: Session, chain: Chain,
                                   ex: Exchange)
    requires k < |doc.requests| && Reaches(w, doc, se, k, at, chain) && FailsAt(w, doc, at, k, ex)
    requires ex.Failed? || ex.status !in doc.requests[k].onStatus
    ensures var page := PageDone(w, doc, se, sunk);
      && (doc.errorMode == Standard ==> page.kind == Broke && page.exit == Some(StandardBreak) && Idle(page))
      && (doc.errorMode == WarnMode ==> page.kind == Warned && page.events == [] && !page.progressed && page.advanced)
      && (doc.errorMode == FailMode ==> page.kind == Aborted && page.exit == Some(Errored) && Idle(page))
  {
    FailureMeaning(w, doc, Unbound(at), k, doc.requests[k]);
    FailedStep(w, doc, at, k, chain, ex);
    EndDecidesPage(w, doc, se, sunk, k, at, chain);
  }

  // ---- the producer ----

  /** The producer is the first request with an events path. */
  lemma {:induction false} ProducerMeaning(requests: seq<Request>)
    ensures var i := ProducerIndex(requests);
      && i < |requests|
      && (0 <= i ==> requests[i].eventsAt.Some?)
      && (forall j | 0 <= j < |requests| && (i < 0 || j < i) :: requests[j].eventsAt.None?)
  {
    if requests != [] && requests[0].eventsAt.None? {
      ProducerMeaning(requests[1..]);
      assert forall j | 1 <= j < |requests| :: requests[j] == requests[1..][j - 1];
    }
  }

  lemma OtherStepKeepsChain(w: World, doc: Doc, se: Session, i: nat, chain: Chain)
    requires i < |doc.requests| && i != ProducerIndex(doc.requests)
    ensures var link := StepDone(w, doc, se, i, chain).1; link.Next? ==> link.chain == chain
  {
  }

  /** Steps behind the producer do not touch what the chain knows of it. */
  lemma {:induction false} LaterStepsKeepChain(w: World, doc: Doc, se: Session, i: nat, chain: Chain)
    requires ProducerIndex(doc.requests) < i <= |doc.requests|
    ensures var link := ChainDone(w, doc, se, i, chain).1; link.Next? ==> link.chain == chain
    decreases |doc.requests| - i
  {
    if i < |doc.requests| {
      ChainUnfolds(w, doc, se, i, chain);
      OtherStepKeepsChain(w, doc, se, i, chain);
      var (after, link) := StepDone(w, doc, se, i, chain);
      if link.Next? {
        LaterStepsKeepChain(w, doc, after, i + 1, chain);
      }
    }
  }

  /** The steps behind the k-th all run or are passed over; none ends the chain. */
  predicate GoesOn(w: World, doc: Doc, at: Session, k: nat, chain: Chain)
    requires k < |doc.requests|
  {
    var (after, link) := StepDone(w, doc, at, k, chain);
    link.Next? && ChainDone(w, doc, after, k + 1, link.chain).1.Next?
  }

  /** When the producer is done and no step behind it ends the chain, the verdict is about what it left. */
  lemma ProducerDecides(w: World, doc: Doc, se: Session, k: nat, at: Session, chain: Chain)
    requires k < |doc.requests| && k == ProducerIndex(doc.requests)
    requires Reaches(w, doc, se, k, at, chain) && GoesOn(w, doc, at, k, chain)
    ensures var (chained, it) := IterationDone(w, doc, IterationStart(se));
      it == Concluded(doc, chained.env, StepDone(w, doc, at, k, chain).1.chain)
  {
    IterationFrom(w, doc, se, k, at, chain);
    var (after, link) := StepDone(w, doc, at, k, chain);
    LaterStepsKeepChain(w, doc, after, k + 1, link.chain);
  }

  /** A status of the producer that is mapped to `skip` or `empty_events`: the page is skipped or emptied, without
      events, and its progress fires. */
  lemma SkipOrEmptyPage(w: World, doc: Doc, se: Session, sunk: seq<Rt>, k: nat, at: Session, chain: Chain, s: int)
    requires k < |doc.requests| && k == ProducerIndex(doc.requests)
    requires Reaches(w, doc, se, k, at, chain) && FailsAt(w, doc, at, k, Rejected(s)) && GoesOn(w, doc, at, k, chain)
    requires s in doc.requests[k].onStatus && doc.requests[k].onStatus[s] in {Skip, EmptyEvents}
    ensures var page := PageDone(w, doc, se, sunk);
      && page.kind == (if doc.requests[k].onStatus[s] == Skip then Skipped else Emptied)
      && page.events == [] && page.progressed
  {
    FailureMeaning(w, doc, Unbound(at), k, doc.requests[k]);
    FailedStep(w, doc, at, k, chain, Rejected(s));
    ProducerDecides(w, doc, se, k, at, chain);
    PageParts(w, doc, se, sunk);
    PageObeysVerdict(w, doc, se, sunk);
    PageOffers(w, doc, se, sunk);
  }

  /** When the producer is the last request, no step can come in between. */
  lemma LastStepGoesOn(w: World, doc: Doc, at: Session, k: nat, chain: Chain, s: int)
    requires k + 1 == |doc.requests| && FailsAt(w, doc, at, k, Rejected(s))
    requires s in doc.requests[k].onStatus && doc.requests[k].onStatus[s] in {Skip, EmptyEvents}
    ensures GoesOn(w, doc, at, k, chain)
  {
    FailureMeaning(w, doc, Unbound(at), k, doc.requests[k]);
    FailedStep(w, doc, at, k, chain, Rejected(s));
  }

  /** On another step the same statuses change nothing: the chain goes on as if the step had been gated. */
  lemma SkipElsewhereGoesOn(w: World, doc: Doc, at: Session, k: nat, chain: Chain, s: int)
    requires k < |doc.requests| && k != ProducerIndex(doc.requests) && FailsAt(w, doc, at, k, Rejected(s))
    requires s in doc.requests[k].onStatus && doc.requests[k].onStatus[s] in {Skip, EmptyEvents}
    ensures StepDone(w, doc, at, k, chain).1 == Next(chain)
    ensures SameResults(at.env, StepDone(w, doc, at, k, chain).0.env)
  {
    FailureMeaning(w, doc, Unbound(at), k, doc.requests[k]);
    FailedStep(w, doc, at, k, chain, Rejected(s));
    StepBinds(w, doc, at, k, chain);
  }

  // ---- the events of an accepted page ----

  lemma AnsweredStep(w: World, doc: Doc, at: Session, k: nat, chain: Chain)
    requires k < |doc.requests| && k == ProducerIndex(doc.requests) && AnswerOf(w, doc, at, k).Some?
    ensures var answer := AnswerOf(w, doc, at, k).value;
      StepDone(w, doc, at, k, chain).1 ==
        Next(chain.(body := answer.body, ran := true,
                    headers := match answer.headers case None => map[] case Some(h) => h))
  {
  }

  /** Up to the producer the chain knows nothing. */
  lemma {:induction false} ChainBeforeProducer(w: World, doc: Doc, se: Session, k: nat, i: nat)
    requires i <= k <= |doc.requests| && k <= ProducerIndex(doc.requests)
    ensures var link := Folded(StepperOf(w, doc), k, se, i, FIRST).1; link.Next? ==> link.chain == FIRST
    decreases k - i
  {
    if i < k {
      OtherStepKeepsChain(w, doc, se, i, FIRST);
      var (after, link) := StepDone(w, doc, se, i, FIRST);
      if link.Next? {
        ChainBeforeProducer(w, doc, after, k, i + 1);
      }
    }
  }

  /** When the producer answered and no step ended the chain, the page is about that answer: its events are the ones
      found in that body, its body and headers are what `response` reads in progress and pagination, and if the
      events cannot be located the drain ends with an error. */
  lemma AnswerMakesPage(w: World, doc: Doc, se: Session, k: nat, at: Session, chain: Chain)
    requires k < |doc.requests| && k == ProducerIndex(doc.requests) && Reaches(w, doc, se, k, at, chain)
    requires AnswerOf(w, doc, at, k).Some? && GoesOn(w, doc, at, k, chain) && doc.requests[k].eventsAt.Some?
    ensures var answer := AnswerOf(w, doc, at, k).value;
      var (chained, it) := IterationDone(w, doc, IterationStart(se));
      match ProducerEvents(chained.env, doc.requests[k], answer.body)
      case Err => it.kind == Aborted
      case Ok(events) =>
        it == Iteration(Accepted, answer.body, match answer.headers case None => map[] case Some(h) => h, events)
  {
    ChainBeforeProducer(w, doc, IterationStart(se), k, 0);
    AnsweredStep(w, doc, at, k, chain);
    ProducerDecides(w, doc, se, k, at, chain);
  }

  // ---- gates ----

  /** A closed gate passes over the step, a failing one ends the drain with an error. */
  lemma GateMeaning(w: World, doc: Doc, at: Session, k: nat, chain: Chain)
    requires k < |doc.requests| && doc.requests[k].gate.Some?
    ensures EvalPredicate(w.lib, Unbound(at).env, doc.requests[k].gate.value) == Ok(false) ==>
      StepDone(w, doc, at, k, chain) == (Unbound(at), Next(chain))
    ensures EvalPredicate(w.lib, Unbound(at).env, doc.requests[k].gate.value).Err? ==>
      StepDone(w, doc, at, k, chain) == (Unbound(at), EndWith(Aborted))
  {
  }

  /** A step starts without a response: it cannot tell what the step before it left there. */
  lemma StepsStartUnbound(w: World, doc: Doc, a: Session, b: Session, k: nat, chain: Chain)
    requires k < |doc.requests| && b.env == a.env.(body := b.env.body, headers := b.env.headers)
    requires b == a.(env := b.env)
    ensures StepDone(w, doc, b, k, chain) == StepDone(w, doc, a, k, chain)
  {
    assert Unbound(a) == Unbound(b);
  }

  /** A producer whose gate is closed leaves a page that only advances. */
  lemma ClosedProducerWarns(w: World, doc: Doc, se: Session, sunk: seq<Rt>, k: nat, at: Session, chain: Chain)
    requires k < |doc.requests| && k == ProducerIndex(doc.requests) && Reaches(w, doc, se, k, at, chain)
    requires doc.requests[k].gate.Some?
    requires EvalPredicate(w.lib, Unbound(at).env, doc.requests[k].gate.value) == Ok(false)
    requires GoesOn(w, doc, at, k, chain)
    ensures var page := PageDone(w, doc, se, sunk);
      page.kind == Warned && page.events == [] && !page.progressed && page.advanced
  {
    ChainBeforeProducer(w, doc, IterationStart(se), k, 0);
    GateMeaning(w, doc, at, k, chain);
    ProducerDecides(w, doc, se, k, at, chain);
    PageParts(w, doc, se, sunk);
    PageObeysVerdict(w, doc, se, sunk);
    PageOffers(w, doc, se, sunk);
  }

  // ---- fan-outs ----

  /** One item of a fan-out: a status mapped to `skip` or `empty_events` drops it, `fail` and `invalidate_cache` end
      the loop, and everything else falls back to the mode, `warn` dropping the item. */
  lemma ItemMeaning(w: World, doc: Doc, se: Session, step: nat, req: Request)
    ensures var (after, ex) := Executed(w, se, step, req, doc.auth);
      var verdict := ItemDone(w, doc, se, step, req).1;
      && (ex.Rejected? && ex.status in req.onStatus ==>
            && (req.onStatus[ex.status] in {Skip, EmptyEvents} <==> verdict == Dropped)
            && (req.onStatus[ex.status] == Fail <==> verdict == EndFatal)
            && (req.onStatus[ex.status] == InvalidateCache <==> verdict == EndInvalid))
      && (ex.Failed? || (ex.Rejected? && ex.status !in req.onStatus) ==>
            && (doc.errorMode == Standard <==> verdict == EndBreak)
            && (doc.errorMode == WarnMode <==> verdict == Dropped)
            && (doc.errorMode == FailMode <==> verdict == EndFatal))
      && (ex.Got? ==> if Extracted(w.lib, after.env, ex.body, ex.headers, req.extract).1
                      then verdict == Keep(ex.body, ex.headers) else verdict == EndFatal)
  {
  }

  /** How a fan-out that does not merge decides the page. */
  lemma FanOutDecidesPage(w: World, doc: Doc, se: Session, sunk: seq<Rt>, k: nat, at: Session, chain: Chain)
    requires k < |doc.requests| && Reaches(w, doc, se, k, at, chain) && doc.requests[k].fanOut.Some?
    requires Open(w.lib, Unbound(at).env, doc.requests[k].gate)
    ensures var page := PageDone(w, doc, se, sunk);
      match FannedOut(w, doc, Unbound(at), k, doc.requests[k], doc.requests[k].fanOut.value).1
      case FanFatal => page.kind == Aborted && page.exit == Some(Errored) && Idle(page)
      case FanBreak => page.kind == Broke && page.exit == Some(StandardBreak) && Idle(page)
      case FanInvalidated => page.kind == Invalidated && page.exit == None && Idle(page)
      case Merged(_, _) => true
  {
    if !FannedOut(w, doc, Unbound(at), k, doc.requests[k], doc.requests[k].fanOut.value).1.Merged? {
      EndDecidesPage(w, doc, se, sunk, k, at, chain);
    }
  }

  // ---- what progress and pagination see ----

  /** The scope of an iteration's verdict: `response` is the producer's answer, `events` the events found in it, or
      nothing. */
  function SeenBy(env: Env, it: Iteration): Env {
    env.(body := it.body, headers := it.headers,
         events := match it.events case None => Nil case Some(list) => Arr(list))
  }

  /** On every page that gets past its chain and its sink, the progress reads that scope, and the pagination reads
      it with the progress written. */
  lemma PageReadsAnswer(w: World, doc: Doc, se: Session, sunk: seq<Rt>)
    ensures var page := PageDone(w, doc, se, sunk);
      var (chained, it) := IterationDone(w, doc, IterationStart(se));
      var seen := SeenBy(chained.env, it);
      && (page.progressed ==> page.written.env == seen.(state := Progressed(w.lib, seen, doc.progress).state))
      && (page.advanced && !page.progressed ==> page.written.env == seen)
      && (page.advanced ==>
            page.after.env.state == AdvancePage(w.lib, page.written.env, doc.pagination).state)
  {
    PageParts(w, doc, se, sunk);
  }
}
