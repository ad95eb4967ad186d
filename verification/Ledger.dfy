/** What holds of every drain, read off its ledger of pages (client/runner.go Drain). The inductions run
    over an arbitrary page function; what the real one does is proved one page at a time. */
module Ledger {
  import opened Syntax
  import opened Runtime
  import opened Scopes
  import opened Session
  import opened Writes
  import opened Pages
  import opened Drains
  import opened Lifetimes
  import opened Frames

  // ---- the pages of a run ----

  /** Each page starts where the previous one ended, one context check later; only the last one can leave the
      loop, and then the run ends the way that page does. */
  lemma {:induction false} PageOf(pager: Pager, cap: int, se: Session, pages: nat, sunk: seq<Rt>, i: nat)
    returns (before: Session, sunkBefore: seq<Rt>)
    requires Winding(pager) && i < |Looped(pager, cap, se, pages, sunk).ledger|
    ensures var ledger := Looped(pager, cap, se, pages, sunk).ledger;
      var previous := if i == 0 then se else ledger[i - 1].after;
      && previous.checks > 0
      && before == previous.(checks := previous.checks - 1)
      && sunkBefore == (if i == 0 then sunk else ledger[i - 1].sunk)
      && ledger[i] == pager(before, sunkBefore)
      && (i + 1 < |ledger| ==> ledger[i].exit.None?)
      && (ledger[i].exit.Some? ==> Looped(pager, cap, se, pages, sunk).exit == ledger[i].exit.value)
    decreases se.checks
  {
    var a := Attempted(pager, cap, se, pages, sunk);
    if i == 0 {
      before, sunkBefore := se.(checks := se.checks - 1), sunk;
    } else {
      before, sunkBefore := PageOf(pager, cap, a.after, pages + 1, a.sunk, i - 1);
    }
  }

  /** A property of every page holds of every page of a run. */
  lemma AllPages(pager: Pager, cap: int, se: Session, property: Page -> bool)
    requires Winding(pager)
    requires forall b: Session, s: seq<Rt> :: property(pager(b, s))
    ensures forall page | page in Looped(pager, cap, se, 0, []).ledger :: property(page)
  {
    var ledger := Looped(pager, cap, se, 0, []).ledger;
    forall i | 0 <= i < |ledger| ensures property(ledger[i]) {
      var before, sunkBefore := PageOf(pager, cap, se, 0, [], i);
    }
  }

  /** A property of runs by the scope they start from: it holds of a run without pages, and of a page in front of
      a run it holds of. Pages are asked only about scopes outside a fan-out, and leave such scopes. */
  ghost predicate Inductive(holds: (Env, Run) -> bool, pager: Pager) {
    && (forall b: Session, s: seq<Rt> :: b.env.alias == "" ==> pager(b, s).after.env.alias == "")
    && (forall env: Env, run: Run :: run.ledger == [] && run.session.env == env ==> holds(env, run))
    && (forall b: Session, s: seq<Rt>, rest: Run :: b.env.alias == "" && holds(pager(b, s).after.env, rest) ==>
          holds(b.env, rest.(ledger := [pager(b, s)] + rest.ledger)))
  }

  lemma {:induction false} RunsHold(holds: (Env, Run) -> bool, pager: Pager, cap: int, se: Session, pages: nat,
                                    sunk: seq<Rt>)
    requires Winding(pager) && Inductive(holds, pager) && se.env.alias == ""
    ensures holds(se.env, Looped(pager, cap, se, pages, sunk))
    decreases se.checks
  {
    var a := Attempted(pager, cap, se, pages, sunk);
    if a.done != [] {
      var live := se.(checks := se.checks - 1);
      var rest := RestOf(pager, cap, se, pages, sunk);
      if a.out.None? {
        RunsHold(holds, pager, cap, a.after, pages + 1, a.sunk);
      }
      assert live.env.alias == "" && holds(pager(live, sunk).after.env, rest);
      LoopedIsPageAndRest(pager, cap, se, pages, sunk);
    }
  }

  /** The run behind the first page. */
  ghost function RestOf(pager: Pager, cap: int, se: Session, pages: nat, sunk: seq<Rt>): Run
    requires Winding(pager) && Attempted(pager, cap, se, pages, sunk).done != []
  {
    var a := Attempted(pager, cap, se, pages, sunk);
    if a.out.None? then Looped(pager, cap, a.after, pages + 1, a.sunk) else Run(a.after, a.out.value, a.sunk, [])
  }

  lemma LoopedIsPageAndRest(pager: Pager, cap: int, se: Session, pages: nat, sunk: seq<Rt>)
    requires Winding(pager) && Attempted(pager, cap, se, pages, sunk).done != []
    ensures se.checks > 0
    ensures var rest := RestOf(pager, cap, se, pages, sunk);
      Looped(pager, cap, se, pages, sunk) ==
        rest.(ledger := [pager(se.(checks := se.checks - 1), sunk)] + rest.ledger)
  {
    var a, rest := Attempted(pager, cap, se, pages, sunk), RestOf(pager, cap, se, pages, sunk);
    assert a.done == [pager(se.(checks := se.checks - 1), sunk)];
    assert a.done + [] == a.done;
  }

  // ---- the sink ----

  function LedgerEvents(ledger: seq<Page>): seq<Rt> {
    if ledger == [] then [] else ledger[0].events + LedgerEvents(ledger[1..])
  }

  lemma {:induction false} OfferedMeaning(w: World, sunk: seq<Rt>, events: seq<Rt>)
    ensures var (offered, ok) := Offered(w, sunk, events);
      && sunk <= offered <= sunk + events
      && (ok ==> offered == sunk + events)
      && (!ok ==> offered != sunk && !w.takes(offered))
      && (forall k | |sunk| < k <= |offered| :: k < |offered| || ok ==> w.takes(offered[..k]))
    decreases |events|
  {
    if events != [] {
      var next := sunk + [events[0]];
      assert sunk + events == next + events[1..];
      if w.takes(next) {
        OfferedMeaning(w, next, events[1..]);
        var (offered, ok) := Offered(w, next, events[1..]);
        assert offered[..|next|] == next;
      } else {
        assert next[..|next|] == next;
      }
    }
  }

  /** A page offers its own events in order, and leaves with SinkRefused exactly when one is refused. */
  ghost predicate Offering(w: World, pager: Pager) {
    forall se: Session, sunk: seq<Rt> ::
      Offered(w, sunk, pager(se, sunk).events) == (pager(se, sunk).sunk, pager(se, sunk).exit != Some(SinkRefused))
  }

  /** What the sink saw, against the events the pages had for it. */
  ghost predicate Delivered(w: World, sunk: seq<Rt>, run: Run) {
    && sunk <= run.sunk <= sunk + LedgerEvents(run.ledger)
    && (run.exit != SinkRefused ==> run.sunk == sunk + LedgerEvents(run.ledger))
    && (run.exit == SinkRefused ==> run.sunk != sunk && !w.takes(run.sunk))
    && (forall k | |sunk| < k <= |run.sunk| :: k < |run.sunk| || run.exit != SinkRefused ==> w.takes(run.sunk[..k]))
  }

  lemma {:induction false} RunsDeliver(w: World, pager: Pager, cap: int, se: Session, pages: nat, sunk: seq<Rt>)
    requires Winding(pager) && Offering(w, pager)
    ensures Delivered(w, sunk, Looped(pager, cap, se, pages, sunk))
    decreases se.checks
  {
    var a := Attempted(pager, cap, se, pages, sunk);
    if a.done != [] {
      var page := a.done[0];
      OfferedMeaning(w, sunk, page.events);
      if a.out.None? {
        RunsDeliver(w, pager, cap, a.after, pages + 1, a.sunk);
        DeliveredCons(w, sunk, page, Looped(pager, cap, a.after, pages + 1, a.sunk));
      } else {
        assert LedgerEvents([page]) == page.events + [];
      }
    }
  }

  lemma DeliveredCons(w: World, sunk: seq<Rt>, page: Page, rest: Run)
    requires sunk <= page.sunk == sunk + page.events && Delivered(w, page.sunk, rest)
    requires forall k | |sunk| < k <= |page.sunk| :: w.takes(page.sunk[..k])
    ensures Delivered(w, sunk, rest.(ledger := [page] + rest.ledger))
  {
    var run := rest.(ledger := [page] + rest.ledger);
    assert run.ledger[1..] == rest.ledger;
    assert sunk + (page.events + LedgerEvents(rest.ledger)) == page.sunk + LedgerEvents(rest.ledger);
    forall k | |sunk| < k <= |run.sunk| && (k < |run.sunk| || run.exit != SinkRefused) ensures w.takes(run.sunk[..k]) {
      if k <= |page.sunk| {
        assert run.sunk[..k] == page.sunk[..k];
      }
    }
  }

  lemma PageOffers(w: World, doc: Doc, se: Session, sunk: seq<Rt>)
    ensures var page := PageDone(w, doc, se, sunk);
      && (page.kind != Accepted ==> page.events == [])
      && Offered(w, sunk, page.events) == (page.sunk, page.exit != Some(SinkRefused))
  {
    PageParts(w, doc, se, sunk);
  }

  /** The sink is offered exactly the events of the accepted pages, in order: all of them, unless it
      refused one, which is then the last thing it saw; everything before that it took. */
  lemma SinkSeesAcceptedEvents(w: World, doc: Doc, cap: int, se: Session)
    ensures var r := PageLoop(w, doc, cap, se);
      && Delivered(w, [], r)
      && forall page | page in r.ledger :: page.kind != Accepted ==> page.events == []
  {
    PagesWind(w, doc);
    forall b: Session, s: seq<Rt> ensures Offered(w, s, PagerOf(w, doc)(b, s).events) ==
        (PagerOf(w, doc)(b, s).sunk, PagerOf(w, doc)(b, s).exit != Some(SinkRefused))
      ensures PagerOf(w, doc)(b, s).kind != Accepted ==> PagerOf(w, doc)(b, s).events == []
    {
      PageOffers(w, doc, b, s);
    }
    RunsDeliver(w, PagerOf(w, doc), cap, se, 0, []);
    AllPages(PagerOf(w, doc), cap, se, (page: Page) => page.kind != Accepted ==> page.events == []);
  }

  // ---- the verdicts ----

  /** What each verdict allows, for every page of every run. */
  predicate VerdictRules(page: Page) {
    && (page.progressed ==> page.kind in {Accepted, Skipped, Emptied})
    && (page.advanced ==> page.kind in {Accepted, Skipped, Emptied, Warned})
    && (page.kind in {Accepted, Skipped, Emptied} && page.exit != Some(SinkRefused) ==> page.progressed)
    && (page.kind == Warned ==> page.advanced)
    && (page.progressed && !page.advanced ==> page.exit == Some(Errored))
    && (page.kind == Invalidated ==> page.exit == None && page.after == page.chained)
    && (page.kind == Broke <==> page.exit == Some(StandardBreak))
    && (page.kind == Aborted ==> page.exit == Some(Errored))
    && (page.exit == None && page.kind != Invalidated ==> page.advanced)
    && (page.exit == Some(Finished) ==> page.advanced)
    && page.exit != Some(Cancelled) && page.exit != Some(Capped)
  }

  /** The page's progress fired and took effect; when it fired and failed, the page ends the drain there. */
  predicate ProgressLanded(page: Page) {
    page.progressed && page.advanced
  }

  lemma PageObeysVerdict(w: World, doc: Doc, se: Session, sunk: seq<Rt>)
    ensures VerdictRules(PageDone(w, doc, se, sunk))
  {
    PageParts(w, doc, se, sunk);
  }

  /** Progress runs for accepted, skipped and emptied pages alone, the advance for warnings too; an
      invalidated page stops at its chain and the loop goes on. */
  lemma VerdictsRule(w: World, doc: Doc, cap: int, se: Session)
    ensures forall page | page in PageLoop(w, doc, cap, se).ledger :: VerdictRules(page)
  {
    PagesWind(w, doc);
    forall b: Session, s: seq<Rt> ensures VerdictRules(PagerOf(w, doc)(b, s)) {
      PageObeysVerdict(w, doc, b, s);
    }
    AllPages(PagerOf(w, doc), cap, se, (page: Page) => VerdictRules(page));
  }

  // ---- lifetimes ----

  /** Stage by stage: the chain from `before` to `chained` writes only extract fields, the progress up to
      `written` only progress fields, the advance up to `after` only scratch fields, and a stage that was
      not attempted writes nothing. */
  ghost predicate StagesSeparate(doc: Doc, page: Page) {
    forall f: string ::
      && (f !in ExtractFields(doc) ==> SameField(page.before.env.state, page.chained.env.state, f))
      && (f !in Targets(doc.progress) || !page.progressed ==>
            SameField(page.chained.env.state, page.written.env.state, f))
      && (f !in ScratchFields(doc) || !page.advanced ==> SameField(page.written.env.state, page.after.env.state, f))
  }

  lemma SettledStages(w: World, doc: Doc, bound: Session, page: Page, f: string)
    requires !page.progressed && !page.advanced
    ensures var r := Settled(w, doc, bound, page);
      && (f !in Targets(doc.progress) || !r.progressed ==> SameField(bound.env.state, r.written.env.state, f))
      && (f !in ScratchFields(doc) || !r.advanced ==> SameField(r.written.env.state, r.after.env.state, f))
  {
    var c := ProgressOf(w.lib, doc, bound, page.kind);
    if f !in Targets(doc.progress) {
      ProgressTouchesTargets(w.lib, bound.env, doc.progress, f);
    }
    AdvanceTouchesTargets(w.lib, WithState(bound, c.state).env, doc.pagination, f);
  }

  lemma FinishedStages(w: World, doc: Doc, chained: Session, it: Iteration, sunk: seq<Rt>, se: Session, f: string)
    ensures var r := PageFinished(w, doc, chained, it, sunk, Blank(se, chained, it.kind, sunk));
      && (f !in Targets(doc.progress) || !r.progressed ==> SameField(chained.env.state, r.written.env.state, f))
      && (f !in ScratchFields(doc) || !r.advanced ==> SameField(r.written.env.state, r.after.env.state, f))
  {
    var bound := BindPage(chained, it);
    var events := if it.kind == Accepted then EventList(it) else [];
    var blank := Blank(se, chained, it.kind, sunk);
    SettledStages(w, doc, bound, blank.(after := bound, events := events, sunk := Offered(w, sunk, events).0), f);
  }

  lemma FieldRespected(w: World, doc: Doc, se: Session, sunk: seq<Rt>, f: string)
    ensures var page := PageDone(w, doc, se, sunk);
      && (f !in Targets(doc.progress) || !page.progressed ==>
            SameField(page.chained.env.state, page.written.env.state, f))
      && (f !in ScratchFields(doc) || !page.advanced ==> SameField(page.written.env.state, page.after.env.state, f))
  {
    PageParts(w, doc, se, sunk);
    var (chained, it) := IterationDone(w, doc, IterationStart(se));
    FinishedStages(w, doc, chained, it, sunk, se, f);
  }

  /** Every page of every document keeps its stages apart. */
  lemma PageStages(w: World, doc: Doc, se: Session, sunk: seq<Rt>)
    ensures PageDone(w, doc, se, sunk).before == se
    ensures StagesSeparate(doc, PageDone(w, doc, se, sunk))
  {
    var page := PageDone(w, doc, se, sunk);
    PageParts(w, doc, se, sunk);
    forall f: string
      ensures f !in ExtractFields(doc) ==> SameField(page.before.env.state, page.chained.env.state, f)
      ensures f !in Targets(doc.progress) || !page.progressed ==>
        SameField(page.chained.env.state, page.written.env.state, f)
      ensures f !in ScratchFields(doc) || !page.advanced ==> SameField(page.written.env.state, page.after.env.state, f)
    {
      FieldRespected(w, doc, se, sunk, f);
      if f !in ExtractFields(doc) {
        ChainPartKeepsField(w, doc, se, sunk, f);
      }
    }
  }

  /** The lifetimes, for one page: a scratch field changes in the advance alone, a persistent field in the
      chain or the progress alone, and every other field not at all. */
  ghost predicate LifetimesRespected(doc: Doc, page: Page) {
    forall f: string ::
      && (f !in PersistentFields(doc) ==> SameField(page.before.env.state, page.chained.env.state, f))
      && (f !in PersistentFields(doc) ==> SameField(page.chained.env.state, page.written.env.state, f))
      && (f !in ScratchFields(doc) ==> SameField(page.written.env.state, page.after.env.state, f))
  }

  lemma StagesRespectLifetimes(doc: Doc, page: Page)
    requires StagesSeparate(doc, page)
    ensures LifetimesRespected(doc, page)
  {
  }

  /** A field no page changes is at the end of a run what it was at the start. */
  lemma {:induction false} FieldKept(pager: Pager, cap: int, se: Session, pages: nat, sunk: seq<Rt>, f: string)
    requires Winding(pager)
    requires forall b: Session, s: seq<Rt> :: SameField(b.env.state, pager(b, s).after.env.state, f)
    ensures SameField(se.env.state, Looped(pager, cap, se, pages, sunk).session.env.state, f)
    decreases se.checks
  {
    var a := Attempted(pager, cap, se, pages, sunk);
    if a.out.None? {
      FieldKept(pager, cap, a.after, pages + 1, a.sunk, f);
    }
  }

  /** On every document the validator's lifetime check accepts the two kinds of fields are disjoint, so that on
      every page of every drain a scratch field is unchanged up to the progress, a persistent field is
      unchanged by the advance, and an operator's field is unchanged throughout the drain. */
  lemma LifetimesHoldOverDrains(w: World, doc: Doc, cap: int, se: Session)
    requires LifetimesOk(doc)
    ensures ScratchFields(doc) !! PersistentFields(doc)
    ensures var r := PageLoop(w, doc, cap, se);
      && (forall page | page in r.ledger :: StagesSeparate(doc, page) && LifetimesRespected(doc, page))
      && (forall f: string | Classify(doc, f) == Some(OperatorConfig) ::
            SameField(se.env.state, r.session.env.state, f))
  {
    PagesWind(w, doc);
    var pager := PagerOf(w, doc);
    forall b: Session, s: seq<Rt>
      ensures StagesSeparate(doc, pager(b, s)) && LifetimesRespected(doc, pager(b, s)) && pager(b, s).before == b
    {
      PageStages(w, doc, b, s);
      StagesRespectLifetimes(doc, pager(b, s));
    }
    var r := PageLoop(w, doc, cap, se);
    forall i | 0 <= i < |r.ledger| ensures StagesSeparate(doc, r.ledger[i]) && LifetimesRespected(doc, r.ledger[i]) {
      var before, sunkBefore := PageOf(pager, cap, se, 0, [], i);
    }
    forall f: string | Classify(doc, f) == Some(OperatorConfig)
      ensures SameField(se.env.state, r.session.env.state, f)
    {
      FieldKept(pager, cap, se, 0, [], f);
    }
  }

  /** Nothing was delivered, and these fields are as before. */
  ghost predicate Untouched(fields: set<string>, page: Page) {
    page.events == [] && forall f | f in fields :: SameField(page.before.env.state, page.after.env.state, f)
  }

  ghost predicate Retrying(fields: set<string>, pager: Pager) {
    forall b: Session, s: seq<Rt> ::
      pager(b, s).before == b && (pager(b, s).kind == Invalidated ==> Untouched(fields, pager(b, s)))
  }

  lemma RunsRetrySamePage(fields: set<string>, pager: Pager, cap: int, se: Session, i: nat)
    requires Winding(pager) && Retrying(fields, pager)
    requires i + 1 < |Looped(pager, cap, se, 0, []).ledger|
    requires Looped(pager, cap, se, 0, []).ledger[i].kind == Invalidated
    ensures var ledger := Looped(pager, cap, se, 0, []).ledger;
      && ledger[i].events == []
      && forall f | f in fields :: SameField(ledger[i].before.env.state, ledger[i + 1].before.env.state, f)
  {
    var ledger := Looped(pager, cap, se, 0, []).ledger;
    var b, s := PageOf(pager, cap, se, 0, [], i);
    var c, t := PageOf(pager, cap, se, 0, [], i + 1);
    assert Untouched(fields, ledger[i]) && ledger[i + 1].before == c && c.env == ledger[i].after.env;
  }

  lemma PageRetries(w: World, doc: Doc, se: Session, sunk: seq<Rt>)
    requires LifetimesOk(doc)
    ensures var page := PageDone(w, doc, se, sunk);
      page.before == se && (page.kind == Invalidated ==> Untouched(ScratchFields(doc), page))
  {
    PageParts(w, doc, se, sunk);
    PageStages(w, doc, se, sunk);
    StagesRespectLifetimes(doc, PageDone(w, doc, se, sunk));
  }

  /** An invalidated page leaves every scratch field as it was and delivers nothing, so the next
      iteration asks for the same page again. */
  lemma InvalidatedRetriesSamePage(w: World, doc: Doc, cap: int, se: Session, i: nat)
    requires LifetimesOk(doc)
    requires i + 1 < |PageLoop(w, doc, cap, se).ledger|
    requires PageLoop(w, doc, cap, se).ledger[i].kind == Invalidated
    ensures var ledger := PageLoop(w, doc, cap, se).ledger;
      && ledger[i].events == []
      && forall f | f in ScratchFields(doc) :: SameField(ledger[i].before.env.state, ledger[i + 1].before.env.state, f)
  {
    PagesWind(w, doc);
    forall b: Session, s: seq<Rt>
      ensures PagerOf(w, doc)(b, s).before == b
      ensures PagerOf(w, doc)(b, s).kind == Invalidated ==> Untouched(ScratchFields(doc), PagerOf(w, doc)(b, s))
    {
      PageRetries(w, doc, b, s);
    }
    RunsRetrySamePage(ScratchFields(doc), PagerOf(w, doc), cap, se, i);
  }

  // ---- the page cap ----

  predicate AllGoOn(run: Run) {
    forall i | 0 <= i < |run.ledger| :: run.ledger[i].exit == None
  }

  /** The context checks left behind the last page. */
  function ChecksLeft(run: Run, startChecks: nat): nat {
    if run.ledger == [] then startChecks else run.ledger[|run.ledger| - 1].after.checks
  }

  predicate CapRules(run: Run, left: int, startChecks: nat) {
    && |run.ledger| <= left
    && (run.exit == Capped <==> |run.ledger| == left && AllGoOn(run) && ChecksLeft(run, startChecks) > 0)
  }

  lemma {:induction false} RunsRespectCap(pager: Pager, cap: int, se: Session, pages: nat, sunk: seq<Rt>)
    requires Winding(pager) && 0 < cap && pages <= cap
    requires forall b: Session, s: seq<Rt> :: pager(b, s).exit != Some(Capped)
    ensures CapRules(Looped(pager, cap, se, pages, sunk), cap - pages, se.checks)
    decreases se.checks
  {
    var a := Attempted(pager, cap, se, pages, sunk);
    if a.out.None? {
      RunsRespectCap(pager, cap, a.after, pages + 1, a.sunk);
      CapCons(a.done[0], Looped(pager, cap, a.after, pages + 1, a.sunk), cap - pages - 1, se.checks);
    }
  }

  lemma CapCons(page: Page, rest: Run, left: nat, checks: nat)
    requires page.exit == None && CapRules(rest, left, page.after.checks)
    ensures CapRules(rest.(ledger := [page] + rest.ledger), left + 1, checks)
  {
    var run := rest.(ledger := [page] + rest.ledger);
    assert forall i | 0 <= i < |rest.ledger| :: run.ledger[i + 1] == rest.ledger[i];
  }

  /** With a positive cap at most that many iterations start. The cap error comes out exactly when that
      many pages all asked to go on and the context was still live at the check. */
  lemma PageCapIsExact(w: World, doc: Doc, cap: int, se: Session)
    requires 0 < cap
    ensures CapRules(PageLoop(w, doc, cap, se), cap, se.checks)
  {
    PagesWind(w, doc);
    forall b: Session, s: seq<Rt> ensures PagerOf(w, doc)(b, s).exit != Some(Capped) {
      PageObeysVerdict(w, doc, b, s);
    }
    RunsRespectCap(PagerOf(w, doc), cap, se, 0, []);
  }

  /** A drain without a configured limit stops after ten thousand pages, one with a negative limit has no cap. */
  lemma DrainCap(w: World, doc: Doc, maxPages: int, se: Session)
    ensures maxPages == 0 ==> CapRules(PageLoop(w, doc, PageCap(maxPages), se), 10_000, se.checks)
    ensures maxPages > 0 ==> CapRules(PageLoop(w, doc, PageCap(maxPages), se), maxPages, se.checks)
    ensures maxPages < 0 ==> PageLoop(w, doc, PageCap(maxPages), se).exit != Capped
  {
    if maxPages >= 0 {
      PageCapIsExact(w, doc, PageCap(maxPages), se);
    } else {
      PagesWind(w, doc);
      forall b: Session, s: seq<Rt> ensures PagerOf(w, doc)(b, s).exit != Some(Capped) {
        PageObeysVerdict(w, doc, b, s);
      }
      NoCap(PagerOf(w, doc), maxPages, se, 0, []);
    }
  }

  lemma {:induction false} NoCap(pager: Pager, cap: int, se: Session, pages: nat, sunk: seq<Rt>)
    requires Winding(pager) && cap <= 0
    requires forall b: Session, s: seq<Rt> :: pager(b, s).exit != Some(Capped)
    ensures Looped(pager, cap, se, pages, sunk).exit != Capped
    decreases se.checks
  {
    var a := Attempted(pager, cap, se, pages, sunk);
    if a.out.None? {
      NoCap(pager, cap, a.after, pages + 1, a.sunk);
    }
  }

  // ---- cancellation ----

  predicate CancelRules(run: Run, startChecks: nat) {
    run.exit == Cancelled <==> AllGoOn(run) && ChecksLeft(run, startChecks) == 0
  }

  lemma {:induction false} RunsCancel(pager: Pager, cap: int, se: Session, pages: nat, sunk: seq<Rt>)
    requires Winding(pager) && forall b: Session, s: seq<Rt> :: pager(b, s).exit != Some(Cancelled)
    ensures CancelRules(Looped(pager, cap, se, pages, sunk), se.checks)
    decreases se.checks
  {
    var a := Attempted(pager, cap, se, pages, sunk);
    if a.out.None? {
      RunsCancel(pager, cap, a.after, pages + 1, a.sunk);
      CancelCons(a.done[0], Looped(pager, cap, a.after, pages + 1, a.sunk), se.checks);
    }
  }

  lemma CancelCons(page: Page, rest: Run, checks: nat)
    requires page.exit == None && CancelRules(rest, page.after.checks)
    ensures CancelRules(rest.(ledger := [page] + rest.ledger), checks)
  {
    var run := rest.(ledger := [page] + rest.ledger);
    assert forall i | 0 <= i < |rest.ledger| :: run.ledger[i + 1] == rest.ledger[i];
  }

  /** A drain is cancelled exactly when every page asked to go on and the context was dead at the check behind the
      last one. */
  lemma CancellationIsExact(w: World, doc: Doc, cap: int, se: Session)
    ensures CancelRules(PageLoop(w, doc, cap, se), se.checks)
  {
    PagesWind(w, doc);
    forall b: Session, s: seq<Rt> ensures PagerOf(w, doc)(b, s).exit != Some(Cancelled) {
      PageObeysVerdict(w, doc, b, s);
    }
    RunsCancel(PagerOf(w, doc), cap, se, 0, []);
  }
}
