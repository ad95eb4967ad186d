/** What delivery has to do with the rest of a drain: the sink's answers can only cut a drain short, and
    whatever the emitter, events reach the sink before the state that moves past them is saved
    (client/runner.go Drain, client/emitter.go). */
module Delivery {
  import opened Syntax
  import opened Runtime
  import opened Session
  import opened Requests
  import opened FanOuts
  import opened Drains
  import opened Frames
  import opened Ledger
  import opened Emitter

  // ---- the chain does not depend on the sink ----

  ghost predicate SameWire(v: World, w: World) {
    v.lib == w.lib && v.reply == w.reply && v.clock == w.clock
  }

  lemma TokenSame(v: World, w: World, se: Session, grant: Grant)
    requires SameWire(v, w)
    ensures Authorized(v, se, grant) == Authorized(w, se, grant)
  {
  }

  lemma {:induction false} AuthSame(v: World, w: World, se: Session, auth: Auth)
    requires SameWire(v, w)
    ensures AuthApplied(v, se, auth) == AuthApplied(w, se, auth)
    decreases auth, 1
  {
    match auth {
      case OAuth2(grant) => TokenSame(v, w, se, grant);
      case MultiMode(branches, otherwise) =>
        BranchesSame(v, w, se, branches);
        AuthSame(v, w, se, otherwise);
      case _ =>
    }
  }

  lemma {:induction false} BranchesSame(v: World, w: World, se: Session, branches: seq<AuthBranch>)
    requires SameWire(v, w)
    ensures BranchApplied(v, se, branches) == BranchApplied(w, se, branches)
    decreases branches, 0
  {
    if branches != [] {
      ArmSame(v, w, se, branches[0]);
      BranchesSame(v, w, se, branches[1..]);
    }
  }

  lemma {:induction false} ArmSame(v: World, w: World, se: Session, b: AuthBranch)
    requires SameWire(v, w)
    ensures ArmApplied(v, se, b) == ArmApplied(w, se, b)
    decreases b, 1
  {
    AuthSame(v, w, se, b.auth);
  }

  lemma ExecutedSame(v: World, w: World, se: Session, step: nat, req: Request, auth: Auth)
    requires SameWire(v, w)
    ensures Executed(v, se, step, req, auth) == Executed(w, se, step, req, auth)
  {
    AuthSame(v, w, se, auth);
  }

  lemma FiredSame(v: World, w: World, doc: Doc, se: Session, step: nat, req: Request)
    requires SameWire(v, w)
    ensures Fired(v, doc, se, step, req) == Fired(w, doc, se, step, req)
  {
    ExecutedSame(v, w, se, step, req, doc.auth);
  }

  lemma {:induction false} RequestedSame(v: World, w: World, doc: Doc, se: Session, step: nat, req: Request)
    requires SameWire(v, w)
    ensures Requested(v, doc, se, step, req) == Requested(w, doc, se, step, req)
    decreases se.checks
  {
    FiredSame(v, w, doc, se, step, req);
    var (seen, status) := Fired(w, doc, se, step, req);
    if status.None? && seen.checks > 0 {
      RequestedSame(v, w, doc, seen.(checks := seen.checks - 1), step, req);
    }
  }

  lemma {:induction false} ItemsSame(v: World, w: World, doc: Doc, se: Session, step: nat, req: Request, items: seq<Rt>)
    requires SameWire(v, w)
    ensures ItemsDone(v, doc, se, step, req, items) == ItemsDone(w, doc, se, step, req, items)
    decreases |items|
  {
    if items != [] {
      ExecutedSame(v, w, WithItem(se, items[0]), step, req, doc.auth);
      ItemsSame(v, w, doc, ItemDone(w, doc, WithItem(se, items[0]), step, req).0, step, req, items[1..]);
    }
  }

  lemma StepSame(v: World, w: World, doc: Doc, se: Session, i: nat, chain: Chain)
    requires SameWire(v, w) && i < |doc.requests|
    ensures StepDone(v, doc, se, i, chain) == StepDone(w, doc, se, i, chain)
  {
    var req, unbound := doc.requests[i], Unbound(se);
    match req.fanOut {
      case None => RequestedSame(v, w, doc, unbound, i, req);
      case Some(f) =>
        var items := FanOutItems(w.lib, unbound.env, f.over);
        if items.Some? {
          ItemsSame(v, w, doc, unbound.(env := unbound.env.(alias := f.alias)), i, req, items.value);
        }
    }
  }

  lemma {:induction false} ChainSame(v: World, w: World, doc: Doc, se: Session, i: nat, chain: Chain)
    requires SameWire(v, w) && i <= |doc.requests|
    ensures ChainDone(v, doc, se, i, chain) == ChainDone(w, doc, se, i, chain)
    decreases |doc.requests| - i
  {
    if i < |doc.requests| {
      ChainUnfolds(w, doc, se, i, chain);
      ChainUnfolds(v, doc, se, i, chain);
      StepSame(v, w, doc, se, i, chain);
      var (after, link) := StepDone(w, doc, se, i, chain);
      if link.Next? {
        ChainSame(v, w, doc, after, i + 1, link.chain);
      }
    }
  }

  // ---- a sink that refuses cuts the drain short ----

  predicate TakesAll(sunk: seq<Rt>) {
    true
  }

  /** The same world with a sink that never refuses. */
  function Willing(w: World): World {
    w.(takes := TakesAll)
  }

  lemma {:induction false} WillingOffers(w: World, sunk: seq<Rt>, events: seq<Rt>)
    ensures Offered(Willing(w), sunk, events) == (sunk + events, true)
    decreases |events|
  {
    if events != [] {
      WillingOffers(w, sunk + [events[0]], events[1..]);
      assert sunk + [events[0]] + events[1..] == sunk + events;
    } else {
      assert sunk + events == sunk;
    }
  }

  lemma {:induction false} OfferedSplit(w: World, sunk: seq<Rt>, a: seq<Rt>, b: seq<Rt>)
    ensures Offered(w, sunk, a + b) ==
      if Offered(w, sunk, a).1 then Offered(w, Offered(w, sunk, a).0, b) else Offered(w, sunk, a)
    decreases |a|
  {
    if a == [] {
      assert a + b == b;
    } else {
      assert (a + b)[0] == a[0] && (a + b)[1..] == a[1..] + b;
      OfferedSplit(w, sunk + [a[0]], a[1..], b);
    }
  }

  /** The same page up to its delivery, and beyond it when every event is taken. */
  ghost predicate CutTo(w: World, sunk: seq<Rt>, full: Page, cut: Page) {
    var (offered, ok) := Offered(w, sunk, full.events);
    && full.sunk == sunk + full.events && full.exit != Some(SinkRefused)
    && (ok ==> cut == full)
    && (!ok ==>
          && cut.before == full.before && cut.chained == full.chained
          && cut.kind == full.kind && cut.events == full.events
          && cut.sunk == offered && cut.exit == Some(SinkRefused) && !cut.progressed && !cut.advanced)
  }

  lemma FinishedCut(w: World, doc: Doc, chained: Session, it: Iteration, sunk: seq<Rt>, blank: Page)
    requires !blank.progressed && !blank.advanced
    ensures CutTo(w, sunk, PageFinished(Willing(w), doc, chained, it, sunk, blank),
                  PageFinished(w, doc, chained, it, sunk, blank))
  {
    var events := if it.kind == Accepted then EventList(it) else [];
    WillingOffers(w, sunk, events);
    OfferedMeaning(w, sunk, events);
    var bound := BindPage(chained, it);
    SettledKeeps(Willing(w), w, doc, bound, blank.(after := bound, events := events, sunk := sunk + events));
  }

  lemma SettledKeeps(v: World, w: World, doc: Doc, bound: Session, page: Page)
    requires v.lib == w.lib
    ensures var r := Settled(w, doc, bound, page);
      r == Settled(v, doc, bound, page) && r.events == page.events && r.sunk == page.sunk && r.exit != Some(SinkRefused)
  {
  }

  lemma PageCut(w: World, doc: Doc, se: Session, sunk: seq<Rt>)
    ensures CutTo(w, sunk, PageDone(Willing(w), doc, se, sunk), PageDone(w, doc, se, sunk))
  {
    var v, start := Willing(w), IterationStart(se);
    ChainSame(v, w, doc, start, 0, Chain(Accepted, Nil, map[], false));
    PageParts(w, doc, se, sunk);
    PageParts(v, doc, se, sunk);
    var (chained, it) := IterationDone(w, doc, start);
    assert IterationDone(v, doc, start) == (chained, it);
    FinishedCut(w, doc, chained, it, sunk, Blank(se, chained, it.kind, sunk));
    assert sunk + [] == sunk;
  }

  /** The run with an unreliable sink, against the run with a willing one. */
  ghost predicate Cut(w: World, sunk: seq<Rt>, full: Run, cut: Run) {
    var (offered, ok) := Offered(w, sunk, LedgerEvents(full.ledger));
    if ok then cut == full
    else
      && cut.exit == SinkRefused && cut.sunk == offered
      && 0 < |cut.ledger| <= |full.ledger|
      && cut.ledger[..|cut.ledger| - 1] == full.ledger[..|cut.ledger| - 1]
      && !cut.ledger[|cut.ledger| - 1].progressed && !cut.ledger[|cut.ledger| - 1].advanced
  }

  ghost predicate Cutting(w: World, full: Pager, cut: Pager) {
    forall se: Session, sunk: seq<Rt> :: CutTo(w, sunk, full(se, sunk), cut(se, sunk))
  }

  lemma CutCons(w: World, sunk: seq<Rt>, page: Page, full: Run, cut: Run)
    requires Offered(w, sunk, page.events) == (page.sunk, true)
    requires Cut(w, page.sunk, full, cut)
    ensures Cut(w, sunk, full.(ledger := [page] + full.ledger), cut.(ledger := [page] + cut.ledger))
  {
    var f, c := [page] + full.ledger, [page] + cut.ledger;
    assert f[1..] == full.ledger;
    OfferedSplit(w, sunk, page.events, LedgerEvents(full.ledger));
    if !Offered(w, page.sunk, LedgerEvents(full.ledger)).1 {
      assert c[..|c| - 1] == [page] + cut.ledger[..|cut.ledger| - 1];
      assert f[..|c| - 1] == [page] + full.ledger[..|cut.ledger| - 1];
    }
  }

  lemma CutHere(w: World, sunk: seq<Rt>, page: Page, last: Page, full: Run)
    requires CutTo(w, sunk, page, last) && last.exit == Some(SinkRefused)
    ensures Cut(w, sunk, full.(ledger := [page] + full.ledger), Run(last.after, SinkRefused, last.sunk, [last]))
  {
    assert ([page] + full.ledger)[1..] == full.ledger;
    OfferedSplit(w, sunk, page.events, LedgerEvents(full.ledger));
  }

  lemma {:induction false} RunsAreCut(w: World, full: Pager, cut: Pager, cap: int, se: Session, pages: nat,
                                      sunk: seq<Rt>)
    requires Winding(full) && Winding(cut) && Cutting(w, full, cut)
    ensures Cut(w, sunk, Looped(full, cap, se, pages, sunk), Looped(cut, cap, se, pages, sunk))
    decreases se.checks
  {
    var a, b := Attempted(full, cap, se, pages, sunk), Attempted(cut, cap, se, pages, sunk);
    if a.done != [] {
      var page, last := a.done[0], b.done[0];
      assert CutTo(w, sunk, page, last);
      var rest := if a.out.None? then Looped(full, cap, a.after, pages + 1, a.sunk)
        else Run(a.after, a.out.value, a.sunk, []);
      assert Looped(full, cap, se, pages, sunk) == rest.(ledger := [page] + rest.ledger);
      OfferedMeaning(w, sunk, page.events);
      if last.exit == Some(SinkRefused) {
        CutHere(w, sunk, page, last, rest);
      } else if a.out.None? {
        RunsAreCut(w, full, cut, cap, a.after, pages + 1, a.sunk);
        CutCons(w, sunk, page, rest, Looped(cut, cap, a.after, pages + 1, a.sunk));
      } else {
        CutCons(w, sunk, page, rest, rest);
      }
    }
  }

  /** A sink that refuses an event can only cut a drain short at that event: everything before is as with a
      sink that takes all, and the page of the refused event writes no progress and does not advance. */
  lemma RefusalsOnlyCut(w: World, doc: Doc, cap: int, se: Session)
    ensures Cut(w, [], PageLoop(Willing(w), doc, cap, se), PageLoop(w, doc, cap, se))
  {
    PagesWind(w, doc);
    PagesWind(Willing(w), doc);
    forall b: Session, s: seq<Rt> ensures CutTo(w, s, PagerOf(Willing(w), doc)(b, s), PagerOf(w, doc)(b, s)) {
      PageCut(w, doc, b, s);
    }
    RunsAreCut(w, PagerOf(Willing(w), doc), PagerOf(w, doc), cap, se, 0, []);
  }

  // ---- events before state, synchronously ----

  /** Everything offered so far was taken. */
  ghost predicate AllTaken(w: World, sunk: seq<Rt>) {
    forall k | 0 < k <= |sunk| :: w.takes(sunk[..k])
  }

  lemma TakenMore(w: World, sunk: seq<Rt>, events: seq<Rt>)
    requires AllTaken(w, sunk) && Offered(w, sunk, events).1
    ensures Offered(w, sunk, events).0 == sunk + events && AllTaken(w, sunk + events)
  {
    OfferedMeaning(w, sunk, events);
    forall k | 0 < k <= |sunk + events| ensures w.takes((sunk + events)[..k]) {
      if k <= |sunk| {
        assert (sunk + events)[..k] == sunk[..k];
      }
    }
  }

  lemma {:induction false} LedgerEventsSnoc(ledger: seq<Page>, page: Page)
    ensures LedgerEvents(ledger + [page]) == LedgerEvents(ledger) + page.events
  {
    if ledger == [] {
      assert LedgerEvents([page]) == page.events + LedgerEvents([page][1..]);
      assert ledger + [page] == [page];
    } else {
      LedgerEventsSnoc(ledger[1..], page);
      assert (ledger + [page])[1..] == ledger[1..] + [page];
      assert ledger[0].events + (LedgerEvents(ledger[1..]) + page.events) ==
        ledger[0].events + LedgerEvents(ledger[1..]) + page.events;
    }
  }

  lemma OneMorePage(w: World, ledger: seq<Page>, i: nat, sunk: seq<Rt>)
    requires i < |ledger| && sunk == LedgerEvents(ledger[..i]) && AllTaken(w, sunk)
    requires Offered(w, sunk, ledger[i].events) == (ledger[i].sunk, true)
    ensures ledger[i].sunk == LedgerEvents(ledger[..i + 1]) && AllTaken(w, ledger[i].sunk)
  {
    TakenMore(w, sunk, ledger[i].events);
    LedgerEventsSnoc(ledger[..i], ledger[i]);
    assert ledger[..i + 1] == ledger[..i] + [ledger[i]];
  }

  lemma {:induction false} SyncEventsBeforeState(w: World, pager: Pager, cap: int, se: Session, i: nat)
    requires Winding(pager) && Offering(w, pager)
    requires i < |Looped(pager, cap, se, 0, []).ledger|
    requires Looped(pager, cap, se, 0, []).ledger[i].exit != Some(SinkRefused)
    ensures var ledger := Looped(pager, cap, se, 0, []).ledger;
      ledger[i].sunk == LedgerEvents(ledger[..i + 1]) && AllTaken(w, ledger[i].sunk)
    decreases i
  {
    var ledger := Looped(pager, cap, se, 0, []).ledger;
    var before, sunk := PageOf(pager, cap, se, 0, [], i);
    assert Offered(w, sunk, pager(before, sunk).events).1;
    if i > 0 {
      var b, s := PageOf(pager, cap, se, 0, [], i - 1);
      SyncEventsBeforeState(w, pager, cap, se, i - 1);
    } else {
      assert LedgerEvents(ledger[..0]) == [];
    }
    OneMorePage(w, ledger, i, sunk);
  }

  /** When the progress of a page fires, the sink has taken every event of that page and of all pages
      before it, and nothing else. */
  lemma ProgressAfterDelivery(w: World, doc: Doc, cap: int, se: Session, i: nat)
    requires i < |PageLoop(w, doc, cap, se).ledger| && PageLoop(w, doc, cap, se).ledger[i].progressed
    ensures var ledger := PageLoop(w, doc, cap, se).ledger;
      ledger[i].sunk == LedgerEvents(ledger[..i + 1]) && AllTaken(w, ledger[i].sunk)
  {
    PagesWind(w, doc);
    var pager := PagerOf(w, doc);
    forall b: Session, s: seq<Rt>
      ensures Offered(w, s, pager(b, s).events) == (pager(b, s).sunk, pager(b, s).exit != Some(SinkRefused))
    {
      PageOffers(w, doc, b, s);
    }
    var b, s := PageOf(pager, cap, se, 0, [], i);
    PageCut(w, doc, b, s);
    SettledPages(w, doc, b, s);
    SyncEventsBeforeState(w, pager, cap, se, i);
  }

  lemma SettledPages(w: World, doc: Doc, se: Session, sunk: seq<Rt>)
    ensures PageDone(w, doc, se, sunk).progressed ==> PageDone(w, doc, se, sunk).exit != Some(SinkRefused)
  {
    PageParts(w, doc, se, sunk);
  }

  // ---- events before state, with a queue ----

  function EmitOps(events: seq<Rt>): seq<Op> {
    if events == [] then [] else [Emit(events[0])] + EmitOps(events[1..])
  }

  function PageOps(page: Page, i: nat): seq<Op> {
    EmitOps(page.events) + if page.progressed then [Fire(i)] else []
  }

  /** What the drain asks of its emitter, page by page from the i-th on. */
  function DrainOps(ledger: seq<Page>, i: nat): seq<Op>
    decreases |ledger|
  {
    if ledger == [] then [] else PageOps(ledger[0], i) + DrainOps(ledger[1..], i + 1)
  }

  function ProgressedPages(ledger: seq<Page>, i: nat): seq<nat>
    decreases |ledger|
  {
    if ledger == [] then [] else (if ledger[0].progressed then [i] else []) + ProgressedPages(ledger[1..], i + 1)
  }

  lemma {:induction false} EmitOpsMeaning(events: seq<Rt>)
    ensures EventsOf(EmitOps(events)) == events && FiresOf(EmitOps(events)) == []
  {
    if events != [] {
      EmitOpsMeaning(events[1..]);
      EventsSplit([Emit(events[0])], EmitOps(events[1..]));
      FiresSplit([Emit(events[0])], EmitOps(events[1..]));
    }
  }

  lemma PageOpsMeaning(page: Page, i: nat)
    ensures EventsOf(PageOps(page, i)) == page.events
    ensures FiresOf(PageOps(page, i)) == if page.progressed then [i] else []
  {
    EmitOpsMeaning(page.events);
    var fires := if page.progressed then [Fire(i)] else [];
    EventsSplit(EmitOps(page.events), fires);
    FiresSplit(EmitOps(page.events), fires);
  }

  lemma {:induction false} DrainOpsMeaning(ledger: seq<Page>, i: nat)
    ensures EventsOf(DrainOps(ledger, i)) == LedgerEvents(ledger)
    ensures FiresOf(DrainOps(ledger, i)) == ProgressedPages(ledger, i)
    decreases |ledger|
  {
    if ledger != [] {
      PageOpsMeaning(ledger[0], i);
      DrainOpsMeaning(ledger[1..], i + 1);
      EventsSplit(PageOps(ledger[0], i), DrainOps(ledger[1..], i + 1));
      FiresSplit(PageOps(ledger[0], i), DrainOps(ledger[1..], i + 1));
    }
  }

  /** The buffered drain: as long as no emit reports an error the drain behaves as with a willing sink. */
  ghost function Buffered(w: World, doc: Doc, cap: int, se: Session, buffer: nat): Config {
    Config(w, buffer, DrainOps(PageLoop(Willing(w), doc, cap, se).ledger, 0))
  }

  /** However the drain and the consumer interleave: once the queue is closed and joined, the sink has seen
      what the synchronous drain would have shown it, and there is an error exactly when that drain would
      have been refused. When there is none, which is what `close` reports before the save, the two drains
      are the same, and every event of every page whose progress fired has been taken. */
  lemma BufferedDrainDelivers(w: World, doc: Doc, cap: int, se: Session, buffer: nat, moves: seq<Move>)
    requires Scheduled(Buffered(w, doc, cap, se, buffer), START, moves).Some?
    requires Scheduled(Buffered(w, doc, cap, se, buffer), START, moves).value.consumer.Gone?
    ensures var end := Scheduled(Buffered(w, doc, cap, se, buffer), START, moves).value;
      var sync := PageLoop(w, doc, cap, se);
      && end.called == sync.sunk
      && (end.err.None? <==> sync.exit != SinkRefused)
      && (end.err.None? ==>
            && sync == PageLoop(Willing(w), doc, cap, se)
            && end.fired == ProgressedPages(sync.ledger, 0)
            && end.called == LedgerEvents(sync.ledger)
            && AllTaken(w, end.called))
  {
    var c := Buffered(w, doc, cap, se, buffer);
    var full := PageLoop(Willing(w), doc, cap, se);
    EveryInterleaving(c, START, moves);
    BufferedRefinesSynchronous(c, moves);
    DrainOpsMeaning(full.ledger, 0);
    RefusalsOnlyCut(w, doc, cap, se);
    SinkSeesAcceptedEvents(w, doc, cap, se);
    SinkSeesAcceptedEvents(Willing(w), doc, cap, se);
    OfferedMeaning(w, [], LedgerEvents(full.ledger));
    var end := Scheduled(c, START, moves).value;
    if end.err.None? {
      assert c.program[..end.pc] == c.program;
    }
  }
}
