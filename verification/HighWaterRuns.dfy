/** The high-water mark over whole drains (client/runner.go Drain, client/progress.go). */
module HighWaterRuns {
  import opened Syntax
  import opened Runtime
  import opened Scopes
  import opened Session
  import opened Writes
  import opened Pages
  import opened Drains
  import opened Frames
  import opened Ledger
  import opened HighWater

  function MarkWrite(x: string, field: seq<string>): Write {
    Write(Path(["state", x], false), MarkValue(x, field), "", "")
  }

  /** The document keeps a high-water mark at state.x and writes the field nowhere else. */
  predicate KeepsMark(doc: Doc, x: string, field: seq<string>) {
    && field != [] && MarkWrite(x, field) in doc.progress
    && AllToState(doc.progress) && DistinctTargets(doc.progress)
    && x !in PageTargets(doc.pagination) && x !in ExtractFields(doc)
  }

  /** What a page does to the mark. */
  ghost predicate MarksPage(lib: Lib, x: string, field: seq<string>, before: Session, page: Page) {
    && page.after.env.alias == ""
    && FieldOr(page.after.env.state, x) ==
         if ProgressLanded(page) then MarkStep(lib, FieldOr(before.env.state, x), Project(page.events, field))
         else FieldOr(before.env.state, x)
  }

  lemma ProgressMarks(lib: Lib, env: Env, doc: Doc, x: string, field: seq<string>)
    requires KeepsMark(doc, x, field) && env.alias == "" && Progressed(lib, env, doc.progress).ok
    ensures FieldOr(Progressed(lib, env, doc.progress).state, x) ==
      MarkStep(lib, FieldOr(env.state, x), FieldsOf(env.events, field))
  {
    var w := MarkWrite(x, field);
    StageMeaning(lib, env, doc.progress);
    ValueAtTarget(lib, env, doc.progress, w);
    MarkMeaning(lib, env, x, field);
  }

  lemma AdvanceKeepsMark(lib: Lib, env: Env, doc: Doc, x: string)
    requires x !in PageTargets(doc.pagination)
    ensures FieldOr(AdvancePage(lib, env, doc.pagination).state, x) == FieldOr(env.state, x)
  {
    AdvanceTouchesTargets(lib, env, doc.pagination, x);
  }

  lemma SettledMarks(w: World, doc: Doc, bound: Session, page: Page, x: string, field: seq<string>)
    requires KeepsMark(doc, x, field) && bound.env.alias == "" && !page.progressed && !page.advanced
    ensures var r := Settled(w, doc, bound, page);
      && r.after.env.alias == "" && r.events == page.events
      && FieldOr(r.after.env.state, x) ==
           if ProgressLanded(r) then MarkStep(w.lib, FieldOr(bound.env.state, x), FieldsOf(bound.env.events, field))
           else FieldOr(bound.env.state, x)
  {
    var c := ProgressOf(w.lib, doc, bound, page.kind);
    ProgressIsSimultaneous(w.lib, bound.env, doc.progress);
    if c.ok {
      if page.kind != Warned {
        ProgressMarks(w.lib, bound.env, doc, x, field);
      }
      AdvanceKeepsMark(w.lib, WithState(bound, c.state).env, doc, x);
    }
  }

  lemma FinishedMarks(w: World, doc: Doc, chained: Session, it: Iteration, sunk: seq<Rt>, blank: Page, x: string,
                      field: seq<string>)
    requires KeepsMark(doc, x, field) && chained.env.alias == "" && !blank.progressed && !blank.advanced
    requires it.kind != Accepted ==> it.events == None
    ensures MarksPage(w.lib, x, field, chained, PageFinished(w, doc, chained, it, sunk, blank))
  {
    var bound := BindPage(chained, it);
    var events := if it.kind == Accepted then EventList(it) else [];
    SettledMarks(w, doc, bound, blank.(after := bound, events := events, sunk := Offered(w, sunk, events).0), x, field);
    assert FieldsOf(bound.env.events, field) == Project(events, field);
  }

  /** Only accepted iterations have events. */
  lemma EventsNeedAcceptance(w: World, doc: Doc, se: Session)
    ensures var it := IterationDone(w, doc, se).1; it.kind != Accepted ==> it.events == None
  {
  }

  lemma PageMarks(w: World, doc: Doc, se: Session, sunk: seq<Rt>, x: string, field: seq<string>)
    requires KeepsMark(doc, x, field) && se.env.alias == ""
    ensures MarksPage(w.lib, x, field, se, PageDone(w, doc, se, sunk))
  {
    PageParts(w, doc, se, sunk);
    ChainPartKeepsField(w, doc, se, sunk, x);
    IterationKeepsAlias(w, doc, IterationStart(se));
    EventsNeedAcceptance(w, doc, IterationStart(se));
    var (chained, it) := IterationDone(w, doc, IterationStart(se));
    FinishedMarks(w, doc, chained, it, sunk, Blank(se, chained, it.kind, sunk), x, field);
  }

  /** The field values of the pages whose progress landed, page by page. */
  function MarkedPages(ledger: seq<Page>, field: seq<string>): seq<seq<Rt>> {
    if ledger == [] then []
    else
      var fields := if ProgressLanded(ledger[0]) then [Project(ledger[0].events, field)] else [];
      fields + MarkedPages(ledger[1..], field)
  }

  ghost predicate Marking(lib: Lib, x: string, field: seq<string>, pager: Pager) {
    forall b: Session, s: seq<Rt> :: b.env.alias == "" ==> MarksPage(lib, x, field, b, pager(b, s))
  }

  ghost predicate Marked(lib: Lib, x: string, field: seq<string>, se: Session, run: Run) {
    FieldOr(run.session.env.state, x) == Streamed(lib, FieldOr(se.env.state, x), MarkedPages(run.ledger, field))
  }

  lemma MarkedCons(lib: Lib, x: string, field: seq<string>, se: Session, page: Page, rest: Run)
    requires MarksPage(lib, x, field, se, page) && Marked(lib, x, field, page.after, rest)
    ensures Marked(lib, x, field, se, rest.(ledger := [page] + rest.ledger))
  {
    var ledger := [page] + rest.ledger;
    assert ledger[1..] == rest.ledger;
    var tail := MarkedPages(rest.ledger, field);
    if ProgressLanded(page) {
      assert MarkedPages(ledger, field)[1..] == tail;
    } else {
      assert MarkedPages(ledger, field) == tail;
    }
  }

  lemma {:induction false} RunsMark(lib: Lib, x: string, field: seq<string>, pager: Pager, cap: int, se: Session,
                                    pages: nat, sunk: seq<Rt>)
    requires Winding(pager) && Marking(lib, x, field, pager) && se.env.alias == ""
    ensures Marked(lib, x, field, se, Looped(pager, cap, se, pages, sunk))
    decreases se.checks
  {
    var a := Attempted(pager, cap, se, pages, sunk);
    if a.done != [] {
      var live := se.(checks := se.checks - 1);
      assert MarksPage(lib, x, field, live, pager(live, sunk));
      if a.out.None? {
        RunsMark(lib, x, field, pager, cap, a.after, pages + 1, a.sunk);
        MarkedCons(lib, x, field, live, a.done[0], Looped(pager, cap, a.after, pages + 1, a.sunk));
      } else {
        MarkedCons(lib, x, field, live, a.done[0], Run(a.after, a.out.value, a.sunk, []));
      }
    }
  }

  /** Over every drain, however it ends, the field at state.x is the stream of the fields of the pages whose
      progress landed. */
  lemma DrainStreamsMark(w: World, doc: Doc, cap: int, se: Session, x: string, field: seq<string>)
    requires KeepsMark(doc, x, field) && se.env.alias == ""
    ensures Marked(w.lib, x, field, se, PageLoop(w, doc, cap, se))
  {
    PagesWind(w, doc);
    forall b: Session, s: seq<Rt> ensures b.env.alias == "" ==> MarksPage(w.lib, x, field, b, PagerOf(w, doc)(b, s)) {
      if b.env.alias == "" {
        PageMarks(w, doc, b, s, x, field);
      }
    }
    RunsMark(w.lib, x, field, PagerOf(w, doc), cap, se, 0, []);
  }

  /** On one comparable class that is, as a ref reads it, the first greatest element of the initial value
      followed by the fields of all events whose progress landed. */
  lemma DrainKeepsHighWaterMark(w: World, doc: Doc, cap: int, se: Session, x: string, field: seq<string>, cls: Rank)
    requires KeepsMark(doc, x, field) && se.env.alias == "" && w.lib.parseTime("").None?
    requires InClass(w.lib, cls, FieldOr(se.env.state, x))
    requires AllInClass(w.lib, cls, Joined(MarkedPages(PageLoop(w, doc, cap, se).ledger, field)))
    ensures var run := PageLoop(w, doc, cap, se);
      Norm(FieldOr(run.session.env.state, x)) ==
        Norm(Extreme(w.lib, [FieldOr(se.env.state, x)] + Joined(MarkedPages(run.ledger, field)), true))
  {
    DrainStreamsMark(w, doc, cap, se, x, field);
    StreamIsBatch(w.lib, cls, FieldOr(se.env.state, x), MarkedPages(PageLoop(w, doc, cap, se).ledger, field));
  }

  /** No drain, not even one that ends in an error, lowers a mark. */
  lemma DrainMarkNeverDecreases(w: World, doc: Doc, cap: int, se: Session, x: string, field: seq<string>, cls: Rank)
    requires KeepsMark(doc, x, field) && se.env.alias == "" && w.lib.parseTime("").None?
    requires InClass(w.lib, cls, FieldOr(se.env.state, x)) && !IsZero(FieldOr(se.env.state, x))
    requires AllInClass(w.lib, cls, Joined(MarkedPages(PageLoop(w, doc, cap, se).ledger, field)))
    ensures var was, now := FieldOr(se.env.state, x), FieldOr(PageLoop(w, doc, cap, se).session.env.state, x);
      && now != Nil && SameClass(RankOf(w.lib, was), RankOf(w.lib, now))
      && CompareRanks(RankOf(w.lib, was), RankOf(w.lib, now)) <= 0
  {
    DrainStreamsMark(w, doc, cap, se, x, field);
    MarkNeverDecreases(w.lib, cls, FieldOr(se.env.state, x), MarkedPages(PageLoop(w, doc, cap, se).ledger, field));
  }
}
