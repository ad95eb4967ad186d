/** A persistent worklist: the head is read with `first` and popped with `slice: {from: 1}` in progress
    (docs/runtime.md, client/value.go, client/runner.go Drain). */
module Worklist {
  import opened Syntax
  import opened Runtime
  import opened Scopes
  import opened Eval
  import opened Session
  import opened Writes
  import opened Pages
  import opened Drains
  import opened Frames
  import opened Ledger

  function QueueRef(q: string): Value {
    Ref(Path(["state", q], false), None)
  }

  function HeadValue(q: string): Value {
    Reduce(First, QueueRef(q))
  }

  function PopWrite(q: string): Write {
    Write(Path(["state", q], false), Slice(QueueRef(q), Some(1), None), "", "")
  }

  /** A worklist field is a list without nil entries, or not set. */
  predicate IsQueue(state: Bindings, q: string) {
    q !in state || state[q] == Nil || (state[q].Arr? && Nil !in state[q].elems)
  }

  function QueueOf(state: Bindings, q: string): seq<Rt> {
    if q in state && state[q].Arr? then state[q].elems else []
  }

  function Popped(list: seq<Rt>): seq<Rt> {
    if list == [] then [] else list[1..]
  }

  /** A field with entries reads as its list; anything but a list, or an empty value, has no entries. */
  lemma QueueReads(lib: Lib, env: Env, q: string)
    requires env.alias == ""
    ensures var list := AsList(EvalValue(lib, env, QueueRef(q)));
      && (list.Ok? ==> list.value == QueueOf(env.state, q))
      && (IsQueue(env.state, q) ==> list.Ok?)
  {
    var path := Path(["state", q], false);
    assert path.parts[1..] == [q] && path.parts[1..][1..] == [];
  }

  /** Every reader of the chain sees the same head: the first entry, or nil when the queue is empty. */
  lemma HeadMeaning(lib: Lib, env: Env, q: string)
    requires env.alias == "" && IsQueue(env.state, q)
    ensures var list := QueueOf(env.state, q);
      EvalValue(lib, env, HeadValue(q)) == Ok(if list == [] then Nil else list[0])
  {
    QueueReads(lib, env, q);
    var list := QueueOf(env.state, q);
    assert list != [] ==> list[0] in list;
  }

  lemma SliceIsPop(list: seq<Rt>)
    ensures SliceOf(list, Some(1), None) == Popped(list)
  {
  }

  /** The pop removes the head, or fails on something that is not a list. */
  lemma PopMeaning(lib: Lib, env: Env, q: string)
    requires env.alias == ""
    ensures var popped := StageOne(lib, env, PopWrite(q));
      && (popped.Ok? ==> popped.value == Arr(Popped(QueueOf(env.state, q))))
      && (IsQueue(env.state, q) ==> popped.Ok?)
  {
    QueueReads(lib, env, q);
    SliceIsPop(QueueOf(env.state, q));
    var list := EvalValue(lib, env, QueueRef(q));
    assert EvalValue(lib, env, PopWrite(q).from) == SliceResult(list, Some(1), None);
  }

  /** The document pops the worklist in progress and otherwise writes it, if at all, by extracts. */
  predicate KeepsQueue(doc: Doc, q: string) {
    && PopWrite(q) in doc.progress
    && AllToState(doc.progress) && DistinctTargets(doc.progress)
    && q !in PageTargets(doc.pagination)
  }

  /** What a page does to the worklist its chain left. */
  ghost predicate PopsPage(q: string, page: Page) {
    var was, now := page.chained.env.state, page.after.env.state;
    && page.after.env.alias == "" && (IsQueue(was, q) ==> IsQueue(now, q))
    && QueueOf(now, q) == if ProgressLanded(page) then Popped(QueueOf(was, q)) else QueueOf(was, q)
  }

  lemma ProgressPops(lib: Lib, env: Env, doc: Doc, q: string)
    requires KeepsQueue(doc, q) && env.alias == ""
    ensures var c := Progressed(lib, env, doc.progress);
      if c.ok then q in c.state && c.state[q] == Arr(Popped(QueueOf(env.state, q))) else c.state == env.state
  {
    ProgressIsSimultaneous(lib, env, doc.progress);
    if Progressed(lib, env, doc.progress).ok {
      StageMeaning(lib, env, doc.progress);
      ValueAtTarget(lib, env, doc.progress, PopWrite(q));
      PopMeaning(lib, env, q);
    }
  }

  lemma SameQueue(a: Bindings, b: Bindings, q: string)
    requires SameField(a, b, q)
    ensures QueueOf(a, q) == QueueOf(b, q) && (IsQueue(a, q) <==> IsQueue(b, q))
  {
  }

  lemma PoppedIsQueue(state: Bindings, q: string, after: Bindings)
    requires q in after && after[q] == Arr(Popped(QueueOf(state, q)))
    ensures IsQueue(state, q) ==> IsQueue(after, q)
    ensures QueueOf(after, q) == Popped(QueueOf(state, q))
  {
  }

  lemma WrittenPops(lib: Lib, doc: Doc, bound: Session, kind: Verdict, q: string)
    requires KeepsQueue(doc, q) && bound.env.alias == ""
    ensures var c := ProgressOf(lib, doc, bound, kind); var was := QueueOf(bound.env.state, q);
      && (IsQueue(bound.env.state, q) ==> IsQueue(c.state, q))
      && QueueOf(c.state, q) == if c.ok && kind != Warned then Popped(was) else was
  {
    ProgressPops(lib, bound.env, doc, q);
    var c := ProgressOf(lib, doc, bound, kind);
    if kind != Warned && c.ok {
      PoppedIsQueue(bound.env.state, q, c.state);
    }
  }

  lemma AdvanceKeepsQueue(lib: Lib, env: Env, doc: Doc, q: string)
    requires q !in PageTargets(doc.pagination)
    ensures var a := AdvancePage(lib, env, doc.pagination);
      QueueOf(a.state, q) == QueueOf(env.state, q) && (IsQueue(env.state, q) <==> IsQueue(a.state, q))
  {
    AdvanceTouchesTargets(lib, env, doc.pagination, q);
    SameQueue(env.state, AdvancePage(lib, env, doc.pagination).state, q);
  }

  lemma SettledParts(w: World, doc: Doc, bound: Session, page: Page)
    requires !page.progressed && !page.advanced
    ensures var r, c := Settled(w, doc, bound, page), ProgressOf(w.lib, doc, bound, page.kind);
      && r.chained == page.chained && r.after.env.alias == bound.env.alias
      && (ProgressLanded(r) <==> c.ok && page.kind != Warned)
      && r.after.env.state ==
           if c.ok then AdvancePage(w.lib, WithState(bound, c.state).env, doc.pagination).state else c.state
  {
  }

  lemma SettledPops(w: World, doc: Doc, bound: Session, page: Page, q: string)
    requires KeepsQueue(doc, q) && bound.env.alias == "" && bound.env.state == page.chained.env.state
    requires !page.progressed && !page.advanced
    ensures PopsPage(q, Settled(w, doc, bound, page))
  {
    var c := ProgressOf(w.lib, doc, bound, page.kind);
    SettledParts(w, doc, bound, page);
    WrittenPops(w.lib, doc, bound, page.kind, q);
    AdvanceKeepsQueue(w.lib, WithState(bound, c.state).env, doc, q);
  }

  lemma FinishedPops(w: World, doc: Doc, chained: Session, it: Iteration, sunk: seq<Rt>, se: Session, q: string)
    requires KeepsQueue(doc, q) && chained.env.alias == ""
    ensures PopsPage(q, PageFinished(w, doc, chained, it, sunk, Blank(se, chained, it.kind, sunk)))
  {
    var bound := BindPage(chained, it);
    var events := if it.kind == Accepted then EventList(it) else [];
    var blank := Blank(se, chained, it.kind, sunk);
    SettledPops(w, doc, bound, blank.(after := bound, events := events, sunk := Offered(w, sunk, events).0), q);
  }

  lemma PagePops(w: World, doc: Doc, se: Session, sunk: seq<Rt>, q: string)
    requires KeepsQueue(doc, q) && se.env.alias == ""
    ensures PageDone(w, doc, se, sunk).before == se && PopsPage(q, PageDone(w, doc, se, sunk))
  {
    PageParts(w, doc, se, sunk);
    IterationKeepsAlias(w, doc, IterationStart(se));
    var (chained, it) := IterationDone(w, doc, IterationStart(se));
    FinishedPops(w, doc, chained, it, sunk, se, q);
  }

  // ---- runs ----

  function Before(q: string, page: Page): seq<Rt> {
    QueueOf(page.before.env.state, q)
  }

  function Chained(q: string, page: Page): seq<Rt> {
    QueueOf(page.chained.env.state, q)
  }

  /** The entry a page took: the head its chain left, if the progress landed. */
  function Head(q: string, page: Page): seq<Rt> {
    if ProgressLanded(page) && Chained(q, page) != [] then [Chained(q, page)[0]] else []
  }

  function Heads(ledger: seq<Page>, q: string): seq<Rt> {
    if ledger == [] then [] else Head(q, ledger[0]) + Heads(ledger[1..], q)
  }

  /** The chain put its entries behind those that were there, as a refill of an empty queue does. */
  predicate Extended(q: string, page: Page) {
    Before(q, page) <= Chained(q, page)
  }

  /** What the chain put behind the queue. */
  function Refill(q: string, page: Page): seq<Rt> {
    if Extended(q, page) then Chained(q, page)[|Before(q, page)|..] else []
  }

  function Refills(ledger: seq<Page>, q: string): seq<Rt> {
    if ledger == [] then [] else Refill(q, ledger[0]) + Refills(ledger[1..], q)
  }

  /** The entries the extracts of a run brought in and threw out. */
  function Gained(ledger: seq<Page>, q: string): multiset<Rt> {
    if ledger == [] then multiset{}
    else multiset(Chained(q, ledger[0])) - multiset(Before(q, ledger[0])) + Gained(ledger[1..], q)
  }

  function Dropped(ledger: seq<Page>, q: string): multiset<Rt> {
    if ledger == [] then multiset{}
    else multiset(Before(q, ledger[0])) - multiset(Chained(q, ledger[0])) + Dropped(ledger[1..], q)
  }

  ghost predicate Popping(q: string, pager: Pager) {
    forall b: Session, s: seq<Rt> :: b.env.alias == "" ==> pager(b, s).before == b && PopsPage(q, pager(b, s))
  }

  lemma DrainPops(w: World, doc: Doc, q: string)
    requires KeepsQueue(doc, q)
    ensures Winding(PagerOf(w, doc)) && Popping(q, PagerOf(w, doc))
  {
    PagesWind(w, doc);
    var pager := PagerOf(w, doc);
    forall b: Session, s: seq<Rt> ensures b.env.alias == "" ==> pager(b, s).before == b && PopsPage(q, pager(b, s)) {
      if b.env.alias == "" {
        PagePops(w, doc, b, s, q);
      }
    }
  }

  /** A page takes at most the first entry. */
  lemma OneTaken(q: string, page: Page)
    requires PopsPage(q, page)
    ensures Chained(q, page) == Head(q, page) + QueueOf(page.after.env.state, q)
  {
  }

  lemma ConsFirst(page: Page, rest: seq<Page>)
    ensures ([page] + rest)[0] == page && ([page] + rest)[1..] == rest
  {
  }

  // ---- any refill ----

  /** Every entry that was there or was brought in was taken, is still there, or was thrown out. */
  ghost predicate Accounted(q: string, env: Env, run: Run) {
    multiset(QueueOf(env.state, q)) + Gained(run.ledger, q) ==
      multiset(Heads(run.ledger, q)) + multiset(QueueOf(run.session.env.state, q)) + Dropped(run.ledger, q)
  }

  lemma Balance(before: multiset<Rt>, chained: multiset<Rt>, head: multiset<Rt>, after: multiset<Rt>,
                gained: multiset<Rt>, heads: multiset<Rt>, rest: multiset<Rt>, dropped: multiset<Rt>)
    requires chained == head + after && after + gained == heads + rest + dropped
    ensures before + (chained - before + gained) == head + heads + rest + (before - chained + dropped)
  {
    assert before + (chained - before) == chained + (before - chained);
    assert before + (chained - before + gained) == before + (chained - before) + gained;
    assert head + after + (before - chained) + gained == head + (after + gained) + (before - chained);
  }

  lemma AccountedCons(q: string, page: Page, rest: Run)
    requires PopsPage(q, page) && Accounted(q, page.after.env, rest)
    ensures Accounted(q, page.before.env, rest.(ledger := [page] + rest.ledger))
  {
    OneTaken(q, page);
    ConsFirst(page, rest.ledger);
    Balance(multiset(Before(q, page)), multiset(Chained(q, page)), multiset(Head(q, page)),
            multiset(QueueOf(page.after.env.state, q)), Gained(rest.ledger, q), multiset(Heads(rest.ledger, q)),
            multiset(QueueOf(rest.session.env.state, q)), Dropped(rest.ledger, q));
  }

  /** Over every drain, whatever its extracts write and however it ends, the entries of the queue and those its
      extracts bring in are the heads of the pages whose progress landed, those left, and those its extracts
      throw out. */
  lemma WorklistIsAccounted(w: World, doc: Doc, cap: int, se: Session, q: string)
    requires KeepsQueue(doc, q) && se.env.alias == ""
    ensures Accounted(q, se.env, PageLoop(w, doc, cap, se))
  {
    DrainPops(w, doc, q);
    var holds, pager := (env: Env, run: Run) => Accounted(q, env, run), PagerOf(w, doc);
    forall b: Session, s: seq<Rt>, rest: Run | b.env.alias == "" && holds(pager(b, s).after.env, rest)
      ensures holds(b.env, rest.(ledger := [pager(b, s)] + rest.ledger))
    {
      AccountedCons(q, pager(b, s), rest);
    }
    RunsHold(holds, pager, cap, se, 0, []);
  }

  // ---- refills behind the queue ----

  ghost predicate AllExtended(q: string, ledger: seq<Page>) {
    forall page | page in ledger :: Extended(q, page)
  }

  /** First in, first out: the queue and its refills in order are the heads in order, then what is left. */
  ghost predicate InOrder(q: string, env: Env, run: Run) {
    QueueOf(env.state, q) + Refills(run.ledger, q) == Heads(run.ledger, q) + QueueOf(run.session.env.state, q)
  }

  lemma Shift(before: seq<Rt>, refill: seq<Rt>, refills: seq<Rt>, head: seq<Rt>, after: seq<Rt>, heads: seq<Rt>,
              rest: seq<Rt>)
    requires before + refill == head + after && after + refills == heads + rest
    ensures before + (refill + refills) == head + heads + rest
  {
    assert before + (refill + refills) == before + refill + refills;
    assert head + after + refills == head + (after + refills);
    assert head + (heads + rest) == head + heads + rest;
  }

  ghost predicate InOrderIfExtended(q: string, env: Env, run: Run) {
    AllExtended(q, run.ledger) ==> InOrder(q, env, run)
  }

  lemma AllExtendedCons(q: string, page: Page, rest: seq<Page>)
    requires AllExtended(q, [page] + rest)
    ensures Extended(q, page) && AllExtended(q, rest)
  {
    var ledger := [page] + rest;
    assert ledger[0] in ledger;
    assert forall p | p in rest :: p in ledger;
  }

  lemma InOrderCons(q: string, page: Page, rest: Run)
    requires PopsPage(q, page) && InOrderIfExtended(q, page.after.env, rest)
    ensures InOrderIfExtended(q, page.before.env, rest.(ledger := [page] + rest.ledger))
  {
    ConsFirst(page, rest.ledger);
    if AllExtended(q, [page] + rest.ledger) {
      AllExtendedCons(q, page, rest.ledger);
      OneTaken(q, page);
      Shift(Before(q, page), Refill(q, page), Refills(rest.ledger, q), Head(q, page),
            QueueOf(page.after.env.state, q), Heads(rest.ledger, q), QueueOf(rest.session.env.state, q));
    }
  }

  /** Over every drain that refills the queue at its end only, in particular when it is empty, the queue followed
      by the refills is the heads of the pages whose progress landed followed by what is left. */
  lemma WorklistIsFifo(w: World, doc: Doc, cap: int, se: Session, q: string)
    requires KeepsQueue(doc, q) && se.env.alias == ""
    requires AllExtended(q, PageLoop(w, doc, cap, se).ledger)
    ensures InOrder(q, se.env, PageLoop(w, doc, cap, se))
  {
    DrainPops(w, doc, q);
    var holds, pager := (env: Env, run: Run) => InOrderIfExtended(q, env, run), PagerOf(w, doc);
    forall b: Session, s: seq<Rt>, rest: Run | b.env.alias == "" && holds(pager(b, s).after.env, rest)
      ensures holds(b.env, rest.(ledger := [pager(b, s)] + rest.ledger))
    {
      InOrderCons(q, pager(b, s), rest);
    }
    RunsHold(holds, pager, cap, se, 0, []);
  }

  // ---- no refill ----

  /** No extract of the chain wrote the worklist. */
  predicate NotRefilled(q: string, page: Page) {
    SameField(page.before.env.state, page.chained.env.state, q)
  }

  ghost predicate NoneRefilled(q: string, ledger: seq<Page>) {
    forall page | page in ledger :: NotRefilled(q, page)
  }

  /** Nothing is lost and nothing is taken twice. */
  ghost predicate Conserved(q: string, env: Env, run: Run) {
    && (IsQueue(env.state, q) ==> IsQueue(run.session.env.state, q))
    && QueueOf(env.state, q) == Heads(run.ledger, q) + QueueOf(run.session.env.state, q)
  }

  lemma {:induction false} NothingRefilled(q: string, ledger: seq<Page>)
    requires NoneRefilled(q, ledger)
    ensures AllExtended(q, ledger) && Refills(ledger, q) == []
  {
    if ledger != [] {
      assert NotRefilled(q, ledger[0]) && forall page | page in ledger[1..] :: page in ledger;
      SameQueue(ledger[0].before.env.state, ledger[0].chained.env.state, q);
      NothingRefilled(q, ledger[1..]);
    }
  }

  lemma {:induction false} RunsKeepQueue(q: string, pager: Pager, cap: int, se: Session, pages: nat, sunk: seq<Rt>)
    requires Winding(pager) && Popping(q, pager) && se.env.alias == "" && IsQueue(se.env.state, q)
    requires NoneRefilled(q, Looped(pager, cap, se, pages, sunk).ledger)
    ensures IsQueue(Looped(pager, cap, se, pages, sunk).session.env.state, q)
    decreases se.checks
  {
    var a := Attempted(pager, cap, se, pages, sunk);
    if a.done != [] {
      var page := a.done[0];
      assert page in Looped(pager, cap, se, pages, sunk).ledger;
      assert page == pager(se.(checks := se.checks - 1), sunk) && PopsPage(q, page);
      if a.out.None? {
        var rest := Looped(pager, cap, a.after, pages + 1, a.sunk);
        assert Looped(pager, cap, se, pages, sunk).ledger == [page] + rest.ledger;
        RunsKeepQueue(q, pager, cap, a.after, pages + 1, a.sunk);
      }
    }
  }

  /** Over every drain that does not refill the queue, however it ends, the heads of the pages whose progress
      landed, followed by what is left, are the queue as it was: other pages lose nothing. */
  lemma WorklistIsConserved(w: World, doc: Doc, cap: int, se: Session, q: string)
    requires KeepsQueue(doc, q) && se.env.alias == ""
    requires NoneRefilled(q, PageLoop(w, doc, cap, se).ledger)
    ensures Conserved(q, se.env, PageLoop(w, doc, cap, se))
  {
    var queue := QueueOf(se.env.state, q);
    NothingRefilled(q, PageLoop(w, doc, cap, se).ledger);
    WorklistIsFifo(w, doc, cap, se, q);
    assert queue + [] == queue;
    if IsQueue(se.env.state, q) {
      DrainPops(w, doc, q);
      RunsKeepQueue(q, PagerOf(w, doc), cap, se, 0, []);
    }
  }

  /** A queue no extract targets is never refilled. */
  lemma UnextractedQueueIsNotRefilled(w: World, doc: Doc, cap: int, se: Session, q: string)
    requires q !in ExtractFields(doc)
    ensures NoneRefilled(q, PageLoop(w, doc, cap, se).ledger)
  {
    PagesWind(w, doc);
    forall b: Session, s: seq<Rt> ensures NotRefilled(q, PagerOf(w, doc)(b, s)) {
      PageParts(w, doc, b, s);
      ChainPartKeepsField(w, doc, b, s, q);
    }
    AllPages(PagerOf(w, doc), cap, se, (page: Page) => NotRefilled(q, page));
  }
}
