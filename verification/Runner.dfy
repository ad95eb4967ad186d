/** The imperative runner, proved against the pure drain (client/runner.go, client/state.go). */
module Runner {
  import opened Syntax
  import opened Runtime
  import opened Scopes
  import opened Eval
  import opened Session
  import opened Writes
  import opened Pages
  import opened Requests
  import opened FanOuts
  import opened Drains

  /** What the sink and the store see. */
  datatype Act = Emitted(event: Rt) | Flushed | Saved(snapshot: Bindings)

  function Emits(events: seq<Rt>): (acts: seq<Act>)
    ensures |acts| == |events| && forall i | 0 <= i < |events| :: acts[i] == Emitted(events[i])
  {
    seq(|events|, i requires 0 <= i < |events| => Emitted(events[i]))
  }

  lemma EmitsSplit(head: seq<Act>, a: seq<Rt>, b: seq<Rt>)
    requires a <= b
    ensures head + Emits(b) == head + Emits(a) + Emits(b[|a|..])
  {
  }

  class PullSource {
    const world: World
    const doc: Doc
    const maxPages: int
    var stored: Bindings
    var journal: seq<Act>

    constructor (world: World, doc: Doc, maxPages: int)
      ensures this.world == world && this.doc == doc && this.maxPages == maxPages
      ensures stored == map[] && journal == []
    {
      this.world, this.doc, this.maxPages := world, doc, maxPages;
      stored, journal := map[], [];
    }

    // ---- the chain ----

    method BindResult(s: Scope, id: string, body: Rt, headers: Option<Headers>)
      modifies s
      ensures s.View() == BindStep(old(s.View()), id, body, headers)
    {
      if id != "" {
        s.steps := s.steps[id := body];
        if headers.Some? {
          s.stepHeaders := s.stepHeaders[id := headers.value];
        }
      }
    }

    method RunFanStep(s: Scope, i: nat, chain: Chain, f: FanOut) returns (link: Link)
      requires i < |doc.requests|
      modifies s
      ensures FanStepDone(s.world, doc, old(s.View()), i, chain, f) == (s.View(), link)
    {
      var req := doc.requests[i];
      var result := RunFanOut(s, doc, i, req, f);
      match result {
        case FanFatal => return EndWith(Aborted);
        case FanInvalidated => return EndWith(Invalidated);
        case FanBreak => return EndWith(Broke);
        case Merged(body, headers) =>
          BindResult(s, req.id, body, headers);
          var h := match headers case None => map[] case Some(x) => x;
          return Next(Capture(chain, i == ProducerIndex(doc.requests), body, h));
      }
    }

    method RunRequestStep(s: Scope, i: nat, chain: Chain) returns (link: Link)
      requires i < |doc.requests|
      modifies s
      ensures RequestStepDone(s.world, doc, old(s.View()), i, chain) == (s.View(), link)
    {
      var req := doc.requests[i];
      var producer := i == ProducerIndex(doc.requests);
      var status := RunRequest(s, doc, i, req);
      match status {
        case StepFatal => return EndWith(Aborted);
        case StepBreak => return EndWith(Broke);
        case StepInvalidate => return EndWith(Invalidated);
        case StepWarn => return EndWith(Warned);
        case StepSkip => return Next(if producer then Chain(Skipped, Nil, map[], true) else chain);
        case StepEmpty => return Next(if producer then Chain(Emptied, Nil, map[], true) else chain);
        case StepOk(headers, body) =>
          var ok := RunExtracts(s, body, headers, req.extract);
          if !ok {
            return EndWith(Aborted);
          }
          BindResult(s, req.id, body, Some(headers));
          return Next(Capture(chain, producer, body, headers));
      }
    }

    method RunStep(s: Scope, i: nat, chain: Chain) returns (link: Link)
      requires i < |doc.requests|
      modifies s
      ensures StepDone(s.world, doc, old(s.View()), i, chain) == (s.View(), link)
    {
      var req := doc.requests[i];
      s.body := Nil;
      s.headers := map[];
      if req.gate.Some? {
        var open := EvalPredicate(s.world.lib, s.Current(), req.gate.value);
        if open.Err? {
          return EndWith(Aborted);
        }
        if !open.value {
          return Next(chain);
        }
      }
      if req.fanOut.Some? {
        link := RunFanStep(s, i, chain, req.fanOut.value);
      } else {
        link := RunRequestStep(s, i, chain);
      }
    }

    method RunChain(s: Scope) returns (link: Link)
      modifies s
      ensures ChainDone(s.world, doc, old(s.View()), 0, Chain(Accepted, Nil, map[], false)) == (s.View(), link)
    {
      var chain := Chain(Accepted, Nil, map[], false);
      ghost var whole := ChainDone(s.world, doc, s.View(), 0, chain);
      var i := 0;
      while i < |doc.requests|
        invariant 0 <= i <= |doc.requests|
        invariant whole == ChainDone(s.world, doc, s.View(), i, chain)
      {
        link := RunStep(s, i, chain);
        if link.EndWith? {
          return;
        }
        chain := link.chain;
        i := i + 1;
      }
      return Next(chain);
    }

    method RunIteration(s: Scope) returns (it: Iteration)
      modifies s
      ensures IterationDone(s.world, doc, old(s.View())) == (s.View(), it)
    {
      var link := RunChain(s);
      match link {
        case EndWith(kind) => return Iteration(kind, Nil, map[], None);
        case Next(chain) => return Concluded(doc, s.Current(), chain);
      }
    }

    // ---- the page loop ----

    /** Emits one event after the other, stopping at the first refusal. */
    method EmitAll(sunk: seq<Rt>, events: seq<Rt>) returns (offered: seq<Rt>, ok: bool)
      modifies this`journal
      ensures Offered(world, sunk, events) == (offered, ok)
      ensures sunk <= offered && journal == old(journal) + Emits(offered[|sunk|..])
    {
      offered := sunk;
      assert Emits(offered[|sunk|..]) == [];
      for i := 0 to |events|
        invariant Offered(world, sunk, events) == Offered(world, offered, events[i..])
        invariant sunk <= offered && journal == old(journal) + Emits(offered[|sunk|..])
      {
        assert events[i..][1..] == events[i + 1..];
        ghost var before := offered;
        offered := offered + [events[i]];
        journal := journal + [Emitted(events[i])];
        assert Emits(offered[|sunk|..]) == Emits(before[|sunk|..]) + [Emitted(events[i])];
        if !world.takes(offered) {
          return offered, false;
        }
      }
      ok := true;
    }

    method SettlePage(s: Scope, kind: Verdict, ghost page: Page) returns (exit: Option<Exit>, ghost settled: Page)
      requires page.kind == kind
      modifies s
      ensures settled == Settled(s.world, doc, old(s.View()), page)
      ensures s.View() == settled.after && exit == settled.exit
      decreases 0
    {
      settled := Settled(s.world, doc, s.View(), page);
      if kind != Warned {
        var ok := ApplyProgress(s, doc.progress);
        if !ok {
          return Some(Errored), settled;
        }
      } else {
        assert s.View() == WithState(s.View(), s.state);
      }
      var turn := Advance(s, doc.pagination);
      match turn {
        case Stop => exit := Some(Finished);
        case Broken => exit := Some(Errored);
        case Continue => exit := None;
      }
    }
  
    method BindResponse(s: Scope, it: Iteration)
      modifies s
      ensures s.View() == BindPage(old(s.View()), it)
    {
      s.body := it.body;
      s.headers := it.headers;
      s.events := match it.events case None => Nil case Some(list) => Arr(list);
    }

    /** Delivery and settlement of a page whose chain ended with a page-response. */
    method FinishPage(s: Scope, it: Iteration, sunk: seq<Rt>, ghost blank: Page)
      returns (offered: seq<Rt>, exit: Option<Exit>, ghost page: Page)
      requires s.world == world && blank.kind == it.kind
      modifies s, this`journal
      ensures page == PageFinished(world, doc, old(s.View()), it, sunk, blank)
      ensures s.View() == page.after && offered == page.sunk && exit == page.exit
      ensures sunk <= offered && journal == old(journal) + Emits(offered[|sunk|..])
    {
      page := PageFinished(world, doc, s.View(), it, sunk, blank);
      BindResponse(s, it);
      ghost var bound := s.View();
      var events := if it.kind == Accepted then EventList(it) else [];
      var ok;
      offered, ok := EmitAll(sunk, events);
      if !ok {
        return offered, Some(SinkRefused), page;
      }
      ghost var settled;
      exit, settled := SettlePage(s, it.kind, blank.(after := bound, events := events, sunk := offered));
    }

    /** One pass of the page loop, from the fresh namespaces to the advance. */
    method RunPage(s: Scope, sunk: seq<Rt>) returns (offered: seq<Rt>, exit: Option<Exit>, ghost page: Page)
      requires s.world == world
      modifies s, this`journal
      ensures page == PageDone(world, doc, old(s.View()), sunk)
      ensures s.View() == page.after && offered == page.sunk && exit == page.exit
      ensures sunk <= offered && journal == old(journal) + Emits(offered[|sunk|..])
    {
      page := PageDone(world, doc, s.View(), sunk);
      ghost var before := s.View();
      s.ResetIteration();
      var it := RunIteration(s);
      ghost var blank := Blank(before, s.View(), it.kind, sunk);
      offered := sunk;
      assert journal + Emits(offered[|sunk|..]) == journal;
      match it.kind {
        case Aborted => exit := Some(Errored);
        case Broke => exit := Some(StandardBreak);
        case Invalidated => exit := None;
        case _ =>
          ghost var finished;
          offered, exit, finished := FinishPage(s, it, sunk, blank);
      }
    }

    /** The two guards at the top of the loop, then one page. */
    method GuardedPage(s: Scope, cap: int, pages: nat, sunk: seq<Rt>)
      returns (offered: seq<Rt>, out: Option<Exit>, ghost done: seq<Page>)
      requires s.world == world
      modifies s, this`journal
      ensures Attempted(PagerOf(world, doc), cap, old(s.View()), pages, sunk) == Attempt(s.View(), out, offered, done)
      ensures sunk <= offered && journal == old(journal) + Emits(offered[|sunk|..])
    {
      offered, done := sunk, [];
      assert journal + Emits(offered[|sunk|..]) == journal;
      var live := s.Poll();
      if !live {
        return offered, Some(Cancelled), done;
      }
      if 0 < cap <= pages {
        return offered, Some(Capped), done;
      }
      ghost var page;
      offered, out, page := RunPage(s, sunk);
      done := [page];
    }

    method RunPages(s: Scope) returns (exit: Exit, sunk: seq<Rt>, ghost ledger: seq<Page>)
      requires s.world == world
      modifies s, this`journal
      ensures PageLoop(world, doc, PageCap(maxPages), old(s.View())) == Run(s.View(), exit, sunk, ledger)
      ensures journal == old(journal) + Emits(sunk)
    {
      var cap := PageCap(maxPages);
      var pages := 0;
      sunk, ledger := [], [];
      ghost var pager := PagerOf(world, doc);
      PagesWind(world, doc);
      ghost var whole := Looped(pager, cap, s.View(), 0, []);
      LedgerNothing(whole);
      assert old(journal) + Emits([]) == journal;
      while true
        invariant whole == AfterPages(ledger, Looped(pager, cap, s.View(), pages, sunk))
        invariant journal == old(journal) + Emits(sunk)
        decreases s.checks
      {
        LoopedStep(pager, cap, s.View(), pages, sunk, ledger);
        ghost var sent, done := sunk, [];
        var out;
        sunk, out, done := GuardedPage(s, cap, pages, sunk);
        EmitsSplit(old(journal), sent, sunk);
        ledger := ledger + done;
        if out.Some? {
          return out.value, sunk, ledger;
        }
        pages := pages + 1;
      }
    }

    // ---- start and end ----

    method SeedDefaults(s: Scope, order: seq<string>) returns (ok: bool)
      modifies s
      ensures var r := Seeded(s.world.lib, doc, old(s.Current()), order);
        && ok == r.Some?
        && (ok ==> s.View() == WithState(old(s.View()), r.value))
    {
      for i := 0 to |order|
        invariant s.View() == WithState(old(s.View()), s.state)
        invariant Seeded(s.world.lib, doc, old(s.Current()), order) == Seeded(s.world.lib, doc, s.Current(), order[i..])
      {
        assert order[i..][1..] == order[i + 1..];
        var f := order[i];
        if f in doc.state && doc.state[f].default.Some? {
          var v := EvalValue(s.world.lib, s.Current(), doc.state[f].default.value);
          if v.Err? {
            return false;
          }
          s.state := s.state[f := v.value];
        }
      }
      return true;
    }

    /** newScope: an empty scope, the defaults, the snapshot on top. */
    method OpenScope(checks: nat, order: seq<string>) returns (s: Scope, ok: bool)
      ensures fresh(s) && s.world == world
      ensures ok == Opened(world, doc, stored, checks, order).Some?
      ensures ok ==> Opened(world, doc, stored, checks, order) == Some(s.View())
    {
      s := new Scope(world, checks);
      assert s.View() == Opening(world, checks);
      ok := SeedDefaults(s, order);
      if ok {
        s.state := s.state + stored;
      }
    }

    method ResetScratch(s: Scope, order: seq<string>) returns (ok: bool)
      modifies s
      ensures var c := Reset(s.world.lib, doc, old(s.Current()), order);
        ok == c.ok && s.View() == WithState(old(s.View()), c.state)
    {
      for i := 0 to |order|
        invariant s.View() == WithState(old(s.View()), s.state)
        invariant Reset(s.world.lib, doc, old(s.Current()), order) == Reset(s.world.lib, doc, s.Current(), order[i..])
      {
        assert order[i..][1..] == order[i + 1..];
        var f := order[i];
        if f !in doc.state || doc.state[f].default.None? {
          s.state := s.state - {f};
        } else {
          var v := EvalValue(s.world.lib, s.Current(), doc.state[f].default.value);
          if v.Err? {
            return false;
          }
          s.state := s.state[f := v.value];
        }
      }
      return true;
    }

    /** The deferred teardown: flush, then save, whatever the flush said. */
    method TearDown(s: Scope) returns (ok: bool)
      modifies this
      ensures var snapshot := SnapshotOf(doc, s.state);
        && journal == old(journal) + [Flushed, Saved(snapshot)]
        && stored == (if world.saves then snapshot else old(stored))
        && ok == (world.flushes && world.saves)
    {
      journal := journal + [Flushed];
      ok := world.flushes;
      var snapshot := SnapshotOf(doc, s.state);
      journal := journal + [Saved(snapshot)];
      if world.saves {
        stored := snapshot;
      } else {
        ok := false;
      }
    }

    /** One pull session. `checks` is how long the context lives; the two orders are the ones in which
        the declared and the scratch fields happen to be visited. */
    method Drain(checks: nat, seedOrder: seq<string>, resetOrder: seq<string>) returns (ok: bool, ghost run: Run)
      modifies this
      ensures match Opened(world, doc, old(stored), checks, seedOrder)
        case None => !ok && journal == old(journal) && stored == old(stored)
        case Some(se) =>
          && run == Drained(world, doc, maxPages, se, resetOrder)
          && journal == old(journal) + Emits(run.sunk) + [Flushed, Saved(SnapshotOf(doc, run.session.env.state))]
          && stored == (if world.saves then SnapshotOf(doc, run.session.env.state) else old(stored))
          && ok == ((run.exit == Finished || run.exit == StandardBreak) && world.flushes && world.saves)
    {
      var s;
      s, ok := OpenScope(checks, seedOrder);
      run := Run(s.View(), Errored, [], []);
      if !ok {
        return;
      }
      var exit, sunk := Errored, [];
      ghost var ledger: seq<Page> := [];
      var clean := ResetScratch(s, resetOrder);
      if clean {
        exit, sunk, ledger := RunPages(s);
      }
      run := Run(s.View(), exit, sunk, ledger);
      var durable := TearDown(s);
      ok := (exit == Finished || exit == StandardBreak) && durable;
    }
  }

  ghost function AfterPages(head: seq<Page>, run: Run): Run {
    run.(ledger := head + run.ledger)
  }

  lemma LedgerNothing(run: Run)
    ensures AfterPages([], run) == run
  {
    assert [] + run.ledger == run.ledger;
  }

  /** One unfolding of the loop, with the pages already done in front. */
  lemma LoopedStep(pager: Pager, cap: int, se: Session, pages: nat, sunk: seq<Rt>, ledger: seq<Page>)
    requires Winding(pager)
    ensures var a := Attempted(pager, cap, se, pages, sunk);
      AfterPages(ledger, Looped(pager, cap, se, pages, sunk)) ==
        match a.out
        case Some(exit) => Run(a.after, exit, a.sunk, ledger + a.done)
        case None => AfterPages(ledger + a.done, Looped(pager, cap, a.after, pages + 1, a.sunk))
  {
    var a := Attempted(pager, cap, se, pages, sunk);
    if a.out.None? {
      AfterBoth(ledger, a.done, Looped(pager, cap, a.after, pages + 1, a.sunk));
    }
  }

  lemma AfterBoth(a: seq<Page>, b: seq<Page>, run: Run)
    ensures AfterPages(a, run.(ledger := b + run.ledger)) == AfterPages(a + b, run)
  {
    assert a + (b + run.ledger) == a + b + run.ledger;
  }
}
