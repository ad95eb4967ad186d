/** Worklists and high-water marks over many drains, with reloads, failing saves and abrupt stops in between
    (docs/runtime.md, client/runner.go Drain, client/state.go). */
module DrainSeries {
  import opened Syntax
  import opened Runtime
  import opened Scopes
  import opened Eval
  import opened Session
  import opened Drains
  import opened Frames
  import opened Restart
  import opened HighWater
  import opened HighWaterRuns
  import opened Worklist

  /** One pull session: the world it meets, and whether the process lives to its teardown. */
  datatype Pull = Pull(
    world: World,
    maxPages: int,
    checks: nat,
    seedOrder: seq<string>,
    resetOrder: seq<string>,
    ends: bool)

  /** Seeding visits the declared fields, the wipe the scratch fields. */
  ghost predicate VisitsAll(doc: Doc, pull: Pull) {
    Enumerates(pull.seedOrder, doc.state.Keys) && Enumerates(pull.resetOrder, ScratchFields(doc))
  }

  /** None when no scope could be opened. */
  ghost function RunOf(doc: Doc, pull: Pull, stored: Bindings): Option<Run> {
    match Opened(pull.world, doc, stored, pull.checks, pull.seedOrder)
    case None => None
    case Some(se) => Some(Drained(pull.world, doc, pull.maxPages, se, pull.resetOrder))
  }

  /** The run of a session whose snapshot reached the store; a failing save or an abrupt stop leaves the store as it
      was. */
  ghost function SavedRun(doc: Doc, pull: Pull, stored: Bindings): Option<Run> {
    if pull.ends && pull.world.saves then RunOf(doc, pull, stored) else None
  }

  ghost function StoredAfter(doc: Doc, pull: Pull, stored: Bindings): Bindings {
    match SavedRun(doc, pull, stored)
    case None => stored
    case Some(run) => SnapshotOf(doc, run.session.env.state)
  }

  ghost function SavedLedger(doc: Doc, pull: Pull, stored: Bindings): seq<Page> {
    match SavedRun(doc, pull, stored) case None => [] case Some(run) => run.ledger
  }

  /** The store after all sessions, each of which loads what the one before left. */
  ghost function StoredAtEnd(doc: Doc, pulls: seq<Pull>, stored: Bindings): Bindings
    decreases |pulls|
  {
    if pulls == [] then stored else StoredAtEnd(doc, pulls[1..], StoredAfter(doc, pulls[0], stored))
  }

  /** The pages of all sessions that were saved. */
  ghost function SavedPages(doc: Doc, pulls: seq<Pull>, stored: Bindings): seq<Page>
    decreases |pulls|
  {
    if pulls == [] then []
    else SavedLedger(doc, pulls[0], stored) + SavedPages(doc, pulls[1..], StoredAfter(doc, pulls[0], stored))
  }

  // ---- a field across a reload ----

  /** The store decides what a drain starts with: it holds the field, or nothing else provides it. */
  predicate Loads(doc: Doc, f: string, stored: Bindings) {
    f in stored || DefaultOf(doc, f).None?
  }

  lemma {:induction false} SeedingSkips(lib: Lib, doc: Doc, env: Env, order: seq<string>, f: string)
    requires DefaultOf(doc, f).None?
    ensures var r := Seeded(lib, doc, env, order); r.Some? ==> SameField(env.state, r.value, f)
    decreases |order|
  {
    if order != [] {
      SeedingSkips(lib, doc, env, order[1..], f);
      if order[0] in doc.state && doc.state[order[0]].default.Some? {
        var v := EvalDefault(lib, doc, env, order[0]);
        if v.Ok? {
          SeedingSkips(lib, doc, env.(state := env.state[order[0] := v.value]), order[1..], f);
        }
      }
    }
  }

  function EvalDefault(lib: Lib, doc: Doc, env: Env, f: string): Result<Rt>
    requires f in doc.state && doc.state[f].default.Some?
  {
    EvalValue(lib, env, doc.state[f].default.value)
  }

  lemma {:induction false} ResetSkips(lib: Lib, doc: Doc, env: Env, order: seq<string>, f: string)
    requires f !in order
    ensures SameField(env.state, Reset(lib, doc, env, order).state, f)
    decreases |order|
  {
    if order != [] {
      var g := order[0];
      if g !in doc.state || doc.state[g].default.None? {
        ResetSkips(lib, doc, env.(state := env.state - {g}), order[1..], f);
      } else {
        var v := EvalDefault(lib, doc, env, g);
        if v.Ok? {
          ResetSkips(lib, doc, env.(state := env.state[g := v.value]), order[1..], f);
        }
      }
    }
  }

  /** A persistent field reaches the first page as the store holds it. */
  lemma FieldIsLoaded(doc: Doc, pull: Pull, stored: Bindings, se: Session, f: string)
    requires VisitsAll(doc, pull) && Loads(doc, f, stored) && f !in ScratchFields(doc)
    requires Opened(pull.world, doc, stored, pull.checks, pull.seedOrder) == Some(se)
    ensures SameField(stored, se.env.state, f) && se.env.alias == ""
    ensures SameField(stored, Reset(pull.world.lib, doc, se.env, pull.resetOrder).state, f)
  {
    var empty := Opening(pull.world, pull.checks).env;
    if f !in stored {
      SeedingSkips(pull.world.lib, doc, empty, pull.seedOrder, f);
    }
    ResetSkips(pull.world.lib, doc, se.env, pull.resetOrder, f);
  }

  /** The page loop of a session, and where it starts. */
  ghost predicate Starts(doc: Doc, pull: Pull, ready: Session, run: Run) {
    ready.env.alias == "" &&
    (run == PageLoop(pull.world, doc, PageCap(pull.maxPages), ready) || run == Run(ready, Errored, [], []))
  }

  /** What the store holds of a persistent field before and after a saved run. */
  lemma SavedField(doc: Doc, pull: Pull, stored: Bindings, f: string) returns (ready: Session)
    requires VisitsAll(doc, pull) && Loads(doc, f, stored) && f !in ScratchFields(doc) && f in doc.state
    requires SavedRun(doc, pull, stored).Some?
    ensures var run := SavedRun(doc, pull, stored).value;
      && Starts(doc, pull, ready, run) && SameField(stored, ready.env.state, f)
      && SameField(run.session.env.state, StoredAfter(doc, pull, stored), f)
      && Loads(doc, f, StoredAfter(doc, pull, stored))
  {
    var se := Opened(pull.world, doc, stored, pull.checks, pull.seedOrder).value;
    FieldIsLoaded(doc, pull, stored, se, f);
    ready := WithState(se, Reset(pull.world.lib, doc, se.env, pull.resetOrder).state);
    DrainKeepsKeys(pull.world, doc, PageCap(pull.maxPages), ready);
  }

  // ---- worklists ----

  lemma {:induction false} HeadsJoin(a: seq<Page>, b: seq<Page>, q: string)
    ensures Heads(a + b, q) == Heads(a, q) + Heads(b, q)
    decreases |a|
  {
    if a == [] {
      assert a + b == b;
    } else {
      assert (a + b)[0] == a[0] && (a + b)[1..] == a[1..] + b;
      HeadsJoin(a[1..], b, q);
      assert Head(q, a[0]) + (Heads(a[1..], q) + Heads(b, q)) == Head(q, a[0]) + Heads(a[1..], q) + Heads(b, q);
    }
  }

  lemma {:induction false} RefillsJoin(a: seq<Page>, b: seq<Page>, q: string)
    ensures Refills(a + b, q) == Refills(a, q) + Refills(b, q)
    decreases |a|
  {
    if a == [] {
      assert a + b == b;
    } else {
      assert (a + b)[0] == a[0] && (a + b)[1..] == a[1..] + b;
      RefillsJoin(a[1..], b, q);
      assert Refill(q, a[0]) + (Refills(a[1..], q) + Refills(b, q)) ==
        Refill(q, a[0]) + Refills(a[1..], q) + Refills(b, q);
    }
  }

  /** The store's queue and the refills of these pages are the heads they took and the queue stored afterwards. */
  predicate Balanced(q: string, stored: Bindings, pages: seq<Page>, after: Bindings) {
    QueueOf(stored, q) + Refills(pages, q) == Heads(pages, q) + QueueOf(after, q)
  }

  lemma BalancedKeeps(q: string, stored: Bindings, pages: seq<Page>, after: Bindings)
    requires Balanced(q, stored, pages, after)
    ensures forall e | e in QueueOf(stored, q) :: e in Heads(pages, q) || e in QueueOf(after, q)
  {
    forall e | e in QueueOf(stored, q) ensures e in Heads(pages, q) || e in QueueOf(after, q) {
      assert e in QueueOf(stored, q) + Refills(pages, q);
    }
  }

  lemma BalancedJoin(q: string, stored: Bindings, a: seq<Page>, between: Bindings, b: seq<Page>, after: Bindings)
    requires Balanced(q, stored, a, between) && Balanced(q, between, b, after)
    ensures Balanced(q, stored, a + b, after)
  {
    HeadsJoin(a, b, q);
    RefillsJoin(a, b, q);
    Shift(QueueOf(stored, q), Refills(a, q), Refills(b, q), Heads(a, q), QueueOf(between, q), Heads(b, q),
          QueueOf(after, q));
  }

  lemma AllExtendedSplit(q: string, a: seq<Page>, b: seq<Page>)
    requires AllExtended(q, a + b)
    ensures AllExtended(q, a) && AllExtended(q, b)
  {
    assert forall page | page in a :: page in a + b;
    assert forall page | page in b :: page in a + b;
  }

  lemma RunIsInOrder(doc: Doc, pull: Pull, ready: Session, run: Run, q: string)
    requires KeepsQueue(doc, q) && Starts(doc, pull, ready, run) && AllExtended(q, run.ledger)
    ensures InOrder(q, ready.env, run)
  {
    if run == PageLoop(pull.world, doc, PageCap(pull.maxPages), ready) {
      WorklistIsFifo(pull.world, doc, PageCap(pull.maxPages), ready, q);
    }
  }

  lemma PullBalances(doc: Doc, pull: Pull, stored: Bindings, q: string)
    requires KeepsQueue(doc, q) && q in doc.state && VisitsAll(doc, pull) && Loads(doc, q, stored)
    requires AllExtended(q, SavedLedger(doc, pull, stored))
    ensures Balanced(q, stored, SavedLedger(doc, pull, stored), StoredAfter(doc, pull, stored))
    ensures Loads(doc, q, StoredAfter(doc, pull, stored))
  {
    if SavedRun(doc, pull, stored).Some? {
      var run := SavedRun(doc, pull, stored).value;
      var ready := SavedField(doc, pull, stored, q);
      SameQueue(stored, ready.env.state, q);
      SameQueue(run.session.env.state, StoredAfter(doc, pull, stored), q);
      RunIsInOrder(doc, pull, ready, run, q);
    }
  }

  /** At least once, over any number of sessions, failing saves and abrupt stops: the stored queue followed by the
      refills of the saved sessions is the heads their landed pages took, followed by the queue in the store at the
      end. What an unsaved session took is taken again. */
  lemma {:induction false} WorklistIsNeverLost(doc: Doc, pulls: seq<Pull>, stored: Bindings, q: string)
    requires KeepsQueue(doc, q) && q in doc.state && Loads(doc, q, stored)
    requires forall pull | pull in pulls :: VisitsAll(doc, pull)
    requires AllExtended(q, SavedPages(doc, pulls, stored))
    ensures Balanced(q, stored, SavedPages(doc, pulls, stored), StoredAtEnd(doc, pulls, stored))
    ensures forall e | e in QueueOf(stored, q) ::
      e in Heads(SavedPages(doc, pulls, stored), q) || e in QueueOf(StoredAtEnd(doc, pulls, stored), q)
    decreases |pulls|
  {
    if pulls == [] {
      assert QueueOf(stored, q) + [] == QueueOf(stored, q);
    } else {
      var between := StoredAfter(doc, pulls[0], stored);
      var first, rest := SavedLedger(doc, pulls[0], stored), SavedPages(doc, pulls[1..], between);
      AllExtendedSplit(q, first, rest);
      PullBalances(doc, pulls[0], stored, q);
      WorklistIsNeverLost(doc, pulls[1..], between, q);
      BalancedJoin(q, stored, first, between, rest, StoredAtEnd(doc, pulls, stored));
    }
    BalancedKeeps(q, stored, SavedPages(doc, pulls, stored), StoredAtEnd(doc, pulls, stored));
  }

  // ---- high-water marks ----

  lemma {:induction false} StreamedJoin(lib: Lib, x: Rt, a: seq<seq<Rt>>, b: seq<seq<Rt>>)
    ensures Streamed(lib, x, a + b) == Streamed(lib, Streamed(lib, x, a), b)
    decreases |a|
  {
    if a == [] {
      assert a + b == b;
    } else {
      assert (a + b)[0] == a[0] && (a + b)[1..] == a[1..] + b;
      StreamedJoin(lib, MarkStep(lib, x, a[0]), a[1..], b);
    }
  }

  lemma {:induction false} MarkedJoin(a: seq<Page>, b: seq<Page>, field: seq<string>)
    ensures MarkedPages(a + b, field) == MarkedPages(a, field) + MarkedPages(b, field)
    decreases |a|
  {
    if a == [] {
      assert a + b == b;
    } else {
      assert (a + b)[0] == a[0] && (a + b)[1..] == a[1..] + b;
      MarkedJoin(a[1..], b, field);
    }
  }

  lemma PullStreams(lib: Lib, doc: Doc, pull: Pull, stored: Bindings, x: string, field: seq<string>)
    requires KeepsMark(doc, x, field) && x in doc.state && VisitsAll(doc, pull) && Loads(doc, x, stored)
    requires pull.world.lib == lib
    ensures FieldOr(StoredAfter(doc, pull, stored), x) ==
      Streamed(lib, FieldOr(stored, x), MarkedPages(SavedLedger(doc, pull, stored), field))
    ensures Loads(doc, x, StoredAfter(doc, pull, stored))
  {
    if SavedRun(doc, pull, stored).Some? {
      var run := SavedRun(doc, pull, stored).value;
      var ready := SavedField(doc, pull, stored, x);
      if run == PageLoop(pull.world, doc, PageCap(pull.maxPages), ready) {
        DrainStreamsMark(pull.world, doc, PageCap(pull.maxPages), ready, x, field);
      }
    }
  }

  /** The stored mark is the stream of the fields of all landed pages of all saved sessions. */
  lemma {:induction false} StoredMarkIsStreamed(lib: Lib, doc: Doc, pulls: seq<Pull>, stored: Bindings, x: string,
                                                field: seq<string>)
    requires KeepsMark(doc, x, field) && x in doc.state && Loads(doc, x, stored)
    requires forall pull | pull in pulls :: VisitsAll(doc, pull) && pull.world.lib == lib
    ensures FieldOr(StoredAtEnd(doc, pulls, stored), x) ==
      Streamed(lib, FieldOr(stored, x), MarkedPages(SavedPages(doc, pulls, stored), field))
    decreases |pulls|
  {
    if pulls != [] {
      var between := StoredAfter(doc, pulls[0], stored);
      var first, rest := SavedLedger(doc, pulls[0], stored), SavedPages(doc, pulls[1..], between);
      PullStreams(lib, doc, pulls[0], stored, x, field);
      StoredMarkIsStreamed(lib, doc, pulls[1..], between, x, field);
      MarkedJoin(first, rest, field);
      StreamedJoin(lib, FieldOr(stored, x), MarkedPages(first, field), MarkedPages(rest, field));
    }
  }

  /** On one comparable class the store never loses ground. */
  lemma StoredMarkNeverFalls(lib: Lib, doc: Doc, pulls: seq<Pull>, stored: Bindings, x: string, field: seq<string>,
                             cls: Rank)
    requires KeepsMark(doc, x, field) && x in doc.state && Loads(doc, x, stored) && lib.parseTime("").None?
    requires forall pull | pull in pulls :: VisitsAll(doc, pull) && pull.world.lib == lib
    requires InClass(lib, cls, FieldOr(stored, x)) && !IsZero(FieldOr(stored, x))
    requires AllInClass(lib, cls, Joined(MarkedPages(SavedPages(doc, pulls, stored), field)))
    ensures var was, now := FieldOr(stored, x), FieldOr(StoredAtEnd(doc, pulls, stored), x);
      && now != Nil && SameClass(RankOf(lib, was), RankOf(lib, now))
      && CompareRanks(RankOf(lib, was), RankOf(lib, now)) <= 0
  {
    StoredMarkIsStreamed(lib, doc, pulls, stored, x, field);
    MarkNeverDecreases(lib, cls, FieldOr(stored, x), MarkedPages(SavedPages(doc, pulls, stored), field));
  }
}
