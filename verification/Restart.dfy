/** What survives a restart: scratch fields do not, everything else does (client/state.go newScope,
    resetPerDrainScratch, snapshot; client/runner.go Drain). */
module Restart {
  import opened Syntax
  import opened Runtime
  import opened Scopes
  import opened Eval
  import opened Secrecy
  import opened Session
  import opened Writes
  import opened Drains
  import opened Frames

  function DefaultOf(doc: Doc, f: string): Option<Value> {
    if f in doc.state then doc.state[f].default else None
  }

  /** The order visits exactly these fields. */
  ghost predicate Enumerates(order: seq<string>, fields: set<string>) {
    forall f :: f in order <==> f in fields
  }

  lemma DefaultUnmoved(lib: Lib, a: Env, b: Env, v: Value, touched: set<string>)
    requires b == a.(state := b.state) && Reads(v) !! touched
    requires forall f | f !in touched :: SameField(a.state, b.state, f)
    ensures EvalValue(lib, a, v) == EvalValue(lib, b, v)
  {
    EvalReads(lib, a, b, v);
  }

  // ---- seeding defaults ----

  function Defaulted(doc: Doc): set<string> {
    set f | f in doc.state && doc.state[f].default.Some?
  }

  /** No default reads a field that itself has a default, so the order of seeding cannot matter. */
  predicate OrderFreeDefaults(doc: Doc) {
    forall f | f in Defaulted(doc) :: Reads(doc.state[f].default.value) !! Defaulted(doc)
  }

  /** Where seeding leads from `env` when every default is evaluated there. */
  ghost predicate SeededFrom(lib: Lib, doc: Doc, env: Env, fields: set<string>, after: Bindings) {
    forall f :: if f in fields && f in Defaulted(doc)
      then EvalValue(lib, env, doc.state[f].default.value).Ok? && f in after
        && after[f] == EvalValue(lib, env, doc.state[f].default.value).value
      else SameField(env.state, after, f)
  }

  function Fields(order: seq<string>): set<string> {
    set f | f in order
  }

  lemma SeedingVisits(lib: Lib, doc: Doc, start: Env, state: Bindings, done: set<string>, f: string)
    requires SeededFrom(lib, doc, start, done, state)
    ensures if f in Defaulted(doc)
      then EvalValue(lib, start, doc.state[f].default.value).Ok? ==>
          SeededFrom(lib, doc, start, done + {f}, state[f := EvalValue(lib, start, doc.state[f].default.value).value])
      else SeededFrom(lib, doc, start, done + {f}, state)
  {
  }

  lemma {:induction false} SeedingMeaning(lib: Lib, doc: Doc, start: Env, env: Env, done: set<string>,
                                          order: seq<string>)
    requires OrderFreeDefaults(doc) && env == start.(state := env.state)
    requires SeededFrom(lib, doc, start, done, env.state)
    ensures var r := Seeded(lib, doc, env, order);
      && (r.Some? ==> SeededFrom(lib, doc, start, done + Fields(order), r.value))
      && (r.None? ==>
            exists f :: f in order && f in Defaulted(doc) && EvalValue(lib, start, doc.state[f].default.value).Err?)
    decreases |order|
  {
    if order == [] {
      assert done + Fields(order) == done;
    } else {
      var f, rest := order[0], order[1..];
      assert done + Fields(order) == done + {f} + Fields(rest);
      SeedingVisits(lib, doc, start, env.state, done, f);
      if f in Defaulted(doc) {
        DefaultUnmoved(lib, start, env, doc.state[f].default.value, Defaulted(doc));
        var v := EvalValue(lib, start, doc.state[f].default.value);
        if v.Ok? {
          SeedingMeaning(lib, doc, start, env.(state := env.state[f := v.value]), done + {f}, rest);
        }
      } else {
        SeedingMeaning(lib, doc, start, env, done + {f}, rest);
      }
    }
  }

  lemma SeededOnce(lib: Lib, doc: Doc, env: Env, fields: set<string>, a: Bindings, b: Bindings)
    requires SeededFrom(lib, doc, env, fields, a) && SeededFrom(lib, doc, env, fields, b)
    ensures a == b
  {
    forall f ensures SameField(a, b, f) {
      assert SameField(env.state, a, f) || f in Defaulted(doc);
    }
    SameEverywhere(a, b);
  }

  /** Seeding gives the same state, or fails, in whatever order the declared fields are visited. */
  lemma SeedingIsOrderFree(lib: Lib, doc: Doc, env: Env, a: seq<string>, b: seq<string>)
    requires OrderFreeDefaults(doc) && Enumerates(a, doc.state.Keys) && Enumerates(b, doc.state.Keys)
    ensures Seeded(lib, doc, env, a) == Seeded(lib, doc, env, b)
  {
    SeedingMeaning(lib, doc, env, env, {}, a);
    SeedingMeaning(lib, doc, env, env, {}, b);
    var x, y := Seeded(lib, doc, env, a), Seeded(lib, doc, env, b);
    assert {} + Fields(a) == Fields(b) && {} + Fields(b) == Fields(b);
    if x.Some? && y.Some? {
      SeededOnce(lib, doc, env, Fields(b), x.value, y.value);
    }
  }

  // ---- resetting scratch fields ----

  /** No default of a scratch field reads a scratch field. */
  predicate IndependentScratch(doc: Doc) {
    forall f | f in ScratchFields(doc) && DefaultOf(doc, f).Some? ::
      Reads(DefaultOf(doc, f).value) !! ScratchFields(doc)
  }

  /** The fields visited so far hold their defaults, or nothing; the others are as they were. */
  ghost predicate ResetFrom(lib: Lib, doc: Doc, env: Env, fields: set<string>, after: Bindings) {
    forall f :: if f !in fields then SameField(env.state, after, f)
      else match DefaultOf(doc, f)
        case None => f !in after
        case Some(d) => EvalValue(lib, env, d).Ok? && f in after && after[f] == EvalValue(lib, env, d).value
  }

  ghost predicate OffScratch(doc: Doc, a: Bindings, b: Bindings) {
    forall f | f !in ScratchFields(doc) :: SameField(a, b, f)
  }

  lemma ResetVisits(lib: Lib, doc: Doc, start: Env, state: Bindings, done: set<string>, f: string)
    requires ResetFrom(lib, doc, start, done, state)
    ensures match DefaultOf(doc, f)
      case None => ResetFrom(lib, doc, start, done + {f}, state - {f})
      case Some(d) => EvalValue(lib, start, d).Ok? ==>
          ResetFrom(lib, doc, start, done + {f}, state[f := EvalValue(lib, start, d).value])
  {
  }

  lemma ResetStaysOffScratch(lib: Lib, doc: Doc, start: Env, state: Bindings, done: set<string>)
    requires ResetFrom(lib, doc, start, done, state) && done <= ScratchFields(doc)
    ensures OffScratch(doc, start.state, state)
  {
    forall f | f !in ScratchFields(doc) ensures SameField(start.state, state, f) {
      assert f !in done;
    }
  }

  lemma {:induction false} ResetMeaning(lib: Lib, doc: Doc, start: Env, env: Env, done: set<string>, order: seq<string>)
    requires IndependentScratch(doc) && env == start.(state := env.state)
    requires ResetFrom(lib, doc, start, done, env.state) && done <= ScratchFields(doc)
    requires Fields(order) <= ScratchFields(doc)
    ensures var r := Reset(lib, doc, env, order);
      && OffScratch(doc, start.state, r.state)
      && (r.ok ==> ResetFrom(lib, doc, start, done + Fields(order), r.state))
      && (!r.ok ==>
            exists f :: f in order && DefaultOf(doc, f).Some? && EvalValue(lib, start, DefaultOf(doc, f).value).Err?)
    decreases |order|
  {
    ResetStaysOffScratch(lib, doc, start, env.state, done);
    if order == [] {
      assert done + Fields(order) == done;
    } else {
      var f, rest := order[0], order[1..];
      assert f in Fields(order) && Fields(rest) <= Fields(order);
      assert done + Fields(order) == done + {f} + Fields(rest);
      ResetVisits(lib, doc, start, env.state, done, f);
      match DefaultOf(doc, f) {
        case None => ResetMeaning(lib, doc, start, env.(state := env.state - {f}), done + {f}, rest);
        case Some(d) =>
          DefaultUnmoved(lib, start, env, d, ScratchFields(doc));
          if EvalValue(lib, start, d).Ok? {
            ResetMeaning(lib, doc, start, env.(state := env.state[f := EvalValue(lib, start, d).value]),
                         done + {f}, rest);
          }
      }
    }
  }

  lemma ResetOnce(lib: Lib, doc: Doc, x: Env, y: Env, a: Bindings, b: Bindings)
    requires IndependentScratch(doc) && y == x.(state := y.state) && OffScratch(doc, x.state, y.state)
    requires ResetFrom(lib, doc, x, ScratchFields(doc), a) && ResetFrom(lib, doc, y, ScratchFields(doc), b)
    ensures a == b
  {
    forall f ensures SameField(a, b, f) {
      assert f !in ScratchFields(doc) ==>
        SameField(x.state, a, f) && SameField(y.state, b, f) && SameField(x.state, y.state, f);
      if f in ScratchFields(doc) && DefaultOf(doc, f).Some? {
        DefaultUnmoved(lib, x, y, DefaultOf(doc, f).value, ScratchFields(doc));
      }
    }
    SameEverywhere(a, b);
  }

  lemma SnapshotIgnoresScratch(doc: Doc, a: Bindings, b: Bindings)
    requires OffScratch(doc, a, b)
    ensures SnapshotOf(doc, a) == SnapshotOf(doc, b)
  {
    var x, y := SnapshotOf(doc, a), SnapshotOf(doc, b);
    assert forall f | f !in ScratchFields(doc) :: SameField(a, b, f);
    forall f ensures SameField(x, y, f) {
      if f !in ScratchFields(doc) {
        assert SameField(a, b, f);
      }
    }
    SameEverywhere(x, y);
  }

  /** The wipe at the start of a drain forgets everything the scratch fields held: from states that agree on
      all other fields it leads to the same state, in whatever orders it visits the fields, or fails in both. */
  lemma ResetForgetsScratch(lib: Lib, doc: Doc, x: Env, y: Env, a: seq<string>, b: seq<string>)
    requires IndependentScratch(doc) && y == x.(state := y.state) && OffScratch(doc, x.state, y.state)
    requires Enumerates(a, ScratchFields(doc)) && Enumerates(b, ScratchFields(doc))
    ensures var r, q := Reset(lib, doc, x, a), Reset(lib, doc, y, b);
      && r.ok == q.ok
      && (r.ok ==> r.state == q.state)
      && SnapshotOf(doc, r.state) == SnapshotOf(doc, q.state)
  {
    ResetMeaning(lib, doc, x, x, {}, a);
    ResetMeaning(lib, doc, y, y, {}, b);
    var r, q := Reset(lib, doc, x, a), Reset(lib, doc, y, b);
    assert {} + Fields(a) == ScratchFields(doc) && {} + Fields(b) == ScratchFields(doc);
    forall f | f in ScratchFields(doc) && DefaultOf(doc, f).Some?
      ensures EvalValue(lib, x, DefaultOf(doc, f).value) == EvalValue(lib, y, DefaultOf(doc, f).value)
    {
      DefaultUnmoved(lib, x, y, DefaultOf(doc, f).value, ScratchFields(doc));
    }
    if r.ok && q.ok {
      ResetOnce(lib, doc, x, y, r.state, q.state);
    }
    OffScratchChain(doc, r.state, x.state, y.state, q.state);
    SnapshotIgnoresScratch(doc, r.state, q.state);
  }

  lemma OffScratchChain(doc: Doc, a: Bindings, x: Bindings, y: Bindings, b: Bindings)
    requires OffScratch(doc, x, a) && OffScratch(doc, x, y) && OffScratch(doc, y, b)
    ensures OffScratch(doc, a, b)
  {
    forall f | f !in ScratchFields(doc) ensures SameField(a, b, f) {
      assert SameField(x, a, f) && SameField(x, y, f) && SameField(y, b, f);
    }
  }

  // ---- restart independence ----

  /** Everything an observer sees of a drain. */
  ghost predicate SameOutcome(doc: Doc, a: Run, b: Run) {
    && a.exit == b.exit && a.sunk == b.sunk && a.ledger == b.ledger
    && SnapshotOf(doc, a.session.env.state) == SnapshotOf(doc, b.session.env.state)
  }

  /** Two snapshots that agree off the scratch fields give the same drain: the same pages, the same events,
      the same way out and the same new snapshot, in whatever orders the defaults are visited. */
  lemma RestartIndependence(w: World, doc: Doc, maxPages: int, checks: nat, a: Bindings, b: Bindings,
                            seedA: seq<string>, seedB: seq<string>, resetA: seq<string>, resetB: seq<string>)
    requires OrderFreeDefaults(doc) && IndependentScratch(doc) && OffScratch(doc, a, b)
    requires Enumerates(seedA, doc.state.Keys) && Enumerates(seedB, doc.state.Keys)
    requires Enumerates(resetA, ScratchFields(doc)) && Enumerates(resetB, ScratchFields(doc))
    ensures var x, y := Opened(w, doc, a, checks, seedA), Opened(w, doc, b, checks, seedB);
      && x.Some? == y.Some?
      && (x.Some? ==>
            SameOutcome(doc, Drained(w, doc, maxPages, x.value, resetA), Drained(w, doc, maxPages, y.value, resetB)))
  {
    var env := Opening(w, checks).env;
    SeedingIsOrderFree(w.lib, doc, env, seedA, seedB);
    var x, y := Opened(w, doc, a, checks, seedA), Opened(w, doc, b, checks, seedB);
    if x.Some? {
      var seeded := Seeded(w.lib, doc, env, seedA).value;
      OverlaysAgree(doc, seeded, a, b);
      ResetForgetsScratch(w.lib, doc, x.value.env, y.value.env, resetA, resetB);
    }
  }

  lemma OverlaysAgree(doc: Doc, base: Bindings, a: Bindings, b: Bindings)
    requires OffScratch(doc, a, b)
    ensures OffScratch(doc, base + a, base + b)
  {
    forall f | f !in ScratchFields(doc) ensures SameField(base + a, base + b, f) {
      assert SameField(a, b, f);
    }
  }

  // ---- a saved snapshot is a fixed point ----

  /** The snapshot that opening, wiping and snapshotting again would produce. */
  function Resaved(w: World, doc: Doc, se: Session, order: seq<string>): Bindings {
    SnapshotOf(doc, Reset(w.lib, doc, se.env, order).state)
  }

  /** The snapshot holds every defaulted field that is not scratch. */
  predicate Complete(doc: Doc, snap: Bindings) {
    forall f | f in Defaulted(doc) && f !in ScratchFields(doc) :: f in snap
  }

  lemma OpenedState(w: World, doc: Doc, snap: Bindings, checks: nat, order: seq<string>)
    requires OrderFreeDefaults(doc) && Enumerates(order, doc.state.Keys) && Opened(w, doc, snap, checks, order).Some?
    ensures var state := Opened(w, doc, snap, checks, order).value.env.state;
      && state.Keys == Defaulted(doc) + snap.Keys
      && forall f | f in snap :: state[f] == snap[f]
  {
    var env := Opening(w, checks).env;
    SeedingMeaning(w.lib, doc, env, env, {}, order);
    var seeded := Seeded(w.lib, doc, env, order).value;
    forall f ensures f in seeded <==> f in Defaulted(doc) {
      assert f in {} + Fields(order) <==> f in doc.state;
    }
  }

  /** A snapshot of declared, non-scratch fields survives a reload exactly when it is complete: a defaulted
      field it lacks would come back with its default. */
  lemma ReloadKeepsSnapshot(w: World, doc: Doc, snap: Bindings, checks: nat, seedOrder: seq<string>,
                            resetOrder: seq<string>)
    requires OrderFreeDefaults(doc) && IndependentScratch(doc)
    requires Enumerates(seedOrder, doc.state.Keys) && Enumerates(resetOrder, ScratchFields(doc))
    requires Opened(w, doc, snap, checks, seedOrder).Some?
    requires snap.Keys <= doc.state.Keys - ScratchFields(doc)
    ensures Resaved(w, doc, Opened(w, doc, snap, checks, seedOrder).value, resetOrder) == snap <==> Complete(doc, snap)
  {
    var se := Opened(w, doc, snap, checks, seedOrder).value;
    OpenedState(w, doc, snap, checks, seedOrder);
    ResetMeaning(w.lib, doc, se.env, se.env, {}, resetOrder);
    var again := Resaved(w, doc, se, resetOrder);
    SnapshotIgnoresScratch(doc, se.env.state, Reset(w.lib, doc, se.env, resetOrder).state);
    assert again == SnapshotOf(doc, se.env.state);
    assert again.Keys == Defaulted(doc) - ScratchFields(doc) + snap.Keys;
    if Complete(doc, snap) {
      assert again.Keys == snap.Keys;
    }
  }

  /** What a drain saves is a fixed point: reloading it, wiping the scratch fields and snapshotting again
      gives the same snapshot. */
  lemma SavedSnapshotIsStable(w: World, doc: Doc, maxPages: int, snap: Bindings, checks: nat, later: nat,
                              seedOrder: seq<string>, resetOrder: seq<string>)
    requires OrderFreeDefaults(doc) && IndependentScratch(doc)
    requires Enumerates(seedOrder, doc.state.Keys) && Enumerates(resetOrder, ScratchFields(doc))
    requires Opened(w, doc, snap, checks, seedOrder).Some?
    ensures var se := Opened(w, doc, snap, checks, seedOrder).value;
      var saved := SnapshotOf(doc, Drained(w, doc, maxPages, se, resetOrder).session.env.state);
      && Opened(w, doc, saved, later, seedOrder).Some?
      && Resaved(w, doc, Opened(w, doc, saved, later, seedOrder).value, resetOrder) == saved
  {
    var se := Opened(w, doc, snap, checks, seedOrder).value;
    var c := Reset(w.lib, doc, se.env, resetOrder);
    OpenedState(w, doc, snap, checks, seedOrder);
    ResetMeaning(w.lib, doc, se.env, se.env, {}, resetOrder);
    DrainKeepsKeys(w, doc, PageCap(maxPages), WithState(se, c.state));
    var final := Drained(w, doc, maxPages, se, resetOrder).session.env.state;
    var saved := SnapshotOf(doc, final);
    forall f | f in Defaulted(doc) && f !in ScratchFields(doc) ensures f in saved {
      assert SameField(se.env.state, c.state, f) && f in c.state && f in final;
    }
    assert Opening(w, checks).env == Opening(w, later).env;
    ReloadKeepsSnapshot(w, doc, saved, later, seedOrder, resetOrder);
  }
}
