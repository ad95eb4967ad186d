/** The cache over whole drains: every lookup that answers, and the pages after an invalidation
    (client/cache.go, client/http.go, client/runner.go). */
module CacheRuns {
  import opened Syntax
  import opened Runtime
  import opened Scopes
  import opened Session
  import opened Caching
  import opened CacheLog
  import opened Requests
  import opened Drains
  import opened Ledger
  import opened Retries

  ghost predicate Growing(slots: set<string>, pager: Pager) {
    forall b: Session, s: seq<Rt> :: Grows(slots, b, pager(b, s).after)
  }

  lemma DrainPagesGrow(w: World, doc: Doc)
    ensures Winding(PagerOf(w, doc)) && Growing(Reachable(doc), PagerOf(w, doc))
  {
    PagesWind(w, doc);
    forall b: Session, s: seq<Rt> ensures Grows(Reachable(doc), b, PagerOf(w, doc)(b, s).after) {
      PageSpent(w, doc, b, s);
    }
  }

  lemma {:induction false} RunsGrow(slots: set<string>, pager: Pager, cap: int, se: Session, pages: nat, sunk: seq<Rt>)
    requires Winding(pager) && Growing(slots, pager)
    ensures Grows(slots, se, Looped(pager, cap, se, pages, sunk).session)
    decreases se.checks
  {
    var a := Attempted(pager, cap, se, pages, sunk);
    if a.done == [] {
      GrowsStill(slots, se, a.after);
    } else {
      var live := se.(checks := se.checks - 1);
      GrowsStill(slots, se, live);
      assert Grows(slots, live, pager(live, sunk).after);
      GrowsTrans(slots, se, live, a.after);
      if a.out.None? {
        RunsGrow(slots, pager, cap, a.after, pages + 1, a.sunk);
        GrowsTrans(slots, se, a.after, Looped(pager, cap, a.after, pages + 1, a.sunk).session);
      }
    }
  }

  /** Every cache lookup that answered during a drain, wherever in a page it happened, returned the value of the
      last store to its slot before it, while the clock plus the buffer was before that store's expiry; and the
      slot had been stored since every earlier invalidation. */
  lemma HitsAreTrue(w: World, doc: Doc, cap: int, se: Session)
    requires NoShadowing(Reachable(doc)) && Truthful(Reachable(doc), se)
    ensures var r := PageLoop(w, doc, cap, se);
      forall i | 0 <= i < |r.session.marks| :: MarkTrue(r.session.stored, r.session.marks, i)
  {
    DrainPagesGrow(w, doc);
    RunsGrow(Reachable(doc), PagerOf(w, doc), cap, se, 0, []);
  }

  /** In particular for a drain that starts as a fresh scope does. */
  lemma FreshSessionIsTruthful(slots: set<string>, se: Session)
    requires se.env.cache == map[] && se.stored == [] && se.marks == []
    ensures Truthful(slots, se)
  {
  }

  /** An exchange that succeeds without a call on the wire is a logged hit with that value. */
  lemma AnswersAreLogged(w: World, se: Session, step: nat, req: Request, auth: Auth)
    ensures var (after, ex) := Executed(w, se, step, req, auth);
      ex.Got? && |after.wire| <= |se.wire| ==>
        && req.cache.Some? && CacheSlot(req.cache.value.to).Some? && w.lib.parseDuration(req.cache.value.buffer).Some?
        && after.marks == se.marks + [Served(CacheSlot(req.cache.value.to).value, ex.body, se.env.now,
                                             w.lib.parseDuration(req.cache.value.buffer).value, |se.stored|)]
  {
    AuthExtends(w, se, auth);
  }

  // ---- at the end of a page ----

  lemma {:induction false} LaterPagesGrow(slots: set<string>, pager: Pager, cap: int, se: Session, i: nat, j: nat)
    requires Winding(pager) && Growing(slots, pager)
    requires i <= j < |Looped(pager, cap, se, 0, []).ledger|
    ensures var ledger := Looped(pager, cap, se, 0, []).ledger; Grows(slots, ledger[i].after, ledger[j].after)
    decreases j
  {
    var ledger := Looped(pager, cap, se, 0, []).ledger;
    if i == j {
      GrowsStill(slots, ledger[i].after, ledger[i].after);
    } else {
      LaterPagesGrow(slots, pager, cap, se, i, j - 1);
      var before, sunk := PageOf(pager, cap, se, 0, [], j);
      GrowsStill(slots, ledger[j - 1].after, before);
      GrowsTrans(slots, ledger[i].after, ledger[j - 1].after, before);
      assert Grows(slots, before, ledger[j].after);
      GrowsTrans(slots, ledger[i].after, before, ledger[j].after);
    }
  }

  lemma UnstoredSlotStaysAway(slots: set<string>, a: Session, b: Session, slot: string)
    requires NoShadowing(slots) && slot in slots && Grows(slots, a, b)
    requires slot !in a.env.cache && slot !in SlotsOf(b.stored[|a.stored|..])
    ensures slot !in b.env.cache
  {
    StoresStayPaired(slots, b.stored[|a.stored|..], slot);
    assert Explained(a.env.cache, b.stored[|a.stored|..], b.env.cache, slot);
  }

  /** After an invalidated page, a declared slot that answers at the end of a later page was stored in between. */
  lemma MissesUntilStored(w: World, doc: Doc, cap: int, se: Session, i: nat, j: nat, c: Cache)
    requires NoShadowing(Reachable(doc)) && SlotSet(Some(c)) <= Reachable(doc)
    requires i <= j < |PageLoop(w, doc, cap, se).ledger| && PageLoop(w, doc, cap, se).ledger[i].kind == Invalidated
    ensures var ledger := PageLoop(w, doc, cap, se).ledger;
      && ledger[i].after.stored <= ledger[j].after.stored
      && (CacheGet(w.lib, ledger[j].after.env, c).Some? ==>
            && CacheSlot(c.to).Some?
            && CacheSlot(c.to).value in SlotsOf(ledger[j].after.stored[|ledger[i].after.stored|..]))
  {
    DrainPagesGrow(w, doc);
    var pager := PagerOf(w, doc);
    var ledger := PageLoop(w, doc, cap, se).ledger;
    LaterPagesGrow(Reachable(doc), pager, cap, se, i, j);
    var before, sunk := PageOf(pager, cap, se, 0, [], i);
    PageSpent(w, doc, before, sunk);
    if CacheSlot(c.to).Some? {
      var slot := CacheSlot(c.to).value;
      assert slot in SlotSet(Some(c));
      if slot !in SlotsOf(ledger[j].after.stored[|ledger[i].after.stored|..]) {
        assert slot !in Reachable(doc) * ledger[i].after.env.cache.Keys;
        UnstoredSlotStaysAway(Reachable(doc), ledger[i].after, ledger[j].after, slot);
      }
    }
  }

  lemma HitInGrownCache(slots: set<string>, lib: Lib, a: Session, b: Session, c: Cache)
    requires NoShadowing(slots) && SlotSet(Some(c)) <= slots && Grows(slots, a, b) && a.env.cache == map[]
    requires CacheGet(lib, b.env, c).Some?
    ensures CacheSlot(c.to).Some? && lib.parseDuration(c.buffer).Some?
    ensures HitTrue(b.stored[|a.stored|..], CacheSlot(c.to).value, CacheGet(lib, b.env, c).value, b.env.now,
                    lib.parseDuration(c.buffer).value)
  {
    var slot := CacheSlot(c.to).value;
    assert slot in SlotSet(Some(c));
    var records := b.stored[|a.stored|..];
    StoresStayPaired(slots, records, slot);
    assert Explained(a.env.cache, records, b.env.cache, slot);
    assert Explained(a.env.cache, records, b.env.cache, ExpiryKey(slot));
  }

  /** At the end of any page of a drain that started with an empty cache, a hit is the last store to its slot. */
  lemma HitsAreLastStores(w: World, doc: Doc, cap: int, se: Session, j: nat, c: Cache)
    requires NoShadowing(Reachable(doc)) && SlotSet(Some(c)) <= Reachable(doc) && se.env.cache == map[]
    requires j < |PageLoop(w, doc, cap, se).ledger|
    ensures var after := PageLoop(w, doc, cap, se).ledger[j].after;
      && se.stored <= after.stored
      && (CacheGet(w.lib, after.env, c).Some? ==>
            && CacheSlot(c.to).Some? && w.lib.parseDuration(c.buffer).Some?
            && HitTrue(after.stored[|se.stored|..], CacheSlot(c.to).value, CacheGet(w.lib, after.env, c).value,
                       after.env.now, w.lib.parseDuration(c.buffer).value))
  {
    DrainPagesGrow(w, doc);
    var slots, pager := Reachable(doc), PagerOf(w, doc);
    var ledger := PageLoop(w, doc, cap, se).ledger;
    var before, sunk := PageOf(pager, cap, se, 0, [], 0);
    GrowsStill(slots, se, before);
    assert Grows(slots, before, pager(before, sunk).after);
    GrowsTrans(slots, se, before, ledger[0].after);
    LaterPagesGrow(slots, pager, cap, se, 0, j);
    GrowsTrans(slots, se, ledger[0].after, ledger[j].after);
    if CacheGet(w.lib, ledger[j].after.env, c).Some? {
      HitInGrownCache(slots, w.lib, se, ledger[j].after, c);
    }
  }
}
