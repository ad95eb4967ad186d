/** The cache against its logs: what the stores explain, and which hits they make true
    (client/cache.go, client/runner.go dropReachableCaches). */
module CacheLog {
  import opened Syntax
  import opened Runtime
  import opened Scopes
  import opened Session
  import opened Caching

  // ---- what the stores wrote ----

  /** The last thing these stores wrote at a key; a store writes its slot, then the slot's expiry key. */
  function LastWrite(records: seq<StoreRecord>, key: string): Option<Rt> {
    if records == [] then None
    else
      var r := records[|records| - 1];
      if key == ExpiryKey(r.slot) then Some(Time(r.expires))
      else if key == r.slot then Some(r.value)
      else LastWrite(records[..|records| - 1], key)
  }

  lemma {:induction false} LastWriteSplit(a: seq<StoreRecord>, b: seq<StoreRecord>, key: string)
    ensures LastWrite(a + b, key) == if LastWrite(b, key).Some? then LastWrite(b, key) else LastWrite(a, key)
    decreases |b|
  {
    if b == [] {
      assert a + b == a;
    } else {
      var init, r := b[..|b| - 1], b[|b| - 1];
      assert (a + b)[|a + b| - 1] == r && (a + b)[..|a + b| - 1] == a + init;
      LastWriteSplit(a, init, key);
    }
  }

  /** The last store to a slot. */
  function LastStore(records: seq<StoreRecord>, slot: string): Option<StoreRecord> {
    if records == [] then None
    else if records[|records| - 1].slot == slot then Some(records[|records| - 1])
    else LastStore(records[..|records| - 1], slot)
  }

  function SlotsOf(records: seq<StoreRecord>): set<string> {
    set r | r in records :: r.slot
  }

  predicate OnlyStores(slots: set<string>, records: seq<StoreRecord>) {
    forall r | r in records :: r.slot in slots
  }

  /** Without shadowing, a slot and its expiry key always stem from the same store. */
  lemma {:induction false} StoresStayPaired(slots: set<string>, records: seq<StoreRecord>, slot: string)
    requires NoShadowing(slots) && slot in slots && OnlyStores(slots, records)
    ensures var last := LastStore(records, slot);
      && LastWrite(records, slot) == (match last case None => None case Some(r) => Some(r.value))
      && LastWrite(records, ExpiryKey(slot)) == (match last case None => None case Some(r) => Some(Time(r.expires)))
      && (last.Some? ==> slot in SlotsOf(records))
    decreases |records|
  {
    if records != [] {
      var init, r := records[..|records| - 1], records[|records| - 1];
      assert r in records && forall q | q in init :: q in records;
      StoresStayPaired(slots, init, slot);
      ExpiryKeysDiffer(slot, r.slot);
    }
  }

  /** What is at a key afterwards: the last write of the log, or what was there before. */
  predicate Explained(before: Bindings, records: seq<StoreRecord>, after: Bindings, key: string) {
    key in after ==>
      match LastWrite(records, key)
      case Some(v) => after[key] == v
      case None => key in before && before[key] == after[key]
  }

  lemma ExplainedTrans(a: Bindings, x: seq<StoreRecord>, b: Bindings, y: seq<StoreRecord>, c: Bindings, key: string)
    requires Explained(a, x, b, key) && Explained(b, y, c, key)
    ensures Explained(a, x + y, c, key)
  {
    LastWriteSplit(x, y, key);
  }

  lemma OneStoreExplains(cache: Bindings, r: StoreRecord, key: string)
    ensures Explained(cache, [r], cache[r.slot := r.value][ExpiryKey(r.slot) := Time(r.expires)], key)
  {
    var one := [r];
    assert r.slot != ExpiryKey(r.slot) && one[..0] == [];
    assert LastWrite(one[..0], key) == None;
  }

  // ---- true marks ----

  /** The value of the last store to the slot, while the clock plus the buffer is before its expiry. */
  predicate HitTrue(records: seq<StoreRecord>, slot: string, value: Rt, now: int, buffer: int) {
    var last := LastStore(records, slot);
    last.Some? && last.value.value == value && now + buffer < last.value.expires
  }

  /** A hit tells the truth about the stores before it, and its slot was stored since every earlier wipe. */
  predicate MarkTrue(stored: seq<StoreRecord>, marks: seq<CacheMark>, i: nat)
    requires i < |marks|
  {
    && marks[i].at <= |stored|
    && (marks[i].Served? ==>
          && HitTrue(stored[..marks[i].at], marks[i].slot, marks[i].value, marks[i].now, marks[i].buffer)
          && forall j | 0 <= j < i && marks[j].Wiped? ::
               marks[j].at <= marks[i].at && marks[i].slot in SlotsOf(stored[marks[j].at..marks[i].at]))
  }

  /** Whatever the cache holds of these slots was stored after the wipe. */
  predicate StoredSince(slots: set<string>, cache: Bindings, records: seq<StoreRecord>) {
    forall s | s in slots && s in cache :: s in SlotsOf(records)
  }

  /** The logs explain the cache, and every hit in them is true. */
  ghost predicate Truthful(slots: set<string>, se: Session) {
    && OnlyStores(slots, se.stored)
    && (forall key :: Explained(map[], se.stored, se.env.cache, key))
    && (forall i | 0 <= i < |se.marks| :: MarkTrue(se.stored, se.marks, i))
    && (forall i | 0 <= i < |se.marks| && se.marks[i].Wiped? ::
          se.marks[i].at <= |se.stored| && StoredSince(slots, se.env.cache, se.stored[se.marks[i].at..]))
  }

  /** Later stores and later marks take nothing back. */
  lemma MarkStays(stored: seq<StoreRecord>, more: seq<StoreRecord>, marks: seq<CacheMark>, others: seq<CacheMark>,
                  i: nat)
    requires stored <= more && marks <= others && i < |marks| && MarkTrue(stored, marks, i)
    ensures MarkTrue(more, others, i)
  {
    var m := marks[i];
    assert others[i] == m && more[..m.at] == stored[..m.at];
    if m.Served? {
      forall j | 0 <= j < i && others[j].Wiped?
        ensures others[j].at <= m.at && m.slot in SlotsOf(more[others[j].at..m.at])
      {
        assert others[j] == marks[j] && more[marks[j].at..m.at] == stored[marks[j].at..m.at];
      }
    }
  }

  /** Losing keys, and moving on in any other way, keeps the logs true. */
  lemma TruthStays(slots: set<string>, a: Session, b: Session)
    requires a.stored == b.stored && a.marks == b.marks
    requires forall key | key in b.env.cache :: key in a.env.cache && a.env.cache[key] == b.env.cache[key]
    ensures Truthful(slots, a) ==> Truthful(slots, b)
  {
    if Truthful(slots, a) {
      forall key ensures Explained(map[], b.stored, b.env.cache, key) {
        assert Explained(map[], a.stored, a.env.cache, key);
      }
    }
  }

  lemma StoreIsTrue(slots: set<string>, a: Session, b: Session, r: StoreRecord)
    requires NoShadowing(slots) && Truthful(slots, a) && r.slot in slots
    requires b.stored == a.stored + [r] && b.marks == a.marks
    requires b.env.cache == a.env.cache[r.slot := r.value][ExpiryKey(r.slot) := Time(r.expires)]
    ensures Truthful(slots, b)
  {
    forall key ensures Explained(map[], b.stored, b.env.cache, key) {
      OneStoreExplains(a.env.cache, r, key);
      ExplainedTrans(map[], a.stored, a.env.cache, [r], b.env.cache, key);
    }
    forall i | 0 <= i < |b.marks| ensures MarkTrue(b.stored, b.marks, i) {
      MarkStays(a.stored, b.stored, a.marks, b.marks, i);
    }
    forall i | 0 <= i < |b.marks| && b.marks[i].Wiped?
      ensures b.marks[i].at <= |b.stored| && StoredSince(slots, b.env.cache, b.stored[b.marks[i].at..])
    {
      assert MarkTrue(a.stored, a.marks, i);
      assert b.stored[b.marks[i].at..] == a.stored[a.marks[i].at..] + [r];
      StoredSinceJoins(slots, a.env.cache, a.stored[a.marks[i].at..], r);
    }
  }

  lemma StoredSinceJoins(slots: set<string>, cache: Bindings, records: seq<StoreRecord>, r: StoreRecord)
    requires NoShadowing(slots) && r.slot in slots && StoredSince(slots, cache, records)
    ensures StoredSince(slots, cache[r.slot := r.value][ExpiryKey(r.slot) := Time(r.expires)], records + [r])
  {
    assert r in records + [r] && forall q | q in records :: q in records + [r];
  }

  lemma HitIsTrue(slots: set<string>, lib: Lib, a: Session, c: Cache)
    requires NoShadowing(slots) && Truthful(slots, a) && SlotSet(Some(c)) <= slots && CacheGet(lib, a.env, c).Some?
    ensures Truthful(slots, Noted(lib, a, c))
  {
    var b := Noted(lib, a, c);
    var slot, n := CacheSlot(c.to).value, |a.marks|;
    assert slot in SlotSet(Some(c));
    StoresStayPaired(slots, a.stored, slot);
    assert Explained(map[], a.stored, a.env.cache, slot) && Explained(map[], a.stored, a.env.cache, ExpiryKey(slot));
    assert a.stored[..|a.stored|] == a.stored;
    forall i | 0 <= i < |b.marks| ensures MarkTrue(b.stored, b.marks, i) {
      if i < n {
        MarkStays(a.stored, b.stored, a.marks, b.marks, i);
      } else {
        forall j | 0 <= j < i && b.marks[j].Wiped?
          ensures b.marks[j].at <= |a.stored| && slot in SlotsOf(b.stored[b.marks[j].at..|a.stored|])
        {
          assert MarkTrue(a.stored, a.marks, j) && StoredSince(slots, a.env.cache, a.stored[a.marks[j].at..]);
          assert a.stored[a.marks[j].at..|a.stored|] == a.stored[a.marks[j].at..];
        }
      }
    }
    assert forall i | 0 <= i < |b.marks| && b.marks[i].Wiped? :: i < n && b.marks[i] == a.marks[i];
  }

  lemma WipeIsTrue(doc: Doc, a: Session)
    requires Truthful(Reachable(doc), a)
    ensures Truthful(Reachable(doc), Invalidate(a, doc))
  {
    var b := Invalidate(a, doc);
    forall key ensures Explained(map[], b.stored, b.env.cache, key) {
      assert Explained(map[], a.stored, a.env.cache, key);
    }
    forall i | 0 <= i < |b.marks| ensures MarkTrue(b.stored, b.marks, i) {
      if i < |a.marks| {
        MarkStays(a.stored, b.stored, a.marks, b.marks, i);
      }
    }
  }

  // ---- growth ----

  /** From `a` to `b` the cache changed only by logged stores to the given slots, or lost keys; and when no slot
      shadows another, logs that were true stay true. */
  ghost predicate Grows(slots: set<string>, a: Session, b: Session) {
    && a.stored <= b.stored
    && OnlyStores(slots, b.stored[|a.stored|..])
    && (forall key :: Explained(a.env.cache, b.stored[|a.stored|..], b.env.cache, key))
    && (NoShadowing(slots) && Truthful(slots, a) ==> Truthful(slots, b))
  }

  lemma GrowsTrans(slots: set<string>, a: Session, b: Session, c: Session)
    requires Grows(slots, a, b) && Grows(slots, b, c)
    ensures Grows(slots, a, c)
  {
    var x, y := b.stored[|a.stored|..], c.stored[|b.stored|..];
    assert c.stored[|a.stored|..] == x + y;
    forall key ensures Explained(a.env.cache, x + y, c.env.cache, key) {
      ExplainedTrans(a.env.cache, x, b.env.cache, y, c.env.cache, key);
    }
  }

  predicate SameCache(a: Session, b: Session) {
    a.env.cache == b.env.cache && a.stored == b.stored && a.marks == b.marks
  }

  /** Nothing but the cache and the logs matters, and losing keys is no growth. */
  lemma GrowsStill(slots: set<string>, a: Session, b: Session)
    requires a.stored == b.stored && a.marks == b.marks
    requires forall key | key in b.env.cache :: key in a.env.cache && a.env.cache[key] == b.env.cache[key]
    ensures Grows(slots, a, b)
  {
    assert b.stored[|a.stored|..] == [];
    TruthStays(slots, a, b);
  }

  lemma StoreGrows(slots: set<string>, lib: Lib, se: Session, c: Cache, bound: Rt, value: Rt)
    requires SlotSet(Some(c)) <= slots
    ensures var r := CacheStore(lib, se, c, bound, value); r.Ok? ==> Grows(slots, se, r.value)
  {
    match StoreAt(lib, se.env.(body := bound), c) {
      case None =>
      case Some((slot, t)) =>
        var record := StoreRecord(slot, value, t);
        var after := CacheStore(lib, se, c, bound, value).value;
        assert slot in SlotSet(Some(c)) && after.stored[|se.stored|..] == [record];
        forall key ensures Explained(se.env.cache, [record], after.env.cache, key) {
          OneStoreExplains(se.env.cache, record, key);
        }
        if NoShadowing(slots) && Truthful(slots, se) {
          StoreIsTrue(slots, se, after, record);
        }
    }
  }

  lemma HitGrows(slots: set<string>, lib: Lib, se: Session, c: Cache)
    requires SlotSet(Some(c)) <= slots && CacheGet(lib, se.env, c).Some?
    ensures Grows(slots, se, Noted(lib, se, c))
  {
    assert se.stored[|se.stored|..] == [];
    if NoShadowing(slots) && Truthful(slots, se) {
      HitIsTrue(slots, lib, se, c);
    }
  }

  lemma WipeGrows(doc: Doc, se: Session)
    ensures Grows(Reachable(doc), se, Invalidate(se, doc))
  {
    assert se.stored[|se.stored|..] == [];
    if Truthful(Reachable(doc), se) {
      WipeIsTrue(doc, se);
    }
  }
}
