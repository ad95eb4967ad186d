/** The expiring cache (client/cache.go) and the slots an invalidation drops (client/runner.go). */
module Caching {
  import opened Syntax
  import opened Text
  import opened Runtime
  import opened Scopes
  import opened Eval
  import opened Session

  function ExpiryKey(slot: string): string {
    "__exp_" + slot
  }

  /** cacheGet: a hit only while the clock plus the safety buffer is before the stored instant. */
  function CacheGet(lib: Lib, env: Env, c: Cache): Option<Rt> {
    match CacheSlot(c.to)
    case None => None
    case Some(slot) =>
      if slot !in env.cache || ExpiryKey(slot) !in env.cache || !env.cache[ExpiryKey(slot)].Time? then None
      else match lib.parseDuration(c.buffer)
        case None => None
        case Some(buffer) => if env.now + buffer < env.cache[ExpiryKey(slot)].t then Some(env.cache[slot]) else None
  }

  /** A lookup that answers leaves its mark. */
  function Noted(lib: Lib, se: Session, c: Cache): Session
    requires CacheGet(lib, se.env, c).Some?
  {
    var value := CacheGet(lib, se.env, c).value;
    var mark := Served(CacheSlot(c.to).value, value, se.env.now, lib.parseDuration(c.buffer).value, |se.stored|);
    se.(marks := se.marks + [mark])
  }

  /** Durations and plain numbers of seconds count from now (RFC 6749, section 5.1, expires_in). */
  function CoerceExpiry(lib: Lib, v: Rt, now: int): Option<int> {
    match v
    case Time(t) => Some(t)
    case Dur(d) => Some(now + d)
    case Int(n) => Some(now + Wrap64(n * SECOND))
    case Float(x) => Some(now + Trunc(x * SECOND as real))
    case Str(s) =>
      (match lib.parseDuration(s)
       case Some(d) => Some(now + d)
       case None => match lib.parseTime(s)
         case Some(t) => Some(t)
         case None => match ParseInt(s)
           case Some(n) => Some(now + Wrap64(n * SECOND))
           case None => None)
    case _ => None
  }

  /** Values that name an instant of their own instead of a time from now. */
  predicate IsInstant(lib: Lib, v: Rt) {
    v.Time? || (v.Str? && lib.parseDuration(v.s).None? && lib.parseTime(v.s).Some?)
  }

  /** An instant is independent of the clock; everything else moves along with it. */
  lemma ExpiryFollowsClock(lib: Lib, v: Rt, now: int, later: int)
    ensures var a, b := CoerceExpiry(lib, v, now), CoerceExpiry(lib, v, later);
      && a.Some? == b.Some?
      && (a.Some? ==> if IsInstant(lib, v) then a == b else b.value - later == a.value - now)
  {
    match v {
      case Int(n) => assert CoerceExpiry(lib, v, now) == Some(now + Wrap64(n * SECOND));
      case _ =>
    }
  }

  /** An expires_in of n seconds means the same as an integer, as a JSON number and as decimal text
      (RFC 6749, section 5.1). */
  lemma ExpiresInCountsSeconds(lib: Lib, n: int, now: int)
    requires InInt64(n) && InInt64(n * SECOND)
    requires lib.parseDuration(IntToString(n)).None? && lib.parseTime(IntToString(n)).None?
    ensures CoerceExpiry(lib, Int(n), now) == Some(now + n * SECOND)
    ensures CoerceExpiry(lib, Str(IntToString(n)), now) == Some(now + n * SECOND)
    ensures CoerceExpiry(lib, Float(n as real), now) == Some(now + n * SECOND)
  {
    ParseIntToString(n);
    WholeSeconds(n);
  }

  lemma TruncWhole(k: int)
    ensures Trunc(k as real) == k
  {
    assert -(k as real) == (-k) as real;
  }

  lemma WholeSeconds(n: int)
    ensures Trunc(n as real * SECOND as real) == n * SECOND
  {
    assert n as real * SECOND as real == (n * SECOND) as real;
    TruncWhole(n * SECOND);
  }

  /** The comment above the coercion advises `format: unix_seconds` for absolute timestamps. That verb gives
      an integer, which still counts from now: the instant is met only when the clock reads zero. */
  lemma UnixSecondsStayRelative(lib: Lib, n: int, now: int)
    requires InInt64(n * SECOND)
    ensures ApplyFormat(lib, "unix_seconds", Time(n * SECOND)) == Ok(Int(n))
    ensures CoerceExpiry(lib, Int(n), now) == Some(n * SECOND) <==> now == 0
  {
    assert n * SECOND / SECOND == n;
  }

  /** Where a store goes and until when it lasts; None when the store fails. */
  function StoreAt(lib: Lib, env: Env, c: Cache): Option<(string, int)> {
    match CacheSlot(c.to)
    case None => None
    case Some(slot) => match EvalValue(lib, env, c.expiresAt)
      case Err => None
      case Ok(raw) => match CoerceExpiry(lib, raw, env.now)
        case None => None
        case Some(t) => Some((slot, t))
  }

  /** cacheStore, with `bound` as the response body while expires_at is evaluated. */
  function CacheStore(lib: Lib, se: Session, c: Cache, bound: Rt, value: Rt): Result<Session> {
    match StoreAt(lib, se.env.(body := bound), c)
    case None => Err
    case Some((slot, t)) =>
      Ok(se.(env := se.env.(cache := se.env.cache[slot := value][ExpiryKey(slot) := Time(t)]),
             stored := se.stored + [StoreRecord(slot, value, t)]))
  }

  method Store(s: Scope, c: Cache, bound: Rt, value: Rt) returns (ok: bool)
    modifies s`cache, s`body, s`stored
    ensures var r := CacheStore(s.world.lib, old(s.View()), c, bound, value);
      ok == r.Ok? && s.View() == if r.Ok? then r.value else old(s.View())
  {
    var prev := s.body;
    s.body := bound;
    var at := StoreAt(s.world.lib, s.Current(), c);
    s.body := prev;
    if at.None? {
      return false;
    }
    var (slot, expires) := at.value;
    s.cache := s.cache[slot := value][ExpiryKey(slot) := Time(expires)];
    s.stored := s.stored + [StoreRecord(slot, value, expires)];
    return true;
  }

  // ---- reachable slots ----

  function SlotSet(c: Option<Cache>): set<string> {
    match c
    case None => {}
    case Some(x) => match CacheSlot(x.to) case None => {} case Some(slot) => {slot}
  }

  function AuthSlots(auth: Auth): set<string>
    decreases auth, 1
  {
    match auth
    case Plain(_) => {}
    case Bearer(_) => {}
    case OAuth2(grant) => SlotSet(grant.cache)
    case MultiMode(branches, otherwise) => BranchSlots(branches) + AuthSlots(otherwise)
  }

  function BranchSlots(branches: seq<AuthBranch>): set<string>
    decreases branches, 0
  {
    if branches == [] then {} else ArmSlots(branches[0]) + BranchSlots(branches[1..])
  }

  function ArmSlots(b: AuthBranch): set<string>
    decreases b, 1
  {
    AuthSlots(b.auth)
  }

  function RequestSlots(requests: seq<Request>): set<string> {
    set r, slot | r in requests && slot in SlotSet(r.cache) :: slot
  }

  lemma RequestSlotsStep(requests: seq<Request>, i: nat)
    requires i < |requests|
    ensures RequestSlots(requests[..i + 1]) == RequestSlots(requests[..i]) + SlotSet(requests[i].cache)
  {
    assert requests[..i + 1] == requests[..i] + [requests[i]];
  }

  function Reachable(doc: Doc): set<string> {
    AuthSlots(doc.auth) + RequestSlots(doc.requests)
  }

  method DropSlots(s: Scope, slots: set<string>) returns (cleared: set<string>)
    modifies s`cache
    ensures s.View() == WithCache(old(s.View()), old(s.cache) - slots)
    ensures cleared == slots * old(s.cache).Keys
  {
    cleared := slots * s.cache.Keys;
    s.cache := s.cache - slots;
  }

  method DropAuthCaches(s: Scope, auth: Auth) returns (cleared: set<string>)
    modifies s`cache
    ensures s.View() == WithCache(old(s.View()), old(s.cache) - AuthSlots(auth))
    ensures cleared == AuthSlots(auth) * old(s.cache).Keys
    decreases auth, 1
  {
    cleared := {};
    match auth {
      case Plain(_) =>
      case Bearer(_) =>
      case OAuth2(grant) => cleared := DropSlots(s, SlotSet(grant.cache));
      case MultiMode(branches, otherwise) =>
        cleared := DropBranchCaches(s, branches);
        var more := DropAuthCaches(s, otherwise);
        cleared := cleared + more;
    }
  }

  method DropBranchCaches(s: Scope, branches: seq<AuthBranch>) returns (cleared: set<string>)
    modifies s`cache
    ensures s.View() == WithCache(old(s.View()), old(s.cache) - BranchSlots(branches))
    ensures cleared == BranchSlots(branches) * old(s.cache).Keys
    decreases branches, 0
  {
    cleared := {};
    if branches != [] {
      cleared := DropArmCaches(s, branches[0]);
      var more := DropBranchCaches(s, branches[1..]);
      cleared := cleared + more;
    }
  }

  method DropArmCaches(s: Scope, b: AuthBranch) returns (cleared: set<string>)
    modifies s`cache
    ensures s.View() == WithCache(old(s.View()), old(s.cache) - ArmSlots(b))
    ensures cleared == ArmSlots(b) * old(s.cache).Keys
    decreases b, 1
  {
    cleared := DropAuthCaches(s, b.auth);
  }

  /** Dropping one set after the other is dropping both. */
  lemma DropBoth(cache: Bindings, a: set<string>, b: set<string>)
    ensures cache - a - b == cache - (a + b)
    ensures a * cache.Keys + b * (cache - a).Keys == (a + b) * cache.Keys
  {
  }

  method DropRequestCaches(s: Scope, requests: seq<Request>) returns (cleared: set<string>)
    modifies s`cache
    ensures s.View() == WithCache(old(s.View()), old(s.cache) - RequestSlots(requests))
    ensures cleared == RequestSlots(requests) * old(s.cache).Keys
  {
    cleared := {};
    ghost var cache := s.cache;
    assert RequestSlots(requests[..0]) == {};
    for i := 0 to |requests|
      invariant s.View() == WithCache(old(s.View()), cache - RequestSlots(requests[..i]))
      invariant cleared == RequestSlots(requests[..i]) * cache.Keys
    {
      RequestSlotsStep(requests, i);
      DropBoth(cache, RequestSlots(requests[..i]), SlotSet(requests[i].cache));
      var more := DropSlots(s, SlotSet(requests[i].cache));
      cleared := cleared + more;
    }
    assert requests[..|requests|] == requests;
  }

  method DropReachableCaches(s: Scope, doc: Doc) returns (cleared: set<string>)
    modifies s`cache, s`marks
    ensures s.View() == Invalidate(old(s.View()), doc)
    ensures cleared == Reachable(doc) * old(s.cache).Keys
  {
    DropBoth(s.cache, AuthSlots(doc.auth), RequestSlots(doc.requests));
    cleared := DropAuthCaches(s, doc.auth);
    var more := DropRequestCaches(s, doc.requests);
    s.marks := s.marks + [Wiped(|s.stored|)];
    cleared := cleared + more;
  }

  function WithCache(se: Session, cache: Bindings): Session {
    se.(env := se.env.(cache := cache))
  }

  /** dropReachableCaches. */
  function Invalidate(se: Session, doc: Doc): Session {
    WithCache(se, se.env.cache - Reachable(doc)).(marks := se.marks + [Wiped(|se.stored|)])
  }

  // ---- the abstract cache ----

  datatype Entry = Entry(value: Rt, expires: int)

  /** The two keys of each declared slot, read as one map from slots to values with an expiry. */
  function Abstract(cache: Bindings, slots: set<string>): map<string, Entry> {
    map slot | slot in slots && slot in cache && ExpiryKey(slot) in cache && cache[ExpiryKey(slot)].Time?
      :: Entry(cache[slot], cache[ExpiryKey(slot)].t)
  }

  /** No declared slot is named like the expiry key of another one. */
  predicate NoShadowing(slots: set<string>) {
    forall a, b | a in slots && b in slots :: a != ExpiryKey(b)
  }

  /** Reading sees the abstract entry, and only while it is fresh. */
  lemma GetReadsAbstract(lib: Lib, env: Env, c: Cache, slots: set<string>, slot: string, buffer: int)
    requires CacheSlot(c.to) == Some(slot) && slot in slots && lib.parseDuration(c.buffer) == Some(buffer)
    ensures var m := Abstract(env.cache, slots);
      CacheGet(lib, env, c) ==
        if slot in m && env.now + buffer < m[slot].expires then Some(m[slot].value) else None
  {
  }

  lemma ExpiryKeysDiffer(a: string, b: string)
    ensures ExpiryKey(a) == ExpiryKey(b) <==> a == b
  {
    assert ExpiryKey(a)[6..] == a && ExpiryKey(b)[6..] == b;
  }

  /** A store is one abstract map update, whatever was there before, exactly when the slot is neither
      another slot's expiry key nor has its own expiry key declared as a slot. */
  lemma StoreUpdatesAbstract(cache: Bindings, slots: set<string>, slot: string, value: Rt, t: int)
    requires slot in slots && ExpiryKey(slot) !in slots && forall b | b in slots :: slot != ExpiryKey(b)
    ensures var after := cache[slot := value][ExpiryKey(slot) := Time(t)];
      Abstract(after, slots) == Abstract(cache, slots)[slot := Entry(value, t)]
  {
    var after := cache[slot := value][ExpiryKey(slot) := Time(t)];
    forall b | b in slots && b != slot
      ensures (b in after <==> b in cache) && (b in cache ==> after[b] == cache[b])
      ensures (ExpiryKey(b) in after <==> ExpiryKey(b) in cache)
      ensures ExpiryKey(b) in cache ==> after[ExpiryKey(b)] == cache[ExpiryKey(b)]
    {
      ExpiryKeysDiffer(b, slot);
    }
    assert slot != ExpiryKey(slot);
  }

  /** When a slot is named like the expiry key of another, storing either one destroys the other. */
  lemma ShadowedSlotsCollide(cache: Bindings, slots: set<string>, slot: string, value: Rt, t: int)
    requires slot in slots && ExpiryKey(slot) in slots
    ensures var shadow := ExpiryKey(slot);
      var first := cache[shadow := value][ExpiryKey(shadow) := Time(t)];
      var second := first[slot := value][ExpiryKey(slot) := Time(t)];
      && Abstract(first, slots)[shadow] == Entry(value, t)
      && shadow in Abstract(second, slots) && Abstract(second, slots)[shadow] == Entry(Time(t), t)
      && (!value.Time? ==> slot !in Abstract(first, slots))
  {
    var shadow := ExpiryKey(slot);
    ExpiryKeysDiffer(shadow, slot);
    assert |ExpiryKey(shadow)| > |shadow| > |slot|;
  }

  /** Storing is one map update, for one cache, slot, value and expiry. */
  predicate UpdatesOne(slots: set<string>, cache: Bindings, slot: string, value: Rt, t: int) {
    slot in slots ==>
      Abstract(cache[slot := value][ExpiryKey(slot) := Time(t)], slots) ==
        Abstract(cache, slots)[slot := Entry(value, t)]
  }

  lemma ShadowBreaksUpdate(slots: set<string>, slot: string)
    requires slot in slots && ExpiryKey(slot) in slots
    ensures var shadow := ExpiryKey(slot);
      !UpdatesOne(slots, map[shadow := Nil, ExpiryKey(shadow) := Time(0)], slot, Nil, 0)
  {
    var shadow := ExpiryKey(slot);
    var empty: Bindings := map[];
    var first := empty[shadow := Nil][ExpiryKey(shadow) := Time(0)];
    ShadowedSlotsCollide(empty, slots, slot, Nil, 0);
    assert first == map[shadow := Nil, ExpiryKey(shadow) := Time(0)];
    assert slot != shadow && Abstract(first, slots)[shadow] == Entry(Nil, 0);
  }

  /** The update law holds at every declared slot exactly when no slot shadows another. */
  lemma CacheIsAMap(slots: set<string>)
    ensures NoShadowing(slots) <==>
      forall cache: Bindings, slot: string, value: Rt, t: int :: UpdatesOne(slots, cache, slot, value, t)
  {
    if NoShadowing(slots) {
      forall cache: Bindings, slot: string, value: Rt, t: int ensures UpdatesOne(slots, cache, slot, value, t) {
        if slot in slots {
          StoreUpdatesAbstract(cache, slots, slot, value, t);
        }
      }
    } else {
      var a, b :| a in slots && b in slots && a == ExpiryKey(b);
      ShadowBreaksUpdate(slots, b);
    }
  }

  /** Dropping removes exactly the reachable slots, even though their expiry keys stay behind. */
  lemma DropEmptiesAbstract(cache: Bindings, slots: set<string>, dropped: set<string>)
    requires NoShadowing(slots) && dropped <= slots
    ensures Abstract(cache - dropped, slots) == Abstract(cache, slots) - dropped
  {
  }

  /** After an invalidation every cache block of the document misses. */
  lemma AllBlocksMiss(lib: Lib, env: Env, doc: Doc, c: Cache)
    requires SlotSet(Some(c)) <= Reachable(doc)
    ensures CacheGet(lib, env.(cache := env.cache - Reachable(doc)), c) == None
  {
    if CacheSlot(c.to).Some? {
      assert CacheSlot(c.to).value in SlotSet(Some(c));
    }
  }

  // ---- which slots are reachable ----

  /** The grants of an authentication, however deep. */
  function GrantsOf(auth: Auth): seq<Grant>
    decreases auth, 1
  {
    match auth
    case OAuth2(grant) => [grant]
    case MultiMode(branches, otherwise) => BranchGrants(branches) + GrantsOf(otherwise)
    case _ => []
  }

  function BranchGrants(branches: seq<AuthBranch>): seq<Grant>
    decreases branches, 0
  {
    if branches == [] then [] else ArmGrants(branches[0]) + BranchGrants(branches[1..])
  }

  function ArmGrants(b: AuthBranch): seq<Grant>
    decreases b, 1
  {
    GrantsOf(b.auth)
  }

  lemma {:induction false} AuthSlotsMeaning(auth: Auth, slot: string)
    ensures slot in AuthSlots(auth) <==> exists g :: g in GrantsOf(auth) && slot in SlotSet(g.cache)
    decreases auth, 1
  {
    match auth {
      case OAuth2(grant) => assert slot in SlotSet(grant.cache) ==> grant in GrantsOf(auth);
      case MultiMode(branches, otherwise) =>
        BranchSlotsMeaning(branches, slot);
        AuthSlotsMeaning(otherwise, slot);
      case _ =>
    }
  }

  lemma {:induction false} BranchSlotsMeaning(branches: seq<AuthBranch>, slot: string)
    ensures slot in BranchSlots(branches) <==> exists g :: g in BranchGrants(branches) && slot in SlotSet(g.cache)
    decreases branches, 0
  {
    if branches != [] {
      ArmSlotsMeaning(branches[0], slot);
      BranchSlotsMeaning(branches[1..], slot);
    }
  }

  lemma {:induction false} ArmSlotsMeaning(b: AuthBranch, slot: string)
    ensures slot in ArmSlots(b) <==> exists g :: g in ArmGrants(b) && slot in SlotSet(g.cache)
    decreases b, 1
  {
    AuthSlotsMeaning(b.auth, slot);
  }

  /** The reachable slots are those some cache block of the document writes: of a request, or of a grant. */
  lemma ReachableMeaning(doc: Doc, slot: string)
    ensures slot in Reachable(doc) <==>
      || (exists r :: r in doc.requests && r.cache.Some? && r.cache.value.to.parts == ["cache", slot])
      || (exists g :: g in GrantsOf(doc.auth) && g.cache.Some? && g.cache.value.to.parts == ["cache", slot])
  {
    AuthSlotsMeaning(doc.auth, slot);
    forall c: Option<Cache> ensures slot in SlotSet(c) <==> c.Some? && c.value.to.parts == ["cache", slot] {
      if c.Some? && CacheSlot(c.value.to) == Some(slot) {
        assert c.value.to.parts == ["cache", slot];
      }
    }
    assert slot in RequestSlots(doc.requests) <==> exists r :: r in doc.requests && slot in SlotSet(r.cache);
  }
}
