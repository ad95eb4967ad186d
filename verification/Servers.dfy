/** The two paging test servers, as the environment of a drain (internal/testserver/events.go, offset.go,
    cursor_token.go). A reply is the decoded JSON body; a handler that panics loses the connection. */
module Servers {
  import opened Syntax
  import opened Text
  import opened Runtime
  import opened Session

  /** `now` is the server clock at its n-th request, `stamp` the JSON form of a time. */
  datatype Options = Options(pageSize: int, perDrain: nat, now: nat -> int, stamp: int -> string)

  type Query = map<string, string>

  /** url.Values.Get. */
  function Get(query: Query, name: string): string {
    if name in query then query[name] else ""
  }

  function Padded(n: nat): string {
    var digits := Digits(n);
    if |digits| >= 6 then digits else seq(6 - |digits|, _ => '0') + digits
  }

  function EventAt(opts: Options, now: int, i: nat, id: nat): Rt {
    Obj(map["id" := Str("evt-" + Padded(id)), "timestamp" := Str(opts.stamp(now + i * SECOND)),
            "seq_num" := Float(id as real)])
  }

  /** The window of one drain: n events numbered from `first` on, one second apart. */
  function FreshEvents(opts: Options, now: int, first: nat, n: nat): seq<Rt> {
    seq(n, i requires 0 <= i < n => EventAt(opts, now, i, first + i))
  }

  datatype Store = Store(events: seq<Rt>, nextId: nat)

  function Replenished(opts: Options, st: Store, now: int): Store {
    Store(FreshEvents(opts, now, st.nextId + 1, opts.perDrain), st.nextId + opts.perDrain)
  }

  /** Slice: None is the panic of a negative slice bound; Nil the JSON null of a nil slice. */
  function Sliced(events: seq<Rt>, offset: int, limit: int): Option<Rt> {
    if offset >= |events| then Some(Nil)
    else
      var bound := Wrap64(offset + limit);
      var end := if bound < |events| then bound else |events|;
      if 0 <= offset <= end then Some(Arr(events[offset..end])) else None
  }

  /** A positive decimal parameter, or the fallback. */
  function PositiveParam(text: string, fallback: int): int {
    match ParseInt(text) case Some(n) => (if n > 0 then n else fallback) case None => fallback
  }

  function PageReply(page: Option<Rt>, fields: Rt -> map<string, Rt>): Reply {
    match page case None => Down case Some(p) => Reply(200, map[], Some(Obj(fields(p))))
  }

  function OffsetServed(opts: Options, st: Store, clock: int, query: Query): (Store, Reply) {
    var offset := Get(query, "offset");
    var live := if offset == "" || offset == "0" then Replenished(opts, st, clock) else st;
    var page := Sliced(live.events, PositiveParam(offset, 0), PositiveParam(Get(query, "limit"), opts.pageSize));
    (live, PageReply(page, p => map["items" := p]))
  }

  function CursorOffset(cursor: string): Option<int> {
    if cursor == "" then Some(0)
    else if |cursor| < 5 then None
    else match ParseInt(cursor[5..]) case Some(n) => Some(n) case None => Some(0)
  }

  function NextCursor(opts: Options, events: seq<Rt>, offset: int): Rt {
    var next := Wrap64(offset + opts.pageSize);
    if next < |events| then Str("page:" + IntToString(next)) else Nil
  }

  function CursorServed(opts: Options, st: Store, clock: int, query: Query): (Store, Reply) {
    var cursor := Get(query, "cursor");
    var live := if cursor == "" then Replenished(opts, st, clock) else st;
    match CursorOffset(cursor)
    case None => (live, Down)
    case Some(offset) =>
      (live, PageReply(Sliced(live.events, offset, opts.pageSize),
                  p => map["findings" := p, "next_cursor" := NextCursor(opts, live.events, offset)]))
  }

  // ---- the servers as objects ----

  class EventStore {
    var events: seq<Rt>
    var nextId: nat

    constructor ()
      ensures View() == Store([], 0)
    {
      events, nextId := [], 0;
    }

    function View(): Store
      reads this
    {
      Store(events, nextId)
    }

    method Replenish(opts: Options, now: int)
      modifies this
      ensures View() == Replenished(opts, old(View()), now)
    {
      events := [];
      ghost var first := nextId + 1;
      for i := 0 to opts.perDrain
        invariant nextId == old(nextId) + i
        invariant events == FreshEvents(opts, now, first, i)
      {
        nextId := nextId + 1;
        events := events + [EventAt(opts, now, i, nextId)];
      }
    }

    method Slice(offset: int, limit: int) returns (page: Option<Rt>)
      ensures page == Sliced(events, offset, limit)
    {
      if offset >= |events| {
        return Some(Nil);
      }
      var end := Wrap64(offset + limit);
      if end > |events| {
        end := |events|;
      }
      if !(0 <= offset <= end) {
        return None;
      }
      return Some(Arr(events[offset..end]));
    }
  }

  class OffsetServer {
    const opts: Options
    const store: EventStore
    var served: nat

    constructor (opts: Options)
      ensures this.opts == opts && fresh(store) && store.View() == Store([], 0) && served == 0
    {
      this.opts := opts;
      store := new EventStore();
      served := 0;
    }

    method Handle(query: Query) returns (reply: Reply)
      modifies this, store
      ensures (store.View(), reply) == OffsetServed(opts, old(store.View()), opts.now(old(served)), query)
      ensures served == old(served) + 1
    {
      var s := Get(query, "offset");
      if s == "" || s == "0" {
        store.Replenish(opts, opts.now(served));
      }
      served := served + 1;
      var offset, limit := 0, opts.pageSize;
      var n := ParseInt(s);
      if n.Some? && n.value > 0 {
        offset := n.value;
      }
      n := ParseInt(Get(query, "limit"));
      if n.Some? && n.value > 0 {
        limit := n.value;
      }
      var page := store.Slice(offset, limit);
      return PageReply(page, p => map["items" := p]);
    }
  }

  class CursorServer {
    const opts: Options
    const store: EventStore
    var served: nat

    constructor (opts: Options)
      ensures this.opts == opts && fresh(store) && store.View() == Store([], 0) && served == 0
    {
      this.opts := opts;
      store := new EventStore();
      served := 0;
    }

    method Handle(query: Query) returns (reply: Reply)
      modifies this, store
      ensures (store.View(), reply) == CursorServed(opts, old(store.View()), opts.now(old(served)), query)
      ensures served == old(served) + 1
    {
      var cursor := Get(query, "cursor");
      if cursor == "" {
        store.Replenish(opts, opts.now(served));
      }
      served := served + 1;
      var offset := 0;
      if cursor != "" {
        if |cursor| < 5 {
          return Down;
        }
        var n := ParseInt(cursor[5..]);
        if n.Some? {
          offset := n.value;
        }
      }
      var page := store.Slice(offset, opts.pageSize);
      var next := NextCursor(opts, store.events, offset);
      return PageReply(page, p => map["findings" := p, "next_cursor" := next]);
    }
  }

  // ---- the servers on the wire ----

  type Handler = (Store, int, Query) -> (Store, Reply)

  function OffsetHandler(opts: Options): Handler {
    (st: Store, clock: int, query: Query) => OffsetServed(opts, st, clock, query)
  }

  function CursorHandler(opts: Options): Handler {
    (st: Store, clock: int, query: Query) => CursorServed(opts, st, clock, query)
  }

  /** The store after a history of calls and the reply to the last one. Only fetches reach the handler. */
  function Answered(h: Handler, opts: Options, calls: seq<Call>): (Store, Reply)
    decreases |calls|
  {
    if calls == [] then (Store([], 0), Down)
    else
      var before := Answered(h, opts, calls[..|calls| - 1]).0;
      match calls[|calls| - 1]
      case Token(_, _) => (before, Down)
      case Fetch(_, _, query, _) => h(before, opts.now(|calls| - 1), query)
  }

  lemma AnsweredNext(h: Handler, opts: Options, calls: seq<Call>, call: Call)
    requires call.Fetch?
    ensures Answered(h, opts, calls + [call]) == h(Answered(h, opts, calls).0, opts.now(|calls|), call.query)
  {
    assert (calls + [call])[..|calls|] == calls;
  }

  // ---- what the events are ----

  /** The events of a window are numbered on from the last window's, so that no event is ever served twice. */
  lemma EventsAreNumbered(opts: Options, st: Store, clock: int, i: nat, j: nat)
    requires i < opts.perDrain && j < opts.perDrain
    ensures var window := Replenished(opts, st, clock);
      && |window.events| == opts.perDrain && window.nextId == st.nextId + opts.perDrain
      && NumberOf(window.events[i]) == Some((st.nextId + 1 + i) as real)
      && (i != j ==> window.events[i] != window.events[j])
      && forall later: int :: Replenished(opts, window, later).events[j] != window.events[i]
  {
    var window := Replenished(opts, st, clock);
    NumberInWindow(opts, st, clock, i);
    NumberInWindow(opts, st, clock, j);
    forall later: int ensures Replenished(opts, window, later).events[j] != window.events[i] {
      NumberInWindow(opts, window, later, j);
    }
  }

  /** Its other two fields: the number as a text, and a time a second after the event before. */
  lemma EventFields(opts: Options, st: Store, clock: int, i: nat)
    requires i < opts.perDrain
    ensures var event := Replenished(opts, st, clock).events[i];
      && event.Obj? && event.fields.Keys == {"id", "timestamp", "seq_num"}
      && event.fields["timestamp"] == Str(opts.stamp(clock + i * SECOND))
      && event.fields["id"].Str? && Names(event.fields["id"].s, st.nextId + 1 + i)
  {
    var number := st.nextId + 1 + i;
    IdNames(number);
    var event := EventAt(opts, clock, i, number);
    assert Replenished(opts, st, clock).events[i] == event;
    assert event.fields["id"] == Str("evt-" + Padded(number));
    assert event.fields["timestamp"] == Str(opts.stamp(clock + i * SECOND));
  }

  /** An identifier: the number behind "evt-", with six digits or more. */
  predicate Names(id: string, number: nat) {
    |id| >= 10 && id[..4] == "evt-" && AllDigits(id[4..]) && DigitsValue(id[4..]) == number
  }

  lemma IdNames(number: nat)
    ensures Names("evt-" + Padded(number), number)
  {
    PaddedMeaning(number);
    assert ("evt-" + Padded(number))[4..] == Padded(number);
  }

  lemma NumberInWindow(opts: Options, st: Store, clock: int, i: nat)
    requires i < opts.perDrain
    ensures |Replenished(opts, st, clock).events| == opts.perDrain
    ensures NumberOf(Replenished(opts, st, clock).events[i]) == Some((st.nextId + 1 + i) as real)
  {
    var id := st.nextId + 1 + i;
    assert Replenished(opts, st, clock).events[i] == EventAt(opts, clock, i, id);
    EventHasNumber(opts, clock, i, id);
  }

  lemma EventHasNumber(opts: Options, now: int, i: nat, id: nat)
    ensures NumberOf(EventAt(opts, now, i, id)) == Some(id as real)
  {
    assert "seq_num" in EventAt(opts, now, i, id).fields;
  }

  function NumberOf(event: Rt): Option<real> {
    if event.Obj? && "seq_num" in event.fields && event.fields["seq_num"].Float? then Some(event.fields["seq_num"].x)
    else None
  }

  /** Numbers are written with at least six digits, padded with zeros that do not change them. */
  lemma PaddedMeaning(n: nat)
    ensures |Padded(n)| >= 6 && AllDigits(Padded(n)) && DigitsValue(Padded(n)) == n
  {
    ZerosInFront(6 - |Digits(n)|, Digits(n));
  }

  lemma {:induction false} ZerosInFront(k: int, d: string)
    requires AllDigits(d)
    ensures k >= 0 ==> AllDigits(seq(k, _ => '0') + d) && DigitsValue(seq(k, _ => '0') + d) == DigitsValue(d)
    decreases |d|
  {
    if k >= 0 {
      var z := seq(k, _ => '0');
      if d == "" {
        assert z + d == z;
        OnlyZeros(k);
      } else {
        var s := z + d;
        ZerosInFront(k, d[..|d| - 1]);
        assert s[..|s| - 1] == z + d[..|d| - 1];
      }
    }
  }

  lemma {:induction false} OnlyZeros(k: nat)
    ensures AllDigits(seq(k, _ => '0')) && DigitsValue(seq(k, _ => '0')) == 0
  {
    if k > 0 {
      OnlyZeros(k - 1);
      assert seq(k, _ => '0')[..k - 1] == seq(k - 1, _ => '0');
    }
  }
}
