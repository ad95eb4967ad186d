/** One drain's mutable scope, the world outside it, and the pure picture of both. */
module Session {
  import opened Syntax
  import opened Runtime
  import opened Scopes

  /** What goes over the wire: a request of the chain, or a token exchange. */
  datatype Call =
    | Fetch(step: nat, url: string, query: map<string, string>, headers: map<string, string>)
    | Token(url: string, params: seq<string>)

  /** `body` is None when the body does not decode. */
  datatype Reply = Down | Reply(status: int, headers: Headers, body: Option<Rt>)

  /** Everything the runner does not control. `reply` answers the last call of a history, so any
      stateful server is one of these; `clock` is the spec clock after a number of calls; `takes`
      says whether the sink accepts the last event of those offered to it; `flushes` and `saves` say
      whether the two teardown operations succeed. */
  datatype World = World(
    lib: Lib,
    reply: seq<Call> -> Reply,
    clock: nat -> int,
    takes: seq<Rt> -> bool,
    flushes: bool,
    saves: bool)

  /** One successful store: the slot, its value and the instant it expires. */
  datatype StoreRecord = StoreRecord(slot: string, value: Rt, expires: int)

  /** Two more things the cache does: a lookup that answers, with the clock, the buffer and the value it
      saw, and an invalidation. `at` is the number of stores before it. */
  datatype CacheMark =
    | Served(slot: string, value: Rt, now: int, buffer: int, at: nat)
    | Wiped(at: nat)

  /** The state of a drain. The context is live for `checks` more polls, then cancelled; `stored` logs
      the successful stores so far, `marks` the cache hits and invalidations. */
  datatype Session = Session(env: Env, wire: seq<Call>, checks: nat, stored: seq<StoreRecord>, marks: seq<CacheMark>)

  /** A session before anything happened. */
  function Opening(w: World, checks: nat): Session {
    Session(Env(map[], map[], map[], map[], map[], Nil, Nil, map[], Nil, "", w.clock(0)), [], checks, [], [])
  }

  function WithState(se: Session, state: Bindings): Session {
    se.(env := se.env.(state := state))
  }

  /** The session after one exchange; the clock may have moved. */
  function Exchanged(w: World, se: Session, call: Call): Session {
    se.(env := se.env.(now := w.clock(|se.wire| + 1)), wire := se.wire + [call])
  }

  class Scope {
    const world: World
    var state: Bindings
    var cache: Bindings
    var extract: Bindings
    var steps: Bindings
    var stepHeaders: map<string, Headers>
    var events: Rt
    var body: Rt
    var headers: Headers
    var item: Rt
    var alias: string
    var wire: seq<Call>
    var checks: nat
    ghost var stored: seq<StoreRecord>
    ghost var marks: seq<CacheMark>

    constructor (world: World, checks: nat)
      ensures this.world == world
      ensures View() == Opening(world, checks)
    {
      this.world := world;
      state, cache, extract, steps, stepHeaders := map[], map[], map[], map[], map[];
      events, body, headers, item, alias := Nil, Nil, map[], Nil, "";
      wire := [];
      this.checks := checks;
      stored, marks := [], [];
    }

    function Current(): Env
      reads this
    {
      Env(state, cache, extract, steps, stepHeaders, events, body, headers, item, alias, world.clock(|wire|))
    }

    ghost function View(): Session
      reads this
    {
      Session(Current(), wire, checks, stored, marks)
    }

    /** client.Do. */
    method Do(call: Call) returns (r: Reply)
      modifies this`wire
      ensures View() == Exchanged(world, old(View()), call)
      ensures r == world.reply(wire)
    {
      wire := wire + [call];
      r := world.reply(wire);
    }

    /** ctx.Err. */
    method Poll() returns (live: bool)
      modifies this`checks
      ensures live == (old(checks) > 0)
      ensures View() == old(View()).(checks := if live then old(checks) - 1 else 0)
    {
      live := checks > 0;
      if live {
        checks := checks - 1;
      }
    }

    /** The fresh per-iteration namespaces of the page loop. */
    method ResetIteration()
      modifies this
      ensures View() == IterationStart(old(View()))
    {
      extract := map[];
      steps := map[];
      stepHeaders := map[];
      body := Nil;
      headers := map[];
      events := Nil;
    }
  }

  function IterationStart(se: Session): Session {
    se.(env := se.env.(extract := map[], steps := map[], stepHeaders := map[], body := Nil, headers := map[],
                       events := Nil))
  }
}
