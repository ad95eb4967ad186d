/** The buffered emitter under every interleaving of the drain and its consumer, against the emitter that
    calls the sink inline (client/emitter.go, client/runner.go Drain). */
module Emitter {
  import opened Syntax
  import opened Runtime
  import opened Session
  import opened Drains

  /** What the drain does with the emitter: deliver an event, or fire the progress of a page. */
  datatype Op = Emit(ev: Rt) | Fire(page: nat)

  /** The queue bound, the sink's answers, and the drain as long as no emit reports an error. */
  datatype Config = Config(world: World, buffer: nat, program: seq<Op>)

  datatype Producer = Busy | Sending(ev: Rt) | Closing | Joined | Flushed | Saved

  datatype Consumer = Idle | Holding(ev: Rt) | Calling(ev: Rt) | Gone

  /** `pc` operations are behind the producer; `aborted` says that an emit reported an error. `sent` and
      `called` log what entered the queue and what reached the sink, `err` the number of the failed call. */
  datatype State = State(
    pc: nat,
    producer: Producer,
    aborted: bool,
    queue: seq<Rt>,
    closed: bool,
    consumer: Consumer,
    err: Option<nat>,
    sent: seq<Rt>,
    called: seq<Rt>,
    discarded: seq<Rt>,
    fired: seq<nat>)

  const START := State(0, Busy, false, [], false, Idle, None, [], [], [], [])

  /** One atomic step. The producer checks for an error, sends, fires progress, closes the queue, joins the
      consumer, flushes and saves; the consumer receives, calls the sink, sees it return, drops, leaves. */
  datatype Move =
    | Check | Send | Progress | CloseQueue | Join | Flush | Save
    | Receive | Call | Return | Drop | Leave

  /** None while the step is blocked. */
  function Stepped(c: Config, s: State, m: Move): Option<State> {
    match m
    case Check =>
      if !(s.producer.Busy? && !s.aborted && s.pc < |c.program| && c.program[s.pc].Emit?) then None
      else if s.err.Some? then Some(s.(aborted := true))
      else Some(s.(producer := Sending(c.program[s.pc].ev)))
    case Send =>
      if !(s.producer.Sending? && |s.queue| < c.buffer) then None
      else Some(s.(pc := s.pc + 1, producer := Busy,
                   queue := s.queue + [s.producer.ev], sent := s.sent + [s.producer.ev]))
    case Progress =>
      if !(s.producer.Busy? && !s.aborted && s.pc < |c.program| && c.program[s.pc].Fire?) then None
      else Some(s.(pc := s.pc + 1, fired := s.fired + [c.program[s.pc].page]))
    case CloseQueue =>
      if !(s.producer.Busy? && (s.aborted || s.pc == |c.program|)) then None
      else Some(s.(producer := Closing, closed := true))
    case Join => if s.producer.Closing? && s.consumer.Gone? then Some(s.(producer := Joined)) else None
    case Flush => if s.producer.Joined? then Some(s.(producer := Flushed)) else None
    case Save => if s.producer.Flushed? then Some(s.(producer := Saved)) else None
    case Receive =>
      if !(s.consumer.Idle? && s.queue != []) then None
      else Some(s.(consumer := Holding(s.queue[0]), queue := s.queue[1..]))
    case Call =>
      if !(s.consumer.Holding? && s.err.None?) then None
      else Some(s.(consumer := Calling(s.consumer.ev), called := s.called + [s.consumer.ev]))
    case Return =>
      if !s.consumer.Calling? then None
      else if c.world.takes(s.called) then Some(s.(consumer := Idle))
      else Some(s.(consumer := Idle, err := if s.err.None? then Some(|s.called|) else s.err))
    case Drop =>
      if !(s.consumer.Holding? && s.err.Some?) then None
      else Some(s.(consumer := Idle, discarded := s.discarded + [s.consumer.ev]))
    case Leave => if s.consumer.Idle? && s.queue == [] && s.closed then Some(s.(consumer := Gone)) else None
  }

  /** The state after a schedule; None when some step of it is blocked. */
  function Scheduled(c: Config, s: State, moves: seq<Move>): Option<State>
    decreases |moves|
  {
    if moves == [] then Some(s)
    else match Stepped(c, s, moves[0]) case None => None case Some(next) => Scheduled(c, next, moves[1..])
  }

  function EventOf(op: Op): seq<Rt> {
    if op.Emit? then [op.ev] else []
  }

  function FireOf(op: Op): seq<nat> {
    if op.Fire? then [op.page] else []
  }

  function EventsOf(program: seq<Op>): seq<Rt> {
    if program == [] then [] else EventOf(program[0]) + EventsOf(program[1..])
  }

  function FiresOf(program: seq<Op>): seq<nat> {
    if program == [] then [] else FireOf(program[0]) + FiresOf(program[1..])
  }

  lemma Regroup<T>(a: seq<T>, b: seq<T>, c: seq<T>)
    ensures a + b + c == a + (b + c)
  {
  }

  lemma {:induction false} EventsSplit(a: seq<Op>, b: seq<Op>)
    ensures EventsOf(a + b) == EventsOf(a) + EventsOf(b)
  {
    if a == [] {
      assert a + b == b;
    } else {
      EventsSplit(a[1..], b);
      assert (a + b)[1..] == a[1..] + b && (a + b)[0] == a[0];
      Regroup(EventOf(a[0]), EventsOf(a[1..]), EventsOf(b));
    }
  }

  lemma {:induction false} FiresSplit(a: seq<Op>, b: seq<Op>)
    ensures FiresOf(a + b) == FiresOf(a) + FiresOf(b)
  {
    if a == [] {
      assert a + b == b;
    } else {
      FiresSplit(a[1..], b);
      assert (a + b)[1..] == a[1..] + b && (a + b)[0] == a[0];
      Regroup(FireOf(a[0]), FiresOf(a[1..]), FiresOf(b));
    }
  }

  lemma ProgramStep(program: seq<Op>, pc: nat)
    requires pc < |program|
    ensures var op := program[pc];
      && EventsOf(program[..pc + 1]) == EventsOf(program[..pc]) + EventOf(op)
      && FiresOf(program[..pc + 1]) == FiresOf(program[..pc]) + FireOf(op)
  {
    assert program[..pc + 1] == program[..pc] + [program[pc]];
    EventsSplit(program[..pc], [program[pc]]);
    FiresSplit(program[..pc], [program[pc]]);
    assert [program[pc]][1..] == [];
  }

  // ---- what every interleaving keeps ----

  function Held(consumer: Consumer): seq<Rt> {
    if consumer.Holding? then [consumer.ev] else []
  }

  /** Nothing is lost or reordered, and the queue is bounded. */
  predicate Conserved(c: Config, s: State) {
    && s.sent == s.called + s.discarded + Held(s.consumer) + s.queue
    && |s.queue| <= c.buffer
  }

  /** Every call but the last succeeded; a failure is the last call, and only then are events dropped. */
  predicate FirstErrorWins(c: Config, s: State) {
    && (forall k | 0 < k < |s.called| :: c.world.takes(s.called[..k]))
    && (s.err.None? && !s.consumer.Calling? && s.called != [] ==> c.world.takes(s.called))
    && (s.err.Some? ==> s.err == Some(|s.called|) && s.called != [] && !c.world.takes(s.called) && !s.consumer.Calling?)
    && (s.consumer.Calling? ==> s.err.None? && s.called != [])
    && (s.discarded != [] ==> s.err.Some?)
  }

  /** The producer has done exactly the first `pc` operations, and gave up only on a recorded error. */
  predicate OnProgram(c: Config, s: State) {
    && s.pc <= |c.program|
    && s.sent == EventsOf(c.program[..s.pc]) && s.fired == FiresOf(c.program[..s.pc])
    && (s.producer.Sending? ==> s.pc < |c.program| && c.program[s.pc] == Emit(s.producer.ev) && !s.aborted)
    && (s.aborted ==> s.err.Some? && s.pc < |c.program| && c.program[s.pc].Emit?)
  }

  /** The teardown order: close, join, flush, save. */
  predicate Ordered(c: Config, s: State) {
    && (s.closed <==> !s.producer.Busy? && !s.producer.Sending?)
    && (s.closed ==> s.aborted || s.pc == |c.program|)
    && (s.consumer.Gone? ==> s.closed && s.queue == [])
    && (s.producer.Joined? || s.producer.Flushed? || s.producer.Saved? ==> s.consumer.Gone?)
  }

  predicate Inv(c: Config, s: State) {
    Conserved(c, s) && FirstErrorWins(c, s) && OnProgram(c, s) && Ordered(c, s)
  }

  lemma ProducerKeeps(c: Config, s: State, m: Move)
    requires Inv(c, s) && Stepped(c, s, m).Some? && m in {Check, Send, Progress, CloseQueue, Join, Flush, Save}
    ensures Inv(c, Stepped(c, s, m).value)
  {
    if s.pc < |c.program| {
      ProgramStep(c.program, s.pc);
    }
  }

  lemma CallKeepsFirstError(c: Config, s: State)
    requires Inv(c, s) && Stepped(c, s, Call).Some?
    ensures FirstErrorWins(c, Stepped(c, s, Call).value)
  {
    var called := Stepped(c, s, Call).value.called;
    forall k | 0 < k < |called| ensures c.world.takes(called[..k]) {
      assert called[..k] == if k == |s.called| then s.called else s.called[..k];
    }
  }

  lemma ReceiveMoves(front: seq<Rt>, queue: seq<Rt>)
    requires queue != []
    ensures front + [] + queue == front + [queue[0]] + queue[1..]
  {
  }

  lemma CallMoves(called: seq<Rt>, ev: Rt, queue: seq<Rt>)
    ensures called + [] + [ev] + queue == called + [ev] + [] + [] + queue
  {
  }

  lemma DropMoves(called: seq<Rt>, discarded: seq<Rt>, ev: Rt, queue: seq<Rt>)
    ensures called + discarded + [ev] + queue == called + (discarded + [ev]) + [] + queue
  {
  }

  lemma ConsumerKeepsQueue(c: Config, s: State, m: Move)
    requires Conserved(c, s) && FirstErrorWins(c, s)
    requires Stepped(c, s, m).Some? && m in {Receive, Call, Return, Drop, Leave}
    ensures Conserved(c, Stepped(c, s, m).value)
  {
    match m {
      case Receive => ReceiveMoves(s.called + s.discarded, s.queue);
      case Call => CallMoves(s.called, s.consumer.ev, s.queue);
      case Drop => DropMoves(s.called, s.discarded, s.consumer.ev, s.queue);
      case _ =>
    }
  }

  lemma ConsumerKeeps(c: Config, s: State, m: Move)
    requires Inv(c, s) && Stepped(c, s, m).Some? && m in {Receive, Call, Return, Drop, Leave}
    ensures Inv(c, Stepped(c, s, m).value)
  {
    ConsumerKeepsQueue(c, s, m);
    if m == Call {
      CallKeepsFirstError(c, s);
    }
  }

  /** Every reachable state: conservation, the queue bound, the first error, the teardown order. */
  lemma {:induction false} EveryInterleaving(c: Config, s: State, moves: seq<Move>)
    requires Inv(c, s) && Scheduled(c, s, moves).Some?
    ensures Inv(c, Scheduled(c, s, moves).value)
    decreases |moves|
  {
    if moves != [] {
      var m := moves[0];
      if m in {Receive, Call, Return, Drop, Leave} {
        ConsumerKeeps(c, s, m);
      } else {
        ProducerKeeps(c, s, m);
      }
      EveryInterleaving(c, Stepped(c, s, m).value, moves[1..]);
    }
  }

  // ---- no deadlock, no livelock ----

  function Fuel(c: Config, s: State): int {
    (if s.aborted then 0 else 8 * (|c.program| - s.pc)) - (if s.producer.Sending? then 1 else 0)
    + 4 * |s.queue|
    + (match s.consumer case Holding(_) => 3 case Calling(_) => 2 case Idle => 1 case Gone => 0)
    + (match s.producer
       case Busy => 4 case Sending(_) => 4 case Closing => 3 case Joined => 2 case Flushed => 1 case Saved => 0)
  }

  lemma StepBurns(c: Config, s: State, m: Move)
    requires Inv(c, s) && Stepped(c, s, m).Some?
    ensures 0 <= Fuel(c, Stepped(c, s, m).value) < Fuel(c, s)
  {
    if m in {Receive, Call, Return, Drop, Leave} {
      ConsumerKeeps(c, s, m);
    } else {
      ProducerKeeps(c, s, m);
    }
  }

  /** A step that some thread can take, in every state before the save; a full queue is always drained. */
  function Enabled(c: Config, s: State): Move {
    match s.consumer
    case Holding(_) => if s.err.Some? then Drop else Call
    case Calling(_) => Return
    case _ =>
      if s.consumer.Idle? && s.queue != [] then Receive
      else match s.producer
        case Sending(_) => Send
        case Busy =>
          if s.aborted || s.pc >= |c.program| then CloseQueue else if c.program[s.pc].Emit? then Check else Progress
        case Closing => if s.consumer.Gone? then Join else Leave
        case Joined => Flush
        case _ => Save
  }

  /** No reachable state is stuck, and every schedule is finite: whatever the interleaving and whatever the
      sink answers, the drain ends with its save. */
  lemma {:induction false} NoDeadlock(c: Config, s: State, moves: seq<Move>)
    requires 0 < c.buffer && Inv(c, s) && Scheduled(c, s, moves).Some?
    ensures var end := Scheduled(c, s, moves).value;
      && 0 <= Fuel(c, end)
      && |moves| + Fuel(c, end) <= Fuel(c, s)
      && (!end.producer.Saved? ==> Stepped(c, end, Enabled(c, end)).Some?)
    decreases |moves|
  {
    if moves != [] {
      StepBurns(c, s, moves[0]);
      EveryInterleaving(c, s, [moves[0]]);
      var next := Stepped(c, s, moves[0]).value;
      assert Scheduled(c, next, [moves[0]][1..]) == Some(next);
      NoDeadlock(c, next, moves[1..]);
    }
  }

  // ---- the synchronous emitter ----

  /** What an inline emitter would have shown the sink is determined by the sink's answers alone. */
  lemma {:induction false} OfferedIs(w: World, sunk: seq<Rt>, events: seq<Rt>, log: seq<Rt>)
    requires sunk <= log <= sunk + events
    requires forall k | |sunk| < k < |log| :: w.takes(log[..k])
    requires log == sunk + events || |log| > |sunk|
    requires |log| > |sunk| && log != sunk + events ==> !w.takes(log)
    ensures Offered(w, sunk, events).0 == log
    ensures |log| > |sunk| ==> Offered(w, sunk, events).1 == w.takes(log)
    decreases |events|
  {
    if events != [] {
      var next := sunk + [events[0]];
      assert sunk + events == next + events[1..];
      assert log[..|next|] == next;
      if |log| > |next| || events[1..] == [] {
        if w.takes(next) {
          OfferedIs(w, next, events[1..], log);
        }
      } else {
        assert log == next;
      }
    }
  }

  /** What was sent is the beginning of the program's events, and all of them once the program is done. */
  lemma SentIsPrefix(c: Config, s: State)
    requires OnProgram(c, s)
    ensures s.sent <= EventsOf(c.program)
    ensures s.pc == |c.program| ==> s.sent == EventsOf(c.program)
  {
    var front, rest := c.program[..s.pc], c.program[s.pc..];
    assert front + rest == c.program;
    EventsSplit(front, rest);
  }

  lemma SinkAtTheEnd(c: Config, s: State)
    requires Inv(c, s) && s.consumer.Gone?
    ensures s.called <= EventsOf(c.program)
    ensures s.err.None? ==> s.called == EventsOf(c.program)
  {
    SentIsPrefix(c, s);
    assert s.sent == s.called + s.discarded;
    if s.err.None? {
      assert s.discarded == [] && s.pc == |c.program|;
    }
  }

  /** Once the consumer has been joined, the sink has seen exactly what the synchronous emitter would have
      shown it, whatever the interleaving was; and there is an error exactly when the synchronous emitter
      would have stopped. */
  lemma BufferedRefinesSynchronous(c: Config, moves: seq<Move>)
    requires Scheduled(c, START, moves).Some? && Scheduled(c, START, moves).value.consumer.Gone?
    ensures var end := Scheduled(c, START, moves).value;
      Offered(c.world, [], EventsOf(c.program)) == (end.called, end.err.None?)
  {
    EveryInterleaving(c, START, moves);
    var end := Scheduled(c, START, moves).value;
    SinkAtTheEnd(c, end);
    assert [] + EventsOf(c.program) == EventsOf(c.program);
    OfferedIs(c.world, [], EventsOf(c.program), end.called);
  }

  /** Once the consumer has been joined, everything the drain handed over was taken by the sink exactly when
      close reports no error. */
  lemma DeliveredIffNoError(c: Config, moves: seq<Move>)
    requires Scheduled(c, START, moves).Some? && Scheduled(c, START, moves).value.consumer.Gone?
    ensures var end := Scheduled(c, START, moves).value;
      end.err.None? <==> end.called == end.sent && forall k | 0 < k <= |end.called| :: c.world.takes(end.called[..k])
  {
    EveryInterleaving(c, START, moves);
    var end := Scheduled(c, START, moves).value;
    assert end.called[..|end.called|] == end.called;
    if end.err.None? {
      assert end.sent == end.called + [] + [] + [];
    }
  }

  /** The events handed over before the last progress. */
  function FiredEvents(program: seq<Op>): seq<Rt> {
    if program == [] then []
    else
      var n := |program| - 1;
      if program[n].Fire? then EventsOf(program[..n]) else FiredEvents(program[..n])
  }

  lemma {:induction false} FiredEventsComeFirst(program: seq<Op>)
    ensures FiredEvents(program) <= EventsOf(program)
  {
    if program != [] {
      var n := |program| - 1;
      assert program == program[..n] + [program[n]];
      EventsSplit(program[..n], [program[n]]);
      FiredEventsComeFirst(program[..n]);
    }
  }

  /** The sink took every event of the pages whose progress fired. */
  predicate ProgressDelivered(c: Config, s: State)
    requires s.pc <= |c.program|
  {
    var events := FiredEvents(c.program[..s.pc]);
    events <= s.called && forall k | 0 < k <= |events| :: c.world.takes(s.called[..k])
  }

  lemma FrontTaken(c: Config, s: State, events: seq<Rt>)
    requires FirstErrorWins(c, s) && !s.consumer.Calling? && events <= s.called + s.discarded
    ensures events <= s.called && (forall k | 0 < k <= |events| :: c.world.takes(s.called[..k])) <==>
      s.err.None? || |events| < s.err.value
  {
    assert s.called[..|s.called|] == s.called;
    if |events| <= |s.called| {
      assert events == (s.called + s.discarded)[..|events|] == s.called[..|events|];
    }
  }

  /** That holds exactly when no call failed, or the failed call came after those events. */
  lemma ProgressDeliveredExactly(c: Config, moves: seq<Move>)
    requires Scheduled(c, START, moves).Some? && Scheduled(c, START, moves).value.consumer.Gone?
    ensures var end := Scheduled(c, START, moves).value;
      && end.pc <= |c.program|
      && (ProgressDelivered(c, end) <==> end.err.None? || |FiredEvents(c.program[..end.pc])| < end.err.value)
  {
    EveryInterleaving(c, START, moves);
    var end := Scheduled(c, START, moves).value;
    FiredEventsComeFirst(c.program[..end.pc]);
    assert end.sent == end.called + end.discarded;
    FrontTaken(c, end, FiredEvents(c.program[..end.pc]));
  }

  // ---- the shared object ----

  /** The emitter with both of its threads, one method per atomic region of `emit`, `close` and `consume`. */
  class AsyncEmitter {
    const config: Config
    var pc: nat
    var producer: Producer
    var aborted: bool
    var queue: seq<Rt>
    var closed: bool
    var consumer: Consumer
    var err: Option<nat>
    var sent: seq<Rt>
    var called: seq<Rt>
    var discarded: seq<Rt>
    var fired: seq<nat>

    constructor (config: Config)
      ensures this.config == config && View() == START
    {
      this.config := config;
      pc, producer, aborted, queue, closed, consumer, err := 0, Busy, false, [], false, Idle, None;
      sent, called, discarded, fired := [], [], [], [];
    }

    function View(): State
      reads this
    {
      State(pc, producer, aborted, queue, closed, consumer, err, sent, called, discarded, fired)
    }

    predicate Can(m: Move)
      reads this
    {
      Stepped(config, View(), m).Some?
    }

    /** emit: the error check and, later, the send. */
    method EmitPart(m: Move)
      requires m in {Check, Send} && Can(m)
      modifies this
      ensures Some(View()) == Stepped(config, old(View()), m)
    {
      if m == Check {
        if err.Some? {
          aborted := true;
        } else {
          producer := Sending(config.program[pc].ev);
        }
      } else {
        queue := queue + [producer.ev];
        sent := sent + [producer.ev];
        producer := Busy;
        pc := pc + 1;
      }
    }

    /** The rest of the drain: progress, close, the join inside close, flush and save. */
    method DrainPart(m: Move)
      requires m in {Progress, CloseQueue, Join, Flush, Save} && Can(m)
      modifies this
      ensures Some(View()) == Stepped(config, old(View()), m)
    {
      if m == Progress {
        fired := fired + [config.program[pc].page];
        pc := pc + 1;
      } else if m == CloseQueue {
        closed, producer := true, Closing;
      } else {
        producer := if m == Join then Joined else if m == Flush then Flushed else Saved;
      }
    }

    /** consume: one iteration of the range loop is a receive, then a drop or a call with its return. */
    method ConsumePart(m: Move)
      requires m in {Receive, Call, Return, Drop, Leave} && Can(m)
      modifies this
      ensures Some(View()) == Stepped(config, old(View()), m)
    {
      if m == Receive {
        consumer, queue := Holding(queue[0]), queue[1..];
      } else if m == Call {
        called, consumer := called + [consumer.ev], Calling(consumer.ev);
      } else if m == Return {
        consumer := Idle;
        if !config.world.takes(called) {
          SetErr(|called|);
        }
      } else if m == Drop {
        discarded, consumer := discarded + [consumer.ev], Idle;
      } else {
        consumer := Gone;
      }
    }

    method SetErr(call: nat)
      modifies this`err
      ensures err == (if old(err).None? then Some(call) else old(err))
    {
      if err.None? {
        err := Some(call);
      }
    }

    /** Lets the threads interleave as the schedule says, up to its first blocked step. */
    method Interleave(moves: seq<Move>) returns (complete: bool)
      requires Inv(config, View())
      modifies this
      ensures Inv(config, View())
      ensures complete <==> Scheduled(config, old(View()), moves).Some?
      ensures complete ==> Some(View()) == Scheduled(config, old(View()), moves)
    {
      for i := 0 to |moves|
        invariant Inv(config, View())
        invariant Scheduled(config, old(View()), moves) == Scheduled(config, View(), moves[i..])
      {
        assert moves[i..][1..] == moves[i + 1..];
        var m := moves[i];
        if !Can(m) {
          return false;
        }
        if m in {Receive, Call, Return, Drop, Leave} {
          ConsumerKeeps(config, View(), m);
          ConsumePart(m);
        } else {
          ProducerKeeps(config, View(), m);
          if m in {Check, Send} {
            EmitPart(m);
          } else {
            DrainPart(m);
          }
        }
      }
      return true;
    }
  }

  // ---- the exception ----

  ghost predicate Reaches(c: Config, s: State, end: State) {
    exists moves :: Scheduled(c, s, moves) == Some(end)
  }

  lemma Then(c: Config, s: State, m: Move, end: State)
    requires Stepped(c, s, m).Some? && Reaches(c, Stepped(c, s, m).value, end)
    ensures Reaches(c, s, end)
  {
    var rest :| Scheduled(c, Stepped(c, s, m).value, rest) == Some(end);
    assert ([m] + rest)[1..] == rest;
    assert Scheduled(c, s, [m] + rest) == Some(end);
  }

  /** With a sink that fails, the save can happen although the event of a progressed page was refused: the
      failure may be recorded only after the progress fired, and the teardown saves regardless. */
  lemma FailedSinkStillSaves(w: World, ev: Rt)
    requires !w.takes([ev])
    ensures Reaches(Config(w, 1, [Emit(ev), Fire(0)]), START,
                    State(2, Saved, false, [], true, Gone, Some(1), [ev], [ev], [], [0]))
  {
    var c := Config(w, 1, [Emit(ev), Fire(0)]);
    var fired := State(2, Busy, false, [ev], false, Idle, None, [ev], [], [], [0]);
    var refused := State(2, Closing, false, [], true, Idle, Some(1), [ev], [ev], [], [0]);
    var end := State(2, Saved, false, [], true, Gone, Some(1), [ev], [ev], [], [0]);
    assert [] + [ev] == [ev];
    TearDownRuns(c, refused, end);
    SinkRefuses(c, fired, refused, end);
    var sending := START.(producer := Sending(ev));
    var sent := State(1, Busy, false, [ev], false, Idle, None, [ev], [], [], []);
    assert sent.fired + [0] == [0];
    Then(c, sent, Progress, end);
    Then(c, sending, Send, end);
    Then(c, START, Check, end);
  }

  lemma SinkRefuses(c: Config, fired: State, refused: State, end: State)
    requires fired.producer.Busy? && fired.pc == |c.program|
    requires |fired.queue| == 1 && fired.consumer.Idle? && fired.err.None?
    requires refused == fired.(producer := Closing, closed := true, queue := [], called := fired.called + fired.queue,
                               err := Some(|fired.called| + 1))
    requires !c.world.takes(refused.called)
    requires Reaches(c, refused, end)
    ensures Reaches(c, fired, end)
  {
    var closing := fired.(producer := Closing, closed := true);
    var holding := closing.(consumer := Holding(fired.queue[0]), queue := []);
    var calling := holding.(consumer := Calling(fired.queue[0]), called := refused.called);
    assert fired.queue == [fired.queue[0]] && fired.queue[1..] == [];
    Then(c, calling, Return, end);
    Then(c, holding, Call, end);
    Then(c, closing, Receive, end);
    Then(c, fired, CloseQueue, end);
  }

  lemma TearDownRuns(c: Config, s: State, end: State)
    requires s.producer.Closing? && s.consumer.Idle? && s.queue == [] && s.closed
    requires end == s.(producer := Saved, consumer := Gone)
    ensures Reaches(c, s, end)
  {
    var gone := s.(consumer := Gone);
    assert Scheduled(c, end, []) == Some(end);
    Then(c, gone.(producer := Flushed), Save, end);
    Then(c, gone.(producer := Joined), Flush, end);
    Then(c, gone, Join, end);
    Then(c, s, Leave, end);
  }
}
