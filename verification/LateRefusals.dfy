/** When the buffered drain can save although the sink refused an event of a progressed page: a condition on the
    program, the sink and the queue bound alone (client/emitter.go, client/runner.go Drain). */
module LateRefusals {
  import opened Syntax
  import opened Runtime
  import opened Drains
  import opened Ledger
  import opened Emitter

  /** The number of the first event the sink refuses. */
  function FirstRefusal(c: Config): Option<nat> {
    var (log, ok) := Offered(c.world, [], EventsOf(c.program));
    if ok then None else Some(|log|)
  }

  /** How many events the drain hands over before its i-th operation. */
  function EventsBefore(c: Config, i: nat): nat
    requires i <= |c.program|
  {
    |EventsOf(c.program[..i])|
  }

  /** The i-th operation is a progress behind the k-th event, and no further behind than the queue, the consumer and
      the producer can hold. */
  predicate Overtakes(c: Config, k: nat, i: nat) {
    i < |c.program| && c.program[i].Fire? && k <= EventsBefore(c, i) <= k + c.buffer + 1
  }

  /** The sink refuses the k-th event and takes everything before it. */
  predicate Refusing(c: Config, k: nat) {
    var all := EventsOf(c.program);
    0 < k <= |all| && !c.world.takes(all[..k]) && forall m | 0 < m < k :: c.world.takes(all[..m])
  }

  lemma RefusalMeaning(c: Config)
    ensures FirstRefusal(c).Some? ==> Refusing(c, FirstRefusal(c).value)
  {
    var all := EventsOf(c.program);
    OfferedMeaning(c.world, [], all);
    var (log, ok) := Offered(c.world, [], all);
    assert [] + all == all && log == all[..|log|];
    forall m | 0 < m < |log| ensures c.world.takes(all[..m]) {
      assert all[..m] == log[..m];
    }
  }

  lemma RefusalAtTheEnd(c: Config, moves: seq<Move>)
    requires Scheduled(c, START, moves).Some? && Scheduled(c, START, moves).value.consumer.Gone?
    ensures Scheduled(c, START, moves).value.err == FirstRefusal(c)
  {
    BufferedRefinesSynchronous(c, moves);
    EveryInterleaving(c, START, moves);
  }

  // ---- how far the producer gets ----

  /** After a refusal at most the queue and one send in progress lie behind the refused event. */
  predicate NotFarBehind(c: Config, s: State) {
    s.err.Some? ==> |s.sent| + (if s.producer.Sending? then 1 else 0) <= s.err.value + c.buffer + 1
  }

  lemma StepStaysNear(c: Config, s: State, m: Move)
    requires Inv(c, s) && NotFarBehind(c, s) && Stepped(c, s, m).Some?
    ensures NotFarBehind(c, Stepped(c, s, m).value)
  {
  }

  lemma {:induction false} StaysNear(c: Config, s: State, moves: seq<Move>)
    requires Inv(c, s) && NotFarBehind(c, s) && Scheduled(c, s, moves).Some?
    ensures NotFarBehind(c, Scheduled(c, s, moves).value)
    decreases |moves|
  {
    if moves != [] {
      var next := Stepped(c, s, moves[0]).value;
      StepStaysNear(c, s, moves[0]);
      EveryInterleaving(c, s, [moves[0]]);
      assert Scheduled(c, next, [moves[0]][1..]) == Some(next);
      StaysNear(c, next, moves[1..]);
    }
  }

  lemma {:induction false} LastFire(program: seq<Op>) returns (i: nat)
    requires FiredEvents(program) != []
    ensures i < |program| && program[i].Fire? && FiredEvents(program) == EventsOf(program[..i])
  {
    var n := |program| - 1;
    if program[n].Fire? {
      i := n;
    } else {
      i := LastFire(program[..n]);
      assert program[..n][..i] == program[..i];
    }
  }

  lemma UndeliveredOvertakes(c: Config, moves: seq<Move>)
    requires Scheduled(c, START, moves).Some? && Scheduled(c, START, moves).value.consumer.Gone?
    requires !Delivers(c, moves)
    ensures FirstRefusal(c).Some? && exists i :: Overtakes(c, FirstRefusal(c).value, i)
  {
    var end := Scheduled(c, START, moves).value;
    ProgressDeliveredExactly(c, moves);
    RefusalAtTheEnd(c, moves);
    RefusalMeaning(c);
    EveryInterleaving(c, START, moves);
    StaysNear(c, START, moves);
    var done := c.program[..end.pc];
    FiredEventsComeFirst(done);
    var i := LastFire(done);
    assert done[..i] == c.program[..i] && done[i] == c.program[i];
    assert Overtakes(c, FirstRefusal(c).value, i);
  }

  // ---- a schedule that overtakes ----

  /** The k-th event is with the sink, the later ones wait in the queue; before that everything was taken. */
  function Paused(c: Config, k: nat, j: nat): State
    requires j <= |c.program| && 0 < k
  {
    var sent := EventsOf(c.program[..j]);
    var fired := FiresOf(c.program[..j]);
    if |sent| < k then State(j, Busy, false, [], false, Idle, None, sent, sent, [], fired)
    else State(j, Busy, false, sent[k..], false, Calling(sent[k - 1]), None, sent, sent[..k], [], fired)
  }

  /** The refusal is recorded, and the send that was under way went through. */
  function Refused(c: Config, k: nat, j: nat): State
    requires j <= |c.program| && 0 < k < EventsBefore(c, j)
  {
    var sent := EventsOf(c.program[..j]);
    State(j, Busy, false, sent[k + 1..], false, Idle, Some(k), sent, sent[..k], [sent[k]], FiresOf(c.program[..j]))
  }

  lemma {:induction false} ScheduledOn(c: Config, s: State, moves: seq<Move>, m: Move)
    requires Scheduled(c, s, moves).Some?
    ensures Scheduled(c, s, moves + [m]) == Stepped(c, Scheduled(c, s, moves).value, m)
    decreases |moves|
  {
    if moves == [] {
      assert [] + [m] == [m] && [m][1..] == [];
    } else {
      assert (moves + [m])[0] == moves[0] && (moves + [m])[1..] == moves[1..] + [m];
      ScheduledOn(c, Stepped(c, s, moves[0]).value, moves[1..], m);
    }
  }

  lemma Onward(c: Config, s: State, m: Move, next: State)
    requires Reaches(c, START, s) && Stepped(c, s, m) == Some(next)
    ensures Reaches(c, START, next)
  {
    var moves :| Scheduled(c, START, moves) == Some(s);
    ScheduledOn(c, START, moves, m);
    assert Scheduled(c, START, moves + [m]) == Some(next);
  }

  lemma SentIsFront(c: Config, j: nat)
    requires j <= |c.program|
    ensures EventsOf(c.program[..j]) <= EventsOf(c.program)
  {
    assert c.program[..j] + c.program[j..] == c.program;
    EventsSplit(c.program[..j], c.program[j..]);
  }

  lemma FireStep(c: Config, j: nat)
    requires j < |c.program| && c.program[j].Fire?
    ensures EventsOf(c.program[..j + 1]) == EventsOf(c.program[..j])
    ensures FiresOf(c.program[..j + 1]) == FiresOf(c.program[..j]) + [c.program[j].page]
  {
    ProgramStep(c.program, j);
    var sent := EventsOf(c.program[..j]);
    assert sent + [] == sent;
  }

  lemma EmitStep(c: Config, j: nat)
    requires j < |c.program| && c.program[j].Emit?
    ensures EventsOf(c.program[..j + 1]) == EventsOf(c.program[..j]) + [c.program[j].ev]
    ensures FiresOf(c.program[..j + 1]) == FiresOf(c.program[..j])
  {
    ProgramStep(c.program, j);
    var fired := FiresOf(c.program[..j]);
    assert fired + [] == fired;
  }

  lemma {:induction false} ReachesPaused(c: Config, k: nat, j: nat)
    requires Refusing(c, k) && 0 < c.buffer && j <= |c.program| && EventsBefore(c, j) <= k + c.buffer
    ensures Reaches(c, START, Paused(c, k, j))
    decreases j
  {
    if j == 0 {
      assert c.program[..0] == [] && Scheduled(c, START, []) == Some(START);
      assert Paused(c, k, 0) == START;
    } else {
      ProgramStep(c.program, j - 1);
      ReachesPaused(c, k, j - 1);
      if c.program[j - 1].Fire? {
        FiresOn(c, k, j - 1);
      } else if EventsBefore(c, j - 1) < k {
        HandsOver(c, k, j - 1);
      } else {
        EmitStep(c, j - 1);
        QueuesUp(c, k, j - 1);
      }
    }
  }

  lemma FiresOn(c: Config, k: nat, j: nat)
    requires 0 < k && j < |c.program| && c.program[j].Fire? && Reaches(c, START, Paused(c, k, j))
    ensures Reaches(c, START, Paused(c, k, j + 1))
  {
    FireStep(c, j);
    Onward(c, Paused(c, k, j), Progress, Paused(c, k, j + 1));
  }

  /** The next event goes straight through the empty queue to the sink. */
  lemma PassesOn(c: Config, s: State, ev: Rt)
    requires Reaches(c, START, s) && 0 < c.buffer && s.pc < |c.program| && c.program[s.pc] == Emit(ev)
    requires s.producer.Busy? && !s.aborted && s.err.None? && s.consumer.Idle? && s.queue == []
    ensures Reaches(c, START, s.(pc := s.pc + 1, consumer := Calling(ev), sent := s.sent + [ev],
                                 called := s.called + [ev]))
  {
    var sending := s.(producer := Sending(ev));
    var queued := s.(pc := s.pc + 1, queue := [ev], sent := s.sent + [ev]);
    var holding := queued.(consumer := Holding(ev), queue := []);
    assert [] + [ev] == [ev] && [ev][1..] == [];
    Onward(c, s, Check, sending);
    Onward(c, sending, Send, queued);
    Onward(c, queued, Receive, holding);
    Onward(c, holding, Call, holding.(consumer := Calling(ev), called := s.called + [ev]));
  }

  /** Up to the k-th event the consumer keeps pace. */
  lemma HandsOver(c: Config, k: nat, j: nat)
    requires Refusing(c, k) && 0 < c.buffer && j < |c.program| && c.program[j].Emit? && EventsBefore(c, j) < k
    requires Reaches(c, START, Paused(c, k, j))
    ensures Reaches(c, START, Paused(c, k, j + 1))
  {
    var s, ev := Paused(c, k, j), c.program[j].ev;
    EmitStep(c, j);
    SentIsFront(c, j + 1);
    PassesOn(c, s, ev);
    var sent := s.sent + [ev];
    var calling := s.(pc := j + 1, consumer := Calling(ev), sent := sent, called := sent);
    if |sent| < k {
      assert sent == EventsOf(c.program)[..|sent|];
      Onward(c, calling, Return, Paused(c, k, j + 1));
    } else {
      assert sent[k..] == [] && sent[..k] == sent;
      assert calling == Paused(c, k, j + 1);
    }
  }

  /** While the sink holds the k-th event the queue fills. */
  lemma QueuesUp(c: Config, k: nat, j: nat)
    requires 0 < k && j < |c.program| && c.program[j].Emit? && k <= EventsBefore(c, j) < k + c.buffer
    requires Reaches(c, START, Paused(c, k, j))
    ensures Reaches(c, START, Paused(c, k, j + 1))
  {
    var s, ev := Paused(c, k, j), c.program[j].ev;
    EmitStep(c, j);
    var sent := s.sent + [ev];
    assert sent[k..] == s.sent[k..] + [ev] && sent[..k] == s.sent[..k];
    Onward(c, s, Check, s.(producer := Sending(ev)));
    Onward(c, s.(producer := Sending(ev)), Send, Paused(c, k, j + 1));
  }

  /** The refusal is recorded while a send waits for room, and the consumer drops the next event. */
  function Draining(c: Config, k: nat, j: nat, ev: Rt): State
    requires j <= |c.program| && 0 < k < EventsBefore(c, j)
  {
    Refused(c, k, j).(producer := Sending(ev))
  }

  lemma DropsOne(c: Config, s: State)
    requires Reaches(c, START, s) && s.consumer.Idle? && s.err.Some? && s.queue != [] && s.discarded == []
    ensures Reaches(c, START, s.(queue := s.queue[1..], discarded := [s.queue[0]]))
  {
    var holding := s.(consumer := Holding(s.queue[0]), queue := s.queue[1..]);
    assert [] + [s.queue[0]] == [s.queue[0]];
    Onward(c, s, Receive, holding);
    Onward(c, holding, Drop, s.(queue := s.queue[1..], discarded := [s.queue[0]]));
  }

  lemma RefusesNow(c: Config, k: nat, j: nat)
    requires Refusing(c, k) && 0 < c.buffer && j < |c.program| && c.program[j].Emit?
    requires EventsBefore(c, j) == k + c.buffer && Reaches(c, START, Paused(c, k, j))
    ensures Reaches(c, START, Draining(c, k, j, c.program[j].ev))
  {
    var s, ev := Paused(c, k, j), c.program[j].ev;
    SentIsFront(c, j);
    assert s.called == EventsOf(c.program)[..k] && s.queue[0] == s.sent[k] && s.queue[1..] == s.sent[k + 1..];
    var sending := s.(producer := Sending(ev));
    var returned := sending.(consumer := Idle, err := Some(k));
    Onward(c, s, Check, sending);
    Onward(c, sending, Return, returned);
    DropsOne(c, returned);
  }

  /** With the queue full one more send is under way when the refusal comes; dropping makes room for it. */
  lemma SlipsThrough(c: Config, k: nat, j: nat)
    requires 0 < k && j < |c.program| && c.program[j].Emit? && EventsBefore(c, j) == k + c.buffer && 0 < c.buffer
    requires Reaches(c, START, Draining(c, k, j, c.program[j].ev))
    ensures EventsBefore(c, j + 1) == k + c.buffer + 1 && Reaches(c, START, Refused(c, k, j + 1))
  {
    var s, ev := Draining(c, k, j, c.program[j].ev), c.program[j].ev;
    EmitStep(c, j);
    var sent := s.sent + [ev];
    assert sent[k + 1..] == s.sent[k + 1..] + [ev] && sent[..k] == s.sent[..k] && sent[k] == s.sent[k];
    Onward(c, s, Send, Refused(c, k, j + 1));
  }

  lemma {:induction false} ReachesRefused(c: Config, k: nat, j: nat)
    requires Refusing(c, k) && 0 < c.buffer && j <= |c.program| && EventsBefore(c, j) == k + c.buffer + 1
    ensures Reaches(c, START, Refused(c, k, j))
    decreases j
  {
    assert j > 0 by {
      assert c.program[..0] == [];
    }
    ProgramStep(c.program, j - 1);
    if c.program[j - 1].Fire? {
      FireStep(c, j - 1);
      ReachesRefused(c, k, j - 1);
      Onward(c, Refused(c, k, j - 1), Progress, Refused(c, k, j));
    } else {
      ReachesPaused(c, k, j - 1);
      RefusesNow(c, k, j - 1);
      SlipsThrough(c, k, j - 1);
    }
  }

  // ---- every reachable state can be completed ----

  /** The drain ends with its save, and never takes an operation back. */
  lemma {:induction false} Completes(c: Config, s: State) returns (end: State)
    requires 0 < c.buffer && Inv(c, s) && Reaches(c, START, s)
    ensures Reaches(c, START, end) && end.producer.Saved? && s.pc <= end.pc && Inv(c, end)
    decreases Fuel(c, s) + 1
  {
    if s.producer.Saved? {
      end := s;
    } else {
      var m := Enabled(c, s);
      NoDeadlock(c, s, []);
      StepBurns(c, s, m);
      var next := Stepped(c, s, m).value;
      EveryInterleaving(c, s, [m]);
      assert Scheduled(c, next, [m][1..]) == Some(next);
      Onward(c, s, m, next);
      end := Completes(c, next);
    }
  }

  lemma {:induction false} FiredAfter(program: seq<Op>, i: nat)
    requires i < |program| && program[i].Fire?
    ensures |EventsOf(program[..i])| <= |FiredEvents(program)|
    decreases |program|
  {
    var n := |program| - 1;
    if program[n].Fire? {
      assert program[..n] == program[..i] + program[i..n];
      EventsSplit(program[..i], program[i..n]);
    } else {
      FiredAfter(program[..n], i);
      assert program[..n][..i] == program[..i];
    }
  }

  lemma OvertakingIsUndelivered(c: Config, i: nat) returns (moves: seq<Move>)
    requires 0 < c.buffer && FirstRefusal(c).Some? && Overtakes(c, FirstRefusal(c).value, i)
    ensures Scheduled(c, START, moves).Some? && Scheduled(c, START, moves).value.producer.Saved?
    ensures !Delivers(c, moves)
  {
    var k := FirstRefusal(c).value;
    RefusalMeaning(c);
    ProgramStep(c.program, i);
    var s := if EventsBefore(c, i) <= k + c.buffer then Paused(c, k, i + 1) else Refused(c, k, i + 1);
    if EventsBefore(c, i) <= k + c.buffer {
      ReachesPaused(c, k, i + 1);
    } else {
      ReachesRefused(c, k, i + 1);
    }
    var before :| Scheduled(c, START, before) == Some(s);
    EveryInterleaving(c, START, before);
    var end := Completes(c, s);
    moves :| Scheduled(c, START, moves) == Some(end);
    ProgressDeliveredExactly(c, moves);
    RefusalAtTheEnd(c, moves);
    assert c.program[..end.pc][..i] == c.program[..i];
    FiredAfter(c.program[..end.pc], i);
  }

  // ---- the theorem ----

  /** After the schedule the sink has taken every event handed over before the last progress. */
  predicate Delivers(c: Config, moves: seq<Move>) {
    match Scheduled(c, START, moves)
    case None => true
    case Some(end) => end.pc <= |c.program| && ProgressDelivered(c, end)
  }

  predicate Saves(c: Config, moves: seq<Move>) {
    var end := Scheduled(c, START, moves);
    end.Some? && end.value.producer.Saved?
  }

  /** Under every schedule the save comes after the delivery of every progressed page, exactly when the sink refuses
      nothing, or no progress lies behind the first refused event by at most `buffer` + 1 further events. */
  lemma SaveFollowsDeliveryExactly(c: Config)
    requires 0 < c.buffer
    ensures (forall moves | Saves(c, moves) :: Delivers(c, moves)) <==>
      FirstRefusal(c).None? || forall i :: !Overtakes(c, FirstRefusal(c).value, i)
  {
    if FirstRefusal(c).Some? && exists i :: Overtakes(c, FirstRefusal(c).value, i) {
      var i :| Overtakes(c, FirstRefusal(c).value, i);
      var moves := OvertakingIsUndelivered(c, i);
      assert Saves(c, moves) && !Delivers(c, moves);
    } else {
      forall moves | Saves(c, moves) ensures Delivers(c, moves) {
        EveryInterleaving(c, START, moves);
        if !Delivers(c, moves) {
          UndeliveredOvertakes(c, moves);
        }
      }
    }
  }
}
