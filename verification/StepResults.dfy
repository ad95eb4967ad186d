/** What a finished step leaves for the steps after it: its body and headers under its id (client/runner.go,
    client/state.go). */
module StepResults {
  import opened Syntax
  import opened Runtime
  import opened Scopes
  import opened Eval
  import opened Session
  import opened Writes
  import opened Requests
  import opened FanOuts
  import opened Drains
  import opened Frames

  datatype Answer = Answer(body: Rt, headers: Option<Headers>)

  /** What the i-th step answered, if its gate let it run and it ended with a response, or with a merge; headers are
      missing only from a merge of nothing. */
  function AnswerOf(w: World, doc: Doc, se: Session, i: nat): Option<Answer>
    requires i < |doc.requests|
  {
    var req, at := doc.requests[i], Unbound(se);
    if req.gate.Some? && EvalPredicate(w.lib, at.env, req.gate.value) != Ok(true) then None
    else if req.fanOut.Some? then
      match FannedOut(w, doc, at, i, req, req.fanOut.value).1
      case Merged(body, headers) => Some(Answer(body, headers))
      case _ => None
    else
      var (after, status) := Requested(w, doc, at, i, req);
      if status.StepOk? && Extracted(w.lib, after.env, status.body, status.headers, req.extract).1
      then Some(Answer(status.body, Some(status.headers)))
      else None
  }

  // ---- nothing else binds results ----

  predicate SameResults(a: Env, b: Env) {
    b.steps == a.steps && b.stepHeaders == a.stepHeaders
  }

  lemma {:induction false} RequestedKeepsResults(w: World, doc: Doc, se: Session, step: nat, req: Request)
    ensures SameResults(se.env, Requested(w, doc, se, step, req).0.env)
    decreases se.checks
  {
    FiredKeepsResults(w, doc, se, step, req);
    var (seen, status) := Fired(w, doc, se, step, req);
    if status.None? && seen.checks > 0 {
      RequestedKeepsResults(w, doc, seen.(checks := seen.checks - 1), step, req);
    }
  }

  lemma FiredKeepsResults(w: World, doc: Doc, se: Session, step: nat, req: Request)
    ensures SameResults(se.env, Fired(w, doc, se, step, req).0.env)
  {
    ExecutedOnlyCache(w, se, step, req, doc.auth);
    FiredParts(w, doc, se, step, req);
    var (after, ex) := Executed(w, se, step, req, doc.auth);
    if !ex.Got? {
      DispatchOnlyCache(doc, after, req, ex);
    }
  }

  lemma ExtractKeepsResults(lib: Lib, env: Env, body: Rt, headers: Headers, ev: Extract)
    ensures var r := ExtractOne(lib, env, body, headers, ev); r.Ok? ==> SameResults(env, r.value)
  {
  }

  lemma {:induction false} ExtractedKeepsResults(lib: Lib, env: Env, body: Rt, headers: Headers, vars: seq<Extract>)
    ensures SameResults(env, Extracted(lib, env, body, headers, vars).0)
    decreases |vars|
  {
    if vars != [] && ExtractOne(lib, env, body, headers, vars[0]).Ok? {
      ExtractKeepsResults(lib, env, body, headers, vars[0]);
      ExtractedKeepsResults(lib, ExtractOne(lib, env, body, headers, vars[0]).value, body, headers, vars[1..]);
    }
  }

  lemma ItemKeepsResults(w: World, doc: Doc, se: Session, step: nat, req: Request)
    ensures SameResults(se.env, ItemDone(w, doc, se, step, req).0.env)
  {
    ExecutedOnlyCache(w, se, step, req, doc.auth);
    var (after, ex) := Executed(w, se, step, req, doc.auth);
    if ex.Got? {
      ExtractedKeepsResults(w.lib, after.env, ex.body, ex.headers, req.extract);
    }
  }

  lemma {:induction false} ItemsKeepResults(w: World, doc: Doc, se: Session, step: nat, req: Request, items: seq<Rt>)
    ensures SameResults(se.env, ItemsDone(w, doc, se, step, req, items).0.env)
    decreases |items|
  {
    if items != [] {
      ItemKeepsResults(w, doc, WithItem(se, items[0]), step, req);
      var (after, verdict) := ItemDone(w, doc, WithItem(se, items[0]), step, req);
      if !verdict.Ends() {
        ItemsKeepResults(w, doc, after, step, req, items[1..]);
      }
    }
  }

  lemma FannedOutKeepsResults(w: World, doc: Doc, se: Session, step: nat, req: Request, f: FanOut)
    ensures SameResults(se.env, FannedOut(w, doc, se, step, req, f).0.env)
  {
    var items := FanOutItems(w.lib, se.env, f.over);
    if items.Some? {
      ItemsKeepResults(w, doc, se.(env := se.env.(alias := f.alias)), step, req, items.value);
    }
  }

  // ---- one step ----

  /** The result is there to be read. */
  predicate Holds(env: Env, id: string, answer: Answer) {
    && id in env.steps && env.steps[id] == answer.body
    && (answer.headers.Some? ==> id in env.stepHeaders && env.stepHeaders[id] == answer.headers.value)
  }

  /** The results of a step are what they were. */
  predicate SameResult(a: Env, b: Env, id: string) {
    && SameField(a.steps, b.steps, id)
    && (if id in a.stepHeaders then id in b.stepHeaders && b.stepHeaders[id] == a.stepHeaders[id]
        else id !in b.stepHeaders)
  }

  /** Every result but that of this step is what it was. */
  ghost predicate OthersKept(a: Env, b: Env, id: string) {
    forall other | other != id || id == "" :: SameResult(a, b, other)
  }

  lemma FanStepBinds(w: World, doc: Doc, se: Session, i: nat, chain: Chain, f: FanOut)
    requires i < |doc.requests|
    ensures var (after, link) := FanStepDone(w, doc, se, i, chain, f); var id := doc.requests[i].id;
      match FannedOut(w, doc, se, i, doc.requests[i], f).1
      case Merged(body, headers) =>
        && link.Next? && (id != "" ==> Holds(after.env, id, Answer(body, headers)))
        && OthersKept(se.env, after.env, id)
      case _ => link.EndWith? && SameResults(se.env, after.env)
  {
    FannedOutKeepsResults(w, doc, se, i, doc.requests[i], f);
  }

  lemma RequestStepBinds(w: World, doc: Doc, se: Session, i: nat, chain: Chain)
    requires i < |doc.requests|
    ensures var (after, link) := RequestStepDone(w, doc, se, i, chain);
      var req := doc.requests[i];
      var (end, status) := Requested(w, doc, se, i, req);
      if status.StepOk? && Extracted(w.lib, end.env, status.body, status.headers, req.extract).1 then
        && link.Next? && (req.id != "" ==> Holds(after.env, req.id, Answer(status.body, Some(status.headers))))
        && OthersKept(se.env, after.env, req.id)
      else SameResults(se.env, after.env)
  {
    var req := doc.requests[i];
    RequestedKeepsResults(w, doc, se, i, req);
    var (end, status) := Requested(w, doc, se, i, req);
    if status.StepOk? {
      ExtractedKeepsResults(w.lib, end.env, status.body, status.headers, req.extract);
    }
  }

  lemma UnboundKeepsResults(se: Session, env: Env, id: string)
    ensures OthersKept(Unbound(se).env, env, id) ==> OthersKept(se.env, env, id)
    ensures SameResults(Unbound(se).env, env) ==> SameResults(se.env, env)
  {
    if OthersKept(Unbound(se).env, env, id) {
      forall other | other != id || id == "" ensures SameResult(se.env, env, other) {
        assert SameResult(Unbound(se).env, env, other);
      }
    }
  }

  /** A step that answered binds its answer under its id and goes on; every other result is what it was. A step
      that was gated, skipped, emptied or ended the chain binds nothing. */
  lemma StepBinds(w: World, doc: Doc, se: Session, i: nat, chain: Chain)
    requires i < |doc.requests|
    ensures var (after, link) := StepDone(w, doc, se, i, chain);
      var id := doc.requests[i].id;
      match AnswerOf(w, doc, se, i)
      case None => SameResults(se.env, after.env)
      case Some(answer) =>
        && link.Next? && (id != "" ==> Holds(after.env, id, answer))
        && OthersKept(se.env, after.env, id)
  {
    var req, after := doc.requests[i], StepDone(w, doc, se, i, chain).0;
    UnboundKeepsResults(se, after.env, req.id);
    if req.gate.None? || EvalPredicate(w.lib, Unbound(se).env, req.gate.value) == Ok(true) {
      if req.fanOut.Some? {
        FanStepBinds(w, doc, Unbound(se), i, chain, req.fanOut.value);
      } else {
        RequestStepBinds(w, doc, Unbound(se), i, chain);
      }
    }
  }

  // ---- the steps after it ----

  lemma {:induction false} FoldedKeepsBetween(rel: (Session, Session) -> bool, step: Stepper, n: nat, se: Session,
                                              i: nat, chain: Chain)
    requires forall a: Session :: rel(a, a)
    requires forall a: Session, b: Session, c: Session :: rel(a, b) && rel(b, c) ==> rel(a, c)
    requires forall a: Session, j: nat, c: Chain | i <= j < n :: rel(a, step(a, j, c).0)
    ensures rel(se, Folded(step, n, se, i, chain).0)
    decreases n - i
  {
    if i < n {
      var (after, link) := step(se, i, chain);
      assert rel(se, step(se, i, chain).0);
      if link.Next? {
        FoldedKeepsBetween(rel, step, n, after, i + 1, link.chain);
      }
    }
  }

  /** `steps.<id>.body.<rest>` reads the body along the rest, and `steps.<id>.header.<name>` the header of that
      name. */
  predicate Readable(lib: Lib, env: Env, id: string, answer: Answer, rest: seq<string>, name: string) {
    && Resolve(lib, env, Path(["steps", id, "body"] + rest, false)) == Ok(Walk(answer.body, rest))
    && (answer.headers.Some? ==>
          Resolve(lib, env, Path(["steps", id, "header", name], false)) ==
            Ok(HeaderLookup(lib, answer.headers.value, name)))
  }

  lemma ReadsResult(lib: Lib, env: Env, id: string, answer: Answer, rest: seq<string>, name: string)
    requires env.alias == "" && Holds(env, id, answer)
    ensures Readable(lib, env, id, answer, rest, name)
  {
    var parts := ["steps", id, "body"] + rest;
    assert parts[1..] == [id, "body"] + rest && parts[1..][2..] == rest;
    assert ["steps", id, "header", name][1..] == [id, "header", name];
  }

  /** The steps behind the i-th keep the results of a step and the alias. */
  ghost predicate Keeping(step: Stepper, i: nat, n: nat, id: string) {
    forall a: Session, j: nat, c: Chain | i < j < n ::
      SameResult(a.env, step(a, j, c).0.env, id) && step(a, j, c).0.env.alias == a.env.alias
  }

  lemma OtherStepsKeep(w: World, doc: Doc, i: nat, n: nat, id: string)
    requires n <= |doc.requests| && id != "" && forall j | i < j < n :: doc.requests[j].id != id
    ensures Keeping(StepperOf(w, doc), i, n, id)
  {
    forall a: Session, j: nat, c: Chain | i < j < n
      ensures SameResult(a.env, StepperOf(w, doc)(a, j, c).0.env, id)
      ensures StepperOf(w, doc)(a, j, c).0.env.alias == a.env.alias
    {
      StepBinds(w, doc, a, j, c);
      StepKeepsAlias(w, doc, a, j, c);
    }
  }

  lemma HeldResultIsReadable(lib: Lib, step: Stepper, se: Session, i: nat, n: nat, chain: Chain, id: string,
                             answer: Answer, rest: seq<string>, name: string)
    requires i < n && Keeping(step, i, n, id)
    requires var (after, link) := step(se, i, chain);
      link.Next? && after.env.alias == "" && Holds(after.env, id, answer)
    ensures Readable(lib, Folded(step, n, se, i, chain).0.env, id, answer, rest, name)
  {
    var (after, link) := step(se, i, chain);
    var rel := (a: Session, b: Session) => SameResult(a.env, b.env, id) && b.env.alias == a.env.alias;
    FoldedKeepsBetween(rel, step, n, after, i + 1, link.chain);
    var end := Folded(step, n, after, i + 1, link.chain).0;
    assert rel(after, end);
    ReadsResult(lib, end.env, id, answer, rest, name);
  }

  lemma AnswerIsHeld(w: World, doc: Doc, se: Session, i: nat, chain: Chain)
    requires i < |doc.requests| && se.env.alias == "" && doc.requests[i].id != "" && AnswerOf(w, doc, se, i).Some?
    ensures var (after, link) := StepperOf(w, doc)(se, i, chain);
      link.Next? && after.env.alias == "" && Holds(after.env, doc.requests[i].id, AnswerOf(w, doc, se, i).value)
  {
    StepBinds(w, doc, se, i, chain);
    StepKeepsAlias(w, doc, se, i, chain);
  }

  /** From a step with an id that answered up to the next step with that id, its answer is readable. */
  lemma StepResultsAreReadable(w: World, doc: Doc, se: Session, i: nat, chain: Chain, n: nat, rest: seq<string>,
                               name: string)
    requires i < n <= |doc.requests| && se.env.alias == "" && doc.requests[i].id != ""
    requires AnswerOf(w, doc, se, i).Some?
    requires forall j | i < j < n :: doc.requests[j].id != doc.requests[i].id
    ensures Readable(w.lib, Folded(StepperOf(w, doc), n, se, i, chain).0.env, doc.requests[i].id,
                     AnswerOf(w, doc, se, i).value, rest, name)
  {
    var id, answer := doc.requests[i].id, AnswerOf(w, doc, se, i).value;
    AnswerIsHeld(w, doc, se, i, chain);
    OtherStepsKeep(w, doc, i, n, id);
    HeldResultIsReadable(w.lib, StepperOf(w, doc), se, i, n, chain, id, answer, rest, name);
  }
}
