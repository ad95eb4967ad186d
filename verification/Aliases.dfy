/** A fan-out step that refers to its own alias before the alias is bound (schema/validate.go,
    client/runner.go). */
module Aliases {
  import opened Syntax
  import opened Runtime
  import opened Scopes
  import opened Eval
  import opened Paths
  import opened Validation
  import opened Session
  import opened FanOuts
  import opened Drains
  import opened Frames
  import opened Ledger

  predicate RootedAt(path: Path, name: string) {
    !path.IsEmpty() && path.parts[0] == name
  }

  /** The predicate reads the name before it can be decided. */
  predicate AsksFirst(p: Predicate, name: string)
    decreases p
  {
    match p
    case Present(path) => RootedAt(path, name)
    case Compare(_, path, _) => RootedAt(path, name)
    case Not(q) => AsksFirst(q, name)
    case And(all) => all != [] && AsksFirst(all[0], name)
    case Or(any) => any != [] && AsksFirst(any[0], name)
    case _ => false
  }

  predicate ReadsFirst(v: Value, name: string)
    decreases v
  {
    match v
    case Ref(path, _) => RootedAt(path, name)
    case Slice(operand, _, _) => ReadsFirst(operand, name)
    case _ => false
  }

  /** A step validated with its own alias in scope may refer to it anywhere, short of a star. */
  lemma OwnAliasIsAccepted(path: Path, names: Names, f: FanOut)
    requires RootedAt(path, f.alias) && f.alias != "" && "*" !in path.parts
    ensures var own := names.(alias := f.alias);
      PredicateOk(Present(path), own) && PredicateOk(Not(Present(path)), own) && ValueOk(Ref(path, None), own)
  {
  }

  /** Outside the fan-out the name is no root. */
  predicate Foreign(env: Env, name: string) {
    name !in CLOSED_ROOTS && env.alias == ""
  }

  lemma {:induction false} AskingFails(lib: Lib, env: Env, p: Predicate, name: string)
    requires AsksFirst(p, name) && Foreign(env, name)
    ensures EvalPredicate(lib, env, p).Err?
    decreases p
  {
    match p {
      case Not(q) => AskingFails(lib, env, q, name);
      case And(all) => AskingFails(lib, env, all[0], name);
      case Or(any) => AskingFails(lib, env, any[0], name);
      case _ =>
    }
  }

  lemma {:induction false} ReadingFails(lib: Lib, env: Env, v: Value, name: string)
    requires ReadsFirst(v, name) && Foreign(env, name)
    ensures EvalValue(lib, env, v).Err?
    decreases v
  {
    if v.Slice? {
      ReadingFails(lib, env, v.operand, name);
    }
  }

  /** A gate that asks for the step's own alias aborts the iteration. */
  lemma GateOnOwnAliasFails(w: World, doc: Doc, se: Session, i: nat, chain: Chain)
    requires i < |doc.requests| && doc.requests[i].gate.Some? && doc.requests[i].fanOut.Some?
    requires var name := doc.requests[i].fanOut.value.alias;
      AsksFirst(doc.requests[i].gate.value, name) && Foreign(se.env, name)
    ensures StepDone(w, doc, se, i, chain) == (Unbound(se), EndWith(Aborted))
  {
    AskingFails(w.lib, Unbound(se).env, doc.requests[i].gate.value, doc.requests[i].fanOut.value.alias);
  }

  /** Items read off the step's own alias abort the iteration whenever the gate lets the step run. */
  lemma ItemsOfOwnAliasFail(w: World, doc: Doc, se: Session, i: nat, chain: Chain)
    requires i < |doc.requests| && doc.requests[i].fanOut.Some?
    requires var f := doc.requests[i].fanOut.value; ReadsFirst(f.over, f.alias) && Foreign(se.env, f.alias)
    ensures var skips := doc.requests[i].gate.Some?
        && EvalPredicate(w.lib, Unbound(se).env, doc.requests[i].gate.value) == Ok(false);
      StepDone(w, doc, se, i, chain) == (Unbound(se), if skips then Next(chain) else EndWith(Aborted))
  {
    var f := doc.requests[i].fanOut.value;
    ReadingFails(w.lib, Unbound(se).env, f.over, f.alias);
    assert FannedOut(w, doc, Unbound(se), i, doc.requests[i], f) == (Unbound(se), FanFatal);
  }

  /** The step needs its own alias whenever it is reached. */
  predicate NeedsOwnAlias(req: Request) {
    && req.fanOut.Some?
    && var f := req.fanOut.value;
       && f.alias !in CLOSED_ROOTS
       && match req.gate case Some(p) => AsksFirst(p, f.alias) case None => ReadsFirst(f.over, f.alias)
  }

  predicate Stopped(link: Link) {
    link in {EndWith(Aborted), EndWith(Broke), EndWith(Invalidated), EndWith(Warned)}
  }

  lemma StepEnds(w: World, doc: Doc, se: Session, i: nat, chain: Chain)
    requires i < |doc.requests|
    ensures var link := StepDone(w, doc, se, i, chain).1; link.Next? || Stopped(link)
  {
  }

  lemma StepStops(w: World, doc: Doc, se: Session, k: nat, chain: Chain)
    requires k < |doc.requests| && NeedsOwnAlias(doc.requests[k]) && se.env.alias == ""
    ensures Stopped(StepDone(w, doc, se, k, chain).1)
  {
    if doc.requests[k].gate.Some? {
      GateOnOwnAliasFails(w, doc, se, k, chain);
    } else {
      ItemsOfOwnAliasFail(w, doc, se, k, chain);
    }
  }

  /** Every step leaves no alias behind, and stops the chain when it ends it; the k-th step always does. */
  ghost predicate Stopping(step: Stepper, k: nat) {
    forall a: Session, i: nat, chain: Chain | a.env.alias == "" ::
      && step(a, i, chain).0.env.alias == ""
      && (step(a, i, chain).1.EndWith? || i == k ==> Stopped(step(a, i, chain).1))
  }

  lemma {:induction false} FoldedStops(step: Stepper, n: nat, se: Session, i: nat, chain: Chain, k: nat)
    requires Stopping(step, k) && i <= k < n && se.env.alias == ""
    ensures Stopped(Folded(step, n, se, i, chain).1)
    decreases k - i
  {
    var (after, link) := step(se, i, chain);
    assert step(se, i, chain).0.env.alias == "";
    if link.Next? {
      FoldedStops(step, n, after, i + 1, link.chain, k);
    }
  }

  lemma ChainStops(w: World, doc: Doc, se: Session, chain: Chain, k: nat)
    requires k < |doc.requests| && NeedsOwnAlias(doc.requests[k]) && se.env.alias == ""
    ensures Stopped(ChainDone(w, doc, se, 0, chain).1)
  {
    var step := StepperOf(w, doc);
    forall a: Session, i: nat, c: Chain | a.env.alias == ""
      ensures step(a, i, c).0.env.alias == ""
      ensures step(a, i, c).1.EndWith? || i == k ==> Stopped(step(a, i, c).1)
    {
      if i < |doc.requests| {
        StepKeepsAlias(w, doc, a, i, c);
        StepEnds(w, doc, a, i, c);
        if i == k {
          StepStops(w, doc, a, k, c);
        }
      }
    }
    ChainIsFolded(w, doc, se, 0, chain);
    FoldedStops(step, |doc.requests|, se, 0, chain, k);
  }

  /** Nothing was delivered and no progress fired. */
  predicate Quiet(page: Page) {
    page.after.env.alias == "" && page.events == [] && !page.progressed
  }

  lemma PageIsQuiet(w: World, doc: Doc, se: Session, sunk: seq<Rt>, k: nat)
    requires k < |doc.requests| && NeedsOwnAlias(doc.requests[k]) && se.env.alias == ""
    ensures Quiet(PageDone(w, doc, se, sunk))
  {
    PageParts(w, doc, se, sunk);
    IterationKeepsAlias(w, doc, IterationStart(se));
    ChainStops(w, doc, IterationStart(se), Chain(Accepted, Nil, map[], false), k);
    PageObeysVerdict(w, doc, se, sunk);
    PageOffers(w, doc, se, sunk);
  }

  lemma {:induction false} RunsStayQuiet(pager: Pager, cap: int, se: Session, pages: nat, sunk: seq<Rt>)
    requires Winding(pager) && se.env.alias == ""
    requires forall b: Session, s: seq<Rt> :: b.env.alias == "" ==> Quiet(pager(b, s))
    ensures forall page | page in Looped(pager, cap, se, pages, sunk).ledger :: Quiet(page)
    decreases se.checks
  {
    var a := Attempted(pager, cap, se, pages, sunk);
    if a.done != [] {
      assert Quiet(pager(se.(checks := se.checks - 1), sunk));
      if a.out.None? {
        RunsStayQuiet(pager, cap, a.after, pages + 1, a.sunk);
      }
    }
  }

  lemma {:induction false} QuietLedger(ledger: seq<Page>)
    requires forall page | page in ledger :: Quiet(page)
    ensures LedgerEvents(ledger) == []
  {
    if ledger != [] {
      assert Quiet(ledger[0]) && forall page | page in ledger[1..] :: page in ledger;
      QuietLedger(ledger[1..]);
    }
  }

  /** A document with such a step anywhere in its chain never delivers an event and never makes progress, on
      no server. */
  lemma OwnAliasBlocksDrains(w: World, doc: Doc, cap: int, se: Session, k: nat)
    requires k < |doc.requests| && NeedsOwnAlias(doc.requests[k]) && se.env.alias == ""
    ensures var r := PageLoop(w, doc, cap, se);
      r.sunk == [] && forall page | page in r.ledger :: !page.progressed
  {
    PagesWind(w, doc);
    var pager := PagerOf(w, doc);
    forall b: Session, s: seq<Rt> ensures b.env.alias == "" ==> Quiet(pager(b, s)) {
      if b.env.alias == "" {
        PageIsQuiet(w, doc, b, s, k);
      }
    }
    RunsStayQuiet(pager, cap, se, 0, []);
    SinkSeesAcceptedEvents(w, doc, cap, se);
    QuietLedger(PageLoop(w, doc, cap, se).ledger);
  }

  // ---- steps that do not mention their own alias ----

  predicate Avoids(v: Value, name: string)
    decreases v, 1
  {
    match v
    case Ref(path, default) => !RootedAt(path, name) && (default.Some? ==> Avoids(default.value, name))
    case Concat(parts) => AllAvoid(parts, name)
    case Select(branches, otherwise) => BranchesAvoid(branches, name) && Avoids(otherwise, name)
    case Format(_, inner) => Avoids(inner, name)
    case Base64(inner) => Avoids(inner, name)
    case List(elems) => AllAvoid(elems, name)
    case Object(fields) => forall k | k in fields :: Avoids(fields[k], name)
    case Arith(_, operands) => AllAvoid(operands, name)
    case Reduce(_, operand) => Avoids(operand, name)
    case Slice(operand, _, _) => Avoids(operand, name)
    case Regex(_, source, _, default) => Avoids(source, name) && (default.Some? ==> Avoids(default.value, name))
    case _ => true
  }

  predicate AllAvoid(vs: seq<Value>, name: string)
    decreases vs, 0
  {
    vs == [] || (Avoids(vs[0], name) && AllAvoid(vs[1..], name))
  }

  predicate BranchesAvoid(branches: seq<Branch>, name: string)
    decreases branches, 0
  {
    branches == [] || (BranchAvoids(branches[0], name) && BranchesAvoid(branches[1..], name))
  }

  predicate BranchAvoids(b: Branch, name: string)
    decreases b, 1
  {
    PredicateAvoids(b.when, name) && Avoids(b.value, name)
  }

  predicate PredicateAvoids(p: Predicate, name: string)
    decreases p, 1
  {
    match p
    case Compare(_, path, value) => !RootedAt(path, name) && Avoids(value, name)
    case Present(path) => !RootedAt(path, name)
    case And(all) => PredicatesAvoid(all, name)
    case Or(any) => PredicatesAvoid(any, name)
    case Not(q) => PredicateAvoids(q, name)
    case _ => true
  }

  predicate PredicatesAvoid(ps: seq<Predicate>, name: string)
    decreases ps, 0
  {
    ps == [] || (PredicateAvoids(ps[0], name) && PredicatesAvoid(ps[1..], name))
  }

  lemma PathOutside(path: Path, names: Names, name: string)
    requires name !in CLOSED_ROOTS && name != ""
    ensures PathOk(path, names.(alias := "")) <==> PathOk(path, names.(alias := name)) && !RootedAt(path, name)
  {
  }

  /** A value is acceptable outside the fan-out exactly when it is acceptable inside and does not mention the alias. */
  lemma {:induction false} ValueOutside(v: Value, names: Names, name: string)
    requires name !in CLOSED_ROOTS && name != ""
    ensures ValueOk(v, names.(alias := "")) <==> ValueOk(v, names.(alias := name)) && Avoids(v, name)
    decreases v, 1
  {
    match v
    case Ref(path, default) =>
      PathOutside(path, names, name);
      if default.Some? { ValueOutside(default.value, names, name); }
    case Concat(parts) => AllOutside(parts, names, name);
    case Select(branches, otherwise) =>
      BranchesOutside(branches, names, name);
      ValueOutside(otherwise, names, name);
    case Format(_, inner) => ValueOutside(inner, names, name);
    case Base64(inner) => ValueOutside(inner, names, name);
    case List(elems) => AllOutside(elems, names, name);
    case Object(fields) =>
      forall k | k in fields
        ensures ValueOk(fields[k], names.(alias := "")) <==>
          ValueOk(fields[k], names.(alias := name)) && Avoids(fields[k], name)
      {
        ValueOutside(fields[k], names, name);
      }
    case Arith(_, operands) => AllOutside(operands, names, name);
    case Reduce(_, operand) => ValueOutside(operand, names, name);
    case Slice(operand, _, _) => ValueOutside(operand, names, name);
    case Regex(_, source, _, default) =>
      ValueOutside(source, names, name);
      if default.Some? { ValueOutside(default.value, names, name); }
    case _ =>
  }

  lemma {:induction false} AllOutside(vs: seq<Value>, names: Names, name: string)
    requires name !in CLOSED_ROOTS && name != ""
    ensures AllValuesOk(vs, names.(alias := "")) <==> AllValuesOk(vs, names.(alias := name)) && AllAvoid(vs, name)
    decreases vs, 0
  {
    if vs != [] {
      ValueOutside(vs[0], names, name);
      AllOutside(vs[1..], names, name);
    }
  }

  lemma {:induction false} BranchesOutside(branches: seq<Branch>, names: Names, name: string)
    requires name !in CLOSED_ROOTS && name != ""
    ensures BranchesOk(branches, names.(alias := "")) <==>
      BranchesOk(branches, names.(alias := name)) && BranchesAvoid(branches, name)
    decreases branches, 0
  {
    if branches != [] {
      BranchOutside(branches[0], names, name);
      BranchesOutside(branches[1..], names, name);
    }
  }

  lemma {:induction false} BranchOutside(b: Branch, names: Names, name: string)
    requires name !in CLOSED_ROOTS && name != ""
    ensures BranchOk(b, names.(alias := "")) <==> BranchOk(b, names.(alias := name)) && BranchAvoids(b, name)
    decreases b, 1
  {
    PredicateOutside(b.when, names, name);
    ValueOutside(b.value, names, name);
  }

  /** The same for predicates. */
  lemma {:induction false} PredicateOutside(p: Predicate, names: Names, name: string)
    requires name !in CLOSED_ROOTS && name != ""
    ensures PredicateOk(p, names.(alias := "")) <==> PredicateOk(p, names.(alias := name)) && PredicateAvoids(p, name)
    decreases p, 1
  {
    match p
    case Compare(_, path, value) =>
      PathOutside(path, names, name);
      ValueOutside(value, names, name);
    case Present(path) => PathOutside(path, names, name);
    case And(all) => PredicatesOutside(all, names, name);
    case Or(any) => PredicatesOutside(any, names, name);
    case Not(q) => PredicateOutside(q, names, name);
    case _ =>
  }

  lemma {:induction false} PredicatesOutside(ps: seq<Predicate>, names: Names, name: string)
    requires name !in CLOSED_ROOTS && name != ""
    ensures PredicatesOk(ps, names.(alias := "")) <==>
      PredicatesOk(ps, names.(alias := name)) && PredicatesAvoid(ps, name)
    decreases ps, 0
  {
    if ps != [] {
      PredicateOutside(ps[0], names, name);
      PredicatesOutside(ps[1..], names, name);
    }
  }

  /** A gate of the total fragment, accepted with the step's alias in scope but not mentioning it, always decides
      before the alias is bound: the step is skipped or it fans out. */
  lemma GateWithoutAliasDecides(w: World, doc: Doc, se: Session, i: nat, chain: Chain, names: Names)
    requires i < |doc.requests| && doc.requests[i].gate.Some? && doc.requests[i].fanOut.Some?
    requires var name := doc.requests[i].fanOut.value.alias; var gate := doc.requests[i].gate.value;
      && name != "" && Foreign(se.env, name)
      && PredicateOk(gate, names.(alias := name)) && PredicateTotal(gate) && PredicateAvoids(gate, name)
    ensures var gate := EvalPredicate(w.lib, Unbound(se).env, doc.requests[i].gate.value);
      && gate.Ok?
      && StepDone(w, doc, se, i, chain) ==
           if gate.value then FanStepDone(w, doc, Unbound(se), i, chain, doc.requests[i].fanOut.value)
           else (Unbound(se), Next(chain))
  {
    var name, gate := doc.requests[i].fanOut.value.alias, doc.requests[i].gate.value;
    PredicateOutside(gate, names, name);
    AcceptedPredicatesEvaluate(w.lib, Unbound(se).env, gate, names.(alias := ""));
  }

  /** Likewise for the list of items. */
  lemma ItemsWithoutAliasEvaluate(lib: Lib, env: Env, f: FanOut, names: Names)
    requires f.alias != "" && Foreign(env, f.alias)
    requires ValueOk(f.over, names.(alias := f.alias)) && Total(f.over) && Avoids(f.over, f.alias)
    ensures EvalValue(lib, env, f.over).Ok?
    ensures FanOutItems(lib, env, f.over).None? <==>
      EvalValue(lib, env, f.over).value != Nil && !EvalValue(lib, env, f.over).value.Arr?
  {
    ValueOutside(f.over, names, f.alias);
    AcceptedValuesEvaluate(lib, env, f.over, names.(alias := ""));
  }
}
