/** Running one step once per item and merging the bodies (client/fanout.go). */
module FanOuts {
  import opened Syntax
  import opened Runtime
  import opened Scopes
  import opened Eval
  import opened Session
  import opened Writes
  import opened Caching
  import opened Requests

  /** What became of one item: kept, dropped, or the end of the loop. */
  datatype ItemVerdict = Keep(body: Rt, headers: Headers) | Dropped | EndInvalid | EndBreak | EndFatal {
    predicate Ends() {
      EndInvalid? || EndBreak? || EndFatal?
    }
  }

  datatype FanResult = Merged(body: Rt, headers: Option<Headers>) | FanInvalidated | FanBreak | FanFatal

  function ItemByMode(mode: ErrorMode): ItemVerdict {
    match mode case Standard => EndBreak case WarnMode => Dropped case FailMode => EndFatal
  }

  /** Unlike a single request, an invalidation ends the fan-out even when no slot was cleared. */
  function ItemDispatched(doc: Doc, se: Session, req: Request, ex: Exchange): (r: (Session, ItemVerdict))
    requires !ex.Got?
    ensures r.0.checks == se.checks
  {
    if ex.Failed? || ex.status !in req.onStatus then (se, ItemByMode(doc.errorMode))
    else match req.onStatus[ex.status]
      case Skip => (se, Dropped)
      case EmptyEvents => (se, Dropped)
      case Fail => (se, EndFatal)
      case InvalidateCache => (Invalidate(se, doc), EndInvalid)
  }

  function ItemDone(w: World, doc: Doc, se: Session, step: nat, req: Request): (r: (Session, ItemVerdict))
    ensures r.0.checks == se.checks
  {
    var (after, ex) := Executed(w, se, step, req, doc.auth);
    if !ex.Got? then ItemDispatched(doc, after, req, ex)
    else
      var (env, ok) := Extracted(w.lib, after.env, ex.body, ex.headers, req.extract);
      (after.(env := env), if ok then Keep(ex.body, ex.headers) else EndFatal)
  }

  function WithItem(se: Session, item: Rt): Session {
    se.(env := se.env.(item := item))
  }

  /** The items in order, up to the first one that ends the loop. */
  function ItemsDone(w: World, doc: Doc, se: Session, step: nat, req: Request, items: seq<Rt>)
    : (r: (Session, seq<ItemVerdict>))
    ensures r.0.checks == se.checks
    decreases |items|
  {
    if items == [] then (se, [])
    else
      var (after, verdict) := ItemDone(w, doc, WithItem(se, items[0]), step, req);
      if verdict.Ends() then (after, [verdict])
      else
        var (end, rest) := ItemsDone(w, doc, after, step, req, items[1..]);
        (end, [verdict] + rest)
  }

  /** The bodies of exactly the items that were not dropped, in item order. */
  function KeptBodies(verdicts: seq<ItemVerdict>): seq<Rt> {
    if verdicts == [] then []
    else KeptBody(verdicts[0]) + KeptBodies(verdicts[1..])
  }

  function LastHeaders(verdicts: seq<ItemVerdict>): Option<Headers> {
    if verdicts == [] then None
    else if verdicts[|verdicts| - 1].Keep? then Some(verdicts[|verdicts| - 1].headers)
    else LastHeaders(verdicts[..|verdicts| - 1])
  }

  /** Concatenation of lists; a body that is not a list is an error. */
  function Flattened(bodies: seq<Rt>): Result<seq<Rt>> {
    if bodies == [] then Ok([])
    else if !bodies[0].Arr? then Err
    else match Flattened(bodies[1..]) case Err => Err case Ok(rest) => Ok(bodies[0].elems + rest)
  }

  function MergedBodies(mode: Merge, bodies: seq<Rt>): Result<Rt> {
    match mode
    case Wrap => Ok(Arr(bodies))
    case Flatten => match Flattened(bodies) case Err => Err case Ok(list) => Ok(Arr(list))
  }

  /** coerceFanOutList: nil means no items. */
  function FanOutItems(lib: Lib, env: Env, over: Value): Option<seq<Rt>> {
    match EvalValue(lib, env, over)
    case Ok(Nil) => Some([])
    case Ok(Arr(items)) => Some(items)
    case _ => None
  }

  function FanEnd(verdicts: seq<ItemVerdict>, mode: Merge): FanResult {
    var last := if verdicts == [] then Dropped else verdicts[|verdicts| - 1];
    if last.EndBreak? then FanBreak
    else if last.EndFatal? then FanFatal
    else match MergedBodies(mode, KeptBodies(verdicts))
      case Err => FanFatal
      case Ok(body) => if last.EndInvalid? then FanInvalidated else Merged(body, LastHeaders(verdicts))
  }

  /** runFanOut: the previous item and alias are back in place afterwards. */
  function FannedOut(w: World, doc: Doc, se: Session, step: nat, req: Request, f: FanOut): (r: (Session, FanResult))
    ensures r.0.checks == se.checks
    ensures r.0.env.item == se.env.item && r.0.env.alias == se.env.alias
  {
    match FanOutItems(w.lib, se.env, f.over)
    case None => (se, FanFatal)
    case Some(items) =>
      var (end, verdicts) := ItemsDone(w, doc, se.(env := se.env.(alias := f.alias)), step, req, items);
      (end.(env := end.env.(item := se.env.item, alias := se.env.alias)), FanEnd(verdicts, f.merge))
  }

  method MergeBodies(mode: Merge, bodies: seq<Rt>) returns (r: Result<Rt>)
    ensures r == MergedBodies(mode, bodies)
  {
    if mode == Wrap {
      return Ok(Arr(bodies));
    }
    var out: seq<Rt> := [];
    assert forall list: seq<Rt> :: [] + list == list;
    for i := 0 to |bodies|
      invariant Flattened(bodies) == Onto(out, Flattened(bodies[i..]))
    {
      if !bodies[i].Arr? {
        return Err;
      }
      ghost var rest := Flattened(bodies[i + 1..]);
      assert bodies[i..][1..] == bodies[i + 1..];
      assert rest.Ok? ==> out + (bodies[i].elems + rest.value) == out + bodies[i].elems + rest.value;
      out := out + bodies[i].elems;
    }
    assert out + [] == out;
    return Ok(Arr(out));
  }

  method DispatchItem(s: Scope, doc: Doc, req: Request, ex: Exchange) returns (verdict: ItemVerdict)
    requires !ex.Got?
    modifies s
    ensures ItemDispatched(doc, old(s.View()), req, ex) == (s.View(), verdict)
  {
    if ex.Rejected? && ex.status in req.onStatus {
      match req.onStatus[ex.status] {
        case Skip => return Dropped;
        case EmptyEvents => return Dropped;
        case Fail => return EndFatal;
        case InvalidateCache =>
          var cleared := DropReachableCaches(s, doc);
          return EndInvalid;
      }
    }
    return ItemByMode(doc.errorMode);
  }

  method RunItem(s: Scope, doc: Doc, step: nat, req: Request) returns (verdict: ItemVerdict)
    modifies s
    ensures ItemDone(s.world, doc, old(s.View()), step, req) == (s.View(), verdict)
  {
    var ex := ExecuteRequest(s, step, req, doc.auth);
    if !ex.Got? {
      verdict := DispatchItem(s, doc, req, ex);
      return;
    }
    var ok := RunExtracts(s, ex.body, ex.headers, req.extract);
    verdict := if ok then Keep(ex.body, ex.headers) else EndFatal;
  }

  method NextItem(s: Scope, doc: Doc, step: nat, req: Request, item: Rt) returns (verdict: ItemVerdict)
    modifies s
    ensures ItemDone(s.world, doc, WithItem(old(s.View()), item), step, req) == (s.View(), verdict)
  {
    s.item := item;
    verdict := RunItem(s, doc, step, req);
  }

  function KeptBody(v: ItemVerdict): seq<Rt> {
    if v.Keep? then [v.body] else []
  }

  lemma {:induction false} KeptBodiesSplit(a: seq<ItemVerdict>, v: ItemVerdict)
    ensures KeptBodies(a + [v]) == KeptBodies(a) + KeptBody(v)
  {
    if a == [] {
      assert a + [v] == [v] && [v][1..] == [];
    } else {
      KeptBodiesSplit(a[1..], v);
      assert (a + [v])[1..] == a[1..] + [v] && (a + [v])[0] == a[0];
      BodiesRegroup(KeptBody(a[0]), KeptBodies(a[1..]), KeptBody(v));
    }
  }

  lemma BodiesRegroup(a: seq<Rt>, b: seq<Rt>, c: seq<Rt>)
    ensures a + b + c == a + (b + c)
  {
  }

  /** The outcome of the loop, from the verdicts so far and the rest of the items. */
  ghost function LoopOutcome(w: World, doc: Doc, se: Session, step: nat, req: Request, items: seq<Rt>, i: nat,
                             verdicts: seq<ItemVerdict>, verdict: ItemVerdict): (Session, seq<ItemVerdict>)
    requires i <= |items|
  {
    if verdict.Ends() then (se, verdicts) else Continued(verdicts, ItemsDone(w, doc, se, step, req, items[i..]))
  }

  /** What the loop has collected from the verdicts so far. */
  ghost predicate Tally(verdicts: seq<ItemVerdict>, bodies: seq<Rt>, last: Option<Headers>, verdict: ItemVerdict) {
    && bodies == KeptBodies(verdicts) && last == LastHeaders(verdicts)
    && verdict == if verdicts == [] then Dropped else verdicts[|verdicts| - 1]
  }

  /** The item loop: the bodies kept so far, the last headers, and the verdict that ended it. */
  method RunItems(s: Scope, doc: Doc, step: nat, req: Request, items: seq<Rt>)
    returns (bodies: seq<Rt>, last: Option<Headers>, verdict: ItemVerdict, ghost verdicts: seq<ItemVerdict>)
    modifies s
    ensures ItemsDone(s.world, doc, old(s.View()), step, req, items) == (s.View(), verdicts)
    ensures Tally(verdicts, bodies, last, verdict)
  {
    bodies, last, verdict, verdicts := [], None, Dropped, [];
    ghost var whole := ItemsDone(s.world, doc, s.View(), step, req, items);
    var i := 0;
    LoopStarts(s.world, doc, s.View(), step, req, items);
    while i < |items| && !verdict.Ends()
      invariant 0 <= i <= |items|
      invariant Tally(verdicts, bodies, last, verdict)
      invariant whole == LoopOutcome(s.world, doc, s.View(), step, req, items, i, verdicts, verdict)
    {
      ghost var before, was := s.View(), verdict;
      verdict := NextItem(s, doc, step, req, items[i]);
      LoopStep(s.world, doc, before, step, req, items, i, verdicts, was, s.View(), verdict);
      VerdictJoins(verdicts, bodies, last, was, verdict);
      verdicts := verdicts + [verdict];
      if verdict.Keep? {
        bodies := bodies + [verdict.body];
        last := Some(verdict.headers);
      }
      i := i + 1;
    }
    LoopEnds(s.world, doc, s.View(), step, req, items, i, verdicts, verdict);
  }

  method RunFanOut(s: Scope, doc: Doc, step: nat, req: Request, f: FanOut) returns (r: FanResult)
    modifies s
    ensures FannedOut(s.world, doc, old(s.View()), step, req, f) == (s.View(), r)
  {
    var over := FanOutItems(s.world.lib, s.Current(), f.over);
    if over.None? {
      return FanFatal;
    }
    var prevItem, prevAlias := s.item, s.alias;
    s.alias := f.alias;
    var bodies, last, verdict, verdicts := RunItems(s, doc, step, req, over.value);
    s.item := prevItem;
    s.alias := prevAlias;
    if verdict.EndBreak? {
      return FanBreak;
    }
    if verdict.EndFatal? {
      return FanFatal;
    }
    var merged := MergeBodies(f.merge, bodies);
    if merged.Err? {
      return FanFatal;
    }
    return if verdict.EndInvalid? then FanInvalidated else Merged(merged.value, last);
  }

  ghost function Continued(head: seq<ItemVerdict>, tail: (Session, seq<ItemVerdict>)): (Session, seq<ItemVerdict>) {
    (tail.0, head + tail.1)
  }

  lemma LoopStarts(w: World, doc: Doc, se: Session, step: nat, req: Request, items: seq<Rt>)
    ensures ItemsDone(w, doc, se, step, req, items) == LoopOutcome(w, doc, se, step, req, items, 0, [], Dropped)
  {
    var r := ItemsDone(w, doc, se, step, req, items);
    assert items[0..] == items && [] + r.1 == r.1;
  }

  /** One more item of the loop, as the specification unfolds it. */
  lemma LoopStep(w: World, doc: Doc, se: Session, step: nat, req: Request, items: seq<Rt>, i: nat,
                 verdicts: seq<ItemVerdict>, was: ItemVerdict, after: Session, v: ItemVerdict)
    requires i < |items| && ItemDone(w, doc, WithItem(se, items[i]), step, req) == (after, v) && !was.Ends()
    ensures LoopOutcome(w, doc, se, step, req, items, i, verdicts, was) ==
      LoopOutcome(w, doc, after, step, req, items, i + 1, verdicts + [v], v)
  {
    assert items[i..][1..] == items[i + 1..] && items[i..][0] == items[i];
    if !v.Ends() {
      VerdictsRegroup(verdicts, [v], ItemsDone(w, doc, after, step, req, items[i + 1..]).1);
    }
  }

  lemma VerdictsRegroup(a: seq<ItemVerdict>, b: seq<ItemVerdict>, c: seq<ItemVerdict>)
    ensures a + b + c == a + (b + c)
  {
  }

  lemma LoopEnds(w: World, doc: Doc, se: Session, step: nat, req: Request, items: seq<Rt>, i: nat,
                 verdicts: seq<ItemVerdict>, verdict: ItemVerdict)
    requires i <= |items| && (i == |items| || verdict.Ends())
    ensures LoopOutcome(w, doc, se, step, req, items, i, verdicts, verdict) == (se, verdicts)
  {
    assert verdicts + [] == verdicts;
  }

  lemma VerdictJoins(verdicts: seq<ItemVerdict>, bodies: seq<Rt>, last: Option<Headers>, was: ItemVerdict,
                     v: ItemVerdict)
    requires Tally(verdicts, bodies, last, was)
    ensures Tally(verdicts + [v], if v.Keep? then bodies + [v.body] else bodies,
                  if v.Keep? then Some(v.headers) else last, v)
  {
    KeptBodiesSplit(verdicts, v);
    assert (verdicts + [v])[..|verdicts|] == verdicts;
  }
}
