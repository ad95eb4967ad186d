/** A fan-out is the ordered merge of its accepted items (client/fanout.go). */
module Merging {
  import opened Syntax
  import opened Runtime
  import opened Session
  import opened Requests
  import opened FanOuts
  import opened Frames

  /** Only the last verdict can end the loop, and without such an end every item has a verdict. */
  lemma {:induction false} ItemsDoneShape(w: World, doc: Doc, se: Session, step: nat, req: Request, items: seq<Rt>)
    ensures var verdicts := ItemsDone(w, doc, se, step, req, items).1;
      && |verdicts| <= |items|
      && (forall i | 0 <= i < |verdicts| - 1 :: !verdicts[i].Ends())
      && ((verdicts == [] || !verdicts[|verdicts| - 1].Ends()) ==> |verdicts| == |items|)
    decreases |items|
  {
    if items != [] {
      var (after, _) := ItemDone(w, doc, WithItem(se, items[0]), step, req);
      ItemsDoneShape(w, doc, after, step, req, items[1..]);
    }
  }

  lemma ItemKeepsAlias(w: World, doc: Doc, se: Session, step: nat, req: Request)
    ensures ItemDone(w, doc, se, step, req).0.env.alias == se.env.alias
  {
    ExecutedOnlyCache(w, se, step, req, doc.auth);
    var (after, ex) := Executed(w, se, step, req, doc.auth);
    if ex.Got? {
      ExtractedKeepsAlias(w.lib, after.env, ex.body, ex.headers, req.extract);
    }
  }

  /** The i-th verdict is what one run of the step made of the i-th item, with that item bound under the
      alias, wherever the previous item left the session. */
  lemma {:induction false} VerdictOfItem(w: World, doc: Doc, se: Session, step: nat, req: Request, items: seq<Rt>,
                                         i: nat)
    returns (before: Session)
    requires i < |ItemsDone(w, doc, se, step, req, items).1|
    ensures i < |items| && before.env.item == items[i] && before.env.alias == se.env.alias
    ensures ItemDone(w, doc, before, step, req).1 == ItemsDone(w, doc, se, step, req, items).1[i]
    decreases i
  {
    before := WithItem(se, items[0]);
    if i > 0 {
      var (after, verdict) := ItemDone(w, doc, before, step, req);
      ItemKeepsAlias(w, doc, before, step, req);
      before := VerdictOfItem(w, doc, after, step, req, items[1..], i - 1);
    }
  }

  // ---- the bodies that are merged ----

  /** The positions of the kept items, in order. */
  function KeptAt(verdicts: seq<ItemVerdict>): seq<nat> {
    if verdicts == [] then []
    else
      var init, last := verdicts[..|verdicts| - 1], verdicts[|verdicts| - 1];
      KeptAt(init) + if last.Keep? then [|init|] else []
  }

  /** These are exactly the positions that were kept, each once and in increasing order. */
  lemma {:induction false} KeptAtMeaning(verdicts: seq<ItemVerdict>)
    ensures forall p | p in KeptAt(verdicts) :: p < |verdicts| && verdicts[p].Keep?
    ensures forall p | 0 <= p < |verdicts| && verdicts[p].Keep? :: p in KeptAt(verdicts)
    ensures forall a, b | 0 <= a < b < |KeptAt(verdicts)| :: KeptAt(verdicts)[a] < KeptAt(verdicts)[b]
    decreases |verdicts|
  {
    if verdicts != [] {
      var init, last := verdicts[..|verdicts| - 1], verdicts[|verdicts| - 1];
      KeptAtMeaning(init);
      var kept := KeptAt(init);
      assert KeptAt(verdicts) == kept + if last.Keep? then [|init|] else [];
      forall p | 0 <= p < |verdicts| && verdicts[p].Keep? ensures p in KeptAt(verdicts) {
        if p < |init| {
          assert init[p].Keep? && p in kept;
        }
      }
      assert forall a | 0 <= a < |kept| :: kept[a] in kept;
    }
  }

  /** The merged bodies are those of the kept positions. */
  lemma {:induction false} KeptBodiesAt(verdicts: seq<ItemVerdict>)
    ensures |KeptBodies(verdicts)| == |KeptAt(verdicts)|
    ensures forall k | 0 <= k < |KeptAt(verdicts)| ::
      KeptAt(verdicts)[k] < |verdicts| && verdicts[KeptAt(verdicts)[k]].Keep?
      && KeptBodies(verdicts)[k] == verdicts[KeptAt(verdicts)[k]].body
    decreases |verdicts|
  {
    if verdicts != [] {
      var init, last := verdicts[..|verdicts| - 1], verdicts[|verdicts| - 1];
      assert verdicts == init + [last];
      KeptBodiesAt(init);
      KeptBodiesSplit(init, last);
    }
  }

  /** Flattening fails exactly when some body is not a list. */
  lemma {:induction false} FlattensLists(bodies: seq<Rt>)
    ensures Flattened(bodies).Ok? <==> forall b | b in bodies :: b.Arr?
    decreases |bodies|
  {
    if bodies != [] {
      FlattensLists(bodies[1..]);
      assert forall b | b in bodies :: b == bodies[0] || b in bodies[1..];
    }
  }

  /** The elements of each body follow those of the bodies before it. */
  lemma {:induction false} FlattenedAt(bodies: seq<Rt>, i: nat)
    requires i < |bodies| && Flattened(bodies).Ok?
    ensures Flattened(bodies[..i]).Ok? && bodies[i].Arr?
    ensures Flattened(bodies[..i]).value + bodies[i].elems <= Flattened(bodies).value
    decreases |bodies|
  {
    if i == 0 {
      assert bodies[..0] == [];
    } else {
      var tail := bodies[1..];
      FlattenedAt(tail, i - 1);
      assert bodies[..i][1..] == tail[..i - 1];
      Prefixed(bodies[0].elems, Flattened(tail[..i - 1]).value, bodies[i].elems, Flattened(tail).value);
    }
  }

  lemma Prefixed(head: seq<Rt>, a: seq<Rt>, b: seq<Rt>, whole: seq<Rt>)
    requires a + b <= whole
    ensures head + a + b <= head + whole
  {
  }

  predicate Mergeable(mode: Merge, bodies: seq<Rt>) {
    mode == Wrap || forall b | b in bodies :: b.Arr?
  }

  /** The body kept at a position, and its elements. */
  function BodyAt(verdicts: seq<ItemVerdict>, i: nat): Rt {
    if i < |verdicts| && verdicts[i].Keep? then verdicts[i].body else Nil
  }

  function ElementsAt(verdicts: seq<ItemVerdict>, i: nat): seq<Rt> {
    var body := BodyAt(verdicts, i);
    if body.Arr? then body.elems else []
  }

  /** How many elements the first n kept bodies have together. */
  function LengthOf(verdicts: seq<ItemVerdict>, kept: seq<nat>, n: nat): nat
    requires n <= |kept|
  {
    if n == 0 then 0 else LengthOf(verdicts, kept, n - 1) + |ElementsAt(verdicts, kept[n - 1])|
  }

  /** The n-th kept body starts where those before it end. */
  predicate LiesAt(verdicts: seq<ItemVerdict>, kept: seq<nat>, elems: seq<Rt>, n: nat)
    requires n < |kept|
  {
    var from, part := LengthOf(verdicts, kept, n), ElementsAt(verdicts, kept[n]);
    from + |part| <= |elems| && elems[from..from + |part|] == part
  }

  /** Wrapping lists the kept bodies themselves, flattening lays out their elements one body after the other. */
  predicate LaidOut(verdicts: seq<ItemVerdict>, mode: Merge, body: Rt) {
    var kept := KeptAt(verdicts);
    && body.Arr?
    && match mode
       case Wrap =>
         |body.elems| == |kept| && forall n | 0 <= n < |kept| :: body.elems[n] == BodyAt(verdicts, kept[n])
       case Flatten =>
         && |body.elems| == LengthOf(verdicts, kept, |kept|)
         && forall n | 0 <= n < |kept| :: LiesAt(verdicts, kept, body.elems, n)
  }

  lemma {:induction false} FlattenedLength(verdicts: seq<ItemVerdict>, n: nat)
    requires n <= |KeptBodies(verdicts)| && Flattened(KeptBodies(verdicts)).Ok?
    ensures n <= |KeptAt(verdicts)| && Flattened(KeptBodies(verdicts)[..n]).Ok?
    ensures |Flattened(KeptBodies(verdicts)[..n]).value| == LengthOf(verdicts, KeptAt(verdicts), n)
    decreases n
  {
    var bodies := KeptBodies(verdicts);
    KeptBodiesAt(verdicts);
    if n > 0 {
      FlattenedLength(verdicts, n - 1);
      FlattenedAt(bodies, n - 1);
      FlattenedNext(bodies, n - 1);
    }
  }

  lemma {:induction false} FlattenedNext(bodies: seq<Rt>, i: nat)
    requires i < |bodies| && Flattened(bodies[..i]).Ok? && bodies[i].Arr?
    ensures Flattened(bodies[..i + 1]) == Ok(Flattened(bodies[..i]).value + bodies[i].elems)
    decreases i
  {
    if i == 0 {
      assert bodies[..1] == [bodies[0]] && [bodies[0]][1..] == [] && bodies[..0] == [];
      assert bodies[0].elems + [] == [] + bodies[0].elems;
    } else {
      var tail := bodies[1..];
      assert bodies[..i][1..] == tail[..i - 1] && bodies[..i + 1][1..] == tail[..i];
      FlattenedNext(tail, i - 1);
      Regroup(bodies[0].elems, Flattened(tail[..i - 1]).value, bodies[i].elems);
    }
  }

  lemma Regroup(a: seq<Rt>, b: seq<Rt>, c: seq<Rt>)
    ensures a + (b + c) == a + b + c
  {
  }

  /** What merging the kept bodies gives is laid out that way. */
  lemma MergedIsLaidOut(verdicts: seq<ItemVerdict>, mode: Merge)
    requires MergedBodies(mode, KeptBodies(verdicts)).Ok?
    ensures LaidOut(verdicts, mode, MergedBodies(mode, KeptBodies(verdicts)).value)
  {
    var bodies, kept := KeptBodies(verdicts), KeptAt(verdicts);
    KeptBodiesAt(verdicts);
    if mode == Flatten {
      var elems := Flattened(bodies).value;
      assert bodies[..|bodies|] == bodies;
      FlattenedLength(verdicts, |bodies|);
      forall n | 0 <= n < |kept| ensures LiesAt(verdicts, kept, elems, n) {
        FlattenedLength(verdicts, n);
        FlattenedAt(bodies, n);
        PartAt(Flattened(bodies[..n]).value, bodies[n].elems, elems);
      }
    }
  }

  lemma PartAt(front: seq<Rt>, part: seq<Rt>, whole: seq<Rt>)
    requires front + part <= whole
    ensures whole[|front|..|front| + |part|] == part
  {
    assert (front + part)[|front|..] == part;
  }

  /** The headers are those of the last kept item. */
  lemma {:induction false} HeadersOfLast(verdicts: seq<ItemVerdict>)
    ensures var kept := KeptAt(verdicts);
      if kept == [] then LastHeaders(verdicts) == None
      else
        var last := kept[|kept| - 1];
        last < |verdicts| && verdicts[last].Keep? && LastHeaders(verdicts) == Some(verdicts[last].headers)
    decreases |verdicts|
  {
    if verdicts != [] {
      HeadersOfLast(verdicts[..|verdicts| - 1]);
    }
  }

  /** The ways out of a fan-out over `n` items. It merges exactly when every item was run and none ended the
      loop; an invalidation counts only when the bodies before it merge. */
  predicate Ending(verdicts: seq<ItemVerdict>, n: nat, mode: Merge, result: FanResult) {
    var bodies, kept := KeptBodies(verdicts), KeptAt(verdicts);
    && (result.Merged? <==> |verdicts| == n && (forall v | v in verdicts :: !v.Ends()) && Mergeable(mode, bodies))
    && (result.FanInvalidated? <==> verdicts != [] && verdicts[|verdicts| - 1].EndInvalid? && Mergeable(mode, bodies))
    && (result.FanBreak? <==> verdicts != [] && verdicts[|verdicts| - 1].EndBreak?)
    && (result.Merged? ==> LaidOut(verdicts, mode, result.body))
    && (result.Merged? ==> (result.headers == None <==> kept == []))
    && (result.Merged? && kept != [] ==>
          var last := kept[|kept| - 1];
          last < |verdicts| && verdicts[last].Keep? && result.headers == Some(verdicts[last].headers))
  }

  lemma VerdictsEnd(verdicts: seq<ItemVerdict>, n: nat, mode: Merge)
    requires |verdicts| <= n && forall i | 0 <= i < |verdicts| - 1 :: !verdicts[i].Ends()
    requires verdicts == [] || !verdicts[|verdicts| - 1].Ends() ==> |verdicts| == n
    ensures Ending(verdicts, n, mode, FanEnd(verdicts, mode))
  {
    FlattensLists(KeptBodies(verdicts));
    HeadersOfLast(verdicts);
    if MergedBodies(mode, KeptBodies(verdicts)).Ok? {
      MergedIsLaidOut(verdicts, mode);
    }
    if verdicts != [] {
      var last := verdicts[|verdicts| - 1];
      assert last in verdicts;
      assert forall v | v in verdicts :: v == last || !v.Ends();
    }
  }

  /** A fan-out runs its items in order under its alias and ends as their verdicts say, with the item and the
      alias restored on every way out. */
  lemma FanOutMergesInOrder(w: World, doc: Doc, se: Session, step: nat, req: Request, f: FanOut, items: seq<Rt>)
    requires FanOutItems(w.lib, se.env, f.over) == Some(items)
    ensures var verdicts := ItemsDone(w, doc, se.(env := se.env.(alias := f.alias)), step, req, items).1;
      var (after, result) := FannedOut(w, doc, se, step, req, f);
      Ending(verdicts, |items|, f.merge, result) && after.env.item == se.env.item && after.env.alias == se.env.alias
  {
    var start := se.(env := se.env.(alias := f.alias));
    ItemsDoneShape(w, doc, start, step, req, items);
    VerdictsEnd(ItemsDone(w, doc, start, step, req, items).1, |items|, f.merge);
  }
}
