/** Who may write which state field: the three lifetimes of the runtime, the validator's check that
    they do not overlap, and what a drain therefore leaves alone (client/state.go, schema/validate.go). */
module Lifetimes {
  import opened Syntax
  import opened Text
  import opened Scopes
  import opened Writes
  import opened Drains

  // ---- classification ----

  datatype Lifetime = OperatorConfig | PerDrainScratch | Persistent

  /** classifyStateField. */
  function Classify(doc: Doc, f: string): Option<Lifetime> {
    if f !in doc.state then None
    else if f in ScratchFields(doc) then Some(PerDrainScratch)
    else if f in PersistentFields(doc) then Some(Persistent)
    else Some(OperatorConfig)
  }

  // ---- the validator's check ----

  /** The destinations of a pagination block, in declaration order. */
  function PageSites(p: Pagination): seq<Path> {
    match p
    case NoPagination => []
    case CursorToken(_, to, _) => [to]
    case NextUrl(_, to, _, _, _) => [to]
    case Counter(to, _, _, _) => [to]
    case Custom(advance, _) => seq(|advance|, i requires 0 <= i < |advance| => advance[i].to)
  }

  predicate StateSiteOk(doc: Doc, to: Path) {
    !to.IsEmpty() && StateField(to).Some? && StateField(to).value in doc.state
  }

  predicate ExtractSiteOk(doc: Doc, to: Path) {
    && !to.IsEmpty()
    && match ExtractDest(to)
       case Some(ToState(f)) => f in doc.state
       case Some(ToExtract(name)) => name != ""
       case None => false
  }

  /** What checkLifetimes accepts: proper destinations everywhere, and no field with two lifetimes. */
  predicate LifetimesOk(doc: Doc) {
    && (forall i | 0 <= i < |PageSites(doc.pagination)| :: StateSiteOk(doc, PageSites(doc.pagination)[i]))
    && (forall w | w in doc.progress :: StateSiteOk(doc, w.to))
    && (forall r, ev | r in doc.requests && ev in r.extract :: ExtractSiteOk(doc, ev.to))
    && ScratchFields(doc) !! PersistentFields(doc)
  }

  /** The state fields among the first `n` destinations. */
  function SiteFields(doc: Doc, sites: seq<Path>, n: nat): set<string>
    requires n <= |sites|
  {
    set i | 0 <= i < n && StateSiteOk(doc, sites[i]) :: StateField(sites[i]).value
  }

  function FieldsAt(doc: Doc, to: Path): set<string> {
    if StateSiteOk(doc, to) then {StateField(to).value} else {}
  }

  lemma SiteFieldsStep(doc: Doc, sites: seq<Path>, i: nat)
    requires i < |sites|
    ensures SiteFields(doc, sites, i + 1) == SiteFields(doc, sites, i) + FieldsAt(doc, sites[i])
  {
  }

  function ExtractSites(vars: seq<Extract>): seq<Path> {
    seq(|vars|, i requires 0 <= i < |vars| => vars[i].to)
  }

  function ProgressSites(writes: seq<Write>): seq<Path> {
    seq(|writes|, i requires 0 <= i < |writes| => writes[i].to)
  }

  /** checkLifetimes, with its findings and its two writer tables (field to first writer). */
  class LifetimeCheck {
    const doc: Doc
    var findings: nat
    var perDrain: map<string, string>
    var persistent: map<string, string>

    constructor (doc: Doc)
      ensures this.doc == doc && findings == 0 && perDrain == map[] && persistent == map[]
    {
      this.doc := doc;
      findings, perDrain, persistent := 0, map[], map[];
    }

    /** checkStateTo and noteTarget: only the first writer of a field is remembered. */
    method NoteStateSite(at: string, to: Path, isPersistent: bool)
      modifies this
      ensures findings == old(findings) + (if StateSiteOk(doc, to) then 0 else 1)
      ensures perDrain.Keys == old(perDrain).Keys + (if isPersistent then {} else FieldsAt(doc, to))
      ensures persistent.Keys == old(persistent).Keys + (if isPersistent then FieldsAt(doc, to) else {})
      ensures if isPersistent then perDrain == old(perDrain) else persistent == old(persistent)
    {
      if to.IsEmpty() || StateField(to).None? || StateField(to).value !in doc.state {
        findings := findings + 1;
        return;
      }
      var f := StateField(to).value;
      if isPersistent {
        if f !in persistent { persistent := persistent[f := at]; }
      } else {
        if f !in perDrain { perDrain := perDrain[f := at]; }
      }
    }

    method NoteScratchSites(sites: seq<Path>)
      modifies this
      ensures old(findings) <= findings && persistent == old(persistent)
      ensures findings == old(findings) <==> forall i | 0 <= i < |sites| :: StateSiteOk(doc, sites[i])
      ensures perDrain.Keys == old(perDrain).Keys + SiteFields(doc, sites, |sites|)
    {
      for i := 0 to |sites|
        invariant old(findings) <= findings && persistent == old(persistent)
        invariant findings == old(findings) <==> forall j | 0 <= j < i :: StateSiteOk(doc, sites[j])
        invariant perDrain.Keys == old(perDrain).Keys + SiteFields(doc, sites, i)
      {
        SiteFieldsStep(doc, sites, i);
        NoteStateSite("pagination[" + IntToString(i) + "].to", sites[i], false);
      }
    }

    method NoteProgressSites(sites: seq<Path>)
      modifies this
      ensures old(findings) <= findings && perDrain == old(perDrain)
      ensures findings == old(findings) <==> forall i | 0 <= i < |sites| :: StateSiteOk(doc, sites[i])
      ensures persistent.Keys == old(persistent).Keys + SiteFields(doc, sites, |sites|)
    {
      for i := 0 to |sites|
        invariant old(findings) <= findings && perDrain == old(perDrain)
        invariant findings == old(findings) <==> forall j | 0 <= j < i :: StateSiteOk(doc, sites[j])
        invariant persistent.Keys == old(persistent).Keys + SiteFields(doc, sites, i)
      {
        SiteFieldsStep(doc, sites, i);
        NoteStateSite("progress[" + IntToString(i) + "].to", sites[i], true);
      }
    }

    /** An extract may also go to a per-iteration name, which is not a state field. */
    method NoteExtract(at: string, to: Path)
      modifies this
      ensures findings == old(findings) + (if ExtractSiteOk(doc, to) then 0 else 1) && perDrain == old(perDrain)
      ensures persistent.Keys == old(persistent).Keys + FieldsAt(doc, to)
    {
      var dest := ExtractDest(to);
      if to.IsEmpty() || dest.None? {
        findings := findings + 1;
      } else if dest.value.ToState? {
        NoteStateSite(at, to, true);
      } else if dest.value.name == "" {
        findings := findings + 1;
      }
    }

    method NoteExtracts(at: string, vars: seq<Extract>)
      modifies this
      ensures old(findings) <= findings && perDrain == old(perDrain)
      ensures findings == old(findings) <==> ExtractsOk(doc, vars)
      ensures persistent.Keys == old(persistent).Keys + SiteFields(doc, ExtractSites(vars), |vars|)
    {
      for j := 0 to |vars|
        invariant old(findings) <= findings && perDrain == old(perDrain)
        invariant findings == old(findings) <==> forall k | 0 <= k < j :: ExtractSiteOk(doc, vars[k].to)
        invariant persistent.Keys == old(persistent).Keys + SiteFields(doc, ExtractSites(vars), j)
      {
        SiteFieldsStep(doc, ExtractSites(vars), j);
        NoteExtract(at + "[" + IntToString(j) + "].to", vars[j].to);
      }
    }

    method NoteRequests()
      modifies this
      ensures old(findings) <= findings && perDrain == old(perDrain)
      ensures findings == old(findings) <==> RequestsOk(doc, |doc.requests|)
      ensures persistent.Keys == old(persistent).Keys + RequestFields(doc, |doc.requests|)
    {
      for i := 0 to |doc.requests|
        invariant old(findings) <= findings && perDrain == old(perDrain)
        invariant findings == old(findings) <==> RequestsOk(doc, i)
        invariant persistent.Keys == old(persistent).Keys + RequestFields(doc, i)
      {
        NoteExtracts("requests[" + IntToString(i) + "].extract", doc.requests[i].extract);
      }
    }

    /** A field in both tables is a finding. */
    method NoteConflicts()
      modifies this`findings
      ensures old(findings) <= findings
      ensures findings == old(findings) <==> perDrain.Keys !! persistent.Keys
    {
      var pending := perDrain.Keys;
      while pending != {}
        invariant pending <= perDrain.Keys && old(findings) <= findings
        invariant findings == old(findings) <==> (perDrain.Keys - pending) !! persistent.Keys
        decreases |pending|
      {
        var f :| f in pending;
        assert perDrain.Keys - (pending - {f}) == (perDrain.Keys - pending) + {f};
        pending := pending - {f};
        if f in persistent {
          findings := findings + 1;
        }
      }
      assert perDrain.Keys - {} == perDrain.Keys;
    }

    method Run()
      requires findings == 0 && perDrain == map[] && persistent == map[]
      modifies this
      ensures findings == 0 <==> LifetimesOk(doc)
      ensures findings == 0 ==> perDrain.Keys == ScratchFields(doc) && persistent.Keys == PersistentFields(doc)
    {
      NoteScratchSites(PageSites(doc.pagination));
      NoteProgressSites(ProgressSites(doc.progress));
      NoteRequests();
      ghost var proper := findings == 0;
      NoteConflicts();
      SitesAreProper(doc);
    }
  }

  predicate ExtractsOk(doc: Doc, vars: seq<Extract>) {
    forall ev | ev in vars :: ExtractSiteOk(doc, ev.to)
  }

  predicate RequestsOk(doc: Doc, n: nat)
    requires n <= |doc.requests|
  {
    n == 0 || (RequestsOk(doc, n - 1) && ExtractsOk(doc, doc.requests[n - 1].extract))
  }

  function RequestFields(doc: Doc, n: nat): set<string>
    requires n <= |doc.requests|
  {
    if n == 0 then {}
    else
      var extract := doc.requests[n - 1].extract;
      RequestFields(doc, n - 1) + SiteFields(doc, ExtractSites(extract), |extract|)
  }

  /** On a document whose destinations are proper, the validator's tables are the runtime's sets. */
  lemma SitesAreProper(doc: Doc)
    ensures (forall i | 0 <= i < |PageSites(doc.pagination)| :: StateSiteOk(doc, PageSites(doc.pagination)[i]))
      ==> SiteFields(doc, PageSites(doc.pagination), |PageSites(doc.pagination)|) == ScratchFields(doc)
    ensures (forall i | 0 <= i < |ProgressSites(doc.progress)| :: StateSiteOk(doc, ProgressSites(doc.progress)[i]))
      <==> forall w | w in doc.progress :: StateSiteOk(doc, w.to)
    ensures (forall w | w in doc.progress :: StateSiteOk(doc, w.to))
      ==> SiteFields(doc, ProgressSites(doc.progress), |doc.progress|) == Targets(doc.progress)
    ensures RequestsOk(doc, |doc.requests|) <==>
      forall r, ev | r in doc.requests && ev in r.extract :: ExtractSiteOk(doc, ev.to)
    ensures RequestsOk(doc, |doc.requests|) ==> RequestFields(doc, |doc.requests|) == ExtractFields(doc)
  {
    PageSitesProper(doc);
    WriteSites(doc, doc.progress);
    RequestSitesProper(doc, |doc.requests|);
    assert forall i | 0 <= i < |doc.requests| :: doc.requests[i] in doc.requests;
    assert FirstExtractFields(doc, |doc.requests|) == ExtractFields(doc);
  }

  lemma PageSitesProper(doc: Doc)
    ensures (forall i | 0 <= i < |PageSites(doc.pagination)| :: StateSiteOk(doc, PageSites(doc.pagination)[i]))
      ==> SiteFields(doc, PageSites(doc.pagination), |PageSites(doc.pagination)|) == ScratchFields(doc)
  {
    var sites := PageSites(doc.pagination);
    if doc.pagination.Custom? {
      WriteSites(doc, doc.pagination.advance);
      assert sites == ProgressSites(doc.pagination.advance);
    } else if |sites| == 1 && StateSiteOk(doc, sites[0]) {
      SiteFieldsStep(doc, sites, 0);
      assert SiteFields(doc, sites, 0) == {};
    }
  }

  lemma WriteSites(doc: Doc, writes: seq<Write>)
    ensures (forall i | 0 <= i < |ProgressSites(writes)| :: StateSiteOk(doc, ProgressSites(writes)[i]))
      <==> forall w | w in writes :: StateSiteOk(doc, w.to)
    ensures (forall w | w in writes :: StateSiteOk(doc, w.to)) ==>
      SiteFields(doc, ProgressSites(writes), |writes|) == Targets(writes)
  {
    var sites := ProgressSites(writes);
    assert forall i | 0 <= i < |writes| :: sites[i] == writes[i].to && writes[i] in writes;
    if forall w | w in writes :: StateSiteOk(doc, w.to) {
      forall f | f in Targets(writes) ensures f in SiteFields(doc, sites, |writes|) {
        var i :| 0 <= i < |writes| && StateField(writes[i].to) == Some(f);
        assert StateSiteOk(doc, sites[i]);
      }
    }
  }

  /** The fields of the first n requests' extracts, as the runtime collects them. */
  function FirstExtractFields(doc: Doc, n: nat): set<string>
    requires n <= |doc.requests|
  {
    set i, f | 0 <= i < n && f in ExtractTargets(doc.requests[i].extract) :: f
  }

  lemma {:induction false} RequestSitesProper(doc: Doc, n: nat)
    requires n <= |doc.requests|
    ensures RequestsOk(doc, n) <==> forall i | 0 <= i < n :: ExtractsOk(doc, doc.requests[i].extract)
    ensures RequestsOk(doc, n) ==> RequestFields(doc, n) == FirstExtractFields(doc, n)
  {
    if n > 0 {
      RequestSitesProper(doc, n - 1);
      if ExtractsOk(doc, doc.requests[n - 1].extract) {
        ExtractSitesProper(doc, doc.requests[n - 1].extract);
      }
      assert FirstExtractFields(doc, n) == FirstExtractFields(doc, n - 1) + ExtractTargets(doc.requests[n - 1].extract);
    }
  }

  lemma ExtractSitesProper(doc: Doc, vars: seq<Extract>)
    requires ExtractsOk(doc, vars)
    ensures SiteFields(doc, ExtractSites(vars), |vars|) == ExtractTargets(vars)
  {
    var sites := ExtractSites(vars);
    assert forall i | 0 <= i < |vars| :: sites[i] == vars[i].to && vars[i] in vars;
    forall f | f in ExtractTargets(vars) ensures f in SiteFields(doc, sites, |vars|) {
      var i :| 0 <= i < |vars| && StateField(vars[i].to) == Some(f);
      assert StateSiteOk(doc, sites[i]);
    }
  }

  // ---- what the classes mean ----

  predicate PageWrites(doc: Doc, f: string) {
    exists i :: 0 <= i < |PageSites(doc.pagination)| && StateField(PageSites(doc.pagination)[i]) == Some(f)
  }

  predicate ProgressWrites(doc: Doc, f: string) {
    exists w :: w in doc.progress && StateField(w.to) == Some(f)
  }

  predicate ExtractWrites(doc: Doc, f: string) {
    exists r, ev :: r in doc.requests && ev in r.extract && ExtractDest(ev.to) == Some(ToState(f))
  }

  /** A declared field that the pagination writes is scratch; one that only the progress or an extract writes persists;
      one that nobody writes is the operator's. */
  lemma ClassesMeaning(doc: Doc, f: string)
    ensures Classify(doc, f).None? <==> f !in doc.state
    ensures Classify(doc, f) == Some(PerDrainScratch) <==> f in doc.state && PageWrites(doc, f)
    ensures Classify(doc, f) == Some(Persistent) <==>
      f in doc.state && !PageWrites(doc, f) && (ProgressWrites(doc, f) || ExtractWrites(doc, f))
  {
    ScratchIsWritten(doc, f);
    ExtractsWrite(doc, f);
  }

  lemma ScratchIsWritten(doc: Doc, f: string)
    ensures f in ScratchFields(doc) <==> PageWrites(doc, f)
  {
    var sites := PageSites(doc.pagination);
    match doc.pagination {
      case NoPagination =>
      case Custom(advance, _) =>
        assert forall i | 0 <= i < |advance| :: sites[i] == advance[i].to && advance[i] in advance;
      case CursorToken(_, to, _) => assert sites[0] == to;
      case NextUrl(_, to, _, _, _) => assert sites[0] == to;
      case Counter(to, _, _, _) => assert sites[0] == to;
    }
  }

  lemma ExtractsWrite(doc: Doc, f: string)
    ensures f in ExtractFields(doc) <==> ExtractWrites(doc, f)
  {
    assert forall ev: Extract :: StateField(ev.to) == Some(f) <==> ExtractDest(ev.to) == Some(ToState(f));
    assert forall r, ev | r in doc.requests && ev in r.extract && StateField(ev.to) == Some(f) ::
        f in ExtractTargets(r.extract);
  }
}
