/** What goes over the wire, how a request is authorised, and how long an answer is kept (client/http.go,
    client/auth.go, client/cache.go). */
module Exchanges {
  import opened Syntax
  import opened Text
  import opened Runtime
  import opened Scopes
  import opened Eval
  import opened Session
  import opened Caching
  import opened Requests

  // ---- the call ----

  /** The values all evaluate. */
  ghost predicate AllEvaluate(lib: Lib, env: Env, fields: map<string, Value>) {
    forall k | k in fields :: EvalValue(lib, env, fields[k]).Ok?
  }

  /** The texts of the values; where nil is skipped, a nil value has no entry at all. */
  ghost predicate TextsOf(lib: Lib, env: Env, fields: map<string, Value>, skipNil: bool, sent: map<string, string>)
    requires AllEvaluate(lib, env, fields)
  {
    && (forall k :: k in sent <==> k in fields && !(skipNil && EvalValue(lib, env, fields[k]).value == Nil))
    && (forall k | k in sent :: sent[k] == ToString(lib, EvalValue(lib, env, fields[k]).value))
  }

  /** A call is built exactly when every part evaluates and the text of the URL parses; it carries that URL, the
      query parameters that are not nil and all the headers, as texts. */
  lemma CallMeaning(lib: Lib, env: Env, step: nat, req: Request)
    ensures var call := BuildCall(lib, env, step, req); var url := EvalValue(lib, env, req.url);
      && (call.Ok? <==>
            && url.Ok? && lib.urlParses(ToString(lib, url.value))
            && AllEvaluate(lib, env, req.query) && AllEvaluate(lib, env, req.headers))
      && (call.Ok? ==>
            && call.value.Fetch? && call.value.step == step && call.value.url == ToString(lib, url.value)
            && TextsOf(lib, env, req.query, true, call.value.query)
            && TextsOf(lib, env, req.headers, false, call.value.headers))
  {
  }

  /** A token request carries the texts of its parameters in order, to a URL that must not be empty. */
  lemma TokenCallMeaning(lib: Lib, env: Env, grant: Grant, url: Rt, args: seq<Rt>)
    requires EvalAll(lib, env, [grant.tokenUrl] + grant.params) == Ok([url] + args)
    ensures ToString(lib, url) == "" ==> TokenCall(lib, env, grant).Err?
    ensures ToString(lib, url) != "" ==>
      && TokenCall(lib, env, grant).Ok?
      && var call := TokenCall(lib, env, grant).value;
         && call.Token? && call.url == ToString(lib, url) && |call.params| == |args|
         && forall i | 0 <= i < |args| :: call.params[i] == ToString(lib, args[i])
  {
    assert forall i | 0 <= i < |args| :: ([url] + args)[i + 1] == args[i];
  }

  // ---- credentials ----

  /** Static credentials must evaluate; a bearer token must not be nil either. Neither sends anything. */
  lemma CredentialsMeaning(w: World, se: Session, credentials: seq<Value>, token: Value)
    ensures AuthApplied(w, se, Plain(credentials)) == (se, EvalAll(w.lib, se.env, credentials).Ok?)
    ensures var (after, ok) := AuthApplied(w, se, Bearer(token));
      after == se && (ok <==> exists r :: EvalValue(w.lib, se.env, token) == Ok(r) && r != Nil)
  {
    var t := EvalValue(w.lib, se.env, token);
    assert t.Ok? ==> t == Ok(t.value);
  }

  /** The answer that carries a token: success, an object, and a token that is a text and not empty. */
  ghost predicate CarriesToken(reply: Reply, token: string) {
    && reply.Reply? && 200 <= reply.status <= 299
    && reply.body.Some? && reply.body.value.Obj?
    && "access_token" in reply.body.value.fields
    && reply.body.value.fields["access_token"] == Str(token) && token != ""
  }

  /** A cached token is usable when its slot answers with a text that is not empty. */
  lemma UsableToken(lib: Lib, env: Env, c: Cache)
    ensures CachedToken(lib, env, Some(c)) <==> exists t: string :: t != "" && CacheGet(lib, env, c) == Some(Str(t))
    ensures !CachedToken(lib, env, None)
  {
  }

  /** Without a usable cached token exactly one token request is sent, and the grant succeeds on an answer that
      carries a token and can be kept. */
  lemma GrantMeaning(w: World, se: Session, grant: Grant)
    requires !CachedToken(w.lib, se.env, grant.cache) && TokenCall(w.lib, se.env, grant).Ok?
    ensures var (after, ok) := Authorized(w, se, grant);
      && after.wire == se.wire + [TokenCall(w.lib, se.env, grant).value]
      && (ok ==> exists token :: CarriesToken(w.reply(after.wire), token))
      && (grant.cache.None? ==> (ok <==> exists token :: CarriesToken(w.reply(after.wire), token)))
      && (ok && grant.cache.Some? ==>
            && |after.stored| == |se.stored| + 1
            && CarriesToken(w.reply(after.wire), TokenText(after.stored[|se.stored|].value)))
  {
    var call := TokenCall(w.lib, se.env, grant).value;
    var sent := Exchanged(w, se, call);
    var reply := w.reply(sent.wire);
    match AccessToken(reply) {
      case None => assert forall token :: !CarriesToken(reply, token);
      case Some((token, body)) => assert CarriesToken(reply, token);
    }
  }

  /** A token that has a cache is kept in it, with the token response as the body its expiry reads; when it cannot be
      kept, the grant fails. */
  lemma TokenIsKept(w: World, se: Session, grant: Grant, c: Cache, token: string)
    requires !CachedToken(w.lib, se.env, grant.cache) && TokenCall(w.lib, se.env, grant).Ok? && grant.cache == Some(c)
    requires CarriesToken(w.reply(se.wire + [TokenCall(w.lib, se.env, grant).value]), token)
    ensures var sent := Exchanged(w, se, TokenCall(w.lib, se.env, grant).value);
      var kept := CacheStore(w.lib, sent, c, w.reply(sent.wire).body.value, Str(token));
      Authorized(w, se, grant) == if kept.Ok? then (kept.value, true) else (sent, false)
  {
  }

  function TokenText(v: Rt): string {
    if v.Str? then v.s else ""
  }

  /** The first branch whose predicate holds authorises, the default when none does; a failing predicate fails. */
  lemma {:induction false} BranchesMeaning(w: World, se: Session, branches: seq<AuthBranch>, otherwise: Auth, n: nat)
    requires n <= |branches| && forall i | 0 <= i < n :: EvalPredicate(w.lib, se.env, branches[i].when) == Ok(false)
    ensures n == |branches| ==>
      AuthApplied(w, se, MultiMode(branches, otherwise)) == AuthApplied(w, se, otherwise)
    ensures n < |branches| && EvalPredicate(w.lib, se.env, branches[n].when) == Ok(true) ==>
      AuthApplied(w, se, MultiMode(branches, otherwise)) == AuthApplied(w, se, branches[n].auth)
    ensures n < |branches| && EvalPredicate(w.lib, se.env, branches[n].when) == Err ==>
      AuthApplied(w, se, MultiMode(branches, otherwise)) == (se, false)
  {
    MatchMeaning(w, se, branches, n);
  }

  lemma {:induction false} MatchMeaning(w: World, se: Session, branches: seq<AuthBranch>, n: nat)
    requires n <= |branches| && forall i | 0 <= i < n :: EvalPredicate(w.lib, se.env, branches[i].when) == Ok(false)
    ensures n == |branches| ==> BranchApplied(w, se, branches) == None
    ensures n < |branches| && EvalPredicate(w.lib, se.env, branches[n].when) == Ok(true) ==>
      BranchApplied(w, se, branches) == Some(AuthApplied(w, se, branches[n].auth))
    ensures n < |branches| && EvalPredicate(w.lib, se.env, branches[n].when) == Err ==>
      BranchApplied(w, se, branches) == Some((se, false))
    decreases |branches|
  {
    if n > 0 {
      assert ArmApplied(w, se, branches[0]) == None;
      assert forall i | 0 <= i < n - 1 :: branches[1..][i] == branches[i + 1];
      MatchMeaning(w, se, branches[1..], n - 1);
    } else if branches != [] {
      assert ArmApplied(w, se, branches[0]) ==
        match EvalPredicate(w.lib, se.env, branches[0].when)
        case Err => Some((se, false))
        case Ok(holds) => if holds then Some(AuthApplied(w, se, branches[0].auth)) else None;
    }
  }

  /** A fresh slot answers on its own: nothing is sent, and the answer has no headers. */
  lemma HitSendsNothing(w: World, se: Session, step: nat, req: Request, auth: Auth, c: Cache)
    requires req.cache == Some(c) && CacheGet(w.lib, se.env, c).Some?
    ensures var (after, ex) := Executed(w, se, step, req, auth);
      && ex == Got(map[], CacheGet(w.lib, se.env, c).value)
      && after == se.(marks := after.marks) && |after.marks| == |se.marks| + 1
  {
  }

  /** Without its authorisation a request sends nothing of its own and fails; a request that cannot be built does not
      even ask for it. */
  lemma UnauthorisedFails(w: World, se: Session, step: nat, req: Request, auth: Auth)
    requires CacheHit(w.lib, se.env, req.cache).None?
    requires BuildCall(w.lib, se.env, step, req).Err? || !AuthApplied(w, se, auth).1
    ensures Executed(w, se, step, req, auth) ==
      (if BuildCall(w.lib, se.env, step, req).Err? then se else AuthApplied(w, se, auth).0, Failed)
  {
  }

  /** With it, the request is the next call, and what comes back is what the server answers to the whole history. */
  lemma AuthorisedSends(w: World, se: Session, step: nat, req: Request, auth: Auth)
    requires CacheHit(w.lib, se.env, req.cache).None? && AuthApplied(w, se, auth).1
    requires BuildCall(w.lib, se.env, step, req).Ok?
    ensures var ready := AuthApplied(w, se, auth).0;
      var sent := Exchanged(w, ready, BuildCall(w.lib, se.env, step, req).value);
      && sent.wire == ready.wire + [BuildCall(w.lib, se.env, step, req).value] && sent.env.now == w.clock(|sent.wire|)
      && Executed(w, se, step, req, auth) == Received(w, sent, req, w.reply(sent.wire))
  {
  }

  // ---- how long an answer is kept ----

  /** Spans count from now, whether durations or texts of them; times are the instants they name. */
  lemma SpansCountFromNow(lib: Lib, s: string, d: int, t: int, now: int)
    ensures CoerceExpiry(lib, Dur(d), now) == Some(now + d) && CoerceExpiry(lib, Time(t), now) == Some(t)
    ensures lib.parseDuration(s) == Some(d) ==> CoerceExpiry(lib, Str(s), now) == Some(now + d)
    ensures lib.parseDuration(s).None? && lib.parseTime(s) == Some(t) ==> CoerceExpiry(lib, Str(s), now) == Some(t)
    ensures lib.parseDuration(s).None? && lib.parseTime(s).None? && ParseInt(s).None? ==>
      CoerceExpiry(lib, Str(s), now) == None
    ensures CoerceExpiry(lib, Nil, now) == None && CoerceExpiry(lib, Bool(true), now) == None
  {
  }

  /** While the expiry is evaluated, `response.body` is the body being stored: an `expires_in` of n seconds in it
      makes the entry last n seconds from now. Afterwards the scope's own body is what it was. */
  lemma StoreReadsItsResponse(lib: Lib, se: Session, c: Cache, slot: string, bound: Rt, value: Rt, n: int)
    requires c.to == Path(["cache", slot], false) && se.env.alias == ""
    requires c.expiresAt == Ref(Path(["response", "body", "expires_in"], false), None)
    requires bound.Obj? && "expires_in" in bound.fields && bound.fields["expires_in"] == Int(n)
    requires InInt64(n * SECOND)
    ensures CacheStore(lib, se, c, bound, value).Ok?
    ensures var after := CacheStore(lib, se, c, bound, value).value;
      && after.stored == se.stored + [StoreRecord(slot, value, se.env.now + n * SECOND)]
      && after.env == se.env.(cache := after.env.cache)
  {
    var path := Path(["response", "body", "expires_in"], false);
    assert path.parts[1..] == ["body", "expires_in"] && path.parts[1..][1..] == ["expires_in"];
    assert ["expires_in"][1..] == [];
    assert LookupBody(bound, ["expires_in"]) == Some(Int(n));
    var env := se.env.(body := bound);
    assert Resolve(lib, env, path) == Ok(Some(Int(n)));
    assert EvalValue(lib, env, c.expiresAt) == Ok(Int(n));
  }
}
