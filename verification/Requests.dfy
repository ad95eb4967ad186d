/** One request of the chain: authentication, the exchange itself, the status dispatch, the request
    loop and the fan-out (client/http.go, client/auth.go, client/cache.go, client/runner.go,
    client/fanout.go). */
module Requests {
  import opened Syntax
  import opened Runtime
  import opened Scopes
  import opened Eval
  import opened Session
  import opened Caching

  // ---- authentication ----

  /** The access token of a token response: a non-empty string in a JSON object. */
  function AccessToken(r: Reply): Option<(string, Rt)> {
    if r.Down? || r.status < 200 || r.status >= 300 || r.body.None? || !r.body.value.Obj? then None
    else
      var fields := r.body.value.fields;
      if "access_token" !in fields || !fields["access_token"].Str? || fields["access_token"].s == "" then None
      else Some((fields["access_token"].s, r.body.value))
  }

  function TokenCall(lib: Lib, env: Env, grant: Grant): Result<Call> {
    match EvalAll(lib, env, [grant.tokenUrl] + grant.params)
    case Err => Err
    case Ok(args) =>
      if ToString(lib, args[0]) == "" then Err
      else Ok(Token(ToString(lib, args[0]),
                    seq(|args| - 1, i requires 0 <= i < |args| - 1 => ToString(lib, args[i + 1]))))
  }

  /** A cached token counts only when it is a non-empty string. */
  function CachedToken(lib: Lib, env: Env, cache: Option<Cache>): bool {
    match cache
    case None => false
    case Some(c) => match CacheGet(lib, env, c)
      case Some(Str(tok)) => tok != ""
      case _ => false
  }

  function StoreIfAsked(lib: Lib, se: Session, cache: Option<Cache>, bound: Rt, value: Rt): (r: Result<Session>)
    ensures r.Ok? ==> r.value.checks == se.checks
  {
    match cache case None => Ok(se) case Some(c) => CacheStore(lib, se, c, bound, value)
  }

  /** oauth2Token: the session afterwards, and whether there is a token. */
  function Authorized(w: World, se: Session, grant: Grant): (r: (Session, bool))
    ensures r.0.checks == se.checks
  {
    if CachedToken(w.lib, se.env, grant.cache) then (Noted(w.lib, se, grant.cache.value), true)
    else match TokenCall(w.lib, se.env, grant)
      case Err => (se, false)
      case Ok(call) =>
        var after := Exchanged(w, se, call);
        match AccessToken(w.reply(after.wire))
        case None => (after, false)
        case Some((tok, body)) => match StoreIfAsked(w.lib, after, grant.cache, body, Str(tok))
          case Err => (after, false)
          case Ok(kept) => (kept, true)
  }

  function AuthApplied(w: World, se: Session, auth: Auth): (r: (Session, bool))
    ensures r.0.checks == se.checks
    decreases auth, 1
  {
    match auth
    case Plain(credentials) => (se, EvalAll(w.lib, se.env, credentials).Ok?)
    case Bearer(token) => (se, var t := EvalValue(w.lib, se.env, token); t.Ok? && t.value != Nil)
    case OAuth2(grant) => Authorized(w, se, grant)
    case MultiMode(branches, otherwise) => match BranchApplied(w, se, branches)
      case Some(r) => r
      case None => AuthApplied(w, se, otherwise)
  }

  /** None when no branch matches. */
  function BranchApplied(w: World, se: Session, branches: seq<AuthBranch>): (r: Option<(Session, bool)>)
    ensures r.Some? ==> r.value.0.checks == se.checks
    decreases branches, 0
  {
    if branches == [] then None
    else match ArmApplied(w, se, branches[0])
      case Some(r) => Some(r)
      case None => BranchApplied(w, se, branches[1..])
  }

  function ArmApplied(w: World, se: Session, b: AuthBranch): (r: Option<(Session, bool)>)
    ensures r.Some? ==> r.value.0.checks == se.checks
    decreases b, 1
  {
    match EvalPredicate(w.lib, se.env, b.when)
    case Err => Some((se, false))
    case Ok(true) => Some(AuthApplied(w, se, b.auth))
    case Ok(false) => None
  }

  method FetchToken(s: Scope, grant: Grant) returns (ok: bool)
    modifies s
    ensures var (after, done) := Authorized(s.world, old(s.View()), grant); s.View() == after && ok == done
  {
    var lib := s.world.lib;
    if CachedToken(lib, s.Current(), grant.cache) {
      s.marks := Noted(lib, s.View(), grant.cache.value).marks;
      return true;
    }
    var call := TokenCall(lib, s.Current(), grant);
    if call.Err? {
      return false;
    }
    var reply := s.Do(call.value);
    var token := AccessToken(reply);
    if token.None? {
      return false;
    }
    ok := true;
    if grant.cache.Some? {
      ok := Store(s, grant.cache.value, token.value.1, Str(token.value.0));
    }
  }

  method ApplyAuth(s: Scope, auth: Auth) returns (ok: bool)
    modifies s
    ensures var (after, done) := AuthApplied(s.world, old(s.View()), auth); s.View() == after && ok == done
    decreases auth, 1
  {
    match auth {
      case Plain(credentials) => ok := EvalAll(s.world.lib, s.Current(), credentials).Ok?;
      case Bearer(token) =>
        var t := EvalValue(s.world.lib, s.Current(), token);
        ok := t.Ok? && t.value != Nil;
      case OAuth2(grant) => ok := FetchToken(s, grant);
      case MultiMode(branches, otherwise) =>
        var matched;
        matched, ok := ApplyBranches(s, branches);
        if !matched {
          ok := ApplyAuth(s, otherwise);
        }
    }
  }

  method ApplyBranches(s: Scope, branches: seq<AuthBranch>) returns (matched: bool, ok: bool)
    modifies s
    ensures var r := BranchApplied(s.world, old(s.View()), branches);
      && matched == r.Some?
      && (if matched then r.value == (s.View(), ok) else s.View() == old(s.View()))
    decreases branches, 0
  {
    matched, ok := false, false;
    if branches != [] {
      matched, ok := ApplyArm(s, branches[0]);
      if !matched {
        matched, ok := ApplyBranches(s, branches[1..]);
      }
    }
  }

  method ApplyArm(s: Scope, b: AuthBranch) returns (matched: bool, ok: bool)
    modifies s
    ensures var r := ArmApplied(s.world, old(s.View()), b);
      && matched == r.Some?
      && (if matched then r.value == (s.View(), ok) else s.View() == old(s.View()))
    decreases b, 1
  {
    var holds := EvalPredicate(s.world.lib, s.Current(), b.when);
    if holds.Err? {
      return true, false;
    }
    if !holds.value {
      return false, false;
    }
    ok := ApplyAuth(s, b.auth);
    matched := true;
  }

  // ---- one exchange ----

  datatype Exchange = Got(headers: Headers, body: Rt) | Rejected(status: int) | Failed

  /** Query parameters that evaluate to nil are left out. */
  function EvalStrings(lib: Lib, env: Env, fields: map<string, Value>, skipNil: bool): Result<map<string, string>> {
    if exists k | k in fields :: EvalValue(lib, env, fields[k]).Err? then Err
    else Ok(map k | k in fields && !(skipNil && EvalValue(lib, env, fields[k]).value == Nil)
            :: ToString(lib, EvalValue(lib, env, fields[k]).value))
  }

  function BuildCall(lib: Lib, env: Env, step: nat, req: Request): Result<Call> {
    match EvalValue(lib, env, req.url)
    case Err => Err
    case Ok(url) =>
      if !lib.urlParses(ToString(lib, url)) then Err
      else match EvalStrings(lib, env, req.query, true)
        case Err => Err
        case Ok(query) => match EvalStrings(lib, env, req.headers, false)
          case Err => Err
          case Ok(headers) => Ok(Fetch(step, ToString(lib, url), query, headers))
  }

  predicate StatusExpected(accepted: seq<int>, status: int) {
    if accepted == [] then status == 200 else status in accepted
  }

  function CacheHit(lib: Lib, env: Env, cache: Option<Cache>): Option<Rt> {
    match cache case None => None case Some(c) => CacheGet(lib, env, c)
  }

  /** What becomes of a reply: status check, decoding, then the cache block's store. */
  function Received(w: World, se: Session, req: Request, reply: Reply): (r: (Session, Exchange))
    ensures r.0.checks == se.checks
  {
    match reply
    case Down => (se, Failed)
    case Reply(status, headers, body) =>
      if !StatusExpected(req.expectStatus, status) then (se, Rejected(status))
      else if body.None? then (se, Failed)
      else match StoreIfAsked(w.lib, se, req.cache, body.value, body.value)
        case Err => (se, Failed)
        case Ok(kept) => (kept, Got(headers, body.value))
  }

  /** executeRequest: a fresh cache slot answers without touching the wire. */
  function Executed(w: World, se: Session, step: nat, req: Request, auth: Auth): (r: (Session, Exchange))
    ensures r.0.checks == se.checks
  {
    match CacheHit(w.lib, se.env, req.cache)
    case Some(v) => (Noted(w.lib, se, req.cache.value), Got(map[], v))
    case None => match BuildCall(w.lib, se.env, step, req)
      case Err => (se, Failed)
      case Ok(call) =>
        var (ready, ok) := AuthApplied(w, se, auth);
        if !ok then (ready, Failed)
        else
          var after := Exchanged(w, ready, call);
          Received(w, after, req, w.reply(after.wire))
  }

  method ReceiveReply(s: Scope, req: Request, reply: Reply) returns (ex: Exchange)
    modifies s
    ensures Received(s.world, old(s.View()), req, reply) == (s.View(), ex)
  {
    if reply.Down? {
      return Failed;
    }
    if !StatusExpected(req.expectStatus, reply.status) {
      return Rejected(reply.status);
    }
    if reply.body.None? {
      return Failed;
    }
    if req.cache.Some? {
      var ok := Store(s, req.cache.value, reply.body.value, reply.body.value);
      if !ok {
        return Failed;
      }
    }
    return Got(reply.headers, reply.body.value);
  }

  method ExecuteRequest(s: Scope, step: nat, req: Request, auth: Auth) returns (ex: Exchange)
    modifies s
    ensures Executed(s.world, old(s.View()), step, req, auth) == (s.View(), ex)
  {
    var lib := s.world.lib;
    if req.cache.Some? {
      var hit := CacheGet(lib, s.Current(), req.cache.value);
      if hit.Some? {
        s.marks := Noted(lib, s.View(), req.cache.value).marks;
        return Got(map[], hit.value);
      }
    }
    var call := BuildCall(lib, s.Current(), step, req);
    if call.Err? {
      return Failed;
    }
    var ok := ApplyAuth(s, auth);
    if !ok {
      return Failed;
    }
    var reply := s.Do(call.value);
    ex := ReceiveReply(s, req, reply);
  }

  // ---- the cache saves calls ----

  /** Right after a store its slot hits, unless it expires within the buffer. */
  lemma StoredSlotHits(lib: Lib, se: Session, c: Cache, bound: Rt, value: Rt)
    requires CacheStore(lib, se, c, bound, value).Ok? && lib.parseDuration(c.buffer).Some?
    ensures var after := CacheStore(lib, se, c, bound, value).value;
      var record := after.stored[|after.stored| - 1];
      && after.stored == se.stored + [record] && record.value == value
      && CacheGet(lib, after.env, c) ==
           if after.env.now + lib.parseDuration(c.buffer).value < record.expires then Some(value) else None
  {
    var (slot, t) := StoreAt(lib, se.env.(body := bound), c).value;
    assert slot != ExpiryKey(slot);
  }

  predicate Fresh(lib: Lib, se: Session, c: Cache)
    requires se.stored != []
  {
    var buffer := lib.parseDuration(c.buffer);
    buffer.Some? && se.env.now + buffer.value < se.stored[|se.stored| - 1].expires
  }

  /** A token that was fetched and cached is used again without another exchange, as long as it is fresh. */
  lemma TokenIsReused(w: World, se: Session, grant: Grant, c: Cache)
    requires grant.cache == Some(c) && !CachedToken(w.lib, se.env, grant.cache)
    requires Authorized(w, se, grant).1
    ensures var after := Authorized(w, se, grant).0;
      && |after.wire| == |se.wire| + 1 && |after.stored| == |se.stored| + 1
      && (Fresh(w.lib, after, c) ==> Authorized(w, after, grant) == (Noted(w.lib, after, c), true))
  {
    var sent := Exchanged(w, se, TokenCall(w.lib, se.env, grant).value);
    var (tok, body) := AccessToken(w.reply(sent.wire)).value;
    var after := Authorized(w, se, grant).0;
    assert CacheStore(w.lib, sent, c, body, Str(tok)) == Ok(after);
    if w.lib.parseDuration(c.buffer).Some? {
      StoredSlotHits(w.lib, sent, c, body, Str(tok));
    }
  }

  /** A cached response answers the same request again without a call, as long as it is fresh. */
  lemma ResponseIsReused(w: World, se: Session, step: nat, req: Request, auth: Auth, c: Cache)
    requires req.cache == Some(c) && CacheGet(w.lib, se.env, c).None?
    requires Executed(w, se, step, req, auth).1.Got?
    ensures var (after, ex) := Executed(w, se, step, req, auth);
      && |after.stored| > |se.stored|
      && (Fresh(w.lib, after, c) ==>
            Executed(w, after, step, req, auth) == (Noted(w.lib, after, c), Got(map[], ex.body)))
  {
    AuthExtends(w, se, auth);
    var (ready, ok) := AuthApplied(w, se, auth);
    var sent := Exchanged(w, ready, BuildCall(w.lib, se.env, step, req).value);
    var reply := w.reply(sent.wire);
    var (after, ex) := Executed(w, se, step, req, auth);
    assert CacheStore(w.lib, sent, c, reply.body.value, reply.body.value) == Ok(after);
    if w.lib.parseDuration(c.buffer).Some? {
      StoredSlotHits(w.lib, sent, c, reply.body.value, reply.body.value);
    }
  }

  /** No store and no call is forgotten. */
  predicate Extends(a: Session, b: Session) {
    |a.stored| <= |b.stored| && |a.wire| <= |b.wire|
  }

  lemma {:induction false} AuthExtends(w: World, se: Session, auth: Auth)
    ensures Extends(se, AuthApplied(w, se, auth).0)
    decreases auth, 1
  {
    match auth {
      case MultiMode(branches, otherwise) =>
        BranchesExtend(w, se, branches);
        AuthExtends(w, se, otherwise);
      case _ =>
    }
  }

  lemma {:induction false} BranchesExtend(w: World, se: Session, branches: seq<AuthBranch>)
    ensures var r := BranchApplied(w, se, branches); r.Some? ==> Extends(se, r.value.0)
    decreases branches, 0
  {
    if branches != [] {
      ArmExtends(w, se, branches[0]);
      BranchesExtend(w, se, branches[1..]);
    }
  }

  lemma {:induction false} ArmExtends(w: World, se: Session, b: AuthBranch)
    ensures var r := ArmApplied(w, se, b); r.Some? ==> Extends(se, r.value.0)
    decreases b, 1
  {
    AuthExtends(w, se, b.auth);
  }

  // ---- the request loop ----

  datatype Step =
    | StepOk(headers: Headers, body: Rt) | StepSkip | StepEmpty | StepInvalidate | StepWarn | StepBreak | StepFatal

  function ByMode(mode: ErrorMode): Step {
    match mode case Standard => StepBreak case WarnMode => StepWarn case FailMode => StepFatal
  }

  /** on_status first, error.mode as the fallback; transport failures go to error.mode directly. */
  function Dispatched(doc: Doc, se: Session, req: Request, ex: Exchange): (r: (Session, Step))
    requires !ex.Got?
    ensures r.0.checks == se.checks && !r.1.StepOk?
  {
    if ex.Failed? || ex.status !in req.onStatus then (se, ByMode(doc.errorMode))
    else match req.onStatus[ex.status]
      case Skip => (se, StepSkip)
      case Fail => (se, StepFatal)
      case EmptyEvents => (se, StepEmpty)
      case InvalidateCache =>
        (Invalidate(se, doc), if Reachable(doc) * se.env.cache.Keys == {} then StepEmpty else StepInvalidate)
  }

  /** One pass of the request loop; no verdict yet when the request's own predicate is false. */
  function Fired(w: World, doc: Doc, se: Session, step: nat, req: Request): (r: (Session, Option<Step>))
    ensures r.0.checks == se.checks
  {
    var (after, ex) := Executed(w, se, step, req, doc.auth);
    if !ex.Got? then
      var (end, status) := Dispatched(doc, after, req, ex);
      (end, Some(status))
    else
      var seen := after.(env := after.env.(body := ex.body, headers := ex.headers));
      if req.terminateWhen.None? then (seen, Some(StepOk(ex.headers, ex.body)))
      else match EvalPredicate(w.lib, seen.env, req.terminateWhen.value)
        case Err => (seen, Some(StepFatal))
        case Ok(done) => (seen, if done then Some(StepOk(ex.headers, ex.body)) else None)
  }

  /** runRequest: fire until there is a verdict, as long as the context is live. */
  function Requested(w: World, doc: Doc, se: Session, step: nat, req: Request): (r: (Session, Step))
    ensures r.0.checks <= se.checks
    decreases se.checks
  {
    var (seen, status) := Fired(w, doc, se, step, req);
    match status
    case Some(verdict) => (seen, verdict)
    case None =>
      if seen.checks == 0 then (seen, StepFatal)
      else Requested(w, doc, seen.(checks := seen.checks - 1), step, req)
  }

  method DispatchFailure(s: Scope, doc: Doc, req: Request, ex: Exchange) returns (status: Step)
    requires !ex.Got?
    modifies s
    ensures Dispatched(doc, old(s.View()), req, ex) == (s.View(), status)
  {
    if ex.Rejected? && ex.status in req.onStatus {
      match req.onStatus[ex.status] {
        case Skip => return StepSkip;
        case Fail => return StepFatal;
        case EmptyEvents => return StepEmpty;
        case InvalidateCache =>
          var cleared := DropReachableCaches(s, doc);
          return if cleared == {} then StepEmpty else StepInvalidate;
      }
    }
    match doc.errorMode {
      case FailMode => return StepFatal;
      case WarnMode => return StepWarn;
      case Standard => return StepBreak;
    }
  }

  method FireRequest(s: Scope, doc: Doc, step: nat, req: Request) returns (status: Option<Step>)
    modifies s
    ensures Fired(s.world, doc, old(s.View()), step, req) == (s.View(), status)
  {
    var ex := ExecuteRequest(s, step, req, doc.auth);
    if !ex.Got? {
      var failure := DispatchFailure(s, doc, req, ex);
      return Some(failure);
    }
    s.body := ex.body;
    s.headers := ex.headers;
    if req.terminateWhen.None? {
      return Some(StepOk(ex.headers, ex.body));
    }
    var done := EvalPredicate(s.world.lib, s.Current(), req.terminateWhen.value);
    if done.Err? {
      return Some(StepFatal);
    }
    return if done.value then Some(StepOk(ex.headers, ex.body)) else None;
  }

  method RunRequest(s: Scope, doc: Doc, step: nat, req: Request) returns (status: Step)
    modifies s
    ensures Requested(s.world, doc, old(s.View()), step, req) == (s.View(), status)
  {
    while true
      invariant Requested(s.world, doc, old(s.View()), step, req) == Requested(s.world, doc, s.View(), step, req)
      decreases s.checks
    {
      var verdict := FireRequest(s, doc, step, req);
      if verdict.Some? {
        return verdict.value;
      }
      var live := s.Poll();
      if !live {
        return StepFatal;
      }
    }
  }
}
