# Skopos: the interpreter of declarative HTTP-polling specs

Skopos interprets a document: a small expression language (values, predicates, paths) driven by a pagination
state machine, with a persistent state store, an expiring cache and an optional concurrent sink queue. This
project models that interpreter and proves what its documentation promises about whole runs.

## How the model is built

- Documents are datatypes (`Syntax`). A discriminated union has exactly one form; errors carry no text.
- One drain's state is `Scopes.Env` (the namespaces) inside `Session.Session` (plus the calls made so far, the
  number of context checks left, and logs of the successful stores, the cache hits and the drops).
  `Session.World` is everything outside: the reply to any history of calls, the clock, the sink's answers and the
  store. Every theorem holds for all worlds; the completeness theorems fill in the repository's own test servers.
- Routines of the Go libraries (regular expressions, base64, time and duration parsing, formatting) are the
  fields of `Runtime.Lib`. Nothing is assumed of them beyond being functions, except where a theorem says so.
- What the source writes as mutation is a class or a method here: `Session.Scope`, `Runner.PullSource`,
  `Validation.Validator`, `Lifetimes.LifetimeCheck`, `Emitter.AsyncEmitter`, the test servers, the loops over
  lists. Each is proved equal to a specification function (`Drains.PageDone`, `Writes.Progressed`, ...), and the
  theorems are about those functions.
- The remaining forms, keys and formats have lemmas of the same kind beside those listed under Model, in `Evaluation`,
  `Reading`, `WireFormat`, `Exchanges` and `Validation`.
- A run is the ledger of its pages (`Drains.Page`): the session before, after the chain, after the progress and after
  the page, the verdict, the events, what the sink saw, and the way out.

| Files | What they hold |
|---|---|
| Syntax, Text, Runtime, Scopes, Eval | documents, decimal and string routines, runtime values and their operations, namespaces, evaluation |
| Laws, Evaluation, Reading | laws of predicates, branching, formats and the views of a page; what every form evaluates to and what every path reads |
| Secrecy, Validation | the secret-taint analysis and the path validator, with their soundness |
| Interpolation, Paths, Codec, WireFormat | the `${...}` scanner and the JSON codec, with their round trips and the keys of the format |
| Session, Writes, Pages, Caching, Requests, FanOuts, Drains, Runner | the drain: specification functions and the imperative runner |
| Exchanges, Verdicts, StepResults, Merging | what goes over the wire, what a reply does to the page, what a step leaves behind, what a fan-out merges |
| Lifetimes, Frames, Ledger, Aliases | lifetimes, frames and what every run keeps |
| CacheLog, Retries, CacheRuns, FreeRetries | the cache and its invalidations over whole drains |
| Emitter, LateRefusals, Delivery | the buffered emitter under every interleaving, and delivery before state |
| Servers, Paging, OffsetPaging, CursorPaging | the test servers and the completeness of paging |
| HighWater, HighWaterRuns, Worklist, Restart, DrainSeries | high-water marks, worklists, restarts, and all three over many drains |

## Where the code departs from its documentation

- Teardown flushes and saves even when the sink or the flush failed (client/runner.go:251-270). In buffered mode
  everything handed over has been taken exactly when `close` reports no error (`Emitter.DeliveredIffNoError`); then
  events come before state (`Delivery.BufferedDrainDelivers`). Otherwise a save can move past an event the sink
  refused (`Emitter.FailedSinkStillSaves`), exactly when the refusal is no later than the last event handed over
  before the last progress (`Emitter.ProgressDeliveredExactly`). Some schedule does so exactly when some progress
  lies behind the first refused event by at most the queue bound and one more event
  (`LateRefusals.SaveFollowsDeliveryExactly`).
- A fan-out reports an invalidation even when no slot was cleared, a single request does not
  (client/fanout.go:128-140, client/runner.go:681-688). In every drain the stores pay for the invalidations that
  had something to drop (`Retries.StoresPayForDrops`), which are all of them unless a fan-out maps a status it does
  not expect to an invalidation (`Retries.StoresPayForRetries`). A fan-out that does so and opens the chain, ungated
  and with an item, retries until the context dies or the pages run out, without a store
  (`FreeRetries.FanOutsRetryForFree`): among documents that open with a fan-out the bound holds in every world
  exactly when the mapping is absent (`FreeRetries.StoresPayExactly`; `FreeRetries.SampleLeads` is such a document).
- A step's `if:` and its own `fan_out.over` are validated with the fan-out alias in scope and evaluated before it
  is bound (schema/validate.go:502-505, client/runner.go:492-503). `Validation.AcceptedPathsResolve` is an
  equivalence; a gate or an `over` that needs the step's own alias is accepted (`Aliases.OwnAliasIsAccepted`), aborts
  the step (`Aliases.GateOnOwnAliasFails`, `Aliases.ItemsOfOwnAliasFail`) and keeps every drain of the document from
  delivering anything (`Aliases.OwnAliasBlocksDrains`). One that does not mention the alias decides before the alias
  is bound (`Aliases.GateWithoutAliasDecides`, `Aliases.ItemsWithoutAliasEvaluate`).
- A printed string is scanned again when it is read: a literal that holds `${` or an escaped `$` comes back as
  something else (schema/value.go:970-980). `Codec.ValueRoundTrip` says exactly which values round-trip.
- A mark that holds the empty string reads as nil, so a page without values turns it into nil
  (`HighWater.NothingLeavesMark`), and a page that mixes kinds of values can hide a greater one
  (`HighWater.MixedClassesDiffer`). `HighWater.StreamIsBatchExactly` says over which sets of values the mark is the
  maximum.
- A comment advises `format: unix_seconds` to give a cache an absolute expiry (client/cache.go:117-120); the result
  is an integer and counts from now (`Caching.UnixSecondsStayRelative`).
- Two cache slots collide when one is named like the other's expiry key (client/cache.go:44-46);
  `Caching.CacheIsAMap` is an equivalence.

## Model

| member | source | states |
|---|---|---|
| Runtime.OrderedCompareMeaning | client/predicate.go:163-236 | Comparison is the order of ranks inside one comparable class (instants, whole numbers, words), and answers for no other pair except a word against a time-shaped string |
| Runtime.RanksPreorder | client/predicate.go:163-206 | Inside one class the comparison is antisymmetric, transitive and total |
| Runtime.AddCommutes | client/value.go:241-267 | Addition commutes unless both operands are times |
| Runtime.SubtractUndoesAdd | client/value.go:278-305 | Subtracting a duration from a time undoes adding it, exactly when the duration is not the least 64-bit one |
| Runtime.SubtractUndoesWrappedAdd | client/value.go:241-305 | On integers and durations wrap-around cancels, without exception |
| Runtime.AddUndoesDifference | client/value.go:278-305 | The difference of two times leads back exactly when it did not saturate |
| Runtime.ReduceExtreme | client/value.go:331-355 | The loop computes the fold whose meaning `HighWater.ExtremeIsFirstGreatest` gives |
| Runtime.FirstOf | client/value.go:359-366 | The first element that is not nil, or nil when there is none |
| Runtime.LastOf | client/value.go:370-377 | The last element that is not nil, or nil when there is none |
| Runtime.FirstNonNil | client/value.go:359-366 | The loop finds that first element |
| Runtime.SliceList | client/value.go:387-411 | The step-by-step clamping computes the half-open slice |
| Runtime.SliceIsWindow | client/value.go:387-411 | Whatever the bounds, the slice keeps exactly the elements whose index respects them |
| Scopes.LookupExtendsWalk | client/bodypath.go:54-78 | Looking into a body agrees with walking maps wherever the walk finds something |
| Scopes.RowEventsSplit | client/bodypath.go:89-138 | The events of row-oriented bodies are the rows' lists one after the other; one bad row spoils all |
| Laws.JunctionMeaning | client/predicate.go:16-72 | `and` and `or` give what the first deciding operand gives, error included, and their neutral answer when there is none |
| Laws.DeMorgan | client/predicate.go:16-72 | Negation turns `and` into `or` of the negations and back, errors and evaluation order included |
| Laws.ComparisonMeaning | client/predicate.go:83-121 | Inside one class gt, lt, gte and lte are the order of the ranks |
| Laws.ComparisonDuality | client/predicate.go:83-121 | Away from nil gt and lte, lt and gte are opposites; with a nil all four are false |
| Laws.ComparisonSwaps | client/predicate.go:83-121 | Swapping the operands swaps the verbs |
| Laws.SelectMeaning | client/value.go:91-101 | A select takes its first branch that holds, its default when none does, and fails on the first failing predicate |
| Laws.FormatsReadBack | client/value.go:500-613 | Integers and truth values read back from their text; unix seconds lead back to the start of the second |
| Laws.EventViewsAgree | client/state.go:450-516 | first, last, an index, the projection and the count are consistent views of one page |
| Evaluation.ReferenceMeaning | client/value.go:61-73 | A reference gives the leaf of its path; exactly an absent or empty leaf is replaced by the default, and a malformed path is an error whatever the default |
| Evaluation.ConcatMeaning | client/value.go:77-90 | A concatenation is the text of its parts in order, nil being the empty text |
| Evaluation.ObjectMeaning | client/value.go:128-138 | An object evaluates exactly when all its fields do, to the same keys with the fields' own values |
| Evaluation.RegexMeaning | client/value.go:417-438 | A regex gives the captured group, its default or nil without a match, and fails on a broken pattern or a missing group |
| Evaluation.IntegerArithmetic | client/value.go:209-305 | Evaluated on two integers, `add` gives a 64-bit integer congruent to the sum and `subtract` one congruent to the difference, equal to it whenever it fits |
| Evaluation.InstantArithmetic | client/value.go:209-305 | An instant plus a span, in either order, is the later instant; minus a span it is the earlier one; a span minus an instant is an error |
| Evaluation.InstantDifference | client/value.go:209-305 | Two instants have no sum; their difference is the closest 64-bit span |
| Evaluation.SpanArithmetic | client/value.go:209-305 | Two spans that are not both numbers add and subtract to a span |
| Evaluation.ArithmeticOfNothing | client/value.go:209-235 | One absent operand makes the result absent, a failing one makes it fail |
| Evaluation.MaxAndMin | client/value.go:312-355 | On one comparable class `max` evaluates to a greatest and `min` to a least element |
| Evaluation.EndsMeaning | client/value.go:359-377 | `first` and `last` evaluate to the outermost element that is not nil |
| Evaluation.SliceMeaning | client/value.go:387-411 | A slice evaluates to the elements whose index respects both bounds |
| Evaluation.EqualityMeaning | client/predicate.go:142-156 | Equality is reflexive and symmetric, nil equals nil alone, and values with the same text are equal |
| Evaluation.IntegersEqual | client/predicate.go:142-156 | An integer equals its decimal text and no other integer |
| Evaluation.NumbersCompare | client/predicate.go:83-236 | On integers, JSON numbers and instants the verbs are the order of the numbers |
| Evaluation.StringsCompare | client/predicate.go:163-206 | Words compare at their first difference, and a proper prefix comes first |
| Evaluation.InstantFormats | client/value.go:539-613 | The instant formats of a time, a time-shaped text and a number of seconds; the unix verbs give the second and the millisecond the instant lies in |
| Evaluation.FractionalInstants | client/value.go:539-613 | A JSON number is an instant less than a nanosecond away from its seconds since the epoch |
| Evaluation.SignedText | client/value.go:500-517 | A decimal text may carry a sign or a leading zero; only a minus changes the number |
| Reading.NestedReads | client/state.go:540-552 | What was put at the end of a chain of keys is read back along them |
| Reading.ReadingSplits | client/bodypath.go:54-78 | Reading along two paths in a row is reading along their concatenation |
| Reading.PositionsRead | client/bodypath.go:54-78 | In a response body a decimal segment enters a list at that position, and nowhere else |
| Reading.HeaderMeaning | client/state.go:523-536 | A header is read by its canonical name and is the first of its values |
| Reading.NamespacesRead | client/state.go:334-444 | `state`, `cache` and `extract` read the named value along the rest, nothing for an unknown name, and fail without a name |
| Reading.ResponseReads | client/state.go:334-444 | `response` reads its body with positions and its headers by name, and nothing while there is none |
| Reading.PagesRead | client/state.go:450-497 | The views of a page that lead nowhere: the outer events of an empty page, a position outside it, a name that is no view; a count with parts is an error |
| Reading.PartsOfResults | client/state.go:334-444 | A step or response reference that stops short of a body or a header, or names another part, is an error; a step that never answered reads as absent |
| Reading.AliasReads | client/state.go:334-444 | The alias of a fan-out reads the item, whatever root it hides; outside a fan-out a name that is no root is an error |
| Reading.EventsPathMeaning | client/runner.go:748-772 | The events of a page are looked for in the producer's own body, or in the body of an earlier step; one that never answered is an error |
| Reading.ListedEvents | client/bodypath.go:89-138 | The list at the path; nothing where the path is absent or nil, an error where it is something else; without a path a lone object counts as one event |
| Reading.RowEventsMeaning | client/bodypath.go:89-138 | A row gives the list at its path, nothing without the path, and an error when it is no list; no events at all leave the namespace unbound |
| Secrecy.EvalReads | client/value.go:50-195 | Evaluation depends only on the state fields the expression can read |
| Secrecy.IsSecretExact | schema/value.go:1397-1530 | The analysis marks exactly the expressions that can read a field declared secret |
| Secrecy.Noninterference | schema/value.go:1397-1486 | An unmarked value gives the same result or error in any two scopes that differ only on secret fields |
| Secrecy.PredicateNoninterference | schema/value.go:1504-1530 | The same for predicates |
| Secrecy.SecretRefTellsApart | schema/value.go:1490-1499 | Marked references are not marked in vain: they tell secret contents apart |
| Interpolation.ScanSegment | schema/value.go:771-787 | The scan finds the end of a segment and its unescaped body, or fails, as the recursive reading does |
| Interpolation.DesugarInterpolation | schema/value.go:714-765 | The loop with its index and pending literal computes the segments of the string, whose meaning `Interpolation.InterpolationMeaning` gives |
| Interpolation.InterpolationMeaning | schema/value.go:714-818 | For every string, evaluating the desugared value and taking its text is left-to-right substitution with escapes resolved, errors included; the text of a hole is read on its own terms: cut at the first bar, trimmed, the leaf of the path, or the default where the leaf is absent or empty |
| Interpolation.HoleIsReference | schema/value.go:792-845 | `path|default` is a reference with that scalar as its default, `path|` one whose default is the empty string, `path` one without; blanks around the path do not matter |
| Interpolation.SegmentMeaning | schema/value.go:771-787 | A segment ends at its first closing brace; without one there is none |
| Interpolation.LoneHole | schema/value.go:714-765 | A string that is one hole is the reference itself, so its value keeps its type |
| Interpolation.FastPathAgrees | schema/value.go:714-765 | The path for strings without `$` agrees with the scanning loop |
| Interpolation.DesugarShape | schema/value.go:714-765 | A concatenation has at least two segments, no empty literal and no two literals side by side |
| Interpolation.SelfDesugaring | schema/value.go:970-980 | A string desugars to itself exactly when it has neither `${` nor an escaped `$` |
| Paths.PathRoundTrip | schema/path.go:148-166 | A path is printed and parsed back unchanged exactly when it is well formed, through the escape form where dots demand it |
| Paths.DecodedPathsAreWellFormed | schema/path.go:243-287 | Decoding yields only well-formed paths |
| Codec.PickDiscriminator | schema/value.go:676-694 | The loop returns the one form whose key is present, and nothing for none or several |
| Codec.ReadMerged | schema/value.go:1191-1228 | Merging slice bounds into a printed operand and pulling them out again leaves the operand |
| Codec.ValueRoundTrip | schema/value.go:954-1367 | A value is printed to JSON and read back unchanged exactly when it is well formed |
| Codec.PredicateRoundTrip | schema/predicate.go:306-434 | The same for predicates |
| WireFormat.RefsRead | schema/value.go:1022-1029 | The object `{ref, default}` reads as a reference with that default, and a null default as none |
| WireFormat.ScalarsRead | schema/value.go:954-993 | A scalar stands for itself, a text is scanned for holes unless marked literal; fractions, integers beyond 64 bits and bare lists are refused |
| WireFormat.SelectReads | schema/value.go:1056-1065 | A select reads its branches and its default |
| WireFormat.ArithmeticReads | schema/value.go:1111-1124 | `add` and `subtract` with two operands read as that operation on these operands, in order |
| WireFormat.ReducersRead | schema/value.go:1171-1189 | Each reducer reads as itself; a bare list is short for a list value |
| WireFormat.SliceReads | schema/value.go:1191-1228 | A slice reads its bounds from beside the key of its operand |
| WireFormat.AmbiguousFormsFail | schema/value.go:676-694 | No object with two discriminators is a value |
| WireFormat.StrayKeysFail | schema/value.go:995-1040 | A key that has no place beside a discriminator is refused |
| WireFormat.ComparisonsRead | schema/predicate.go:306-434 | Each comparison reads as its verb with its path and its value |
| WireFormat.ConnectivesRead | schema/predicate.go:306-434 | `not`, `and` and `or` read as themselves |
| WireFormat.PathsRead | schema/path.go:154-166 | A dotted text is the path of its segments exactly when its first segment is a legal root; an empty segment at the end is an error |
| WireFormat.AliasesRead | schema/path.go:92-127 | Beside the roots a first segment is legal exactly when it consists of letters, digits and underscores with no digit in front |
| WireFormat.FormerRootsFail | schema/path.go:92-103 | The three names that were roots once are refused in either path form |
| Validation.Validator.CheckPathRef | schema/validate.go:1014-1041 | The method reports something exactly when the path is not acceptable in its names |
| Validation.Validator.CheckNamedRef | schema/validate.go:1043-1065 | State and cache references must name something declared |
| Validation.Validator.CheckEventsRef | schema/validate.go:1076-1106 | Events references are the documented shapes only |
| Validation.Validator.CheckStepsRef | schema/validate.go:1120-1145 | Step references name a declared request and its body or one header |
| Validation.Validator.CheckResponseRef | schema/validate.go:1147-1163 | Response references go to the body or one header |
| Validation.Validator.CheckValue | schema/validate.go:821-905 | The walk over a value reports nothing exactly when the value is acceptable |
| Validation.Validator.CheckPredicate | schema/validate.go:969-1005 | The same for predicates |
| Validation.NamedRefsAccepted | schema/validate.go:1043-1118 | A state, cache or extract reference is accepted exactly when it names something declared and has no star |
| Validation.ResultRefsAccepted | schema/validate.go:1120-1172 | Which response and step references are accepted: a body, or one header by name, of a declared step, without a star |
| Validation.EventRefsAccepted | schema/validate.go:1076-1106 | Which events references are accepted: the outer events, a star or an index along any rest, and the bare count; no negative index, no other name and no second star |
| Validation.ConnectivesAccepted | schema/validate.go:969-1005 | A connective is accepted exactly when it has operands and each is accepted |
| Validation.AcceptedPathsResolve | schema/validate.go:1014-1172 | An accepted path never fails to resolve in any scope, except exactly when it is rooted at an alias that is not bound |
| Validation.AcceptedValuesEvaluate | schema/validate.go:821-905 | Accepted values without parsing, list or arithmetic operations evaluate in every scope |
| Validation.AcceptedPredicatesEvaluate | schema/validate.go:969-1005 | Accepted predicates of presence, equality, and/or/not and literals never fail |
| Writes.StageWrites | client/progress.go:66-102 | The staging loop evaluates every source before any write, or fails |
| Writes.CommitWrites | client/progress.go:66-102 | The second loop writes the staged values, up to the first improper target |
| Writes.ApplyProgress | client/progress.go:66-102 | Stage, then commit, on the scope in place |
| Writes.ProgressIsSimultaneous | client/progress.go:66-102 | With distinct state targets the list assigns all targets at once from the old state, or changes nothing |
| Writes.OrderOfWritesIsIrrelevant | client/progress.go:66-102 | Any reordering of the list has the same effect |
| Writes.ProgressTouchesTargets | client/progress.go:66-102 | However it ends, a pass changes nothing but its targets |
| Writes.TransformMeaning | client/progress.go:66-102 | A write stores what the pattern keeps in the asked-for format; nil passes through before both, and a pattern that cannot be applied is an error |
| Writes.RunExtracts | client/extract.go:30-66 | The loop over extracts writes state and extract names in place, up to the first failure |
| Writes.ExtractsTouchTargets | client/extract.go:30-138 | Extracts change nothing but their targets |
| Writes.SourceMeaning | client/extract.go:87-138 | An extract reads the response at hand or an earlier step's, in the body with positions or by header name; what is not there is nil |
| Writes.ExtractsInOrder | client/extract.go:30-66 | A list of extracts does what its front does, then its rest, up to the first failure |
| Pages.Advance | client/pagination.go:99-357 | Each pagination variant, in place: stop, continue or fail, and the field it writes |
| Pages.AdvanceByStep | client/pagination.go:229-300 | The counter: short-page termination, start for an unset field, wrap-around of the sum |
| Pages.AdvanceTouchesTargets | client/pagination.go:99-357 | Advancing changes only the variant's own fields, and nothing on the page that stops |
| Pages.CustomAdvanceIsSimultaneous | client/pagination.go:317-357 | A custom advance goes on exactly when `until` is false and every source evaluates, and then assigns all targets at once from the old state; otherwise it changes nothing |
| Pages.CursorMeaning | client/pagination.go:119-156 | A cursor stops exactly when it is absent or empty, or when the author's predicate says so, and is written otherwise; a predicate that fails breaks the drain |
| Pages.NextUrlMeaning | client/pagination.go:168-215 | With a regex the link is the captured part of the leaf; no match stops the loop, a pattern that cannot be applied breaks the drain |
| Pages.CounterMeaning | client/pagination.go:229-300 | A counter stops exactly on a page with fewer events than the step, unless an author's predicate decides; otherwise the step is added to the field, or to the start while the field is unset |
| Pages.NextUrlWithoutRegex | client/pagination.go:168-208 | Without a regex next_url pages exactly like cursor_token |
| Caching.Store | client/cache.go:86-102 | A store writes the slot and its expiry and restores the body; a failed one changes nothing |
| Caching.ExpiryFollowsClock | client/cache.go:121-149 | Instants are taken as they are, everything else moves along with the clock |
| Caching.ExpiresInCountsSeconds | client/cache.go:121-149 | An expires_in of n seconds means the same as integer, JSON number and decimal text (RFC 6749, section 5.1) |
| Caching.UnixSecondsStayRelative | client/cache.go:117-120 | A timestamp formatted as unix seconds still counts from now, unlike the comment says |
| Exchanges.SpansCountFromNow | client/cache.go:121-149 | Durations and their texts count from now; times are the instants they name; what is neither, nor a number, is no expiry |
| Exchanges.StoreReadsItsResponse | client/cache.go:86-102 | While the expiry is evaluated `response.body` is the body being stored: an `expires_in` of n seconds in it makes the entry last n seconds; afterwards the scope's own body is back |
| Caching.DropReachableCaches | client/runner.go:839-886 | Exactly the slots the document can write are removed, and the result names those that were there |
| Caching.ReachableMeaning | client/runner.go:839-886 | The reachable slots are exactly those that a request's cache block or a grant's, in any branch of the authentication, writes |
| Caching.GetReadsAbstract | client/cache.go:52-77 | A hit returns the stored value and only while clock plus buffer is before the expiry |
| Caching.StoreUpdatesAbstract | client/cache.go:86-102 | A store is one update of the map from slots to values with expiry |
| Caching.ShadowedSlotsCollide | client/cache.go:44-46 | A slot named like another's expiry key destroys it |
| Caching.CacheIsAMap | client/cache.go:44-102 | The update law holds everywhere exactly when no slot shadows another |
| Caching.DropEmptiesAbstract | client/runner.go:839-897 | Dropping removes the slots from the abstract map although their expiry keys stay |
| Caching.AllBlocksMiss | client/runner.go:839-897 | After a drop every cache block of the document misses |
| Requests.FetchToken | client/cache.go:209-237 | A fresh non-empty cached token avoids the exchange; otherwise fetch and store |
| Requests.ApplyAuth | client/auth.go:23-103 | Authentication by variant, with first-match dispatch |
| Requests.ExecuteRequest | client/http.go:56-217 | A fresh slot answers before anything is fired; status check, decoding and store in that order |
| Requests.StoredSlotHits | client/cache.go:52-102 | Right after a store its slot hits with that value, exactly when the expiry is beyond clock plus buffer |
| Requests.TokenIsReused | client/cache.go:209-237 | A token just fetched and cached is used again without an exchange while it is fresh |
| Requests.ResponseIsReused | client/http.go:56-61 | A response just cached answers the same request without a call while it is fresh |
| Exchanges.CallMeaning | client/http.go:56-140 | A call is built exactly when every part evaluates and the URL parses; it carries that URL, the query parameters that are not nil and all headers, as texts |
| Exchanges.TokenCallMeaning | client/cache.go:308-345 | A token request carries the texts of its parameters in order, to a URL that must not be empty |
| Exchanges.GrantMeaning | client/cache.go:209-300 | Without a usable cached token exactly one token request is sent; without a cache the grant succeeds exactly on an answer that carries a token, and with one it keeps the token that answer carries |
| Exchanges.TokenIsKept | client/cache.go:209-237 | A fetched token is stored with the token response as the body its expiry reads; if it cannot be stored the grant fails |
| Exchanges.BranchesMeaning | client/auth.go:92-103 | The first branch whose predicate holds authorises, the default when none does, and a failing predicate before them fails |
| Exchanges.UnauthorisedFails | client/http.go:56-140 | Without authorisation the request is not sent; one that cannot be built does not ask for it |
| Exchanges.AuthorisedSends | client/http.go:56-217 | With authorisation the request is the next call, and what comes back is the server's answer to the whole history |
| Exchanges.HitSendsNothing | client/http.go:56-61 | A fresh slot answers without a call and without headers |
| Requests.DispatchFailure | client/runner.go:651-739 | on_status first, error.mode as the fallback; an invalidation without a cleared slot counts as empty. What the statuses lead to is stated by `Verdicts.FailureMeaning` and the page lemmas behind it |
| Requests.RunRequest | client/runner.go:651-739 | The request loop: fire until there is a verdict or the context dies |
| Verdicts.ExpectedStatuses | client/http.go:517-527 | Without a list only 200 is expected, with one exactly its members |
| Verdicts.ReplyMeaning | client/http.go:56-217 | An expected status with a body that decodes is a response, an unexpected one is rejected, no reply and a broken body are failures; nothing but the cache changes |
| Verdicts.ResponseMeaning | client/runner.go:651-739 | A request that ends in a response succeeds with it when its predicate accepts it; a predicate that fails, or turns it down in a dead context, is fatal |
| Verdicts.FailureMeaning | client/runner.go:651-739 | A request that ends in a failure ends as on_status says for the status, and as error.mode says without an entry or a status |
| Verdicts.FailAbortsPage | client/runner.go:651-739 | A status mapped to `fail`, on any step of the chain: the page exits with an error, and nothing is delivered, progressed or advanced |
| Verdicts.UnmappedFailureDecidesPage | client/runner.go:651-739 | An unmapped status or a failure without one, on any step: `standard` ends the drain quietly, `warn` advances without events or progress, `fail` is an error |
| Verdicts.SkipOrEmptyPage | client/runner.go:563-613 | A producer's status mapped to `skip` or `empty_events`: the page is skipped or emptied, without events, and its progress fires |
| Verdicts.SkipElsewhereGoesOn | client/runner.go:563-613 | On another step the same statuses bind nothing and the chain goes on |
| Verdicts.FailedExtractAbortsPage | client/runner.go:563-613 | A response whose extracts cannot all be taken ends the drain with an error in every mode |
| Verdicts.ProducerMeaning | client/runner.go:786-795 | The producer is the first request with an events path |
| Verdicts.AnswerMakesPage | client/runner.go:458-613 | When the producer answered and no step ended the chain, the page carries that body and those headers and the events located in it, or aborts when they cannot be located |
| Verdicts.ClosedProducerWarns | client/runner.go:492-503 | A producer with a closed gate leaves a page that only advances |
| Verdicts.StepsStartUnbound | client/runner.go:458-492 | A step starts without a response: it cannot tell what the step before it left there |
| Verdicts.PageReadsAnswer | client/runner.go:326-361 | The progress reads the scope with that answer and those events bound, and the pagination the same scope with the progress written |
| Verdicts.ItemMeaning | client/fanout.go:96-170 | An item is dropped on `skip` and `empty_events`, ends the loop on `fail` and `invalidate_cache`, falls back to the mode otherwise, and is kept with its body and headers when it answers and its extracts can be taken |
| Verdicts.FanOutDecidesPage | client/runner.go:504-530 | A fan-out that fails, breaks or invalidates decides the page |
| FanOuts.RunItems | client/fanout.go:96-170 | The item loop keeps the bodies and last headers of the kept items and stops at the first ending verdict |
| FanOuts.RunFanOut | client/fanout.go:68-185 | The fan-out in place, with item and alias put back on every return |
| FanOuts.MergeBodies | client/fanout.go:204-222 | The merge loop concatenates or wraps, and fails on a body that is not a list; where each element lies is stated by `Merging.MergedIsLaidOut` |
| Merging.ItemsDoneShape | client/fanout.go:96-170 | Only the last verdict can end the loop; without such an end every item has one |
| Merging.VerdictOfItem | client/fanout.go:96-170 | The i-th verdict is one run of the step with the i-th item bound |
| Merging.KeptAtMeaning | client/fanout.go:96-170 | The kept positions are exactly those not dropped, in increasing order |
| Merging.KeptBodiesAt | client/fanout.go:204-222 | The merged bodies are those of the kept positions |
| Merging.FlattenedAt | client/fanout.go:204-222 | The elements of each body follow those of the bodies before it |
| Merging.MergedIsLaidOut | client/fanout.go:204-222 | The merged body is a list: under wrap its n-th element is the body of the n-th kept item; under flatten its length is the sum of the kept lists' lengths and each list lies right behind those before it |
| Merging.FanOutMergesInOrder | client/fanout.go:68-222 | When a fan-out merges, breaks or invalidates; a merged body is laid out from the kept items in item order with the headers of the last of them, and item and alias are restored on every way out |
| Aliases.GateOnOwnAliasFails | client/runner.go:492-503 | A gate that needs the step's own alias, accepted with that alias in scope, aborts the iteration |
| Aliases.ItemsOfOwnAliasFail | client/fanout.go:68-77 | Items read off the step's own alias abort the iteration exactly when the gate lets the step run |
| Aliases.OwnAliasBlocksDrains | schema/validate.go:502-505 | A document with such a step anywhere in its chain delivers no event and makes no progress in any drain on any server |
| Aliases.ValueOutside | schema/validate.go:1014-1041 | A value is acceptable outside the fan-out exactly when it is acceptable inside and does not mention the alias |
| Aliases.PredicateOutside | schema/validate.go:969-1005 | The same for predicates |
| Aliases.GateWithoutAliasDecides | client/runner.go:492-503 | An accepted gate of the total fragment that does not mention the step's alias always decides between skipping the step and fanning out |
| Aliases.ItemsWithoutAliasEvaluate | client/fanout.go:68-77 | An accepted `over` of that kind evaluates; the fan-out then fails only on a value that is no list |
| Runner.PullSource.RunStep | client/runner.go:492-560 | Gate, then fan-out or request, then extracts and binding; what a step leaves to be read is stated by `StepResults.StepBinds` and `StepResults.StepResultsAreReadable` |
| StepResults.StepBinds | client/runner.go:504-583 | A step that answered binds its body and headers under its id and the chain goes on; every other result is what it was. A gated, skipped, emptied or failed step binds nothing |
| StepResults.StepResultsAreReadable | client/runner.go:504-583 | From a step with an id that answered up to the next step with that id, `steps.<id>.body` along any rest reads its body and `steps.<id>.header` its headers |
| Runner.PullSource.RunIteration | client/runner.go:458-613 | The chain and its verdict, with the producer's events located |
| Runner.PullSource.EmitAll | client/runner.go:337-343 | Events are emitted one by one up to the first refusal, and journalled in that order |
| Runner.PullSource.RunPage | client/runner.go:292-361 | One pass of the page loop in place |
| Runner.PullSource.RunPages | client/runner.go:282-362 | The page loop: context check, cap, page, until a way out |
| Runner.PullSource.SeedDefaults | client/state.go:169-181 | Defaults are seeded in the given order |
| Runner.PullSource.OpenScope | client/state.go:146-164 | A scope is opened with the defaults and the snapshot on top, or not at all |
| Runner.PullSource.ResetScratch | client/state.go:205-220 | Scratch fields go back to their defaults or disappear |
| Runner.PullSource.TearDown | client/runner.go:251-270 | Exactly one flush, then exactly one save of the snapshot, whatever the flush said |
| Runner.PullSource.Drain | client/runner.go:204-363 | After the scope exists every exit journals the events offered, then one flush, then one save; success needs all three to succeed |
| Lifetimes.LifetimeCheck.Run | schema/validate.go:222-314 | No finding exactly when every write site is proper and the two lifetimes are disjoint; then the tables are the runtime's scratch and persistent sets |
| Lifetimes.LifetimeCheck.NoteConflicts | schema/validate.go:222-314 | A field in both tables is a finding, and only that |
| Lifetimes.ClassesMeaning | client/state.go:253-311 | A declared field is scratch exactly when the pagination writes it, persistent exactly when only progress or an extract does, and the operator's otherwise |
| Frames.ExecutedOnlyCache | client/http.go:56-217 | An exchange changes nothing but the cache, the clock and the logs |
| Frames.IterationKeepsField | client/runner.go:458-613 | A whole iteration of the chain changes no state field that is not an extract target |
| Frames.PagesAreIsolated | client/runner.go:292-304 | A page does not depend on the extracts, step results, events or response an earlier page left behind |
| Frames.IterationKeepsAlias | client/fanout.go:78-95 | The alias never outlives its step, whatever the way out |
| Frames.DrainKeepsKeys | client/runner.go:282-362 | No run of pages removes a state field |
| Ledger.PageOf | client/runner.go:282-362 | Each page starts where the previous one ended, one context check later; only the last can leave the loop, and the run ends as it does |
| Ledger.SinkSeesAcceptedEvents | client/runner.go:337-343 | Over any drain the sink is offered the accepted pages' events in order: all of them, or up to and including the one it refused |
| Ledger.VerdictsRule | client/runner.go:302-361 | For every page of every run: progress only on accepted, skipped and emptied verdicts, the advance also on warnings, nothing after the chain on an invalidation |
| Ledger.PageStages | client/runner.go:292-361 | On every page of every document the chain writes only extract fields, the progress only progress fields, the advance only scratch fields, and a stage that is not attempted writes nothing |
| Ledger.LifetimesHoldOverDrains | client/state.go:253-311 | On accepted documents scratch and persistent fields are disjoint; on every page of every drain the former change in the advance alone, the latter in the chain or the progress alone, and operator fields never |
| Ledger.InvalidatedRetriesSamePage | client/runner.go:320-325 | After an invalidated page the next one starts with the same scratch fields, and nothing was delivered |
| Ledger.PageCapIsExact | client/runner.go:282-290 | At most the cap many iterations start; the cap error comes out exactly when that many all asked to go on and the context was live |
| Ledger.DrainCap | client/runner.go:282-290 | A drain without a configured limit is capped at ten thousand pages, one with a negative limit is not capped |
| Ledger.CancellationIsExact | client/runner.go:282-290 | A drain is cancelled exactly when every page asked to go on and the context was dead at the check behind the last one |
| Retries.PageSpent | client/runner.go:681-688 | Over a page the cache holds what the last logged store wrote, or what was there, and a true log of hits and drops stays true; an invalidated page leaves no declared slot, and was paid for |
| Retries.StoresPayForDrops | client/runner.go:839-886 | Over any drain of any document the stores, and a slot held at its start, cover the invalidations that had something to drop and a slot held at its end |
| Retries.StoresPayForRetries | client/runner.go:839-853 | Over any drain from an empty cache the invalidations never exceed the stores, unless a fan-out maps a status it does not expect to an invalidation |
| FreeRetries.FanOutsRetryForFree | client/fanout.go:128-140 | Every document that opens with such a fan-out retries, against a server that sends that status, until its context dies or its pages run out, without one store |
| FreeRetries.StoresPayExactly | client/fanout.go:128-140 | Among documents that open with a fan-out, the only one that may do so, the bound holds in every world exactly when no unexpected status is mapped to an invalidation |
| CacheRuns.HitsAreTrue | client/cache.go:52-102 | Every lookup that answered during a drain returned the value of the last store to its slot, before that store's expiry less the buffer, and the slot was stored since every earlier drop; a fresh scope meets its condition (`CacheRuns.FreshSessionIsTruthful`) |
| CacheRuns.AnswersAreLogged | client/http.go:56-61 | An exchange that succeeds without a call on the wire is a logged hit with that value |
| CacheRuns.MissesUntilStored | client/runner.go:839-897 | A declared slot that answers at the end of a page after an invalidated one was stored in between |
| CacheRuns.HitsAreLastStores | client/cache.go:52-102 | At the end of any page of a drain from an empty cache a hit is the value of the last store to its slot, and only while clock plus buffer is before that store's expiry |
| Emitter.EveryInterleaving | client/emitter.go:51-105 | In every reachable state sent is called, discarded, held and queued in order; the queue is bounded; only the last call can have failed and discarding starts after it; teardown is close, join, flush, save |
| Emitter.NoDeadlock | client/emitter.go:63-77 | No reachable state before the save is stuck and every schedule is finite, its length bounded by a fuel that never goes negative, because the consumer drains after an error |
| Emitter.BufferedRefinesSynchronous | client/emitter.go:30-105 | Once the consumer is joined the sink has seen exactly what the inline emitter would have shown it, and the error is recorded exactly when that one would have stopped |
| Emitter.DeliveredIffNoError | client/emitter.go:101-105 | After the join everything handed over was taken by the sink exactly when close reports no error |
| Emitter.ProgressDeliveredExactly | client/runner.go:337-353 | After the join the sink has taken every event handed over before the last progress exactly when no call failed or the failed call came after those events |
| Emitter.FailedSinkStillSaves | client/runner.go:251-270 | With a failing sink a schedule saves although a progressed page's event was refused |
| LateRefusals.SaveFollowsDeliveryExactly | client/runner.go:251-270 | Under every schedule the save follows the delivery of all progressed pages, exactly when the sink refuses nothing or no progress lies behind the first refused event by at most the queue bound and one more event |
| Emitter.AsyncEmitter.EmitPart | client/emitter.go:93-99 | The two atomic regions of emit: error check and blocking send |
| Emitter.AsyncEmitter.ConsumePart | client/emitter.go:67-77 | The atomic regions of the consumer loop |
| Emitter.AsyncEmitter.SetErr | client/emitter.go:85-91 | The first error is kept |
| Emitter.AsyncEmitter.Interleave | client/emitter.go:51-105 | Any schedule of both threads on the shared object leads to the specified state and keeps the invariant |
| Delivery.RefusalsOnlyCut | client/runner.go:337-343 | A refusing sink only cuts a drain short at the refused event; that page neither progresses nor advances |
| Delivery.ProgressAfterDelivery | client/runner.go:337-353 | Synchronously, when a page's progress fires the sink has taken all events of that page and of every page before |
| Delivery.BufferedDrainDelivers | client/runner.go:251-270 | Under every interleaving the buffered drain shows the sink what the synchronous one does; with no error from close the two drains are the same and every progressed page is delivered before the save |
| Servers.EventStore.Replenish | internal/testserver/events.go:29-41 | The loop refills the window with n consecutively numbered events |
| Servers.EventsAreNumbered | internal/testserver/events.go:29-41 | The events of a window are numbered on from the last window's, so no event is ever served twice |
| Servers.EventFields | internal/testserver/events.go:29-41 | An event carries its number, the same number as a padded identifier, and a time one second after the event before |
| Servers.EventStore.Slice | internal/testserver/events.go:45-55 | The page of a window, null past its end, and the panic of a bad bound |
| Servers.OffsetServer.Handle | internal/testserver/offset.go:20-53 | The offset handler on its store |
| Servers.CursorServer.Handle | internal/testserver/cursor_token.go:23-59 | The cursor handler on its store |
| Paging.RunsCover | client/runner.go:282-362 | A run whose pages each deliver the next chunk delivers the whole list once, in order, in the counted number of requests |
| OffsetPaging.OffsetTurns | client/pagination.go:229-282 | On the offset template a short page stops and a full page moves the counter by the step |
| OffsetPaging.OffsetPagingIsComplete | internal/testserver/offset.go:20-53 | One drain of the offset template emits the server's N events exactly once and in order with N / step + 1 requests, the k-th of which goes to the configured URL and asks for offset k * step, limit step and end (k + 1) * step |
| CursorPaging.CursorTurns | client/pagination.go:119-150 | On the cursor template the drain stops on the page without a next cursor |
| CursorPaging.CursorPagingIsComplete | internal/testserver/cursor_token.go:23-59 | One drain of the cursor template emits the server's N events exactly once and in order with max(1, ceil(N / page size)) requests, each of which carries the cursor of the page before |
| HighWater.ExtremeIsFirstGreatest | client/value.go:331-355 | On one comparable class the reducer returns the first greatest element, nil only when there is nothing else |
| HighWater.MarkMeaning | docs/runtime.md:239-243 | `max[state.x, max events.*.f]` is one step of the mark over the page's fields |
| HighWater.StepKeepsOrBeats | docs/runtime.md:239-243 | Whatever the values are, a step keeps the mark as it reads or takes a field of the page that beats it |
| HighWater.StreamIsBatchExactly | docs/runtime.md:239-243 | Over any set of values: for all initial values and pages the mark is the one maximum of everything, exactly when for any value that beats another every third is beaten by the first or beats the second, and empty values are beaten by all others |
| HighWater.SeparatedMeaning | client/predicate.go:163-206 | Where no word meets a time-shaped string that means one comparable class, or no value that beats another |
| HighWater.StreamIsBatch | docs/runtime.md:239-243 | On one comparable class the mark is, after any pages, the maximum of its initial value followed by all fields |
| HighWater.MarkNeverDecreases | docs/runtime.md:239-243 | The mark never decreases |
| HighWater.NothingLeavesMark | docs/runtime.md:239-243 | A page without the field leaves the mark as it reads, and as it is exactly when it is not an empty string, list or map |
| HighWater.MixedClassesDiffer | client/predicate.go:163-206 | A word hides the number after it on its own page, not in the whole list |
| HighWaterRuns.DrainStreamsMark | client/runner.go:345-353 | Over every drain, however it ends, the field is the stream of the fields of the pages whose progress landed |
| HighWaterRuns.DrainKeepsHighWaterMark | client/runner.go:345-353 | On one comparable class that is the first greatest of the old value and the fields of all events whose progress landed |
| HighWaterRuns.DrainMarkNeverDecreases | docs/runtime.md:239-243 | No drain lowers the mark, not even one that ends in an error |
| Worklist.HeadMeaning | docs/runtime.md:244-264 | Every reader sees the first entry of the queue |
| Worklist.PopMeaning | docs/runtime.md:244-264 | The pop removes exactly the first entry, or fails on something that is not a list |
| Worklist.WorklistIsAccounted | docs/runtime.md:244-264 | Over any drain, whatever its extracts write, the queue and the entries they bring in are the heads of the pages whose progress landed, the entries left and those the extracts throw out |
| Worklist.WorklistIsFifo | docs/runtime.md:249-252 | Over any drain that refills the queue at its end or when it is empty, the queue then the refills are the heads in order, then what is left |
| Worklist.WorklistIsConserved | docs/runtime.md:244-264 | Over any drain without refills, however it ends, the heads of the pages whose progress landed, then the rest, are the initial queue |
| Worklist.UnextractedQueueIsNotRefilled | client/extract.go:30-66 | A queue no extract targets is never refilled |
| Restart.SeedingIsOrderFree | client/state.go:169-181 | When no default reads a defaulted field the order of seeding cannot matter |
| Restart.ResetForgetsScratch | client/state.go:205-220 | From states that agree off the scratch fields the wipe leads to the same state, in any order of the fields |
| Restart.RestartIndependence | client/state.go:146-220 | Two snapshots that agree off the scratch fields give the same drain: pages, events, way out and new snapshot |
| Restart.ReloadKeepsSnapshot | client/state.go:146-199 | A snapshot survives load, wipe and snapshot exactly when it holds every defaulted field that is not scratch |
| Restart.SavedSnapshotIsStable | client/state.go:187-199 | What a drain saves is such a snapshot |
| DrainSeries.WorklistIsNeverLost | docs/runtime.md:263-267 | Over any number of sessions with failing saves and abrupt stops, the stored queue then the refills of the saved sessions are the heads their landed pages took, then the queue in the store: duplicates, never loss |
| DrainSeries.StoredMarkIsStreamed | client/runner.go:251-270 | Over such a series the stored mark is the stream of the fields of all landed pages of the saved sessions |
| DrainSeries.StoredMarkNeverFalls | docs/runtime.md:239-243 | On one comparable class the stored mark never falls |

## Left out

- Error texts, diagnostics, tracing, logging and redaction rendering: only success or failure is modelled.
- HTTP transport, header and URL building, request bodies, SigV4 and the OAuth2 wire exchange: a call is its URL, query and header values, and a reply may be anything; `Auth.Plain` stands for every variant that only evaluates values.
- Decoding of gzip, zip, csv, ndjson and YAML nodes: a reply carries its decoded body, or none when it does not decode; YAML scalar defaults are a parameter of the library.
- JSON text and its lexing, case-insensitive keys and duplicate keys: the codec works on JSON trees with int64 numbers.
- Unicode: strings are sequences of characters, trimming is ASCII, strings compare by character.
- Floats are reals: rounding is not modelled, and conversion to an integer only drops the fraction, whatever the range.
- The clock moves only with calls on the wire; evaluation between two calls sees one instant.
- The context is a number of checks after which it is cancelled; a request that is cut off shows up as a failed reply.
- Failing `store.Load` and documents with several pagination variants, both rejected before the drain starts.
- FileStore and the JSON form of snapshots: the store is a cell that may fail to save.
- Go's map order: the orders in which defaults are seeded and scratch fields wiped are parameters; query and header values are evaluated as sets, since only success is observed.
- CLI, configuration, fleet driver, the other templates and test scenarios: plumbing, or stub handlers like the two modelled.
- Authentication in the test servers: the bearer check is left out, requests are taken to carry the right token.
- The planned `iterate:` construct is not implemented and not modelled.
- OffsetPaging.OffsetPagingIsComplete: requires N + step to be within int64, because the server's own sum wraps beyond it.
- CursorPaging.CursorPagingIsComplete: requires N + page size to be within int64, for the same reason.
- Validation.AcceptedValuesEvaluate: covers values without parsing, list or arithmetic operations, because those can fail on the data a path leads to even when every path is valid.
- FreeRetries.StoresPayExactly: decides documents whose first step is the fan-out, ungated, with an item, a call that builds and static credentials; behind other steps it depends on what those steps store and fetch.
- CacheRuns.HitsAreTrue: speaks of documents in which no slot is named like another's expiry key; without that `Caching.CacheIsAMap` fails already for one store.
- Delivery.BufferedDrainDelivers: the buffered drain is the synchronous one with a willing sink, abandoned at the first emit that reports an error, which is where Drain returns.
