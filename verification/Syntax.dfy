/** The document syntax: paths, values, predicates and the blocks of a spec (package schema).
    A pointer field is an Option, and every discriminated union has exactly one form. */
module Syntax {

  datatype Option<+T> = None | Some(value: T)

  /** Errors carry no text: only the fact that an operation failed is modelled. */
  datatype Result<+T> = Ok(value: T) | Err

  /** `isZero` marks the explicit null form; a path is empty when it has no parts either way. */
  datatype Path = Path(parts: seq<string>, isZero: bool) {
    predicate IsEmpty() {
      isZero || parts == []
    }
  }

  datatype Reducer = Max | Min | First | Last | Count

  datatype ArithOp = AddOp | SubtractOp

  /** `Null` is the explicit null form, `Unset` the Go zero value that no decoder ever filled. */
  datatype Value =
    | Null
    | Unset
    | LitStr(text: string)
    | LitInt(n: int)
    | LitBool(b: bool)
    | Ref(path: Path, default: Option<Value>)
    | Now
    | Concat(parts: seq<Value>)
    | Select(branches: seq<Branch>, otherwise: Value)
    | Format(verb: string, inner: Value)
    | Base64(inner: Value)
    | List(elems: seq<Value>)
    | Object(fields: map<string, Value>)
    | Arith(op: ArithOp, operands: seq<Value>)
    | Reduce(reducer: Reducer, operand: Value)
    | Slice(operand: Value, from: Option<int>, to: Option<int>)
    | Regex(pattern: string, source: Value, capture: int, default: Option<Value>)

  datatype Branch = Branch(when: Predicate, value: Value)

  datatype Verb = Eq | Gt | Lt | Gte | Lte

  datatype Predicate =
    | NoPredicate
    | Compare(op: Verb, path: Path, value: Value)
    | Present(path: Path)
    | And(all: seq<Predicate>)
    | Or(any: seq<Predicate>)
    | Not(negated: Predicate)
    | LiteralBool(b: bool)

  datatype FieldDecl = FieldDecl(kind: string, default: Option<Value>)

  datatype Cache = Cache(to: Path, expiresAt: Value, buffer: string)

  datatype Grant = Grant(tokenUrl: Value, params: seq<Value>, cache: Option<Cache>)

  /** `Plain` stands for every variant whose only run-time effect is to evaluate its Values; a bearer
      token must also not be nil. */
  datatype Auth =
    | Plain(credentials: seq<Value>)
    | Bearer(token: Value)
    | OAuth2(grant: Grant)
    | MultiMode(branches: seq<AuthBranch>, otherwise: Auth)

  datatype AuthBranch = AuthBranch(when: Predicate, auth: Auth)

  /** One `{to, from, regex?, coerce?}` write; "" means the transform is not set. */
  datatype Write = Write(to: Path, from: Value, regex: string, coerce: string)

  datatype Extract = Extract(to: Path, from: Path, regex: string, coerce: string)

  datatype Merge = Flatten | Wrap

  datatype FanOut = FanOut(over: Value, alias: string, merge: Merge)

  datatype Action = Skip | Fail | EmptyEvents | InvalidateCache

  datatype ErrorMode = Standard | WarnMode | FailMode

  datatype Request = Request(
    id: string,
    url: Value,
    query: map<string, Value>,
    headers: map<string, Value>,
    rowOriented: bool,
    extract: seq<Extract>,
    fanOut: Option<FanOut>,
    expectStatus: seq<int>,
    gate: Option<Predicate>,
    terminateWhen: Option<Predicate>,
    onStatus: map<int, Action>,
    eventsAt: Option<Path>,
    cache: Option<Cache>)

  datatype Pagination =
    | NoPagination
    | CursorToken(from: Path, to: Path, terminateWhen: Option<Predicate>)
    | NextUrl(from: Path, to: Path, regex: string, capture: int, terminateWhen: Option<Predicate>)
    | Counter(to: Path, start: Option<Value>, step: Option<Value>, terminateWhen: Option<Predicate>)
    | Custom(advance: seq<Write>, until: Predicate)

  datatype Doc = Doc(
    state: map<string, FieldDecl>,
    auth: Auth,
    requests: seq<Request>,
    pagination: Pagination,
    progress: seq<Write>,
    errorMode: ErrorMode)
}
