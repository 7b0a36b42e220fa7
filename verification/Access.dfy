/** What a caller is, what an operation needs, and what is put on the wire for it. */
module Access {
  import opened Wrappers
  import opened Config
  import opened Policy
  import opened Upstream

  datatype ErrorKind =
    | Unauthorized
    | TokenExpired
    | Forbidden
    | NotAllowed
    | BadRequest
    | RateLimited
    | UpstreamError
    | UpstreamUnreachable
    | Internal

  /** The tag of an error, as it appears in counters. */
  function Kind(e: ErrorKind): string {
    match e
    case Unauthorized => "unauthorized"
    case TokenExpired => "token_expired"
    case Forbidden => "forbidden"
    case NotAllowed => "not_allowed"
    case BadRequest => "bad_request"
    case RateLimited => "rate_limited"
    case UpstreamError => "upstream_error"
    case UpstreamUnreachable => "upstream_unreachable"
    case Internal => "internal"
  }

  /** An authenticated client. */
  datatype Caller = Caller(token: TokenConfig, ceilings: Ceilings)

  function CallerFor(token: TokenConfig, limits: Limits): Caller {
    Caller(token, Ceilings(token.EffectiveMaxVouchers(limits), token.EffectiveMaxValidity(limits)))
  }

  function ScopeFor(op: Operation): Scope {
    match op
    case ListSites => SitesRead
    case ListVouchers(_) => VouchersRead
    case CreateVouchers(_) => VouchersCreate
    case DeleteVoucher(_, _) => VouchersRevoke
  }

  /** Scope first, then the site where the operation names one. */
  predicate Permits(token: TokenConfig, op: Operation) {
    token.HasScope(ScopeFor(op)) && (op.ListSites? || token.AllowsSite(op.site))
  }

  function ActionText(op: Operation): string {
    match op
    case ListSites => "sites:list"
    case ListVouchers(_) => "vouchers:list"
    case CreateVouchers(_) => "vouchers:create"
    case DeleteVoucher(_, _) => "vouchers:revoke"
  }

  /** What comes with an operation: nothing, a JSON body, or a GraphQL input already typed. */
  datatype Input = Nothing | Body(json: Json) | Typed(request: CreateVoucherRequest)

  datatype Ask = Ask(op: Operation, input: Input)

  function RequestOf(input: Input): Option<CreateVoucherRequest> {
    match input
    case Nothing => None
    case Body(j) => Parse(j)
    case Typed(r) => Some(r)
  }

  /** What reaches the console: the call, its body, and how many vouchers it asks for. */
  datatype Message = Message(call: Call, body: Json, count: Option<u32>)

  function Prepare(ask: Ask, ceilings: Ceilings): Result<Message, ErrorKind> {
    if ask.op.CreateVouchers? then
      match RequestOf(ask.input)
      case None => Err(BadRequest)
      case Some(r) =>
        match Enforce(r, ceilings)
        case Err(e) => Err(if IsForbidden(e) then Forbidden else BadRequest)
        case Ok(_) =>
          match BuildCall(ask.op)
          case Err(_) => Err(BadRequest)
          case Ok(call) => Ok(Message(call, ToUpstreamBody(r), Some(r.count)))
    else
      match BuildCall(ask.op)
      case Err(_) => Err(BadRequest)
      case Ok(call) => Ok(Message(call, Null, None))
  }

  /** A message says what was asked, in safe ids, and within the ceilings. */
  ghost predicate IsFaithful(msg: Message, ask: Ask, ceilings: Ceilings) {
    && ParseCall(msg.call) == Some(ask.op)
    && IdsAreSafe(ask.op)
    && (ask.op.CreateVouchers? ==>
          && RequestOf(ask.input).Some?
          && WithinCeilings(RequestOf(ask.input).value, ceilings)
          && Parse(msg.body) == RequestOf(ask.input)
          && msg.body == ToUpstreamBody(RequestOf(ask.input).value)
          && msg.count == Some(RequestOf(ask.input).value.count))
    && (!ask.op.CreateVouchers? ==> msg.count == None && msg.body == Null)
  }

  /** Something is sent exactly when the ids are safe and a create is understood and within its
      ceilings; and then what is sent means what was asked. It is "forbidden" exactly to be past a
      ceiling; every other fault is a bad request. */
  lemma PreparedExactlyWhenAcceptable(ask: Ask, ceilings: Ceilings)
    ensures Prepare(ask, ceilings).Ok? <==>
              && IdsAreSafe(ask.op)
              && (ask.op.CreateVouchers? ==> RequestOf(ask.input).Some? && WithinCeilings(RequestOf(ask.input).value, ceilings))
    ensures Prepare(ask, ceilings).Ok? ==> IsFaithful(Prepare(ask, ceilings).value, ask, ceilings)
    ensures Prepare(ask, ceilings).Err? ==>
              Prepare(ask, ceilings).error ==
                if ask.op.CreateVouchers? && RequestOf(ask.input).Some? && IsOverCeiling(RequestOf(ask.input).value, ceilings)
                then Forbidden else BadRequest
  {
    CallIsBuiltForSafeIds(ask.op);
    if BuildCall(ask.op).Ok? { CallRoundTrip(ask.op); }
    if ask.op.CreateVouchers? && RequestOf(ask.input).Some? {
      EnforceAcceptsExactlyWithin(RequestOf(ask.input).value, ceilings);
      BodyRoundTrip(RequestOf(ask.input).value);
    }
  }
}
