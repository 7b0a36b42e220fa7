/** The REST front end: four handlers and what they share, as the code runs them. */
module Routes {
  import opened Wrappers
  import opened Config
  import opened Policy
  import opened Access
  import opened Upstream
  import opened Operations
  import opened ProxyState
  import RateLimit
  import M = Metrics

  // ----- what a caller may do -----

  function RequireScope(caller: Caller, scope: Scope): Result<(), ErrorKind> {
    if caller.token.HasScope(scope) then Ok(()) else Err(Forbidden)
  }

  function RequireSite(caller: Caller, site: string): Result<(), ErrorKind> {
    if caller.token.AllowsSite(site) then Ok(()) else Err(Forbidden)
  }

  /** Spends one unit of the caller's budget. */
  method Charge(caller: Caller, rate: RateLimit.RateLimits, now: nat) returns (r: Result<(), ErrorKind>)
    requires rate.Valid()
    modifies rate`limiters
    ensures rate.Valid()
    ensures r == if RateLimit.CheckOn(rate.quotaOf, old(rate.limiters), caller.token.name, now).0 then Ok(()) else Err(RateLimited)
    ensures rate.limiters == RateLimit.CheckOn(rate.quotaOf, old(rate.limiters), caller.token.name, now).1
  {
    var ok := rate.Check(caller.token, now);
    r := if ok then Ok(()) else Err(RateLimited);
  }

  /** One of the four calls the console connection offers: the ids are checked, then the call goes out. */
  function CallConsole(op: Operation, body: Json, count: Option<u32>, wire: Wire): (Result<(), ErrorKind>, Option<Message>) {
    match BuildCall(op)
    case Err(_) => (Err(BadRequest), None)
    case Ok(call) => (wire(Message(call, body, count)), Some(Message(call, body, count)))
  }

  function EnforceFor(request: CreateVoucherRequest, caller: Caller): Result<(), ErrorKind> {
    match Enforce(request, caller.ceilings)
    case Ok(_) => Ok(())
    case Err(e) => Err(if IsForbidden(e) then Forbidden else BadRequest)
  }

  function ParseBody(body: Json): Result<CreateVoucherRequest, ErrorKind> {
    match Parse(body)
    case Some(r) => Ok(r)
    case None => Err(BadRequest)
  }

  // ----- the counters -----

  ghost function CountersOf(m: M.Metrics): Counters
    reads m
  {
    Counters(m.requests, m.vouchersCreated, m.upstreamCalls)
  }

  /** Every exit of a handler, refusals included, runs through here. */
  method Finish(metrics: M.Metrics, caller: Caller, ask: Ask, count: Option<u32>, elapsedMs: nat, result: Result<(), ErrorKind>)
    requires result.Ok? ==>
               count == (if ask.op.CreateVouchers? && RequestOf(ask.input).Some? then Some(RequestOf(ask.input).value.count) else None)
    modifies metrics`requests, metrics`upstreamLatencyMs, metrics`upstreamCalls, metrics`vouchersCreated
    ensures CountersOf(metrics) == AfterRest(old(CountersOf(metrics)), caller, ask, result)
    ensures metrics.upstreamLatencyMs == old(metrics.upstreamLatencyMs) + elapsedMs
  {
    var outcome := match result case Ok(_) => "ok" case Err(e) => Kind(e);
    metrics.RecordRequest(caller.token.name, ActionText(ask.op), outcome);
    metrics.RecordUpstream(elapsedMs);
    if result.Ok? {
      if count.Some? {
        metrics.RecordVouchersCreated(caller.token.name, count.value);
      }
    }
  }

  // ----- the handlers -----

  method TryListSites(live: Live, caller: Caller, now: nat, wire: Wire)
    returns (result: Result<(), ErrorKind>, sent: Option<Message>)
    requires live.Valid()
    modifies live.rate`limiters
    ensures live.Valid()
    ensures Effect(result, sent, live.rate.limiters) ==
              Attempt(live.rate.quotaOf, old(live.rate.limiters), caller, Ask(ListSites, Nothing), now, wire)
    ensures sent.Some? ==> SitesRead in caller.token.scopes
    ensures !(SitesRead in caller.token.scopes) ==> result == Err(Forbidden)
  {
    sent := None;
    var _ :- RequireScope(caller, SitesRead);
    var _ :- Charge(caller, live.rate, now);
    var (r, s) := CallConsole(ListSites, Null, None, wire);
    result, sent := r, s;
  }

  method TryListVouchers(live: Live, caller: Caller, site: string, now: nat, wire: Wire)
    returns (result: Result<(), ErrorKind>, sent: Option<Message>)
    requires live.Valid()
    modifies live.rate`limiters
    ensures live.Valid()
    ensures Effect(result, sent, live.rate.limiters) ==
              Attempt(live.rate.quotaOf, old(live.rate.limiters), caller, Ask(ListVouchers(site), Nothing), now, wire)
    ensures sent.Some? ==> VouchersRead in caller.token.scopes && ("*" in caller.token.sites || site in caller.token.sites)
    ensures !(VouchersRead in caller.token.scopes && ("*" in caller.token.sites || site in caller.token.sites)) ==> result == Err(Forbidden)
  {
    sent := None;
    var _ :- RequireScope(caller, VouchersRead);
    var _ :- RequireSite(caller, site);
    var _ :- Charge(caller, live.rate, now);
    var (r, s) := CallConsole(ListVouchers(site), Null, None, wire);
    result, sent := r, s;
  }

  method TryCreateVouchers(live: Live, caller: Caller, site: string, body: Json, now: nat, wire: Wire)
    returns (result: Result<(), ErrorKind>, count: Option<u32>, sent: Option<Message>)
    requires live.Valid()
    modifies live.rate`limiters
    ensures live.Valid()
    ensures Effect(result, sent, live.rate.limiters) ==
              Attempt(live.rate.quotaOf, old(live.rate.limiters), caller, Ask(CreateVouchers(site), Body(body)), now, wire)
    ensures result.Ok? ==> Parse(body).Some? && count == Some(Parse(body).value.count)
    ensures sent.Some? ==> VouchersCreate in caller.token.scopes && ("*" in caller.token.sites || site in caller.token.sites)
    ensures !(VouchersCreate in caller.token.scopes && ("*" in caller.token.sites || site in caller.token.sites)) ==> result == Err(Forbidden)
  {
    count, sent := None, None;
    var _ :- RequireScope(caller, VouchersCreate);
    var _ :- RequireSite(caller, site);
    var _ :- Charge(caller, live.rate, now);
    var request :- ParseBody(body);
    var _ :- EnforceFor(request, caller);
    count := Some(request.count);
    var (r, s) := CallConsole(CreateVouchers(site), ToUpstreamBody(request), count, wire);
    result, sent := r, s;
  }

  method TryDeleteVoucher(live: Live, caller: Caller, site: string, voucher: string, now: nat, wire: Wire)
    returns (result: Result<(), ErrorKind>, sent: Option<Message>)
    requires live.Valid()
    modifies live.rate`limiters
    ensures live.Valid()
    ensures Effect(result, sent, live.rate.limiters) ==
              Attempt(live.rate.quotaOf, old(live.rate.limiters), caller, Ask(DeleteVoucher(site, voucher), Nothing), now, wire)
    ensures sent.Some? ==> VouchersRevoke in caller.token.scopes && ("*" in caller.token.sites || site in caller.token.sites)
    ensures !(VouchersRevoke in caller.token.scopes && ("*" in caller.token.sites || site in caller.token.sites)) ==> result == Err(Forbidden)
  {
    sent := None;
    var _ :- RequireScope(caller, VouchersRevoke);
    var _ :- RequireSite(caller, site);
    var _ :- Charge(caller, live.rate, now);
    var (r, s) := CallConsole(DeleteVoucher(site, voucher), Null, None, wire);
    result, sent := r, s;
  }

  method ListSitesHandler(state: AppState, caller: Caller, now: nat, wire: Wire, elapsedMs: nat)
    returns (result: Result<(), ErrorKind>, sent: Option<Message>)
    requires state.Valid()
    modifies state.live.rate`limiters
    modifies state.metrics`requests, state.metrics`upstreamLatencyMs, state.metrics`upstreamCalls, state.metrics`vouchersCreated
    ensures state.Valid()
    ensures Effect(result, sent, state.live.rate.limiters) ==
              Attempt(state.live.rate.quotaOf, old(state.live.rate.limiters), caller, Ask(ListSites, Nothing), now, wire)
    ensures CountersOf(state.metrics) == AfterRest(old(CountersOf(state.metrics)), caller, Ask(ListSites, Nothing), result)
    ensures sent.Some? ==> SitesRead in caller.token.scopes
    ensures !(SitesRead in caller.token.scopes) ==> result == Err(Forbidden)
    ensures state.metrics.requests == M.CountRequest(old(state.metrics.requests), M.Key(caller.token.name, "sites:list", OutcomeText(result)))
    ensures state.metrics.upstreamCalls == old(state.metrics.upstreamCalls) + 1
  {
    result, sent := TryListSites(state.live, caller, now, wire);
    Finish(state.metrics, caller, Ask(ListSites, Nothing), None, if sent.Some? then elapsedMs else 0, result);
  }

  method ListVouchersHandler(state: AppState, caller: Caller, site: string, now: nat, wire: Wire, elapsedMs: nat)
    returns (result: Result<(), ErrorKind>, sent: Option<Message>)
    requires state.Valid()
    modifies state.live.rate`limiters
    modifies state.metrics`requests, state.metrics`upstreamLatencyMs, state.metrics`upstreamCalls, state.metrics`vouchersCreated
    ensures state.Valid()
    ensures Effect(result, sent, state.live.rate.limiters) ==
              Attempt(state.live.rate.quotaOf, old(state.live.rate.limiters), caller, Ask(ListVouchers(site), Nothing), now, wire)
    ensures CountersOf(state.metrics) == AfterRest(old(CountersOf(state.metrics)), caller, Ask(ListVouchers(site), Nothing), result)
    ensures sent.Some? ==> VouchersRead in caller.token.scopes && ("*" in caller.token.sites || site in caller.token.sites)
    ensures !(VouchersRead in caller.token.scopes && ("*" in caller.token.sites || site in caller.token.sites)) ==> result == Err(Forbidden)
    ensures state.metrics.requests == M.CountRequest(old(state.metrics.requests), M.Key(caller.token.name, "vouchers:list", OutcomeText(result)))
    ensures state.metrics.upstreamCalls == old(state.metrics.upstreamCalls) + 1
  {
    result, sent := TryListVouchers(state.live, caller, site, now, wire);
    Finish(state.metrics, caller, Ask(ListVouchers(site), Nothing), None, if sent.Some? then elapsedMs else 0, result);
  }

  method CreateVouchersHandler(state: AppState, caller: Caller, site: string, body: Json, now: nat, wire: Wire, elapsedMs: nat)
    returns (result: Result<(), ErrorKind>, sent: Option<Message>)
    requires state.Valid()
    modifies state.live.rate`limiters
    modifies state.metrics`requests, state.metrics`upstreamLatencyMs, state.metrics`upstreamCalls, state.metrics`vouchersCreated
    ensures state.Valid()
    ensures Effect(result, sent, state.live.rate.limiters) ==
              Attempt(state.live.rate.quotaOf, old(state.live.rate.limiters), caller, Ask(CreateVouchers(site), Body(body)), now, wire)
    ensures CountersOf(state.metrics) == AfterRest(old(CountersOf(state.metrics)), caller, Ask(CreateVouchers(site), Body(body)), result)
    ensures sent.Some? ==> VouchersCreate in caller.token.scopes && ("*" in caller.token.sites || site in caller.token.sites)
    ensures !(VouchersCreate in caller.token.scopes && ("*" in caller.token.sites || site in caller.token.sites)) ==> result == Err(Forbidden)
    ensures state.metrics.requests == M.CountRequest(old(state.metrics.requests), M.Key(caller.token.name, "vouchers:create", OutcomeText(result)))
    ensures state.metrics.vouchersCreated ==
              if result.Ok? && Parse(body).Some? then M.AddCreated(old(state.metrics.vouchersCreated), caller.token.name, Parse(body).value.count)
              else old(state.metrics.vouchersCreated)
    ensures state.metrics.upstreamCalls == old(state.metrics.upstreamCalls) + 1
  {
    var count;
    result, count, sent := TryCreateVouchers(state.live, caller, site, body, now, wire);
    Finish(state.metrics, caller, Ask(CreateVouchers(site), Body(body)), count, if sent.Some? then elapsedMs else 0, result);
  }

  method DeleteVoucherHandler(state: AppState, caller: Caller, site: string, voucher: string, now: nat, wire: Wire, elapsedMs: nat)
    returns (result: Result<(), ErrorKind>, sent: Option<Message>)
    requires state.Valid()
    modifies state.live.rate`limiters
    modifies state.metrics`requests, state.metrics`upstreamLatencyMs, state.metrics`upstreamCalls, state.metrics`vouchersCreated
    ensures state.Valid()
    ensures Effect(result, sent, state.live.rate.limiters) ==
              Attempt(state.live.rate.quotaOf, old(state.live.rate.limiters), caller, Ask(DeleteVoucher(site, voucher), Nothing), now, wire)
    ensures CountersOf(state.metrics) == AfterRest(old(CountersOf(state.metrics)), caller, Ask(DeleteVoucher(site, voucher), Nothing), result)
    ensures sent.Some? ==> VouchersRevoke in caller.token.scopes && ("*" in caller.token.sites || site in caller.token.sites)
    ensures !(VouchersRevoke in caller.token.scopes && ("*" in caller.token.sites || site in caller.token.sites)) ==> result == Err(Forbidden)
    ensures state.metrics.requests == M.CountRequest(old(state.metrics.requests), M.Key(caller.token.name, "vouchers:revoke", OutcomeText(result)))
    ensures state.metrics.upstreamCalls == old(state.metrics.upstreamCalls) + 1
  {
    result, sent := TryDeleteVoucher(state.live, caller, site, voucher, now, wire);
    Finish(state.metrics, caller, Ask(DeleteVoucher(site, voucher), Nothing), None, if sent.Some? then elapsedMs else 0, result);
  }
}
