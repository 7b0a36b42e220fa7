/** The GraphQL front end: four resolvers, as the code runs them. */
module Graphql {
  import opened Wrappers
  import opened Config
  import opened Policy
  import opened Access
  import opened Upstream
  import opened Operations
  import opened ProxyState
  import opened Routes
  import Auth
  import RateLimit
  import M = Metrics

  method Sites(state: AppState, caller: Caller, now: nat, wire: Wire, elapsedMs: nat)
    returns (result: Result<(), ErrorKind>, sent: Option<Message>)
    requires state.Valid()
    modifies state.live.rate`limiters, state.metrics`upstreamLatencyMs, state.metrics`upstreamCalls
    ensures state.Valid()
    ensures Effect(result, sent, state.live.rate.limiters) ==
              Attempt(state.live.rate.quotaOf, old(state.live.rate.limiters), caller, Ask(ListSites, Nothing), now, wire)
    ensures CountersOf(state.metrics) == AfterResolver(old(CountersOf(state.metrics)), caller, Ask(ListSites, Nothing), result)
    ensures sent.Some? ==> SitesRead in caller.token.scopes
    ensures !(SitesRead in caller.token.scopes) ==> result == Err(Forbidden)
  {
    sent := None;
    var live := state.live;
    var _ :- RequireScope(caller, SitesRead);
    var _ :- Charge(caller, live.rate, now);
    var (body, s) := CallConsole(ListSites, Null, None, wire);
    sent := s;
    var _ :- body;
    state.metrics.RecordUpstream(elapsedMs);
    result := Ok(());
  }

  method Vouchers(state: AppState, caller: Caller, site: string, now: nat, wire: Wire, elapsedMs: nat)
    returns (result: Result<(), ErrorKind>, sent: Option<Message>)
    requires state.Valid()
    modifies state.live.rate`limiters, state.metrics`upstreamLatencyMs, state.metrics`upstreamCalls
    ensures state.Valid()
    ensures Effect(result, sent, state.live.rate.limiters) ==
              Attempt(state.live.rate.quotaOf, old(state.live.rate.limiters), caller, Ask(ListVouchers(site), Nothing), now, wire)
    ensures CountersOf(state.metrics) == AfterResolver(old(CountersOf(state.metrics)), caller, Ask(ListVouchers(site), Nothing), result)
    ensures sent.Some? ==> VouchersRead in caller.token.scopes && ("*" in caller.token.sites || site in caller.token.sites)
    ensures !(VouchersRead in caller.token.scopes && ("*" in caller.token.sites || site in caller.token.sites)) ==> result == Err(Forbidden)
  {
    sent := None;
    var live := state.live;
    var _ :- RequireScope(caller, VouchersRead);
    var _ :- RequireSite(caller, site);
    var _ :- Charge(caller, live.rate, now);
    var (body, s) := CallConsole(ListVouchers(site), Null, None, wire);
    sent := s;
    var _ :- body;
    state.metrics.RecordUpstream(elapsedMs);
    result := Ok(());
  }

  /** The input object is typed by the schema; it has the same fields as the REST request. */
  datatype CreateVoucherInput = CreateVoucherInput(
    name: string,
    count: u32,
    timeLimitMinutes: u64,
    authorizedGuestLimit: u32,
    dataUsageLimitMBytes: Option<u64>,
    rxRateLimitKbps: Option<u64>,
    txRateLimitKbps: Option<u64>)

  function IntoRequest(i: CreateVoucherInput): CreateVoucherRequest {
    CreateVoucherRequest(i.name, i.count, i.timeLimitMinutes, i.authorizedGuestLimit,
                         i.dataUsageLimitMBytes, i.rxRateLimitKbps, i.txRateLimitKbps)
  }

  method CreateVouchersResolver(state: AppState, caller: Caller, site: string, input: CreateVoucherInput, now: nat, wire: Wire, elapsedMs: nat)
    returns (result: Result<(), ErrorKind>, sent: Option<Message>)
    requires state.Valid()
    modifies state.live.rate`limiters
    modifies state.metrics`upstreamLatencyMs, state.metrics`upstreamCalls, state.metrics`vouchersCreated
    ensures state.Valid()
    ensures Effect(result, sent, state.live.rate.limiters) ==
              Attempt(state.live.rate.quotaOf, old(state.live.rate.limiters), caller,
                      Ask(CreateVouchers(site), Typed(IntoRequest(input))), now, wire)
    ensures CountersOf(state.metrics) ==
              AfterResolver(old(CountersOf(state.metrics)), caller, Ask(CreateVouchers(site), Typed(IntoRequest(input))), result)
    ensures sent.Some? ==> VouchersCreate in caller.token.scopes && ("*" in caller.token.sites || site in caller.token.sites)
    ensures !(VouchersCreate in caller.token.scopes && ("*" in caller.token.sites || site in caller.token.sites)) ==> result == Err(Forbidden)
    ensures state.metrics.vouchersCreated ==
              if result.Ok? then M.AddCreated(old(state.metrics.vouchersCreated), caller.token.name, input.count)
              else old(state.metrics.vouchersCreated)
    ensures state.metrics.upstreamCalls == old(state.metrics.upstreamCalls) + (if result.Ok? then 1 else 0)
  {
    sent := None;
    var live := state.live;
    var _ :- RequireScope(caller, VouchersCreate);
    var _ :- RequireSite(caller, site);
    var _ :- Charge(caller, live.rate, now);
    var request := IntoRequest(input);
    var _ :- EnforceFor(request, caller);
    var (body, s) := CallConsole(CreateVouchers(site), ToUpstreamBody(request), Some(request.count), wire);
    sent := s;
    var _ :- body;
    state.metrics.RecordUpstream(elapsedMs);
    state.metrics.RecordVouchersCreated(caller.token.name, request.count);
    result := Ok(());
  }

  method RevokeVoucher(state: AppState, caller: Caller, site: string, voucher: string, now: nat, wire: Wire, elapsedMs: nat)
    returns (result: Result<(), ErrorKind>, sent: Option<Message>)
    requires state.Valid()
    modifies state.live.rate`limiters, state.metrics`upstreamLatencyMs, state.metrics`upstreamCalls
    ensures state.Valid()
    ensures Effect(result, sent, state.live.rate.limiters) ==
              Attempt(state.live.rate.quotaOf, old(state.live.rate.limiters), caller, Ask(DeleteVoucher(site, voucher), Nothing), now, wire)
    ensures CountersOf(state.metrics) == AfterResolver(old(CountersOf(state.metrics)), caller, Ask(DeleteVoucher(site, voucher), Nothing), result)
    ensures sent.Some? ==> VouchersRevoke in caller.token.scopes && ("*" in caller.token.sites || site in caller.token.sites)
    ensures !(VouchersRevoke in caller.token.scopes && ("*" in caller.token.sites || site in caller.token.sites)) ==> result == Err(Forbidden)
  {
    sent := None;
    var live := state.live;
    var _ :- RequireScope(caller, VouchersRevoke);
    var _ :- RequireSite(caller, site);
    var _ :- Charge(caller, live.rate, now);
    var (body, s) := CallConsole(DeleteVoucher(site, voucher), Null, None, wire);
    sent := s;
    var _ :- body;
    state.metrics.RecordUpstream(elapsedMs);
    result := Ok(());
  }

  // ----- a whole document -----

  /** One resolver call of a document. */
  datatype Field =
    | SitesField
    | VouchersField(site: string)
    | CreateField(site: string, input: CreateVoucherInput)
    | RevokeField(site: string, voucher: string)

  function AskOf(f: Field): Ask {
    match f
    case SitesField => Ask(ListSites, Nothing)
    case VouchersField(site) => Ask(ListVouchers(site), Nothing)
    case CreateField(site, input) => Ask(CreateVouchers(site), Typed(IntoRequest(input)))
    case RevokeField(site, voucher) => Ask(DeleteVoucher(site, voucher), Nothing)
  }

  /** There is no resolver that can ask for anything a REST request cannot; only to create does it take
      more than an address, and then every field of its input means the field of that name. */
  lemma EveryFieldHasARestForm(f: Field)
    ensures SameAsk(RestForm(AskOf(f)), AskOf(f))
    ensures RestForm(AskOf(f)).input == if f.CreateField? then Body(ToUpstreamBody(IntoRequest(f.input))) else Nothing
    ensures f.CreateField? ==>
              var r, i := IntoRequest(f.input), f.input;
              && r.name == i.name && r.count == i.count && r.timeLimitMinutes == i.timeLimitMinutes
              && r.authorizedGuestLimit == i.authorizedGuestLimit && r.dataUsageLimitMBytes == i.dataUsageLimitMBytes
              && r.rxRateLimitKbps == i.rxRateLimitKbps && r.txRateLimitKbps == i.txRateLimitKbps
  {
    EveryAskHasARestForm(AskOf(f));
  }

  // ----- a document and what happens around it -----

  /** What happens while a document is being answered: one of its resolvers runs, somebody else spends
      from a token at the running generation, or the process is told to reload, with what it finds
      and what comes of that. */
  datatype Happening =
    | Resolves(field: Field, now: nat, wire: Wire, elapsedMs: nat)
    | Spends(token: TokenConfig, at: nat)
    | HangsUp(found: Found, outcome: Result<Config, ReloadError>)

  predicate IsActual(h: Happening) { h.HangsUp? ==> h.outcome == Outcome(h.found) }

  predicate Renews(h: Happening) { h.HangsUp? && h.outcome.Ok? }

  /** The generation that runs after these happenings, counted from the one at the start. */
  function Running(hs: seq<Happening>): nat {
    if hs == [] then 0 else Running(hs[..|hs| - 1]) + (if Renews(hs[|hs| - 1]) then 1 else 0)
  }

  /** A happening as a step when generation `gen` runs: a resolver loads that one. */
  function StepOf(h: Happening, gen: nat): Step {
    match h
    case Resolves(field, now, wire, _) => Turn(AskOf(field), gen, now, wire)
    case Spends(token, at) => Others(Spend(gen, token.name, at))
    case HangsUp(_, outcome) => Others(RenewalOf(outcome))
  }

  function RenewalOf(outcome: Result<Config, ReloadError>): Interlude {
    match outcome
    case Ok(cfg) => Renew(RateLimit.LimitersFor(cfg.tokens, cfg.limits))
    case Err(_) => Operations.Idle
  }

  function StepsOf(hs: seq<Happening>): seq<Step> {
    seq(|hs|, i requires 0 <= i < |hs| => StepOf(hs[i], Running(hs[..i])))
  }

  /** The same happenings, with a REST handler in each resolver's place. */
  function RestStepOf(h: Happening, gen: nat): Step {
    match h
    case Resolves(field, now, wire, _) => Turn(RestForm(AskOf(field)), gen, now, wire)
    case _ => StepOf(h, gen)
  }

  function RestStepsOf(hs: seq<Happening>): seq<Step> {
    seq(|hs|, i requires 0 <= i < |hs| => RestStepOf(hs[i], Running(hs[..i])))
  }

  /** Against REST handlers in its resolvers' places, with the same charges and reloads by others in
      between, a document sends the same messages, spends the same budgets of every generation, fails
      in the same ways and counts the same vouchers. */
  lemma DocumentSimulatesRest(quotaOf: u32 -> RateLimit.Quota, log: Log, caller: Caller, hs: seq<Happening>)
    ensures Simulates(log, RestRuns(quotaOf, log, caller, RestStepsOf(hs)), ResolverRuns(quotaOf, log, caller, StepsOf(hs)),
                      Turns(RestStepsOf(hs)))
  {
    var rest, steps := RestStepsOf(hs), StepsOf(hs);
    forall i | 0 <= i < |hs| ensures SameStep(rest[i], steps[i]) {
      if hs[i].Resolves? { EveryFieldHasARestForm(hs[i].field); }
    }
    ResolversSimulateHandlers(quotaOf, log, caller, rest, steps);
  }

  // ----- the endpoint -----

  method Resolve(state: AppState, caller: Caller, field: Field, now: nat, wire: Wire, elapsedMs: nat)
    returns (result: Result<(), ErrorKind>, sent: Option<Message>)
    requires state.Valid()
    modifies state.live.rate`limiters
    modifies state.metrics`upstreamLatencyMs, state.metrics`upstreamCalls, state.metrics`vouchersCreated
    ensures state.Valid()
    ensures Effect(result, sent, state.live.rate.limiters) ==
              Attempt(state.live.rate.quotaOf, old(state.live.rate.limiters), caller, AskOf(field), now, wire)
    ensures CountersOf(state.metrics) == AfterResolver(old(CountersOf(state.metrics)), caller, AskOf(field), result)
  {
    match field
    case SitesField => result, sent := Sites(state, caller, now, wire, elapsedMs);
    case VouchersField(site) => result, sent := Vouchers(state, caller, site, now, wire, elapsedMs);
    case CreateField(site, input) => result, sent := CreateVouchersResolver(state, caller, site, input, now, wire, elapsedMs);
    case RevokeField(site, voucher) => result, sent := RevokeVoucher(state, caller, site, voucher, now, wire, elapsedMs);
  }

  /** The running generation's limiters are the last of the budgets. */
  ghost predicate Runs(state: AppState, quotaOf: u32 -> RateLimit.Quota, budgets: Budgets)
    reads state`live, state.live.auth`cache, state.live.rate
  {
    && state.Valid()
    && state.live.rate.quotaOf == quotaOf
    && budgets != [] && budgets[|budgets| - 1] == state.live.rate.limiters
  }

  /** The log after one happening, when the last of its budgets is the running one. */
  ghost function Next(quotaOf: u32 -> RateLimit.Quota, log: Log, caller: Caller, h: Happening): Log
    requires log.budgets != []
  {
    var gen := |log.budgets| - 1;
    match h
    case Spends(token, at) => log.(budgets := Interfere(quotaOf, log.budgets, Spend(gen, token.name, at)))
    case HangsUp(_, outcome) => log.(budgets := Interfere(quotaOf, log.budgets, RenewalOf(outcome)))
    case Resolves(field, now, wire, _) =>
      var e := Attempt(quotaOf, log.budgets[gen], caller, AskOf(field), now, wire);
      LogAfter(log, gen, e, AfterResolver(log.counters, caller, AskOf(field), e.result))
  }

  /** What others do. */
  method Interrupt(state: AppState, h: Happening, crypto: Auth.Crypto, quotaOf: u32 -> RateLimit.Quota, ghost log: Log, caller: Caller)
    returns (ghost after: Log)
    requires Runs(state, quotaOf, log.budgets) && CountersOf(state.metrics) == log.counters && IsActual(h) && !h.Resolves?
    modifies state`live, state.live.rate`limiters, state.metrics`reloads, state.metrics`reloadFailures
    ensures state.live == old(state.live) || (fresh(state.live) && fresh(state.live.auth) && fresh(state.live.rate))
    ensures after == Next(quotaOf, log, caller, h)
    ensures Runs(state, quotaOf, after.budgets) && CountersOf(state.metrics) == after.counters
    ensures |after.budgets| == |log.budgets| + (if Renews(h) then 1 else 0) && after.results == log.results
  {
    after := Next(quotaOf, log, caller, h);
    match h
    case Spends(token, at) => var _ := state.live.rate.Check(token, at);
    case HangsUp(found, _) => state.OnHangup(found, crypto, quotaOf);
  }

  /** One resolver, against whatever generation runs now. */
  method TakeTurn(state: AppState, caller: Caller, h: Happening, quotaOf: u32 -> RateLimit.Quota, ghost log: Log)
    returns (result: Result<(), ErrorKind>, ghost after: Log)
    requires Runs(state, quotaOf, log.budgets) && CountersOf(state.metrics) == log.counters && h.Resolves?
    modifies state.live.rate`limiters
    modifies state.metrics`upstreamLatencyMs, state.metrics`upstreamCalls, state.metrics`vouchersCreated
    ensures after == Next(quotaOf, log, caller, h)
    ensures Runs(state, quotaOf, after.budgets) && CountersOf(state.metrics) == after.counters
    ensures |after.budgets| == |log.budgets| && after.results == log.results + [result]
  {
    var sent;
    result, sent := Resolve(state, caller, h.field, h.now, h.wire, h.elapsedMs);
    ghost var e := Effect(result, sent, state.live.rate.limiters);
    after := LogAfter(log, |log.budgets| - 1, e, AfterResolver(log.counters, caller, AskOf(h.field), e.result));
  }

  /** One happening further. */
  lemma RunsExtend(quotaOf: u32 -> RateLimit.Quota, start: Log, caller: Caller, hs: seq<Happening>, i: nat, log: Log)
    requires i < |hs| && log == ResolverRuns(quotaOf, start, caller, StepsOf(hs)[..i]) && |log.budgets| == Running(hs[..i]) + 1
    ensures ResolverRuns(quotaOf, start, caller, StepsOf(hs)[..i + 1]) == Next(quotaOf, log, caller, hs[i])
    ensures Running(hs[..i + 1]) == Running(hs[..i]) + (if Renews(hs[i]) then 1 else 0)
  {
    var longer := StepsOf(hs)[..i + 1];
    assert longer[..|longer| - 1] == StepsOf(hs)[..i] && longer[|longer| - 1] == StepOf(hs[i], Running(hs[..i]));
    assert hs[..i + 1][..i] == hs[..i];
  }

  /** The endpoint: the document's resolvers in the order given, each loading whatever generation runs
      by then, whatever others spend and reload in between; then one count for the whole. */
  method Execute(state: AppState, caller: Caller, hs: seq<Happening>, crypto: Auth.Crypto, quotaOf: u32 -> RateLimit.Quota)
    returns (ok: bool, ghost after: Log)
    requires state.Valid() && state.live.rate.quotaOf == quotaOf
    requires forall i :: 0 <= i < |hs| ==> IsActual(hs[i])
    modifies state`live, state.live.rate`limiters, state.metrics
    ensures state.Valid()
    ensures after == ResolverRuns(quotaOf, Log([old(state.live.rate.limiters)], [], [], old(CountersOf(state.metrics))),
                                  caller, StepsOf(hs))
    ensures ok <==> Failures(after.results) == 0
    ensures after.budgets != [] && state.live.rate.limiters == after.budgets[|after.budgets| - 1]
    ensures CountersOf(state.metrics) ==
              after.counters.(requests := M.CountRequest(after.counters.requests,
                                                         M.Key(caller.token.name, "graphql", if ok then "ok" else "graphql_errors")))
  {
    ghost var start := Log([state.live.rate.limiters], [], [], CountersOf(state.metrics));
    ok, after := RunAll(state, caller, hs, crypto, quotaOf, start);
    state.metrics.RecordRequest(caller.token.name, "graphql", if ok then "ok" else "graphql_errors");
  }

  /** A resolver, or what happens in between; good unless a resolver failed. */
  method Happen(state: AppState, caller: Caller, h: Happening, crypto: Auth.Crypto, quotaOf: u32 -> RateLimit.Quota, ghost log: Log)
    returns (good: bool, ghost after: Log)
    requires Runs(state, quotaOf, log.budgets) && CountersOf(state.metrics) == log.counters && IsActual(h)
    modifies state`live, state.live.rate`limiters, state.metrics
    ensures state.live == old(state.live) || (fresh(state.live) && fresh(state.live.auth) && fresh(state.live.rate))
    ensures after == Next(quotaOf, log, caller, h)
    ensures Runs(state, quotaOf, after.budgets) && CountersOf(state.metrics) == after.counters
    ensures |after.budgets| == |log.budgets| + (if Renews(h) then 1 else 0)
    ensures Failures(after.results) == Failures(log.results) + (if good then 0 else 1)
  {
    if h.Resolves? {
      var result;
      result, after := TakeTurn(state, caller, h, quotaOf, log);
      FailuresAppend(log.results, result);
      good := result.Ok?;
    } else {
      after := Interrupt(state, h, crypto, quotaOf, log, caller);
      good := true;
    }
  }

  method RunAll(state: AppState, caller: Caller, hs: seq<Happening>, crypto: Auth.Crypto, quotaOf: u32 -> RateLimit.Quota, ghost start: Log)
    returns (ok: bool, ghost after: Log)
    requires Runs(state, quotaOf, start.budgets) && |start.budgets| == 1 && CountersOf(state.metrics) == start.counters
    requires Failures(start.results) == 0 && forall i :: 0 <= i < |hs| ==> IsActual(hs[i])
    modifies state`live, state.live.rate`limiters, state.metrics
    ensures Runs(state, quotaOf, after.budgets) && CountersOf(state.metrics) == after.counters
    ensures after == ResolverRuns(quotaOf, start, caller, StepsOf(hs))
    ensures ok <==> Failures(after.results) == 0
  {
    ok := true;
    after := start;
    assert StepsOf(hs)[..0] == [];
    for i := 0 to |hs|
      invariant Runs(state, quotaOf, after.budgets) && CountersOf(state.metrics) == after.counters
      invariant |after.budgets| == Running(hs[..i]) + 1
      invariant state.live == old(state.live) || (fresh(state.live) && fresh(state.live.auth) && fresh(state.live.rate))
      invariant after == ResolverRuns(quotaOf, start, caller, StepsOf(hs)[..i])
      invariant ok <==> Failures(after.results) == 0
    {
      RunsExtend(quotaOf, start, caller, hs, i, after);
      var good;
      good, after := Happen(state, caller, hs[i], crypto, quotaOf, after);
      ok := ok && good;
    }
    assert StepsOf(hs)[..|hs|] == StepsOf(hs);
  }
}
