/** One operation from its caller to the wire, told without state; and what each front end does
    around it to the counters. */
module Operations {
  import opened Wrappers
  import opened Config
  import opened Policy
  import opened Access
  import opened Upstream
  import RateLimit
  import M = Metrics
  import Sums

  /** What comes back for a message, should it be sent. */
  type Wire = Message -> Result<(), ErrorKind>

  datatype Effect = Effect(result: Result<(), ErrorKind>, sent: Option<Message>, limiters: RateLimit.Limiters)

  /** Scope and site, then the charge, then parsing, ceilings and ids, then the console. */
  function Attempt(quotaOf: u32 -> RateLimit.Quota, limiters: RateLimit.Limiters, caller: Caller, ask: Ask, now: nat, wire: Wire): Effect {
    if !Permits(caller.token, ask.op) then Effect(Err(Forbidden), None, limiters)
    else
      var (ok, after) := RateLimit.CheckOn(quotaOf, limiters, caller.token.name, now);
      if !ok then Effect(Err(RateLimited), None, limiters)
      else
        match Prepare(ask, caller.ceilings)
        case Err(e) => Effect(Err(e), None, after)
        case Ok(msg) => Effect(wire(msg), Some(msg), after)
  }

  /** The budget is spent exactly when the caller is permitted and the limiter agrees, whatever
      becomes of the rest; something is sent exactly when, besides, the request is acceptable; and
      what is sent is what was asked. What permits is spelled out: the scope of the operation, and the
      site it names. Before the charge only a caller that lacks one of them is refused. */
  lemma AttemptDecides(quotaOf: u32 -> RateLimit.Quota, limiters: RateLimit.Limiters, caller: Caller, ask: Ask, now: nat, wire: Wire)
    ensures var e := Attempt(quotaOf, limiters, caller, ask, now, wire);
            var admits := RateLimit.CheckOn(quotaOf, limiters, caller.token.name, now).0;
            var scopes, sites := caller.token.scopes, caller.token.sites;
            var permitted :=
              && (ask.op.ListSites? ==> SitesRead in scopes)
              && (ask.op.ListVouchers? ==> VouchersRead in scopes)
              && (ask.op.CreateVouchers? ==> VouchersCreate in scopes)
              && (ask.op.DeleteVoucher? ==> VouchersRevoke in scopes)
              && (!ask.op.ListSites? ==> "*" in sites || ask.op.site in sites);
            && (!permitted ==> e == Effect(Err(Forbidden), None, limiters))
            && (permitted && !admits ==> e == Effect(Err(RateLimited), None, limiters))
            && e.limiters == (if permitted && admits then RateLimit.CheckOn(quotaOf, limiters, caller.token.name, now).1 else limiters)
            && (e.sent.Some? <==>
                  && permitted && admits && IdsAreSafe(ask.op)
                  && (ask.op.CreateVouchers? ==>
                        RequestOf(ask.input).Some? && WithinCeilings(RequestOf(ask.input).value, caller.ceilings)))
            && (e.sent.Some? ==> IsFaithful(e.sent.value, ask, caller.ceilings) && e.result == wire(e.sent.value))
            && (e.sent.None? ==> e.result.Err? && e.result.error in {Forbidden, RateLimited, BadRequest})
  {
    PreparedExactlyWhenAcceptable(ask, caller.ceilings);
  }

  // ----- the counters around it -----

  datatype Counters = Counters(requests: M.Requests, created: M.Created, upstreamCalls: nat)

  function OutcomeText(r: Result<(), ErrorKind>): string {
    match r
    case Ok(_) => "ok"
    case Err(e) => Kind(e)
  }

  /** Vouchers are counted under the caller's name when a create succeeded. */
  function CreatedAfter(created: M.Created, caller: Caller, ask: Ask, result: Result<(), ErrorKind>): M.Created {
    if result.Ok? && ask.op.CreateVouchers? && RequestOf(ask.input).Some?
    then M.AddCreated(created, caller.token.name, RequestOf(ask.input).value.count) else created
  }

  /** A REST handler counts its request under its outcome and, whatever the outcome, one upstream call. */
  function AfterRest(c: Counters, caller: Caller, ask: Ask, result: Result<(), ErrorKind>): Counters {
    Counters(M.CountRequest(c.requests, M.Key(caller.token.name, ActionText(ask.op), OutcomeText(result))),
             CreatedAfter(c.created, caller, ask, result),
             c.upstreamCalls + 1)
  }

  /** A resolver counts no request, and an upstream call only on success. */
  function AfterResolver(c: Counters, caller: Caller, ask: Ask, result: Result<(), ErrorKind>): Counters {
    Counters(c.requests, CreatedAfter(c.created, caller, ask, result), c.upstreamCalls + (if result.Ok? then 1 else 0))
  }

  // ----- sequences of operations by one caller -----

  /** The limiters of every generation published so far. */
  type Budgets = seq<RateLimit.Limiters>

  /** What others may do to the budgets at any time: spend from a name at some generation, this
      caller's name included, publish a new generation with new limiters, or fail to. */
  datatype Interlude = Spend(gen: nat, name: string, at: nat) | Renew(limiters: RateLimit.Limiters) | Idle

  function Interfere(quotaOf: u32 -> RateLimit.Quota, budgets: Budgets, i: Interlude): Budgets {
    match i
    case Idle => budgets
    case Renew(limiters) => budgets + [limiters]
    case Spend(gen, name, at) =>
      if gen < |budgets| then budgets[gen := RateLimit.CheckOn(quotaOf, budgets[gen], name, at).1] else budgets
  }

  /** One step of a sequence: an operation, with the generation its handler observed, when it is
      charged and what would come back; or something others do. */
  datatype Step = Turn(ask: Ask, gen: nat, now: nat, wire: Wire) | Others(what: Interlude)

  /** What a sequence has done so far. */
  datatype Log = Log(budgets: Budgets, sends: seq<Message>, results: seq<Result<(), ErrorKind>>, counters: Counters)

  function Sends(sent: Option<Message>): seq<Message> {
    match sent
    case None => []
    case Some(m) => [m]
  }

  /** The limiters of a generation; one that was never published has none. */
  function BudgetAt(budgets: Budgets, gen: nat): RateLimit.Limiters {
    if gen < |budgets| then budgets[gen] else map[]
  }

  /** The log after an operation at its generation; every other generation's limiters stay. */
  function LogAfter(log: Log, gen: nat, e: Effect, counters: Counters): Log {
    Log(if gen < |log.budgets| then log.budgets[gen := e.limiters] else log.budgets,
        log.sends + Sends(e.sent), log.results + [e.result], counters)
  }

  /** The logs after a sequence of handlers, or of resolvers. */
  function RestRuns(quotaOf: u32 -> RateLimit.Quota, log: Log, caller: Caller, steps: seq<Step>): Log
    decreases |steps|, 1
  {
    if steps == [] then log else LastRest(quotaOf, log, caller, steps)
  }

  function LastRest(quotaOf: u32 -> RateLimit.Quota, log: Log, caller: Caller, steps: seq<Step>): Log
    requires steps != []
    decreases |steps|, 0
  {
    var before := RestRuns(quotaOf, log, caller, steps[..|steps| - 1]);
    match steps[|steps| - 1]
    case Others(what) => before.(budgets := Interfere(quotaOf, before.budgets, what))
    case Turn(ask, gen, now, wire) =>
      var e := Attempt(quotaOf, BudgetAt(before.budgets, gen), caller, ask, now, wire);
      LogAfter(before, gen, e, AfterRest(before.counters, caller, ask, e.result))
  }

  function ResolverRuns(quotaOf: u32 -> RateLimit.Quota, log: Log, caller: Caller, steps: seq<Step>): Log
    decreases |steps|, 1
  {
    if steps == [] then log else LastResolver(quotaOf, log, caller, steps)
  }

  function LastResolver(quotaOf: u32 -> RateLimit.Quota, log: Log, caller: Caller, steps: seq<Step>): Log
    requires steps != []
    decreases |steps|, 0
  {
    var before := ResolverRuns(quotaOf, log, caller, steps[..|steps| - 1]);
    match steps[|steps| - 1]
    case Others(what) => before.(budgets := Interfere(quotaOf, before.budgets, what))
    case Turn(ask, gen, now, wire) =>
      var e := Attempt(quotaOf, BudgetAt(before.budgets, gen), caller, ask, now, wire);
      LogAfter(before, gen, e, AfterResolver(before.counters, caller, ask, e.result))
  }

  /** How many operations a sequence holds. */
  function Turns(steps: seq<Step>): nat {
    if steps == [] then 0 else Turns(steps[..|steps| - 1]) + (if steps[|steps| - 1].Turn? then 1 else 0)
  }

  /** The same operation asked through the two front ends: a JSON body and a typed input that mean
      the same request. */
  predicate SameAsk(rest: Ask, resolver: Ask) {
    rest.op == resolver.op && (rest.op.CreateVouchers? ==> RequestOf(rest.input) == RequestOf(resolver.input))
  }

  /** The REST request that asks what a resolver asks: a body where the resolver has a typed input. */
  function RestForm(ask: Ask): Ask {
    var request := RequestOf(ask.input);
    Ask(ask.op, if ask.op.CreateVouchers? && request.Some? then Body(ToUpstreamBody(request.value)) else Nothing)
  }

  lemma EveryAskHasARestForm(ask: Ask)
    ensures SameAsk(RestForm(ask), ask)
  {
    if RequestOf(ask.input).Some? { BodyRoundTrip(RequestOf(ask.input).value); }
  }

  /** Others do the same, and each operation asks the same of the same generation at the same time. */
  ghost predicate SameStep(rest: Step, resolver: Step) {
    if rest.Turn? && resolver.Turn? then SameAsk(rest.ask, resolver.ask) && rest == resolver.(ask := rest.ask) else rest == resolver
  }

  ghost predicate SameSteps(rest: seq<Step>, resolver: seq<Step>) {
    |rest| == |resolver| && forall i :: 0 <= i < |rest| ==> SameStep(rest[i], resolver[i])
  }

  function Failures(results: seq<Result<(), ErrorKind>>): nat {
    if results == [] then 0
    else Failures(results[..|results| - 1]) + (if results[|results| - 1].Err? then 1 else 0)
  }

  lemma SameAskSameEffect(quotaOf: u32 -> RateLimit.Quota, limiters: RateLimit.Limiters, caller: Caller, a: Ask, b: Ask, now: nat, wire: Wire)
    requires SameAsk(a, b)
    ensures Attempt(quotaOf, limiters, caller, a, now, wire) == Attempt(quotaOf, limiters, caller, b, now, wire)
  {
  }

  /** How a REST run and a resolver run from the same start compare after `n` operations. */
  ghost predicate Simulates(start: Log, rest: Log, resolver: Log, n: nat) {
    && rest.budgets == resolver.budgets
    && rest.sends == resolver.sends
    && rest.results == resolver.results
    && rest.counters.created == resolver.counters.created
    && resolver.counters.requests == start.counters.requests
    && Sums.Total(rest.counters.requests) == Sums.Total(start.counters.requests) + n
    && rest.counters.upstreamCalls == start.counters.upstreamCalls + n
    && rest.counters.upstreamCalls + Failures(start.results) == resolver.counters.upstreamCalls + Failures(rest.results)
  }

  lemma FailuresAppend(results: seq<Result<(), ErrorKind>>, r: Result<(), ErrorKind>)
    ensures Failures(results + [r]) == Failures(results) + (if r.Err? then 1 else 0)
  {
    assert (results + [r])[..|results|] == results;
  }

  lemma OneMoreRequest(requests: M.Requests, k: M.Key)
    ensures Sums.Total(M.CountRequest(requests, k)) == Sums.Total(requests) + 1
  {
    Sums.TotalUpdate(requests, k, Sums.Entry(requests, k) + 1);
  }

  lemma TurnSimulates(start: Log, a: Log, b: Log, n: nat, caller: Caller, t: Ask, u: Ask, gen: nat, e: Effect)
    requires Simulates(start, a, b, n) && SameAsk(t, u)
    ensures Simulates(start, LogAfter(a, gen, e, AfterRest(a.counters, caller, t, e.result)),
                      LogAfter(b, gen, e, AfterResolver(b.counters, caller, u, e.result)), n + 1)
  {
    OneMoreRequest(a.counters.requests, M.Key(caller.token.name, ActionText(t.op), OutcomeText(e.result)));
    FailuresAppend(a.results, e.result);
  }

  /** Whatever the order in which a document's resolvers run, whatever others spend and publish in
      between, and whatever the console answers: REST handlers run in that order, observing the same
      generations at the same times, send the same messages, leave every generation's limiters the
      same, end with the same error kinds and count the same vouchers. They differ only in
      bookkeeping: REST counts one request per operation, and an upstream call for each failure too. */
  lemma {:induction false} ResolversSimulateHandlers(quotaOf: u32 -> RateLimit.Quota, log: Log, caller: Caller, rest: seq<Step>, resolver: seq<Step>)
    requires SameSteps(rest, resolver)
    ensures Simulates(log, RestRuns(quotaOf, log, caller, rest), ResolverRuns(quotaOf, log, caller, resolver), Turns(rest))
    decreases |rest|
  {
    if rest != [] {
      var last := |rest| - 1;
      ResolversSimulateHandlers(quotaOf, log, caller, rest[..last], resolver[..last]);
      var a, b := RestRuns(quotaOf, log, caller, rest[..last]), ResolverRuns(quotaOf, log, caller, resolver[..last]);
      assert SameStep(rest[last], resolver[last]);
      if rest[last].Turn? {
        var Turn(ask, gen, now, wire) := rest[last];
        SameAskSameEffect(quotaOf, BudgetAt(a.budgets, gen), caller, ask, resolver[last].ask, now, wire);
        TurnSimulates(log, a, b, Turns(rest[..last]), caller, ask, resolver[last].ask, gen,
                      Attempt(quotaOf, BudgetAt(a.budgets, gen), caller, ask, now, wire));
      }
    }
  }
}
