/** The running proxy as a state machine. Any number of requests interleave, step by step, with
    each other, with the consoles, with the clock and with reloads. A step is one atomic access to
    shared state; work on values that only the request itself can see is done inside a step. */
module Lifecycle {
  import opened Wrappers
  import opened Config
  import opened Access
  import Auth
  import RateLimit
  import M = Metrics
  import Console
  import Sums

  /** What the machine takes from outside: the two cryptographic functions, the library's
      limiters, which console a configuration's address reaches, whether that console accepts the
      key it gives, and which configurations build. */
  datatype World = World(
    crypto: Auth.Crypto,
    quotaOf: u32 -> RateLimit.Quota,
    consoleOf: ControllerConfig -> nat,
    keyOk: ControllerConfig -> bool,
    builds: Config -> bool)

  // ----- requests -----

  datatype Route = SitesRoute | VouchersRoute | VoucherRoute | InfoRoute | SchemaRoute | GraphqlRoute

  datatype Work = Info | Schema | Rest(ask: Ask) | Document(asks: seq<Ask>)

  /** A request as it comes in: its raw path, the route pattern it matched, the token it presents
      and what it wants done. */
  datatype Arrival = Arrival(path: string, matched: Option<Route>, presented: Option<string>, work: Work)

  /** The label of a request before its caller is known: the pattern, never the raw path. */
  function RouteText(matched: Option<Route>): string {
    match matched
    case None => "unmatched"
    case Some(SitesRoute) => "/proxy/network/integration/v1/sites"
    case Some(VouchersRoute) => "/proxy/network/integration/v1/sites/{site}/hotspot/vouchers"
    case Some(VoucherRoute) => "/proxy/network/integration/v1/sites/{site}/hotspot/vouchers/{voucher}"
    case Some(InfoRoute) => "/proxy/info"
    case Some(SchemaRoute) => "/graphql/schema"
    case Some(GraphqlRoute) => "/graphql"
  }

  function Asks(w: Work): seq<Ask> {
    match w
    case Rest(a) => [a]
    case Document(asks) => asks
    case _ => []
  }

  /** A caller with where it came from: the generation it was read in, the index of its token
      there, and when its expiry was checked. */
  datatype Identity = Identity(gen: nat, idx: nat, checkedAt: nat, caller: Caller)

  /** Why a request never got a caller. */
  datatype Refusal = IpRateLimited | MissingToken | UnknownToken | LapsedToken

  function RefusalText(r: Refusal): string {
    match r
    case IpRateLimited => "ip_rate_limited"
    case MissingToken => "missing_token"
    case UnknownToken => "unknown_token"
    case LapsedToken => "token_expired"
  }

  datatype Phase =
    | Arrived
    | Loaded(gen: nat)
    | Admitted(gen: nat)
    | Missed(gen: nat)
    | Found(gen: nat, idx: nat)
    | Known(gen: nat, idx: nat)
    | Serving(who: Identity)
    | Rejected(gen: nat, name: string, why: Refusal)
    | Closed(client: Identity, action: string, result: string)

  datatype Request = Request(arrival: Arrival, phase: Phase)

  // ----- calls -----

  /** One operation of one request: a REST request has one, a GraphQL document one per resolver. */
  datatype Cid = Cid(rid: nat, k: nat)

  datatype Stage = Started | Seen | Allowed | Paid | Ready | Waiting | Ended | Recorded

  datatype Payment = Payment(at: nat, time: nat)
  datatype Dispatch = Dispatch(at: nat, msg: Message)
  datatype Service = Service(at: nat, console: nat, reply: Console.Reply)
  datatype Outcome = Good | Bad(kind: ErrorKind)

  /** `live` is the generation loaded by the handler; the records say where in the trace the call
      was charged, sent and served. */
  datatype CallState = CallState(
    who: Identity,
    ask: Ask,
    isRest: bool,
    stage: Stage,
    live: nat,
    paid: Option<Payment>,
    sent: Option<Dispatch>,
    served: Option<Service>,
    outcome: Option<Outcome>)

  // ----- the state -----

  /** What a generation holds that changes: the cache and the limiters. The sets are bookkeeping. */
  datatype Runtime = Runtime(
    cache: Auth.Cache,
    limiters: RateLimit.Limiters,
    admitted: set<nat>,
    scanned: set<nat>,
    verifications: nat)

  datatype Event =
    | Charged(cid: Cid, name: string, gen: nat, time: nat)
    | Sent(cid: Cid, gen: nat, msg: Message)
    | Handled(cid: Cid, made: nat)

  datatype Reload = Idle | Stored | Refused

  /** The consoles the configurations reach: what each stores, and how many vouchers were deleted from it. */
  datatype Consoles = Consoles(stores: map<nat, Console.Store>, deleted: map<nat, nat>) {
    function At(console: nat): Console.Store {
      if console in stores then stores[console] else Console.EMPTY
    }

    function Deleted(console: nat): nat { Sums.Entry(deleted, console) }

    function With(console: nat, store: Console.Store, reply: Console.Reply): Consoles {
      Consoles(stores[console := store], deleted[console := Deleted(console) + DeletedBy(reply)])
    }
  }

  function DeletedBy(r: Console.Reply): nat { if r.Deleted? then 1 else 0 }

  datatype State = State(
    now: nat,
    cfgs: seq<Config>,
    rts: seq<Runtime>,
    reload: Reload,
    reloads: nat,
    reloadFailures: nat,
    reqs: map<nat, Request>,
    calls: map<Cid, CallState>,
    requests: M.Requests,
    created: M.Created,
    upstreamCalls: nat,
    consoles: Consoles,
    trace: seq<Event>)

  function Fresh(cfg: Config): Runtime {
    Runtime(map[], RateLimit.LimitersFor(cfg.tokens, cfg.limits), {}, {}, 0)
  }

  function Initial(cfg: Config): State {
    State(0, [cfg], [Fresh(cfg)], Idle, 0, 0, map[], map[], map[], map[], 0, Consoles(map[], map[]), [])
  }

  // ----- actions -----

  datatype RequestStep =
    | Arrive(arrival: Arrival)
    | LoadFirst
    | CheckIp(ok: bool)
    | Lookup
    | ScanAll
    | Insert
    | CheckExpiry
    | CloseSimple
    | CloseDocument(succeeded: bool)

  datatype CallStep =
    | StartCall
    | LoadSecond
    | Authorise
    | Charge
    | PrepareCall
    | SendCall
    | ServeCall
    | Receive
    | Lose
    | Finish

  datatype Action =
    | Tick(d: nat)
    | OnRequest(rid: nat, request: RequestStep)
    | OnCall(cid: Cid, call: CallStep)
    | Publish(cfg: Config)
    | RefuseReload
    | CountReload

  predicate AtStage(s: State, cid: Cid, stage: Stage) {
    cid in s.calls && s.calls[cid].stage == stage
  }

  ghost predicate RequestEnabled(s: State, rid: nat, step: RequestStep) {
    if step.Arrive? then rid !in s.reqs
    else
      && rid in s.reqs
      && |s.rts| == |s.cfgs| > 0
      && var r := s.reqs[rid];
         match step
         case Arrive(_) => true
         case LoadFirst => r.phase.Arrived?
         case CheckIp(_) => r.phase.Loaded? && r.phase.gen < |s.rts|
         case Lookup => r.phase.Admitted? && r.phase.gen < |s.rts|
         case ScanAll => r.phase.Missed? && r.phase.gen < |s.rts| && r.arrival.presented.Some?
         case Insert => r.phase.Found? && r.phase.gen < |s.rts| && r.arrival.presented.Some?
         case CheckExpiry => r.phase.Known? && r.phase.gen < |s.cfgs| && r.phase.idx < |s.cfgs[r.phase.gen].tokens|
         case CloseSimple => r.phase.Serving? && (r.arrival.work.Info? || r.arrival.work.Schema?)
         case CloseDocument(ok) =>
           && r.phase.Serving? && r.arrival.work.Document?
           // A document succeeds only when every resolver has; it may fail at any time.
           && (ok ==> forall k: nat :: k < |Asks(r.arrival.work)| ==>
                        AtStage(s, Cid(rid, k), Recorded) && s.calls[Cid(rid, k)].outcome == Some(Good))
  }

  ghost predicate CallEnabled(s: State, cid: Cid, step: CallStep) {
    if step.StartCall? then
      && cid !in s.calls && cid.rid in s.reqs && s.reqs[cid.rid].phase.Serving?
      && cid.k < |Asks(s.reqs[cid.rid].arrival.work)|
    else
      && cid in s.calls
      && |s.rts| == |s.cfgs| > 0
      && var c := s.calls[cid];
         match step
         case StartCall => true
         case LoadSecond => c.stage.Started?
         case Authorise => c.stage.Seen?
         case Charge => c.stage.Allowed? && c.live < |s.rts|
         case PrepareCall => c.stage.Paid?
         case SendCall => c.stage.Ready? && Prepare(c.ask, c.who.caller.ceilings).Ok?
         // The console serves each message once, at any time after it was sent, even when nobody waits any more.
         case ServeCall => c.sent.Some? && c.served.None? && c.live < |s.cfgs|
         case Receive => c.stage.Waiting? && c.served.Some?
         case Lose => c.stage.Waiting?
         case Finish =>
           && c.stage.Ended? && c.outcome.Some?
           && (c.isRest ==> cid.rid in s.reqs && s.reqs[cid.rid].phase.Serving?)
  }

  ghost predicate Enabled(w: World, s: State, a: Action) {
    match a
    case Tick(_) => true
    case OnRequest(rid, step) => RequestEnabled(s, rid, step)
    case OnCall(cid, step) => CallEnabled(s, cid, step)
    case Publish(cfg) => s.reload.Idle? && Validate(cfg).Ok? && w.builds(cfg)
    case RefuseReload => s.reload.Idle?
    case CountReload => !s.reload.Idle?
  }

  // ----- what each action does -----

  function WithPhase(s: State, rid: nat, p: Phase): State
    requires rid in s.reqs
  {
    s.(reqs := s.reqs[rid := s.reqs[rid].(phase := p)])
  }

  function WithRuntime(s: State, g: nat, r: Runtime): State
    requires g < |s.rts|
  {
    s.(rts := s.rts[g := r])
  }

  function Counted(s: State, name: string, action: string, outcome: string): State {
    s.(requests := M.CountRequest(s.requests, M.Key(name, action, outcome)))
  }

  function Reject(s: State, rid: nat, gen: nat, name: string, why: Refusal): State
    requires rid in s.reqs
  {
    Counted(WithPhase(s, rid, Rejected(gen, name, why)), name, RouteText(s.reqs[rid].arrival.matched), RefusalText(why))
  }

  function Close(s: State, rid: nat, who: Identity, action: string, outcome: string): State
    requires rid in s.reqs
  {
    Counted(WithPhase(s, rid, Closed(who, action, outcome)), who.caller.token.name, action, outcome)
  }

  function WithCall(s: State, cid: Cid, c: CallState): State {
    s.(calls := s.calls[cid := c])
  }

  function EndCall(c: CallState, o: Outcome): CallState {
    c.(stage := Ended, outcome := Some(o))
  }

  function IpStep(s: State, rid: nat, ok: bool): State
    requires rid in s.reqs && s.reqs[rid].phase.Loaded? && s.reqs[rid].phase.gen < |s.rts|
  {
    var g := s.reqs[rid].phase.gen;
    if ok then WithPhase(WithRuntime(s, g, s.rts[g].(admitted := s.rts[g].admitted + {rid})), rid, Admitted(g))
    else Reject(s, rid, g, "-", IpRateLimited)
  }

  function LookupStep(w: World, s: State, rid: nat): State
    requires rid in s.reqs && s.reqs[rid].phase.Admitted? && s.reqs[rid].phase.gen < |s.rts| == |s.cfgs|
  {
    var g := s.reqs[rid].phase.gen;
    match s.reqs[rid].arrival.presented
    case None => Reject(s, rid, g, "-", MissingToken)
    case Some(p) =>
      if p == [] then Reject(s, rid, g, "-", UnknownToken)
      else if w.crypto.digest(p) in s.rts[g].cache then
        var idx := s.rts[g].cache[w.crypto.digest(p)];
        if idx < |s.cfgs[g].tokens| then WithPhase(s, rid, Known(g, idx)) else Reject(s, rid, g, "-", UnknownToken)
      else WithPhase(s, rid, Missed(g))
  }

  function ScanStep(w: World, s: State, rid: nat): State
    requires rid in s.reqs && s.reqs[rid].phase.Missed? && s.reqs[rid].phase.gen < |s.rts| == |s.cfgs|
    requires s.reqs[rid].arrival.presented.Some?
  {
    var g := s.reqs[rid].phase.gen;
    var tokens := s.cfgs[g].tokens;
    var r := s.rts[g];
    var s1 := WithRuntime(s, g, r.(scanned := r.scanned + {rid}, verifications := r.verifications + |tokens|));
    match Auth.FirstMatch(w.crypto, tokens, s.reqs[rid].arrival.presented.value)
    case None => Reject(s1, rid, g, "-", UnknownToken)
    case Some(i) => WithPhase(s1, rid, Found(g, i))
  }

  function InsertStep(w: World, s: State, rid: nat): State
    requires rid in s.reqs && s.reqs[rid].phase.Found? && s.reqs[rid].phase.gen < |s.rts|
    requires s.reqs[rid].arrival.presented.Some?
  {
    var Found(g, i) := s.reqs[rid].phase;
    var r := s.rts[g];
    WithPhase(WithRuntime(s, g, r.(cache := r.cache[w.crypto.digest(s.reqs[rid].arrival.presented.value) := i])), rid, Known(g, i))
  }

  function ExpiryStep(s: State, rid: nat): State
    requires rid in s.reqs && s.reqs[rid].phase.Known? && s.reqs[rid].phase.gen < |s.cfgs|
    requires s.reqs[rid].phase.idx < |s.cfgs[s.reqs[rid].phase.gen].tokens|
  {
    var Known(g, i) := s.reqs[rid].phase;
    var token := s.cfgs[g].tokens[i];
    if token.IsExpiredAt(s.now) then Reject(s, rid, g, token.name, LapsedToken)
    else WithPhase(s, rid, Serving(Identity(g, i, s.now, CallerFor(token, s.cfgs[g].limits))))
  }

  /** Scope and site. */
  function Authorised(c: CallState): CallState {
    if Permits(c.who.caller.token, c.ask.op) then c.(stage := Allowed) else EndCall(c, Bad(Forbidden))
  }

  /** Parsing, ceilings and ids, after the charge. */
  function Prepared(c: CallState): CallState {
    match Prepare(c.ask, c.who.caller.ceilings)
    case Ok(_) => c.(stage := Ready)
    case Err(e) => EndCall(c, Bad(e))
  }

  function SendStep(s: State, cid: Cid): State
    requires cid in s.calls && Prepare(s.calls[cid].ask, s.calls[cid].who.caller.ceilings).Ok?
  {
    var c := s.calls[cid];
    var msg := Prepare(c.ask, c.who.caller.ceilings).value;
    WithCall(s.(trace := s.trace + [Sent(cid, c.live, msg)]), cid,
             c.(stage := Waiting, sent := Some(Dispatch(|s.trace|, msg))))
  }

  function ChargeStep(w: World, s: State, cid: Cid): State
    requires cid in s.calls && s.calls[cid].live < |s.rts|
  {
    var c := s.calls[cid];
    var name := c.who.caller.token.name;
    var (ok, limiters) := RateLimit.CheckOn(w.quotaOf, s.rts[c.live].limiters, name, s.now);
    if ok then
      var s1 := WithRuntime(s, c.live, s.rts[c.live].(limiters := limiters));
      WithCall(s1.(trace := s.trace + [Charged(cid, name, c.live, s.now)]), cid,
               c.(stage := Paid, paid := Some(Payment(|s.trace|, s.now))))
    else WithCall(s, cid, EndCall(c, Bad(RateLimited)))
  }

  function ServeStep(w: World, s: State, cid: Cid): State
    requires cid in s.calls && s.calls[cid].sent.Some? && s.calls[cid].live < |s.cfgs|
  {
    var c := s.calls[cid];
    var controller := s.cfgs[c.live].controller;
    var console := w.consoleOf(controller);
    var (reply, store) := Console.Serve(s.consoles.At(console), w.keyOk(controller), c.sent.value.msg.call, c.sent.value.msg.body);
    WithCall(s.(consoles := s.consoles.With(console, store, reply),
                trace := s.trace + [Handled(cid, MadeBy(reply))]),
             cid, c.(served := Some(Service(|s.trace|, console, reply))))
  }

  function MadeBy(r: Console.Reply): nat {
    if r.Made? then |r.vouchers| else 0
  }

  /** Vouchers are counted only for a create that succeeded. */
  function CreditOf(c: CallState): nat {
    if c.stage == Recorded && c.outcome == Some(Good) && c.ask.op.CreateVouchers? && RequestOf(c.ask.input).Some?
    then RequestOf(c.ask.input).value.count else 0
  }

  /** REST closes the request, counts it and one upstream call whatever the outcome; a resolver
      counts an upstream call only on success and leaves the request to the document. */
  function FinishStep(s: State, cid: Cid): State
    requires cid in s.calls && s.calls[cid].outcome.Some?
    requires s.calls[cid].isRest ==> cid.rid in s.reqs
  {
    var c := s.calls[cid];
    if c.isRest then
      Close(RecordCall(s, cid), cid.rid, c.who, ActionText(c.ask.op), if c.outcome == Some(Good) then "ok" else Kind(c.outcome.value.kind))
    else RecordCall(s, cid)
  }

  /** The call's own part of finishing: it is recorded, and counted in the upstream and voucher counters. */
  function RecordCall(s: State, cid: Cid): State
    requires cid in s.calls && s.calls[cid].outcome.Some?
  {
    var c := s.calls[cid];
    var good := c.outcome == Some(Good);
    s.(calls := s.calls[cid := c.(stage := Recorded)],
       upstreamCalls := s.upstreamCalls + (if c.isRest || good then 1 else 0),
       created := if good && c.ask.op.CreateVouchers? && RequestOf(c.ask.input).Some?
                  then M.AddCreated(s.created, c.who.caller.token.name, RequestOf(c.ask.input).value.count) else s.created)
  }

  ghost function RequestNext(w: World, s: State, rid: nat, step: RequestStep): State
    requires RequestEnabled(s, rid, step)
  {
    match step
    case Arrive(arrival) => s.(reqs := s.reqs[rid := Request(arrival, Arrived)])
    case LoadFirst => WithPhase(s, rid, Loaded(|s.cfgs| - 1))
    case CheckIp(ok) => IpStep(s, rid, ok)
    case Lookup => LookupStep(w, s, rid)
    case ScanAll => ScanStep(w, s, rid)
    case Insert => InsertStep(w, s, rid)
    case CheckExpiry => ExpiryStep(s, rid)
    case CloseSimple =>
      Close(s, rid, s.reqs[rid].phase.who, if s.reqs[rid].arrival.work.Info? then "info" else "graphql:schema", "ok")
    case CloseDocument(ok) => Close(s, rid, s.reqs[rid].phase.who, "graphql", if ok then "ok" else "graphql_errors")
  }

  ghost function CallNext(w: World, s: State, cid: Cid, step: CallStep): State
    requires CallEnabled(s, cid, step)
  {
    match step
    case StartCall =>
      var r := s.reqs[cid.rid];
      WithCall(s, cid, CallState(r.phase.who, Asks(r.arrival.work)[cid.k], r.arrival.work.Rest?, Started, 0, None, None, None, None))
    case LoadSecond => WithCall(s, cid, s.calls[cid].(stage := Seen, live := |s.cfgs| - 1))
    case Authorise => WithCall(s, cid, Authorised(s.calls[cid]))
    case Charge => ChargeStep(w, s, cid)
    case PrepareCall => WithCall(s, cid, Prepared(s.calls[cid]))
    case SendCall => SendStep(s, cid)
    case ServeCall => ServeStep(w, s, cid)
    case Receive =>
      var c := s.calls[cid];
      WithCall(s, cid, EndCall(c, if Console.IsSuccess(c.served.value.reply) then Good else Bad(UpstreamError)))
    case Lose => WithCall(s, cid, EndCall(s.calls[cid], Bad(UpstreamUnreachable)))
    case Finish => FinishStep(s, cid)
  }

  ghost function Next(w: World, s: State, a: Action): State
    requires Enabled(w, s, a)
  {
    match a
    case Tick(d) => s.(now := s.now + d)
    case OnRequest(rid, step) => RequestNext(w, s, rid, step)
    case OnCall(cid, step) => CallNext(w, s, cid, step)
    case Publish(cfg) => s.(cfgs := s.cfgs + [cfg], rts := s.rts + [Fresh(cfg)], reload := Stored)
    case RefuseReload => s.(reload := Refused)
    case CountReload =>
      if s.reload.Stored? then s.(reload := Idle, reloads := s.reloads + 1)
      else s.(reload := Idle, reloadFailures := s.reloadFailures + 1)
  }

  // ----- runs -----

  /** The state after a sequence of actions, if each was enabled when taken. */
  ghost function Exec(w: World, cfg: Config, actions: seq<Action>): Option<State> {
    if actions == [] then Some(Initial(cfg))
    else
      match Exec(w, cfg, actions[..|actions| - 1])
      case None => None
      case Some(s) =>
        var a := actions[|actions| - 1];
        if Enabled(w, s, a) then Some(Next(w, s, a)) else None
  }

  ghost predicate Reaches(w: World, cfg: Config, actions: seq<Action>, s: State) {
    Exec(w, cfg, actions) == Some(s)
  }

  // ----- what a step leaves alone -----

  /** A step of a request changes that request, one generation's cache or bookkeeping, and the
      request counters. */
  ghost predicate RequestFrame(s: State, t: State, rid: nat) {
    && t == s.(reqs := t.reqs, rts := t.rts, requests := t.requests)
    && rid in t.reqs
    && t.reqs == s.reqs[rid := t.reqs[rid]]
    && (rid in s.reqs ==> t.reqs[rid].arrival == s.reqs[rid].arrival)
    && |t.rts| == |s.rts|
    && forall g :: 0 <= g < |s.rts| ==> t.rts[g].limiters == s.rts[g].limiters
  }

  lemma IpFrame(w: World, s: State, rid: nat, ok: bool)
    requires RequestEnabled(s, rid, CheckIp(ok))
    ensures RequestFrame(s, RequestNext(w, s, rid, CheckIp(ok)), rid)
  {
  }

  lemma LookupFrame(w: World, s: State, rid: nat)
    requires RequestEnabled(s, rid, Lookup)
    ensures RequestFrame(s, RequestNext(w, s, rid, Lookup), rid)
  {
  }

  lemma ScanFrame(w: World, s: State, rid: nat)
    requires RequestEnabled(s, rid, ScanAll)
    ensures RequestFrame(s, RequestNext(w, s, rid, ScanAll), rid)
  {
  }

  lemma InsertFrame(w: World, s: State, rid: nat)
    requires RequestEnabled(s, rid, Insert)
    ensures RequestFrame(s, RequestNext(w, s, rid, Insert), rid)
  {
  }

  lemma ExpiryFrame(w: World, s: State, rid: nat)
    requires RequestEnabled(s, rid, CheckExpiry)
    ensures RequestFrame(s, RequestNext(w, s, rid, CheckExpiry), rid)
  {
  }

  lemma RequestStepFrame(w: World, s: State, rid: nat, step: RequestStep)
    requires RequestEnabled(s, rid, step)
    ensures RequestFrame(s, RequestNext(w, s, rid, step), rid)
  {
    match step
    case CheckIp(ok) => IpFrame(w, s, rid, ok);
    case Lookup => LookupFrame(w, s, rid);
    case ScanAll => ScanFrame(w, s, rid);
    case Insert => InsertFrame(w, s, rid);
    case CheckExpiry => ExpiryFrame(w, s, rid);
    case _ =>
  }

  /** A step of a call changes that call and, when it finishes a REST call, its request. */
  ghost predicate CallFrame(s: State, t: State, cid: Cid) {
    && t == s.(calls := t.calls, rts := t.rts, trace := t.trace, consoles := t.consoles,
               requests := t.requests, created := t.created, upstreamCalls := t.upstreamCalls, reqs := t.reqs)
    && cid in t.calls
    && t.calls == s.calls[cid := t.calls[cid]]
    && s.trace <= t.trace
    && |t.rts| == |s.rts|
    && (forall g :: 0 <= g < |s.rts| ==> t.rts[g] == s.rts[g].(limiters := t.rts[g].limiters))
  }

  lemma CallStepFrame(w: World, s: State, cid: Cid, step: CallStep)
    requires CallEnabled(s, cid, step)
    ensures CallFrame(s, CallNext(w, s, cid, step), cid)
    ensures !step.Finish? ==> CallNext(w, s, cid, step).reqs == s.reqs && CallNext(w, s, cid, step).requests == s.requests
    ensures !step.Finish? ==> CallNext(w, s, cid, step).created == s.created
    ensures !step.Charge? ==> CallNext(w, s, cid, step).rts == s.rts
    ensures !step.ServeCall? ==> CallNext(w, s, cid, step).consoles == s.consoles
    ensures !step.Charge? && !step.SendCall? && !step.ServeCall? ==> CallNext(w, s, cid, step).trace == s.trace
    ensures |CallNext(w, s, cid, step).trace| <= |s.trace| + 1
  {
    match step
    case StartCall =>
    case LoadSecond =>
    case Authorise =>
    case Charge => ChargeFrame(w, s, cid);
    case PrepareCall =>
    case SendCall =>
    case ServeCall =>
    case Receive =>
    case Lose =>
    case Finish => FinishFrame(s, cid);
  }

  lemma ChargeFrame(w: World, s: State, cid: Cid)
    requires cid in s.calls && s.calls[cid].live < |s.rts|
    ensures CallFrame(s, ChargeStep(w, s, cid), cid)
    ensures var t := ChargeStep(w, s, cid);
            t == s.(calls := t.calls, rts := t.rts, trace := t.trace) && |t.trace| <= |s.trace| + 1
  {
  }

  lemma FinishFrame(s: State, cid: Cid)
    requires cid in s.calls && s.calls[cid].outcome.Some? && (s.calls[cid].isRest ==> cid.rid in s.reqs)
    ensures CallFrame(s, FinishStep(s, cid), cid)
    ensures var t := FinishStep(s, cid);
            t.rts == s.rts && t.trace == s.trace && t.consoles == s.consoles
  {
  }

  /** Who a call acts for and what it asks are fixed when it starts. */
  lemma CallPurposeIsFixed(w: World, s: State, cid: Cid, step: CallStep)
    requires CallEnabled(s, cid, step) && !step.StartCall?
    ensures var c, d := s.calls[cid], CallNext(w, s, cid, step).calls[cid];
            d.who == c.who && d.ask == c.ask && d.isRest == c.isRest
  {
    match step
    case LoadSecond =>
    case Authorise =>
    case Charge =>
    case PrepareCall =>
    case SendCall =>
    case ServeCall =>
    case Receive =>
    case Lose =>
    case Finish =>
  }
}
