/** A run with a GraphQL document, a run with REST requests in its place, and how the two compare. */
module Correspondence {
  import opened Wrappers
  import opened Access
  import opened Lifecycle
  import Operations

  /** A document and the REST requests that stand in for its resolvers, one each, as they come in. */
  datatype Twins = Twins(doc: nat, rids: seq<nat>, forms: seq<Arrival>)

  ghost predicate Distinct(tw: Twins) {
    && |tw.forms| == |tw.rids| && tw.doc !in tw.rids
    && forall i, j :: 0 <= i < j < |tw.rids| ==> tw.rids[i] != tw.rids[j]
  }

  predicate IsApart(tw: Twins, rid: nat) { rid != tw.doc && rid !in tw.rids }

  /** A REST request that presents the document's token and asks what its resolver `k` asks. */
  predicate FormFits(form: Arrival, arrival: Arrival, k: nat) {
    && k < |Asks(arrival.work)| && form.presented == arrival.presented
    && form.work.Rest? && Operations.SameAsk(form.work.ask, Asks(arrival.work)[k])
  }

  ghost predicate Fits(tw: Twins, arrival: Arrival) {
    && arrival.work.Document? && |Asks(arrival.work)| == |tw.rids| == |tw.forms|
    && forall k :: 0 <= k < |tw.forms| ==> FormFits(tw.forms[k], arrival, k)
  }

  function Twin(tw: Twins, cid: Cid): Cid {
    if cid.rid == tw.doc && cid.k < |tw.rids| then Cid(tw.rids[cid.k], 0) else cid
  }

  /** The run to be matched knows nothing of the stand-ins. */
  predicate LeavesTwinsAlone(tw: Twins, a: Action) {
    match a
    case OnRequest(rid, _) => rid !in tw.rids
    case OnCall(cid, _) => cid.rid !in tw.rids
    case _ => true
  }

  predicate Closes(step: RequestStep) { step.CloseSimple? || step.CloseDocument? }

  /** What a stand-in does when the document takes a step: the same, as the request it is. */
  function Followed(tw: Twins, k: nat, step: RequestStep): Action
    requires k < |tw.rids| == |tw.forms|
  {
    OnRequest(tw.rids[k], if step.Arrive? then Arrive(tw.forms[k]) else step)
  }

  function Followers(tw: Twins, step: RequestStep, n: nat): seq<Action>
    requires n <= |tw.rids| == |tw.forms|
  {
    if n == 0 then [] else Followers(tw, step, n - 1) + [Followed(tw, n - 1, step)]
  }

  /** The steps that match one: the stand-ins come in, are checked and identified right after the
      document; a stand-in's call moves for the document's; and nothing closes the document. */
  function Image(tw: Twins, a: Action): seq<Action>
    requires |tw.forms| == |tw.rids|
  {
    match a
    case OnRequest(rid, step) =>
      if rid != tw.doc then [a] else if Closes(step) then [] else [a] + Followers(tw, step, |tw.rids|)
    case OnCall(cid, step) => [OnCall(Twin(tw, cid), step)]
    case _ => [a]
  }

  function Mirrored(tw: Twins, actions: seq<Action>): seq<Action>
    requires |tw.forms| == |tw.rids|
  {
    if actions == [] then []
    else Mirrored(tw, actions[..|actions| - 1]) + Image(tw, actions[|actions| - 1])
  }

  // ----- how the two runs compare -----

  /** The same call, through the other front end. */
  ghost predicate CallSim(c: CallState, d: CallState) {
    !c.isRest && d == c.(ask := d.ask, isRest := true) && Operations.SameAsk(d.ask, c.ask)
  }

  function Renamed(tw: Twins, e: Event): Event {
    match e
    case Charged(cid, name, gen, time) => Charged(Twin(tw, cid), name, gen, time)
    case Sent(cid, gen, msg) => Sent(Twin(tw, cid), gen, msg)
    case Handled(cid, made) => Handled(Twin(tw, cid), made)
  }

  ghost predicate TraceSim(tw: Twins, a: seq<Event>, b: seq<Event>) {
    |a| == |b| && forall i :: 0 <= i < |a| ==> b[i] == Renamed(tw, a[i])
  }

  /** The same caches and limiters; which requests were admitted and scanned is bookkeeping. */
  ghost predicate RuntimesSim(a: seq<Runtime>, b: seq<Runtime>) {
    |a| == |b| && forall g :: 0 <= g < |a| ==> b[g].cache == a[g].cache && b[g].limiters == a[g].limiters
  }

  /** Everything the consoles, the clock, the configurations, the caches, the limiters and the
      voucher counters can tell is the same. */
  ghost predicate SameAround(s: State, t: State) {
    && t.now == s.now && t.cfgs == s.cfgs && t.reload == s.reload && t.reloads == s.reloads && t.reloadFailures == s.reloadFailures
    && t.created == s.created && t.consoles == s.consoles && RuntimesSim(s.rts, t.rts)
  }

  /** The document is where it was, but that it never closes. */
  ghost predicate DocumentSim(tw: Twins, a: map<nat, Request>, b: map<nat, Request>) {
    && (tw.doc in a <==> tw.doc in b)
    && (tw.doc in a ==>
          && a[tw.doc].arrival == b[tw.doc].arrival && Fits(tw, a[tw.doc].arrival) && !b[tw.doc].phase.Closed?
          && (a[tw.doc].phase == b[tw.doc].phase || (a[tw.doc].phase.Closed? && b[tw.doc].phase.Serving?)))
  }

  /** A stand-in came in with the document and is where the document is, until it has done its work. */
  ghost predicate StandsIn(tw: Twins, k: nat, b: map<nat, Request>)
    requires k < |tw.rids| == |tw.forms|
  {
    var rid := tw.rids[k];
    && (rid in b <==> tw.doc in b)
    && (rid in b ==>
          && b[rid].arrival == tw.forms[k]
          && (b[rid].phase == b[tw.doc].phase || (b[rid].phase.Closed? && b[tw.doc].phase.Serving?)))
  }

  ghost predicate RequestsSim(tw: Twins, a: map<nat, Request>, b: map<nat, Request>)
    requires |tw.forms| == |tw.rids|
  {
    && DocumentSim(tw, a, b)
    && (forall rid :: IsApart(tw, rid) ==> (rid in a <==> rid in b) && (rid in a ==> a[rid] == b[rid]))
    && (forall k :: 0 <= k < |tw.rids| ==> tw.rids[k] !in a && StandsIn(tw, k, b))
  }

  /** Resolver `k` and its stand-in are at the same point. */
  ghost predicate PairSim(tw: Twins, k: nat, b: map<nat, Request>, c: map<Cid, CallState>, d: map<Cid, CallState>)
    requires k < |tw.rids|
  {
    var cid, twin := Cid(tw.doc, k), Cid(tw.rids[k], 0);
    && (cid in c <==> twin in d)
    && (cid in c ==> CallSim(c[cid], d[twin]))
    && (tw.rids[k] in b && b[tw.rids[k]].phase.Closed? <==> twin in d && d[twin].stage.Recorded?)
  }

  /** The document's own calls are made while it is served, and only in the run to be matched. */
  ghost predicate OwnCalls(tw: Twins, b: map<nat, Request>, cid: Cid) {
    && cid.rid !in tw.rids
    && (cid.rid == tw.doc ==> tw.doc in b && b[tw.doc].phase.Serving? && cid.k < |tw.rids|)
  }

  ghost predicate CallsSim(tw: Twins, b: map<nat, Request>, c: map<Cid, CallState>, d: map<Cid, CallState>) {
    && (forall cid: Cid :: IsApart(tw, cid.rid) ==> (cid in c <==> cid in d) && (cid in c ==> c[cid] == d[cid]))
    && (forall cid: Cid :: cid in c ==> OwnCalls(tw, b, cid))
    && (forall cid: Cid :: cid in d ==> cid.rid != tw.doc)
    && (forall k :: 0 <= k < |tw.rids| ==> PairSim(tw, k, b, c, d))
  }

  /** Everything around is the same; the trace is the same but for who is named; calls and requests correspond. */
  ghost predicate Sim(tw: Twins, s: State, t: State)
    requires |tw.forms| == |tw.rids|
  {
    && SameAround(s, t)
    && TraceSim(tw, s.trace, t.trace)
    && RequestsSim(tw, s.reqs, t.reqs)
    && CallsSim(tw, t.reqs, s.calls, t.calls)
  }

  /** Changing one generation alike on both sides. */
  lemma RuntimeAlike(a: seq<Runtime>, b: seq<Runtime>, g: nat, x: Runtime, y: Runtime)
    requires RuntimesSim(a, b) && g < |a| && y.cache == x.cache && y.limiters == x.limiters
    ensures RuntimesSim(a[g := x], b[g := y])
  {
  }
}
