/** What the request counters add up to, over every run. */
module Counts {
  import opened Wrappers
  import opened Config
  import opened Access
  import opened Lifecycle
  import opened Authenticity
  import M = Metrics
  import Upstream
  import Sums

  // ----- one counter per finished request -----

  predicate IsFinished(r: Request) { r.phase.Rejected? || r.phase.Closed? }

  /** The label a finished request is counted under. */
  function LabelOf(r: Request): M.Key
    requires IsFinished(r)
  {
    match r.phase
    case Rejected(_, name, why) => M.Key(name, RouteText(r.arrival.matched), RefusalText(why))
    case Closed(client, action, result) => M.Key(client.caller.token.name, action, result)
  }

  function Finished(reqs: map<nat, Request>): set<nat> {
    set rid | rid in reqs && IsFinished(reqs[rid])
  }

  function Labelled(reqs: map<nat, Request>, k: M.Key): set<nat> {
    set rid | rid in reqs && IsFinished(reqs[rid]) && LabelOf(reqs[rid]) == k
  }

  ghost predicate Tally(requests: M.Requests, reqs: map<nat, Request>) {
    && (forall k :: Sums.Entry(requests, k) == |Labelled(reqs, k)|)
    && (forall k :: k in requests ==> requests[k] > 0)
    && Sums.Total(requests) == |Finished(reqs)|
  }

  lemma LabelledAfter(reqs: map<nat, Request>, rid: nat, r: Request, k: M.Key)
    requires rid in reqs && !IsFinished(reqs[rid]) && IsFinished(r)
    ensures |Labelled(reqs[rid := r], k)| == |Labelled(reqs, k)| + (if k == LabelOf(r) then 1 else 0)
  {
    if k == LabelOf(r) {
      assert Labelled(reqs[rid := r], k) == Labelled(reqs, k) + {rid};
    } else {
      assert Labelled(reqs[rid := r], k) == Labelled(reqs, k);
    }
  }

  lemma CountAfter(requests: M.Requests, tag: M.Key, k: M.Key)
    ensures Sums.Entry(M.CountRequest(requests, tag), k) == Sums.Entry(requests, k) + (if k == tag then 1 else 0)
    ensures Sums.Total(M.CountRequest(requests, tag)) == Sums.Total(requests) + 1
  {
    Sums.TotalUpdate(requests, tag, Sums.Entry(requests, tag) + 1);
    assert M.CountRequest(requests, tag) == requests[tag := Sums.Entry(requests, tag) + 1];
  }

  /** A request that finishes is counted once, under its label. */
  lemma TallyOne(requests: M.Requests, reqs: map<nat, Request>, rid: nat, r: Request)
    requires Tally(requests, reqs) && rid in reqs && !IsFinished(reqs[rid]) && IsFinished(r)
    ensures Tally(M.CountRequest(requests, LabelOf(r)), reqs[rid := r])
  {
    var tag, after := LabelOf(r), reqs[rid := r];
    CountAfter(requests, tag, tag);
    assert Finished(after) == Finished(reqs) + {rid};
    forall k ensures Sums.Entry(M.CountRequest(requests, tag), k) == |Labelled(after, k)| {
      LabelledAfter(reqs, rid, r, k);
      CountAfter(requests, tag, k);
    }
  }

  lemma TallySame(requests: M.Requests, reqs: map<nat, Request>, rid: nat, r: Request)
    requires Tally(requests, reqs) && !IsFinished(r) && (rid in reqs ==> !IsFinished(reqs[rid]))
    ensures Tally(requests, reqs[rid := r])
  {
    assert Finished(reqs[rid := r]) == Finished(reqs);
    forall k ensures Labelled(reqs[rid := r], k) == Labelled(reqs, k) {
    }
  }

  /** What a step does to the counters: nothing, or it finishes one request and counts it. */
  ghost predicate Accounts(s: State, t: State, rid: nat) {
    && rid in t.reqs
    && t.reqs == s.reqs[rid := t.reqs[rid]]
    && (rid in s.reqs ==> !IsFinished(s.reqs[rid]))
    && if IsFinished(t.reqs[rid])
       then rid in s.reqs && t.requests == M.CountRequest(s.requests, LabelOf(t.reqs[rid]))
       else t.requests == s.requests
  }

  lemma RejectAccounts(s: State, rid: nat, g: nat, name: string, why: Refusal)
    requires rid in s.reqs && !IsFinished(s.reqs[rid])
    ensures Accounts(s, Reject(s, rid, g, name, why), rid)
  {
  }

  lemma LookupAccounts(w: World, s: State, rid: nat)
    requires rid in s.reqs && s.reqs[rid].phase.Admitted? && s.reqs[rid].phase.gen < |s.rts| == |s.cfgs|
    ensures Accounts(s, LookupStep(w, s, rid), rid)
  {
    var g := s.reqs[rid].phase.gen;
    RejectAccounts(s, rid, g, "-", MissingToken);
    RejectAccounts(s, rid, g, "-", UnknownToken);
  }

  lemma ScanAccounts(w: World, s: State, rid: nat)
    requires rid in s.reqs && s.reqs[rid].phase.Missed? && s.reqs[rid].phase.gen < |s.rts| == |s.cfgs|
    requires s.reqs[rid].arrival.presented.Some?
    ensures Accounts(s, ScanStep(w, s, rid), rid)
  {
  }

  lemma RequestStepAccounts(w: World, s: State, rid: nat, step: RequestStep)
    requires RequestEnabled(s, rid, step)
    ensures Accounts(s, RequestNext(w, s, rid, step), rid)
  {
    RequestStepFrame(w, s, rid, step);
    match step
    case Arrive(_) =>
    case LoadFirst =>
    case CheckIp(ok) =>
    case Lookup => LookupAccounts(w, s, rid);
    case ScanAll => ScanAccounts(w, s, rid);
    case Insert =>
    case CheckExpiry =>
    case CloseSimple =>
    case CloseDocument(_) =>
  }

  lemma FinishAccounts(s: State, cid: Cid)
    requires CallEnabled(s, cid, Finish) && s.calls[cid].isRest
    ensures Accounts(s, FinishStep(s, cid), cid.rid)
  {
  }

  lemma StepTallies(w: World, s: State, a: Action)
    requires Enabled(w, s, a) && Tally(s.requests, s.reqs)
    ensures Tally(Next(w, s, a).requests, Next(w, s, a).reqs)
  {
    var t := Next(w, s, a);
    match a
    case OnRequest(rid, step) =>
      RequestStepAccounts(w, s, rid, step);
      TallyAfter(s, t, rid);
    case OnCall(cid, step) =>
      CallStepFrame(w, s, cid, step);
      if step.Finish? {
        if s.calls[cid].isRest {
          FinishAccounts(s, cid);
          TallyAfter(s, t, cid.rid);
        } else {
          assert t.reqs == s.reqs && t.requests == s.requests;
        }
      }
    case _ =>
  }

  lemma TallyAfter(s: State, t: State, rid: nat)
    requires Tally(s.requests, s.reqs) && Accounts(s, t, rid)
    ensures Tally(t.requests, t.reqs)
  {
    if IsFinished(t.reqs[rid]) {
      TallyOne(s.requests, s.reqs, rid, t.reqs[rid]);
    } else {
      TallySame(s.requests, s.reqs, rid, t.reqs[rid]);
    }
  }

  /** In every run each counter equals the number of requests that ended under its label, and
      together they count every request that was turned away or answered, exactly once. */
  lemma {:induction false} CountersCountRequests(w: World, cfg: Config, actions: seq<Action>, s: State)
    requires Reaches(w, cfg, actions, s)
    ensures Tally(s.requests, s.reqs)
    decreases |actions|
  {
    if actions != [] {
      var before, a := LastAction(w, cfg, actions, s);
      CountersCountRequests(w, cfg, actions[..|actions| - 1], before);
      StepTallies(w, before, a);
    }
  }

  // ----- the counters' labels are bounded -----

  const ACTIONS := [
    RouteText(None), RouteText(Some(SitesRoute)), RouteText(Some(VouchersRoute)), RouteText(Some(VoucherRoute)),
    RouteText(Some(InfoRoute)), RouteText(Some(SchemaRoute)), RouteText(Some(GraphqlRoute)),
    "info", "graphql:schema", "graphql", "sites:list", "vouchers:list", "vouchers:create", "vouchers:revoke"]

  const OUTCOMES := [
    "ok", "graphql_errors",
    RefusalText(IpRateLimited), RefusalText(MissingToken), RefusalText(UnknownToken), RefusalText(LapsedToken),
    Kind(Unauthorized), Kind(TokenExpired), Kind(Forbidden), Kind(NotAllowed), Kind(BadRequest),
    Kind(RateLimited), Kind(UpstreamError), Kind(UpstreamUnreachable), Kind(Internal)]

  function PublishedNames(cfgs: seq<Config>): set<string> {
    set g, i | 0 <= g < |cfgs| && 0 <= i < |cfgs[g].tokens| :: cfgs[g].tokens[i].name
  }

  /** Every label the proxy prints as an action or an outcome is listed. */
  ghost predicate Covers(actions: seq<string>, outcomes: seq<string>) {
    && (forall matched :: RouteText(matched) in actions)
    && (forall op :: ActionText(op) in actions)
    && "info" in actions && "graphql:schema" in actions && "graphql" in actions
    && (forall why :: RefusalText(why) in outcomes)
    && (forall e :: Kind(e) in outcomes)
    && "ok" in outcomes && "graphql_errors" in outcomes
  }

  lemma ActionsAreListed(matched: Option<Route>, op: Upstream.Operation)
    ensures RouteText(matched) in ACTIONS && ActionText(op) in ACTIONS
    ensures "info" in ACTIONS && "graphql:schema" in ACTIONS && "graphql" in ACTIONS
  {
    assert ACTIONS[0] == RouteText(None) && ACTIONS[1] == RouteText(Some(SitesRoute))
        && ACTIONS[2] == RouteText(Some(VouchersRoute)) && ACTIONS[3] == RouteText(Some(VoucherRoute))
        && ACTIONS[4] == RouteText(Some(InfoRoute)) && ACTIONS[5] == RouteText(Some(SchemaRoute))
        && ACTIONS[6] == RouteText(Some(GraphqlRoute));
    assert ACTIONS[7] == "info" && ACTIONS[8] == "graphql:schema" && ACTIONS[9] == "graphql";
    assert ACTIONS[10] == "sites:list" && ACTIONS[11] == "vouchers:list" && ACTIONS[12] == "vouchers:create"
        && ACTIONS[13] == "vouchers:revoke";
  }

  lemma OutcomesAreListed(why: Refusal, e: ErrorKind)
    ensures RefusalText(why) in OUTCOMES && Kind(e) in OUTCOMES
    ensures "ok" in OUTCOMES && "graphql_errors" in OUTCOMES
  {
    assert OUTCOMES[0] == "ok" && OUTCOMES[1] == "graphql_errors";
    assert OUTCOMES[2] == RefusalText(IpRateLimited) && OUTCOMES[3] == RefusalText(MissingToken)
        && OUTCOMES[4] == RefusalText(UnknownToken) && OUTCOMES[5] == RefusalText(LapsedToken);
    assert OUTCOMES[6] == Kind(Unauthorized) && OUTCOMES[7] == Kind(TokenExpired) && OUTCOMES[8] == Kind(Forbidden)
        && OUTCOMES[9] == Kind(NotAllowed) && OUTCOMES[10] == Kind(BadRequest) && OUTCOMES[11] == Kind(RateLimited)
        && OUTCOMES[12] == Kind(UpstreamError) && OUTCOMES[13] == Kind(UpstreamUnreachable) && OUTCOMES[14] == Kind(Internal);
  }

  lemma FixedLabelsCover()
    ensures Covers(ACTIONS, OUTCOMES) && |ACTIONS| == 14 && |OUTCOMES| == 15
  {
    forall matched ensures RouteText(matched) in ACTIONS { ActionsAreListed(matched, Upstream.ListSites); }
    forall op ensures ActionText(op) in ACTIONS { ActionsAreListed(None, op); }
    forall why ensures RefusalText(why) in OUTCOMES { OutcomesAreListed(why, Internal); }
    forall e ensures Kind(e) in OUTCOMES { OutcomesAreListed(MissingToken, e); }
    ActionsAreListed(None, Upstream.ListSites);
    OutcomesAreListed(MissingToken, Internal);
  }

  lemma KindsTellApart(a: ErrorKind, b: ErrorKind)
    ensures Kind(a) == Kind(b) <==> a == b
    ensures Kind(a) != "ok"
  {
  }

  lemma RefusalsTellApart(a: Refusal, b: Refusal)
    ensures RefusalText(a) == RefusalText(b) <==> a == b
    ensures RefusalText(a) != "ok"
  {
  }

  lemma RoutesTellApart(a: Option<Route>, b: Option<Route>)
    ensures RouteText(a) == RouteText(b) <==> a == b
  {
  }

  predicate SameKindOfCall(a: Upstream.Operation, b: Upstream.Operation) {
    && (a.ListSites? <==> b.ListSites?) && (a.ListVouchers? <==> b.ListVouchers?)
    && (a.CreateVouchers? <==> b.CreateVouchers?) && (a.DeleteVoucher? <==> b.DeleteVoucher?)
  }

  lemma ActionsTellApart(a: Upstream.Operation, b: Upstream.Operation)
    ensures ActionText(a) == ActionText(b) <==> SameKindOfCall(a, b)
  {
  }

  /** The labels a handler's or the extractor's outcome is counted under. */
  lemma LabelsAreSpelled()
    ensures Kind(Forbidden) == "forbidden" && Kind(RateLimited) == "rate_limited" && Kind(BadRequest) == "bad_request"
    ensures Kind(UpstreamError) == "upstream_error" && Kind(UpstreamUnreachable) == "upstream_unreachable"
    ensures RefusalText(IpRateLimited) == "ip_rate_limited" && RefusalText(MissingToken) == "missing_token"
    ensures RefusalText(UnknownToken) == "unknown_token" && RefusalText(LapsedToken) == "token_expired" == Kind(TokenExpired)
  {
  }

  /** Different ends are counted apart: no two error kinds, reasons to refuse, routes or operations
      share a label, and nothing that failed is counted as "ok". */
  lemma LabelsTellApart(a: ErrorKind, b: ErrorKind, why: Refusal, other: Refusal, r: Option<Route>, q: Option<Route>,
                        op: Upstream.Operation, another: Upstream.Operation)
    ensures Kind(a) == Kind(b) <==> a == b
    ensures RefusalText(why) == RefusalText(other) <==> why == other
    ensures RouteText(r) == RouteText(q) <==> r == q
    ensures ActionText(op) == ActionText(another) <==> SameKindOfCall(op, another)
    ensures Kind(a) != "ok" && RefusalText(why) != "ok"
  {
    KindsTellApart(a, b);
    RefusalsTellApart(why, other);
    RoutesTellApart(r, q);
    ActionsTellApart(op, another);
  }

  /** Where a request was closed under a label, the label is one of those listed. */
  ghost predicate ClosedOk(r: Request, actions: seq<string>, outcomes: seq<string>) {
    r.phase.Closed? ==> r.phase.action in actions && r.phase.result in outcomes
  }

  ghost predicate AllClosedOk(reqs: map<nat, Request>, actions: seq<string>, outcomes: seq<string>) {
    forall rid :: rid in reqs ==> ClosedOk(reqs[rid], actions, outcomes)
  }

  lemma RequestStepCloses(w: World, s: State, rid: nat, step: RequestStep, actions: seq<string>, outcomes: seq<string>)
    requires RequestEnabled(s, rid, step) && Covers(actions, outcomes)
    ensures rid in RequestNext(w, s, rid, step).reqs
    ensures (rid in s.reqs ==> ClosedOk(s.reqs[rid], actions, outcomes)) ==>
              ClosedOk(RequestNext(w, s, rid, step).reqs[rid], actions, outcomes)
  {
    match step
    case Arrive(_) =>
    case LoadFirst =>
    case CheckIp(ok) =>
    case Lookup =>
    case ScanAll =>
    case Insert =>
    case CheckExpiry =>
    case CloseSimple =>
    case CloseDocument(_) =>
  }

  lemma FinishCloses(s: State, cid: Cid, actions: seq<string>, outcomes: seq<string>)
    requires CallEnabled(s, cid, Finish) && AllClosedOk(s.reqs, actions, outcomes) && Covers(actions, outcomes)
    ensures AllClosedOk(FinishStep(s, cid).reqs, actions, outcomes)
  {
    var c := s.calls[cid];
    assert ActionText(c.ask.op) in actions;
    assert c.outcome.value.Bad? ==> Kind(c.outcome.value.kind) in outcomes;
  }

  lemma {:induction false} LabelsAreListed(w: World, cfg: Config, steps: seq<Action>, s: State, actions: seq<string>, outcomes: seq<string>)
    requires Reaches(w, cfg, steps, s) && Covers(actions, outcomes)
    ensures AllClosedOk(s.reqs, actions, outcomes)
    decreases |steps|
  {
    if steps != [] {
      var before, a := LastAction(w, cfg, steps, s);
      LabelsAreListed(w, cfg, steps[..|steps| - 1], before, actions, outcomes);
      StepCloses(w, before, a, actions, outcomes);
    }
  }

  lemma StepCloses(w: World, s: State, a: Action, actions: seq<string>, outcomes: seq<string>)
    requires Enabled(w, s, a) && AllClosedOk(s.reqs, actions, outcomes) && Covers(actions, outcomes)
    ensures AllClosedOk(Next(w, s, a).reqs, actions, outcomes)
  {
    match a
    case OnRequest(rid, step) =>
      RequestStepFrame(w, s, rid, step);
      RequestStepCloses(w, s, rid, step, actions, outcomes);
    case OnCall(cid, step) =>
      CallStepFrame(w, s, cid, step);
      if step.Finish? { FinishCloses(s, cid, actions, outcomes); }
    case _ =>
  }

  ghost predicate KeyOk(cfgs: seq<Config>, k: M.Key, actions: seq<string>, outcomes: seq<string>) {
    (k.token == "-" || IsPublishedName(cfgs, k.token)) && k.action in actions && k.outcome in outcomes
  }

  lemma LabelIsListed(w: World, s: State, rid: nat, actions: seq<string>, outcomes: seq<string>)
    requires Inv(w, s) && AllClosedOk(s.reqs, actions, outcomes) && Covers(actions, outcomes)
    requires rid in s.reqs && IsFinished(s.reqs[rid])
    ensures KeyOk(s.cfgs, LabelOf(s.reqs[rid]), actions, outcomes)
  {
    var r := s.reqs[rid];
    assert RequestOk(w, s.cfgs, s.now, r) && ClosedOk(r, actions, outcomes);
    if r.phase.Rejected? && r.phase.why.LapsedToken? { LapsedNameIsPublished(w, s, rid); }
    if r.phase.Closed? {
      var who := r.phase.client;
      assert s.cfgs[who.gen].tokens[who.idx].name == LabelOf(r).token;
    }
  }

  lemma CountedKeyIsListed(w: World, s: State, k: M.Key, actions: seq<string>, outcomes: seq<string>)
    requires Inv(w, s) && AllClosedOk(s.reqs, actions, outcomes) && Covers(actions, outcomes)
    requires Tally(s.requests, s.reqs) && k in s.requests
    ensures KeyOk(s.cfgs, k, actions, outcomes)
  {
    assert Sums.Entry(s.requests, k) == |Labelled(s.reqs, k)|;
    var rid :| rid in Labelled(s.reqs, k);
    LabelIsListed(w, s, rid, actions, outcomes);
  }

  lemma CountedKeysAreListed(w: World, cfg: Config, steps: seq<Action>, s: State, actions: seq<string>, outcomes: seq<string>)
    requires Reaches(w, cfg, steps, s) && Covers(actions, outcomes)
    ensures forall k :: k in s.requests ==> KeyOk(s.cfgs, k, actions, outcomes)
    ensures |s.requests| <= |PublishedNames(s.cfgs) + {"-"}| * (|actions| * |outcomes|)
  {
    Holds(w, cfg, steps, s);
    CountersCountRequests(w, cfg, steps, s);
    LabelsAreListed(w, cfg, steps, s, actions, outcomes);
    forall k | k in s.requests ensures KeyOk(s.cfgs, k, actions, outcomes) {
      CountedKeyIsListed(w, s, k, actions, outcomes);
    }
    KeysAreFew(s.requests.Keys, PublishedNames(s.cfgs) + {"-"}, actions, outcomes);
  }

  /** However many distinct paths are asked for and tokens presented, the counters' keys stay
      within published names (and "-") x 14 actions x 15 outcomes. */
  lemma KeysStayBounded(w: World, cfg: Config, actions: seq<Action>, s: State)
    requires Reaches(w, cfg, actions, s)
    ensures forall k :: k in s.requests ==> KeyOk(s.cfgs, k, ACTIONS, OUTCOMES)
    ensures |s.requests| <= (|PublishedNames(s.cfgs)| + 1) * (14 * 15)
  {
    FixedLabelsCover();
    CountedKeysAreListed(w, cfg, actions, s, ACTIONS, OUTCOMES);
    SetsAreFew(|PublishedNames(s.cfgs) + {"-"}|, |PublishedNames(s.cfgs)| + 1, |ACTIONS|, |OUTCOMES|);
  }

  lemma SetsAreFew(n: nat, m: nat, a: nat, o: nat)
    requires n <= m && a == 14 && o == 15
    ensures n * (a * o) <= m * (14 * 15)
  {
  }

  lemma KeysAreFew(keys: set<M.Key>, names: set<string>, actions: seq<string>, outcomes: seq<string>)
    requires forall k :: k in keys ==> k.token in names && k.action in actions && k.outcome in outcomes
    ensures |keys| <= |names| * (|actions| * |outcomes|)
  {
    var token := (k: M.Key) => k.token;
    forall t | t in names ensures |Sums.Fibre(keys, token, t)| <= |actions| * |outcomes| {
      KeysOfTokenAreFew(Sums.Fibre(keys, token, t), t, actions, outcomes);
    }
    Sums.FibreBound(keys, token, names, |actions| * |outcomes|);
  }

  lemma KeysOfTokenAreFew(keys: set<M.Key>, t: string, actions: seq<string>, outcomes: seq<string>)
    requires forall k :: k in keys ==> k.token == t && k.action in actions && k.outcome in outcomes
    ensures |keys| <= |actions| * |outcomes|
  {
    var action := (k: M.Key) => k.action;
    var values := set a | a in actions;
    forall a | a in values ensures |Sums.Fibre(keys, action, a)| <= |outcomes| {
      KeysOfActionAreFew(Sums.Fibre(keys, action, a), t, a, outcomes);
    }
    Sums.FibreBound(keys, action, values, |outcomes|);
    Sums.ListedBound(values, actions);
    Sums.Scale(|values|, |actions|, |outcomes|);
  }

  lemma KeysOfActionAreFew(keys: set<M.Key>, t: string, a: string, outcomes: seq<string>)
    requires forall k :: k in keys ==> k.token == t && k.action == a && k.outcome in outcomes
    ensures |keys| <= |outcomes|
  {
    var outcome := (k: M.Key) => k.outcome;
    var values := set o | o in outcomes;
    forall o | o in values ensures |Sums.Fibre(keys, outcome, o)| <= 1 {
      Sums.ListedBound(Sums.Fibre(keys, outcome, o), [M.Key(t, a, o)]);
    }
    Sums.FibreBound(keys, outcome, values, 1);
    Sums.ListedBound(values, outcomes);
  }
}
