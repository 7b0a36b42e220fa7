/** Which configurations one request can see. */
module Generations {
  import opened Wrappers
  import opened Config
  import opened Access
  import opened Lifecycle
  import opened Authenticity
  import opened Sends
  import Upstream
  import Auth

  /** A handler never works with an older configuration than the one its caller was read in, and
      only with published ones; the caller's token and ceilings come from that one older one. */
  lemma GenerationsNeverDecrease(w: World, cfg: Config, actions: seq<Action>, s: State, cid: Cid)
    requires Reaches(w, cfg, actions, s)
    requires cid in s.calls && !s.calls[cid].stage.Started?
    ensures s.calls[cid].who.gen <= s.calls[cid].live < |s.cfgs|
    ensures cid.rid in s.reqs && IdentityOk(w, s.cfgs, s.now, s.reqs[cid.rid].arrival.presented, s.calls[cid].who)
  {
    TrailsHold(w, cfg, actions, s);
    IdentityOfCall(w, s, cid);
    assert TrailOk(|s.cfgs|, s.trace, cid, s.calls[cid]);
  }

  // ----- loads and publications in a run -----

  /** How many configurations were published by a sequence of actions. */
  function Published(actions: seq<Action>): nat {
    if actions == [] then 0
    else Published(actions[..|actions| - 1]) + (if actions[|actions| - 1].Publish? then 1 else 0)
  }

  /** The generation a request was read in, once it has loaded one. */
  function GenOf(p: Phase): Option<nat> {
    match p
    case Arrived => None
    case Loaded(g) => Some(g)
    case Admitted(g) => Some(g)
    case Missed(g) => Some(g)
    case Found(g, _) => Some(g)
    case Known(g, _) => Some(g)
    case Serving(who) => Some(who.gen)
    case Rejected(g, _, _) => Some(g)
    case Closed(who, _, _) => Some(who.gen)
  }

  lemma PublishedCounts(w: World, cfg: Config, actions: seq<Action>, s: State)
    requires Reaches(w, cfg, actions, s)
    ensures |s.cfgs| == 1 + Published(actions)
    decreases |actions|
  {
    if actions != [] {
      var before, a := LastAction(w, cfg, actions, s);
      PublishedCounts(w, cfg, actions[..|actions| - 1], before);
      match a
      case OnRequest(rid, step) => RequestStepFrame(w, before, rid, step);
      case OnCall(cid, step) => CallStepFrame(w, before, cid, step);
      case _ =>
    }
  }

  /** Once read in a generation, a request stays with it, whatever step it takes. */
  lemma RequestStepKeepsGen(w: World, s: State, rid: nat, step: RequestStep)
    requires RequestEnabled(s, rid, step) && rid in s.reqs && GenOf(s.reqs[rid].phase).Some?
    ensures var t := RequestNext(w, s, rid, step);
            rid in t.reqs && GenOf(t.reqs[rid].phase) == GenOf(s.reqs[rid].phase)
  {
    match step
    case CheckIp(_) =>
    case Lookup => LookupKeepsGen(w, s, rid);
    case ScanAll => ScanKeepsGen(w, s, rid);
    case Insert =>
    case CheckExpiry =>
    case CloseSimple =>
    case CloseDocument(_) =>
  }

  lemma LookupKeepsGen(w: World, s: State, rid: nat)
    requires rid in s.reqs && s.reqs[rid].phase.Admitted? && s.reqs[rid].phase.gen < |s.rts| == |s.cfgs|
    ensures var t := LookupStep(w, s, rid);
            rid in t.reqs && GenOf(t.reqs[rid].phase) == Some(s.reqs[rid].phase.gen)
  {
    var g, t := s.reqs[rid].phase.gen, LookupStep(w, s, rid);
    match s.reqs[rid].arrival.presented
    case None => assert t == Reject(s, rid, g, "-", MissingToken);
    case Some(p) =>
      if p == [] { assert t == Reject(s, rid, g, "-", UnknownToken); }
      else if w.crypto.digest(p) in s.rts[g].cache {
      }
  }

  lemma ScanKeepsGen(w: World, s: State, rid: nat)
    requires RequestEnabled(s, rid, ScanAll)
    ensures var t := ScanStep(w, s, rid);
            rid in t.reqs && GenOf(t.reqs[rid].phase) == Some(s.reqs[rid].phase.gen)
  {
  }

  lemma StepKeepsGen(w: World, s: State, a: Action, rid: nat)
    requires CallsBelong(s) && Enabled(w, s, a) && rid in s.reqs && GenOf(s.reqs[rid].phase).Some?
    ensures var t := Next(w, s, a);
            rid in t.reqs && GenOf(t.reqs[rid].phase) == GenOf(s.reqs[rid].phase)
  {
    match a
    case OnRequest(other, step) => OnRequestKeepsGen(w, s, other, step, rid);
    case OnCall(cid, step) => OnCallKeepsGen(w, s, cid, step, rid);
    case Tick(_) =>
    case Publish(_) =>
    case RefuseReload =>
    case CountReload =>
  }

  lemma OnCallKeepsGen(w: World, s: State, cid: Cid, step: CallStep, rid: nat)
    requires CallsBelong(s) && CallEnabled(s, cid, step) && rid in s.reqs
    ensures var t := CallNext(w, s, cid, step);
            rid in t.reqs && GenOf(t.reqs[rid].phase) == GenOf(s.reqs[rid].phase)
  {
    CallStepOnRequests(w, s, cid, step, rid);
  }

  lemma OnRequestKeepsGen(w: World, s: State, other: nat, step: RequestStep, rid: nat)
    requires RequestEnabled(s, other, step) && rid in s.reqs && GenOf(s.reqs[rid].phase).Some?
    ensures var t := RequestNext(w, s, other, step);
            rid in t.reqs && GenOf(t.reqs[rid].phase) == GenOf(s.reqs[rid].phase)
  {
    RequestStepFrame(w, s, other, step);
    if other == rid { RequestStepKeepsGen(w, s, rid, step); }
  }

  lemma CallStepKeepsLive(w: World, s: State, cid: Cid, step: CallStep)
    requires CallEnabled(s, cid, step) && cid in s.calls && !s.calls[cid].stage.Started?
    ensures var t := CallNext(w, s, cid, step);
            cid in t.calls && !t.calls[cid].stage.Started? && t.calls[cid].live == s.calls[cid].live
  {
    match step
    case Authorise =>
    case Charge =>
    case PrepareCall =>
    case SendCall =>
    case ServeCall =>
    case Receive =>
    case Lose =>
    case Finish =>
  }

  lemma StepKeepsLive(w: World, s: State, a: Action, cid: Cid)
    requires Enabled(w, s, a) && cid in s.calls && !s.calls[cid].stage.Started?
    ensures var t := Next(w, s, a);
            cid in t.calls && !t.calls[cid].stage.Started? && t.calls[cid].live == s.calls[cid].live
  {
    match a
    case OnRequest(rid, step) => RequestStepFrame(w, s, rid, step);
    case OnCall(other, step) =>
      CallStepFrame(w, s, other, step);
      if other == cid { CallStepKeepsLive(w, s, cid, step); }
    case _ =>
  }

  /** A request remembers the generation that was current when it loaded. */
  lemma {:induction false} FirstLoadIsKept(w: World, cfg: Config, actions: seq<Action>, s: State, i: nat, rid: nat)
    requires Reaches(w, cfg, actions, s) && i < |actions| && actions[i] == OnRequest(rid, LoadFirst)
    ensures rid in s.reqs && GenOf(s.reqs[rid].phase) == Some(Published(actions[..i]))
    decreases |actions|
  {
    var last := |actions| - 1;
    var before, a := LastAction(w, cfg, actions, s);
    if i == last {
      PublishedCounts(w, cfg, actions[..last], before);
    } else {
      assert actions[..last][..i] == actions[..i];
      FirstLoadIsKept(w, cfg, actions[..last], before, i, rid);
      Holds(w, cfg, actions[..last], before);
      StepKeepsGen(w, before, a, rid);
    }
  }

  /** A call remembers the generation that was current when its handler loaded. */
  lemma {:induction false} SecondLoadIsKept(w: World, cfg: Config, actions: seq<Action>, s: State, j: nat, cid: Cid)
    requires Reaches(w, cfg, actions, s) && j < |actions| && actions[j] == OnCall(cid, LoadSecond)
    ensures cid in s.calls && !s.calls[cid].stage.Started? && s.calls[cid].live == Published(actions[..j])
    decreases |actions|
  {
    var last := |actions| - 1;
    var before, a := LastAction(w, cfg, actions, s);
    if j == last {
      PublishedCounts(w, cfg, actions[..last], before);
    } else {
      assert actions[..last][..j] == actions[..j];
      SecondLoadIsKept(w, cfg, actions[..last], before, j, cid);
      StepKeepsLive(w, before, a, cid);
    }
  }

  lemma {:induction false} PrefixReaches(w: World, cfg: Config, actions: seq<Action>, s: State, n: nat) returns (t: State)
    requires Reaches(w, cfg, actions, s) && n <= |actions|
    ensures Reaches(w, cfg, actions[..n], t)
    decreases |actions|
  {
    if n == |actions| {
      assert actions[..n] == actions;
      t := s;
    } else {
      var before, a := LastAction(w, cfg, actions, s);
      t := PrefixReaches(w, cfg, actions[..|actions| - 1], before, n);
      assert actions[..|actions| - 1][..n] == actions[..n];
    }
  }

  lemma EnabledAt(w: World, cfg: Config, actions: seq<Action>, s: State, i: nat) returns (before: State)
    requires Reaches(w, cfg, actions, s) && i < |actions|
    ensures Reaches(w, cfg, actions[..i], before) && Enabled(w, before, actions[i])
  {
    var t := PrefixReaches(w, cfg, actions, s, i + 1);
    var a;
    before, a := LastAction(w, cfg, actions[..i + 1], t);
    assert actions[..i + 1][..i] == actions[..i];
  }

  lemma HasCallerOnceCalled(w: World, cfg: Config, actions: seq<Action>, s: State, j: nat, cid: Cid)
    requires Reaches(w, cfg, actions, s) && j < |actions| && actions[j] == OnCall(cid, LoadSecond)
    ensures cid.rid in s.reqs && !s.reqs[cid.rid].phase.Arrived?
  {
    SecondLoadIsKept(w, cfg, actions, s, j, cid);
    Holds(w, cfg, actions, s);
    StartedForACaller(w, s, cid);
  }

  /** The extractor loads before the handler does: a call only starts for a request that has a caller. */
  lemma FirstLoadComesFirst(w: World, cfg: Config, actions: seq<Action>, s: State, i: nat, j: nat, cid: Cid)
    requires Reaches(w, cfg, actions, s) && i < |actions| && j < |actions|
    requires actions[i] == OnRequest(cid.rid, LoadFirst) && actions[j] == OnCall(cid, LoadSecond)
    ensures i < j
  {
    if j < i {
      var before := EnabledAt(w, cfg, actions, s, i);
      HasCallerOnceCalled(w, cfg, actions[..i], before, j, cid);
      assert false;
    }
  }

  lemma StartedForACaller(w: World, s: State, cid: Cid)
    requires Authenticity.Inv(w, s) && cid in s.calls
    ensures cid.rid in s.reqs && !s.reqs[cid.rid].phase.Arrived?
  {
    assert Belongs(s.reqs, cid, s.calls[cid]);
  }

  lemma {:induction false} PublishedBetween(actions: seq<Action>, i: nat, j: nat)
    requires i <= j <= |actions|
    ensures Published(actions[..i]) <= Published(actions[..j])
    ensures Published(actions[..i]) == Published(actions[..j]) <==> forall k :: i <= k < j ==> !actions[k].Publish?
    decreases j
  {
    if i < j {
      PublishedBetween(actions, i, j - 1);
      assert actions[..j][..j - 1] == actions[..j - 1];
    }
  }

  /** In every run, a call works with the configuration its caller was read in if and only if no
      configuration was published between the extractor's load and the handler's. */
  lemma OneConfigurationExactlyWithoutReload(w: World, cfg: Config, actions: seq<Action>, s: State, i: nat, j: nat, cid: Cid)
    requires Reaches(w, cfg, actions, s) && i < |actions| && j < |actions|
    requires actions[i] == OnRequest(cid.rid, LoadFirst) && actions[j] == OnCall(cid, LoadSecond)
    ensures cid in s.calls && i < j
    ensures s.calls[cid].live == s.calls[cid].who.gen <==> forall k :: i < k < j ==> !actions[k].Publish?
  {
    FirstLoadComesFirst(w, cfg, actions, s, i, j, cid);
    FirstLoadIsKept(w, cfg, actions, s, i, cid.rid);
    SecondLoadIsKept(w, cfg, actions, s, j, cid);
    Holds(w, cfg, actions, s);
    assert Belongs(s.reqs, cid, s.calls[cid]);
    PublishedBetween(actions, i, j);
  }

  /** Of two handlers' or resolvers' loads, the later never sees an older configuration, be they of
      one request or of two; and they see the same exactly when none was published in between. */
  lemma LoadsNeverGoBack(w: World, cfg: Config, actions: seq<Action>, s: State, i: nat, j: nat, a: Cid, b: Cid)
    requires Reaches(w, cfg, actions, s) && i <= j < |actions|
    requires actions[i] == OnCall(a, LoadSecond) && actions[j] == OnCall(b, LoadSecond)
    ensures a in s.calls && b in s.calls && s.calls[a].live <= s.calls[b].live
    ensures s.calls[a].live == s.calls[b].live <==> forall k :: i < k < j ==> !actions[k].Publish?
  {
    SecondLoadIsKept(w, cfg, actions, s, i, a);
    SecondLoadIsKept(w, cfg, actions, s, j, b);
    PublishedBetween(actions, i, j);
  }

  // ----- reloads that are refused -----

  /** Which reload is under way after a sequence of actions. */
  function UnderWay(actions: seq<Action>): Reload {
    if actions == [] then Idle
    else
      match actions[|actions| - 1]
      case Publish(_) => Stored
      case RefuseReload => Refused
      case CountReload => Idle
      case _ => UnderWay(actions[..|actions| - 1])
  }

  /** The actions without the refused reloads and the counting of them. */
  function WithoutRefusals(actions: seq<Action>): seq<Action> {
    if actions == [] then []
    else
      var before, a := actions[..|actions| - 1], actions[|actions| - 1];
      if a.RefuseReload? || (a.CountReload? && UnderWay(before).Refused?) then WithoutRefusals(before)
      else WithoutRefusals(before) + [a]
  }

  function Refusals(actions: seq<Action>): nat {
    if actions == [] then 0
    else
      var before, a := actions[..|actions| - 1], actions[|actions| - 1];
      Refusals(before) + (if a.CountReload? && UnderWay(before).Refused? then 1 else 0)
  }

  function Marked(s: State, reload: Reload, failures: nat): State {
    s.(reload := reload, reloadFailures := failures)
  }

  lemma RequestStepIgnoresReload(w: World, s: State, rid: nat, step: RequestStep, r: Reload, f: nat)
    requires RequestEnabled(s, rid, step)
    ensures RequestEnabled(Marked(s, r, f), rid, step)
    ensures RequestNext(w, Marked(s, r, f), rid, step) == Marked(RequestNext(w, s, rid, step), r, f)
  {
    match step
    case Arrive(_) =>
    case LoadFirst =>
    case CheckIp(ok) => IpIgnoresReload(s, rid, ok, r, f);
    case Lookup => LookupIgnoresReload(w, s, rid, r, f);
    case ScanAll => ScanIgnoresReload(w, s, rid, r, f);
    case Insert =>
    case CheckExpiry =>
    case CloseSimple =>
    case CloseDocument(_) =>
  }

  lemma IpIgnoresReload(s: State, rid: nat, ok: bool, r: Reload, f: nat)
    requires RequestEnabled(s, rid, CheckIp(ok))
    ensures IpStep(Marked(s, r, f), rid, ok) == Marked(IpStep(s, rid, ok), r, f)
  {
  }

  lemma LookupIgnoresReload(w: World, s: State, rid: nat, r: Reload, f: nat)
    requires RequestEnabled(s, rid, Lookup)
    ensures LookupStep(w, Marked(s, r, f), rid) == Marked(LookupStep(w, s, rid), r, f)
  {
    var g := s.reqs[rid].phase.gen;
    RejectIgnoresReload(s, rid, g, "-", MissingToken, r, f);
    RejectIgnoresReload(s, rid, g, "-", UnknownToken, r, f);
  }

  lemma ScanIgnoresReload(w: World, s: State, rid: nat, r: Reload, f: nat)
    requires RequestEnabled(s, rid, ScanAll)
    ensures ScanStep(w, Marked(s, r, f), rid) == Marked(ScanStep(w, s, rid), r, f)
  {
    var g := s.reqs[rid].phase.gen;
    var x := s.rts[g].(scanned := s.rts[g].scanned + {rid}, verifications := s.rts[g].verifications + |s.cfgs[g].tokens|);
    var s1 := WithRuntime(s, g, x);
    RejectIgnoresReload(s1, rid, g, "-", UnknownToken, r, f);
    assert WithRuntime(Marked(s, r, f), g, x) == Marked(s1, r, f);
  }

  lemma RejectIgnoresReload(s: State, rid: nat, g: nat, name: string, why: Refusal, r: Reload, f: nat)
    requires rid in s.reqs
    ensures Reject(Marked(s, r, f), rid, g, name, why) == Marked(Reject(s, rid, g, name, why), r, f)
  {
  }

  lemma CallStepIgnoresReload(w: World, s: State, cid: Cid, step: CallStep, r: Reload, f: nat)
    requires CallEnabled(s, cid, step)
    ensures CallEnabled(Marked(s, r, f), cid, step)
    ensures CallNext(w, Marked(s, r, f), cid, step) == Marked(CallNext(w, s, cid, step), r, f)
  {
    match step
    case StartCall =>
    case LoadSecond =>
    case Authorise =>
    case Charge => ChargeIgnoresReload(w, s, cid, r, f);
    case PrepareCall =>
    case SendCall =>
    case ServeCall => ServeIgnoresReload(w, s, cid, r, f);
    case Receive =>
    case Lose =>
    case Finish => FinishIgnoresReload(s, cid, r, f);
  }

  lemma ChargeIgnoresReload(w: World, s: State, cid: Cid, r: Reload, f: nat)
    requires CallEnabled(s, cid, Charge)
    ensures ChargeStep(w, Marked(s, r, f), cid) == Marked(ChargeStep(w, s, cid), r, f)
  {
  }

  lemma ServeIgnoresReload(w: World, s: State, cid: Cid, r: Reload, f: nat)
    requires CallEnabled(s, cid, ServeCall)
    ensures ServeStep(w, Marked(s, r, f), cid) == Marked(ServeStep(w, s, cid), r, f)
  {
  }

  lemma FinishIgnoresReload(s: State, cid: Cid, r: Reload, f: nat)
    requires CallEnabled(s, cid, Finish)
    ensures FinishStep(Marked(s, r, f), cid) == Marked(FinishStep(s, cid), r, f)
  {
    var c := s.calls[cid];
    var who, good := c.who, c.outcome == Some(Good);
    if c.isRest {
      var s1, t1 := RecordCall(s, cid), RecordCall(Marked(s, r, f), cid);
      assert t1 == Marked(s1, r, f);
      var outcome := if good then "ok" else Kind(c.outcome.value.kind);
      assert Close(t1, cid.rid, who, ActionText(c.ask.op), outcome) == Marked(Close(s1, cid.rid, who, ActionText(c.ask.op), outcome), r, f);
    }
  }

  /** Nothing a request, a reload or the console does depends on refused reloads: in every run they,
      and the counting of them, can be left out, and the run without them is a run that ends in the
      same state, but for their own counter, which counts them exactly. */
  lemma {:induction false} RefusedReloadsLeaveNoTrace(w: World, cfg: Config, actions: seq<Action>, s: State)
    requires Reaches(w, cfg, actions, s)
    ensures s.reload == UnderWay(actions) && s.reloadFailures == Refusals(actions)
    ensures Reaches(w, cfg, WithoutRefusals(actions), Marked(s, if s.reload.Refused? then Idle else s.reload, 0))
    decreases |actions|
  {
    if actions != [] {
      var last := |actions| - 1;
      var before, a := LastAction(w, cfg, actions, s);
      RefusedReloadsLeaveNoTrace(w, cfg, actions[..last], before);
      var r := if before.reload.Refused? then Idle else before.reload;
      var quiet := Marked(before, r, 0);
      ReloadStep(w, before, a, r);
      if !a.RefuseReload? && !(a.CountReload? && before.reload.Refused?) {
        Extend(w, cfg, WithoutRefusals(actions[..last]), quiet, a);
      }
    }
  }

  lemma ReloadStep(w: World, s: State, a: Action, r: Reload)
    requires Enabled(w, s, a) && r == if s.reload.Refused? then Idle else s.reload
    ensures var t := Next(w, s, a);
            var after := Marked(t, if t.reload.Refused? then Idle else t.reload, 0);
            && (if a.RefuseReload? || (a.CountReload? && s.reload.Refused?) then after == Marked(s, r, 0)
                else Enabled(w, Marked(s, r, 0), a) && Next(w, Marked(s, r, 0), a) == after)
            && t.reloadFailures == s.reloadFailures + (if a.CountReload? && s.reload.Refused? then 1 else 0)
            && t.reload == (match a case Publish(_) => Stored case RefuseReload => Refused case CountReload => Idle case _ => s.reload)
  {
    match a
    case OnRequest(rid, step) =>
      RequestStepFrame(w, s, rid, step);
      RequestStepIgnoresReload(w, s, rid, step, r, 0);
    case OnCall(cid, step) =>
      CallStepFrame(w, s, cid, step);
      CallStepIgnoresReload(w, s, cid, step, r, 0);
    case _ =>
  }

  // ----- a run in which one request sees two -----

  lemma Extend(w: World, cfg: Config, actions: seq<Action>, s: State, a: Action)
    requires Reaches(w, cfg, actions, s) && Enabled(w, s, a)
    ensures Reaches(w, cfg, actions + [a], Next(w, s, a))
  {
    var longer := actions + [a];
    assert longer[..|longer| - 1] == actions && longer[|longer| - 1] == a;
  }

  const LISTING := Rest(Ask(Upstream.ListSites, Nothing))

  /** A fresh proxy has nothing in its cache for a request. */
  lemma NotCached(w: World, cfg: Config, p: string) returns (actions: seq<Action>, s: State)
    requires p != []
    ensures Reaches(w, cfg, actions, s)
    ensures s.cfgs == [cfg] && |s.rts| == 1 && s.now == 0 && s.reload.Idle? && s.calls == map[]
    ensures 0 in s.reqs && s.reqs[0] == Request(Arrival("/", Some(SitesRoute), Some(p), LISTING), Missed(0))
  {
    actions, s := [], Initial(cfg);
    var arrival := Arrival("/", Some(SitesRoute), Some(p), LISTING);
    actions, s := Step(w, cfg, actions, s, OnRequest(0, Arrive(arrival)));
    assert s.reqs[0] == Request(arrival, Arrived);
    actions, s := Step(w, cfg, actions, s, OnRequest(0, LoadFirst));
    assert s.reqs[0] == Request(arrival, Loaded(0));
    actions, s := Step(w, cfg, actions, s, OnRequest(0, CheckIp(true)));
    assert s.reqs[0] == Request(arrival, Admitted(0)) && s.rts[0].cache == map[];
    actions, s := Step(w, cfg, actions, s, OnRequest(0, Lookup));
  }

  /** A fresh proxy identifies a request that presents a token it knows. */
  lemma Identified(w: World, cfg: Config, p: string, i: nat) returns (actions: seq<Action>, s: State)
    requires Auth.Scan(w.crypto, cfg.tokens, p) == Some(i) && i < |cfg.tokens| && (cfg.tokens[i].expiresAt.None? || 0 < cfg.tokens[i].expiresAt.value)
    ensures Reaches(w, cfg, actions, s)
    ensures s.cfgs == [cfg] && |s.rts| == 1 && s.now == 0 && s.reload.Idle? && s.calls == map[]
    ensures 0 in s.reqs && s.reqs[0].arrival.work == LISTING
    ensures s.reqs[0].phase == Serving(Identity(0, i, 0, CallerFor(cfg.tokens[i], cfg.limits)))
  {
    actions, s := NotCached(w, cfg, p);
    var arrival := s.reqs[0].arrival;
    actions, s := Step(w, cfg, actions, s, OnRequest(0, ScanAll));
    assert s.reqs[0] == Request(arrival, Found(0, i));
    actions, s := Step(w, cfg, actions, s, OnRequest(0, Insert));
    assert s.reqs[0] == Request(arrival, Known(0, i)) && !cfg.tokens[i].IsExpiredAt(s.now);
    actions, s := Step(w, cfg, actions, s, OnRequest(0, CheckExpiry));
  }

  lemma Step(w: World, cfg: Config, actions: seq<Action>, s: State, a: Action) returns (more: seq<Action>, t: State)
    requires Reaches(w, cfg, actions, s) && Enabled(w, s, a)
    ensures Reaches(w, cfg, more, t) && t == Next(w, s, a) && more == actions + [a]
  {
    Extend(w, cfg, actions, s, a);
    more, t := actions + [a], Next(w, s, a);
  }

  /** The extractor and the handler load the configuration separately, so a reload between the two
      makes one request work with both: the caller of the old one, the limits on rate and the
      console connection of the new one. This happens for every proxy that knows some token. */
  lemma OneRequestMaySeeTwoConfigurations(w: World, cfg: Config, next: Config, p: string, i: nat)
    returns (actions: seq<Action>, s: State)
    requires Auth.Scan(w.crypto, cfg.tokens, p) == Some(i) && i < |cfg.tokens| && (cfg.tokens[i].expiresAt.None? || 0 < cfg.tokens[i].expiresAt.value)
    requires Validate(next).Ok? && w.builds(next)
    ensures Reaches(w, cfg, actions, s) && s.cfgs == [cfg, next]
    ensures Cid(0, 0) in s.calls && s.calls[Cid(0, 0)].who.gen == 0 && s.calls[Cid(0, 0)].live == 1
  {
    actions, s := Identified(w, cfg, p, i);
    actions, s := Step(w, cfg, actions, s, Publish(next));
    actions, s := Step(w, cfg, actions, s, OnCall(Cid(0, 0), StartCall));
    actions, s := Step(w, cfg, actions, s, OnCall(Cid(0, 0), LoadSecond));
  }
}
