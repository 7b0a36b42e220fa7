/** In the running machine a GraphQL document reaches no further than REST requests: any run in which
    its resolvers interleave with each other and with everything else is matched, step for step, by
    one in which REST handlers stand in for them. */
module Simulation {
  import opened Wrappers
  import opened Access
  import opened Lifecycle
  import opened Correspondence
  import Config
  import Operations
  import Upstream
  import Authenticity
  import Generations
  import CallSteps
  import RequestSteps

  // ----- any step -----

  /** Nothing but the surroundings has changed, and alike. */
  lemma AroundKeepsSim(tw: Twins, s: State, t: State, s1: State, t1: State)
    requires Distinct(tw) && Sim(tw, s, t) && SameAround(s1, t1)
    requires s1.reqs == s.reqs && s1.calls == s.calls && s1.trace == s.trace
    requires t1.reqs == t.reqs && t1.calls == t.calls && t1.trace == t.trace
    ensures Sim(tw, s1, t1)
  {
  }

  lemma PublishAround(s: State, t: State, cfg: Config.Config)
    requires SameAround(s, t)
    ensures SameAround(s.(cfgs := s.cfgs + [cfg], rts := s.rts + [Fresh(cfg)], reload := Stored),
                       t.(cfgs := t.cfgs + [cfg], rts := t.rts + [Fresh(cfg)], reload := Stored))
  {
  }

  lemma TickAround(s: State, t: State, d: nat)
    requires SameAround(s, t)
    ensures SameAround(s.(now := s.now + d), t.(now := t.now + d))
  {
  }

  lemma ReloadAround(s: State, t: State, reload: Reload, reloads: nat, failures: nat)
    requires SameAround(s, t)
    ensures SameAround(s.(reload := reload, reloads := reloads, reloadFailures := failures),
                       t.(reload := reload, reloads := reloads, reloadFailures := failures))
  {
  }

  lemma OtherStepAround(w: World, s: State, t: State, a: Action)
    requires SameAround(s, t) && Enabled(w, s, a) && !a.OnRequest? && !a.OnCall?
    ensures Enabled(w, t, a) && SameAround(Next(w, s, a), Next(w, t, a))
  {
    match a
    case Tick(d) => TickAround(s, t, d);
    case Publish(cfg) => PublishAround(s, t, cfg);
    case RefuseReload => ReloadAround(s, t, Refused, s.reloads, s.reloadFailures);
    case CountReload => CountAround(w, s, t);
  }

  lemma CountAround(w: World, s: State, t: State)
    requires SameAround(s, t) && !s.reload.Idle?
    ensures SameAround(Next(w, s, CountReload), Next(w, t, CountReload))
  {
    if s.reload.Stored? {
      ReloadAround(s, t, Idle, s.reloads + 1, s.reloadFailures);
    } else {
      ReloadAround(s, t, Idle, s.reloads, s.reloadFailures + 1);
    }
  }

  lemma OtherStepLeaves(w: World, s: State, a: Action)
    requires Enabled(w, s, a) && !a.OnRequest? && !a.OnCall?
    ensures Next(w, s, a).reqs == s.reqs && Next(w, s, a).calls == s.calls && Next(w, s, a).trace == s.trace
  {
  }

  lemma OtherKeepsSim(w: World, tw: Twins, s: State, t: State, a: Action)
    requires Distinct(tw) && Sim(tw, s, t) && Enabled(w, s, a) && !a.OnRequest? && !a.OnCall?
    ensures Enabled(w, t, a) && Sim(tw, Next(w, s, a), Next(w, t, a))
  {
    OtherStepAround(w, s, t, a);
    OtherStepLeaves(w, s, a);
    OtherStepLeaves(w, t, a);
    AroundKeepsSim(tw, s, t, Next(w, s, a), Next(w, t, a));
  }

  lemma StepSimKept(w: World, cfg: Config.Config, run: seq<Action>, tw: Twins, s: State, t: State, a: Action) returns (t1: State)
    requires Distinct(tw) && Sim(tw, s, t) && Reaches(w, cfg, run, t) && Enabled(w, s, a) && LeavesTwinsAlone(tw, a)
    requires tw.doc in Next(w, s, a).reqs ==> Fits(tw, Next(w, s, a).reqs[tw.doc].arrival)
    ensures Reaches(w, cfg, run + Image(tw, a), t1) && Sim(tw, Next(w, s, a), t1)
  {
    match a
    case OnRequest(rid, step) => t1 := OnRequestKeepsSim(w, cfg, run, tw, s, t, rid, step);
    case OnCall(cid, step) =>
      CallSteps.CallKeepsSim(w, tw, s, t, cid, step);
      Generations.Extend(w, cfg, run, t, OnCall(Twin(tw, cid), step));
      t1 := CallNext(w, t, Twin(tw, cid), step);
    case _ =>
      OtherKeepsSim(w, tw, s, t, a);
      Generations.Extend(w, cfg, run, t, a);
      t1 := Next(w, t, a);
  }

  lemma OnRequestKeepsSim(w: World, cfg: Config.Config, run: seq<Action>, tw: Twins, s: State, t: State, rid: nat, step: RequestStep)
    returns (t1: State)
    requires Distinct(tw) && Sim(tw, s, t) && Reaches(w, cfg, run, t) && RequestEnabled(s, rid, step) && rid !in tw.rids
    requires rid == tw.doc && step.Arrive? ==> Fits(tw, step.arrival)
    ensures Reaches(w, cfg, run + Image(tw, OnRequest(rid, step)), t1) && Sim(tw, RequestNext(w, s, rid, step), t1)
  {
    if rid != tw.doc {
      RequestSteps.RequestKeepsSim(w, tw, s, t, rid, step);
      Generations.Extend(w, cfg, run, t, OnRequest(rid, step));
      t1 := RequestNext(w, t, rid, step);
    } else if Closes(step) {
      RequestSteps.ClosingKeepsSim(w, tw, s, t, step);
      assert run + [] == run;
      t1 := t;
    } else {
      t1 := RequestSteps.DocumentKeepsSim(w, cfg, run, tw, s, t, step);
    }
  }

  // ----- main result -----

  /** Take any run, and REST requests unknown to it, one for each resolver of a document, that present
      the document's token and ask the same. However the document's steps interleave with other
      requests, reloads, the clock and the consoles, and its resolvers with each other, there is a run
      in which those requests come in, are identified with the document, and their handlers take the
      resolvers' steps instead; it ends with the same consoles, caches, limiters and voucher counters,
      the same messages sent and answered in the same order, and every handler ended exactly as its
      resolver did. */
  lemma {:induction false} DocumentIsMatchedByHandlers(w: World, cfg: Config.Config, actions: seq<Action>, s: State, tw: Twins)
    returns (t: State)
    requires Distinct(tw) && Reaches(w, cfg, actions, s)
    requires forall i :: 0 <= i < |actions| ==> LeavesTwinsAlone(tw, actions[i])
    requires tw.doc in s.reqs ==> Fits(tw, s.reqs[tw.doc].arrival)
    ensures Reaches(w, cfg, Mirrored(tw, actions), t) && Sim(tw, s, t)
    decreases |actions|
  {
    if actions == [] {
      t := s;
    } else {
      var last := |actions| - 1;
      var s0, a := Authenticity.LastAction(w, cfg, actions, s);
      Authenticity.StepGrows(w, s0, a);
      var t0 := DocumentIsMatchedByHandlers(w, cfg, actions[..last], s0, tw);
      t := StepSimKept(w, cfg, Mirrored(tw, actions[..last]), tw, s0, t0, a);
    }
  }

  // ----- every document has stand-ins -----

  /** The smallest number above every request of a run. */
  function Above(actions: seq<Action>): nat {
    if actions == [] then 0
    else
      var before := Above(actions[..|actions| - 1]);
      match actions[|actions| - 1]
      case OnRequest(rid, _) => if rid < before then before else rid + 1
      case OnCall(cid, _) => if cid.rid < before then before else cid.rid + 1
      case _ => before
  }

  function RouteOf(op: Upstream.Operation): Route {
    match op
    case ListSites => SitesRoute
    case DeleteVoucher(_, _) => VoucherRoute
    case _ => VouchersRoute
  }

  function TwinsFor(actions: seq<Action>, doc: nat, arrival: Arrival): Twins {
    var asks, first := Asks(arrival.work), if doc < Above(actions) then Above(actions) else doc + 1;
    Twins(doc, seq(|asks|, k requires 0 <= k < |asks| => first + k),
          seq(|asks|, k requires 0 <= k < |asks| =>
            Arrival("/", Some(RouteOf(asks[k].op)), arrival.presented, Rest(Operations.RestForm(asks[k])))))
  }

  lemma {:induction false} NewIsLeftAlone(actions: seq<Action>, i: nat, tw: Twins)
    requires i < |actions| && forall k :: 0 <= k < |tw.rids| ==> tw.rids[k] >= Above(actions)
    ensures LeavesTwinsAlone(tw, actions[i])
  {
    if i < |actions| - 1 { NewIsLeftAlone(actions[..|actions| - 1], i, tw); }
  }

  lemma TwinsFit(actions: seq<Action>, doc: nat, arrival: Arrival)
    requires arrival.work.Document?
    ensures var tw := TwinsFor(actions, doc, arrival);
            && Distinct(tw) && Fits(tw, arrival) && tw.doc == doc
            && forall k :: 0 <= k < |tw.rids| ==> tw.rids[k] >= Above(actions)
  {
    var tw := TwinsFor(actions, doc, arrival);
    forall k | 0 <= k < |tw.forms| ensures FormFits(tw.forms[k], arrival, k) {
      Operations.EveryAskHasARestForm(Asks(arrival.work)[k]);
    }
  }

  /** Whatever happens in a run, and whatever a document in it asks: REST requests can do it. */
  lemma EveryDocumentIsMatched(w: World, cfg: Config.Config, actions: seq<Action>, s: State, doc: nat) returns (tw: Twins, t: State)
    requires Reaches(w, cfg, actions, s) && doc in s.reqs && s.reqs[doc].arrival.work.Document?
    ensures tw.doc == doc && Distinct(tw) && Fits(tw, s.reqs[doc].arrival)
    ensures Reaches(w, cfg, Mirrored(tw, actions), t) && Sim(tw, s, t)
  {
    tw := TwinsFor(actions, doc, s.reqs[doc].arrival);
    TwinsFit(actions, doc, s.reqs[doc].arrival);
    forall i | 0 <= i < |actions| ensures LeavesTwinsAlone(tw, actions[i]) {
      NewIsLeftAlone(actions, i, tw);
    }
    t := DocumentIsMatchedByHandlers(w, cfg, actions, s, tw);
  }

  /** What the match says of one resolver: its stand-in was charged at the same generation and time,
      sent the same message, got the same answer and ended with the same error kind. */
  lemma ResolverAndHandlerAgree(tw: Twins, s: State, t: State, k: nat)
    requires Distinct(tw) && Sim(tw, s, t) && k < |tw.rids| && Cid(tw.doc, k) in s.calls
    ensures Cid(tw.rids[k], 0) in t.calls
    ensures var c, d := s.calls[Cid(tw.doc, k)], t.calls[Cid(tw.rids[k], 0)];
            && d.who == c.who && d.live == c.live && d.paid == c.paid && d.sent == c.sent && d.served == c.served && d.outcome == c.outcome
            && CreditOf(d) == CreditOf(c)
    ensures RuntimesSim(s.rts, t.rts) && t.consoles == s.consoles && t.created == s.created && |t.trace| == |s.trace|
    ensures forall i :: 0 <= i < |s.trace| && s.trace[i].Sent? ==> t.trace[i].Sent? && t.trace[i].msg == s.trace[i].msg
  {
    assert PairSim(tw, k, t.reqs, s.calls, t.calls);
  }
}
