/** How many password verifications the proxy can be made to do. */
module Workload {
  import opened Config
  import opened Lifecycle
  import opened Authenticity
  import Sums

  predicate PastGate(p: Phase) { !p.Arrived? && !p.Loaded? }

  predicate PastScan(p: Phase) { PastGate(p) && !p.Admitted? && !p.Missed? }

  /** A generation has verified each of its tokens once per request that scanned it, and only
      requests that its address check admitted have. */
  ghost predicate GenerationOk(tokens: nat, r: Runtime, reqs: map<nat, Request>) {
    && r.verifications == |r.scanned| * tokens
    && r.scanned <= r.admitted
    && (forall rid :: rid in r.admitted ==> rid in reqs && PastGate(reqs[rid].phase))
    && (forall rid :: rid in r.scanned ==> PastScan(reqs[rid].phase))
  }

  /** A request on its way to the scan was admitted by the generation it will scan. */
  ghost predicate OnItsWay(rts: seq<Runtime>, rid: nat, r: Request) {
    r.phase.Admitted? || r.phase.Missed? ==> r.phase.gen < |rts| && rid in rts[r.phase.gen].admitted
  }

  ghost predicate Work(s: State) {
    && |s.rts| == |s.cfgs|
    && (forall g :: 0 <= g < |s.rts| ==> GenerationOk(|s.cfgs[g].tokens|, s.rts[g], s.reqs))
    && (forall rid :: rid in s.reqs ==> OnItsWay(s.rts, rid, s.reqs[rid]))
    && (forall g, h :: 0 <= g < h < |s.rts| ==> s.rts[g].scanned !! s.rts[h].scanned)
  }

  /** Requests only move forward, and only a check of the address or a scan is booked. */
  lemma RequestStepBooks(w: World, s: State, rid: nat, step: RequestStep, g: nat)
    requires RequestEnabled(s, rid, step) && g < |s.rts|
    ensures var t := RequestNext(w, s, rid, step);
            && |t.rts| == |s.rts|
            && (!step.ScanAll? ==> t.rts[g].scanned == s.rts[g].scanned && t.rts[g].verifications == s.rts[g].verifications)
            && (!step.CheckIp? ==> t.rts[g].admitted == s.rts[g].admitted)
            && s.rts[g].admitted <= t.rts[g].admitted <= s.rts[g].admitted + {rid}
  {
    match step
    case Arrive(_) =>
    case LoadFirst =>
    case CheckIp(ok) =>
    case Lookup =>
    case ScanAll =>
    case Insert =>
    case CheckExpiry =>
    case CloseSimple =>
    case CloseDocument(_) =>
  }

  lemma RequestStepForward(w: World, s: State, rid: nat, step: RequestStep)
    requires RequestEnabled(s, rid, step)
    ensures var t := RequestNext(w, s, rid, step);
            && rid in t.reqs
            && (rid in s.reqs && PastGate(s.reqs[rid].phase) ==> PastGate(t.reqs[rid].phase))
            && (rid in s.reqs && PastScan(s.reqs[rid].phase) ==> PastScan(t.reqs[rid].phase))
            && (step.CheckIp? ==> PastGate(t.reqs[rid].phase))
            && (step.ScanAll? ==> PastScan(t.reqs[rid].phase))
            && (t.reqs[rid].phase.Admitted? ==> step.CheckIp? && step.ok && t.reqs[rid].phase.gen == s.reqs[rid].phase.gen)
            && (t.reqs[rid].phase.Missed? ==> step.Lookup? && t.reqs[rid].phase.gen == s.reqs[rid].phase.gen)
  {
    match step
    case Arrive(_) =>
    case LoadFirst =>
    case CheckIp(ok) =>
    case Lookup =>
    case ScanAll =>
    case Insert =>
    case CheckExpiry =>
    case CloseSimple =>
    case CloseDocument(_) =>
  }

  lemma ScanBooks(w: World, s: State, rid: nat)
    requires RequestEnabled(s, rid, ScanAll)
    ensures var t, g := RequestNext(w, s, rid, ScanAll), s.reqs[rid].phase.gen;
            && t.rts[g].scanned == s.rts[g].scanned + {rid}
            && t.rts[g].verifications == s.rts[g].verifications + |s.cfgs[g].tokens|
            && forall h :: 0 <= h < |s.rts| && h != g ==> t.rts[h] == s.rts[h]
  {
  }

  lemma OneMoreScan(scanned: set<nat>, rid: nat, tokens: nat)
    requires rid !in scanned
    ensures |scanned + {rid}| * tokens == |scanned| * tokens + tokens
  {
    assert |scanned + {rid}| == |scanned| + 1;
    assert (|scanned| + 1) * tokens == |scanned| * tokens + tokens;
  }

  lemma GenerationKept(w: World, s: State, rid: nat, step: RequestStep, g: nat)
    requires Work(s) && RequestEnabled(s, rid, step) && g < |s.rts|
    ensures var t := RequestNext(w, s, rid, step);
            g < |t.rts| && GenerationOk(|s.cfgs[g].tokens|, t.rts[g], t.reqs)
  {
    RequestStepFrame(w, s, rid, step);
    RequestStepBooks(w, s, rid, step, g);
    RequestStepForward(w, s, rid, step);
    assert GenerationOk(|s.cfgs[g].tokens|, s.rts[g], s.reqs);
    if step.ScanAll? {
      ScanBooks(w, s, rid);
      assert OnItsWay(s.rts, rid, s.reqs[rid]);
      OneMoreScan(s.rts[g].scanned, rid, |s.cfgs[g].tokens|);
    }
  }

  lemma WayKept(w: World, s: State, rid: nat, step: RequestStep, other: nat)
    requires Work(s) && RequestEnabled(s, rid, step) && other in RequestNext(w, s, rid, step).reqs
    ensures var t := RequestNext(w, s, rid, step);
            OnItsWay(t.rts, other, t.reqs[other])
  {
    RequestStepFrame(w, s, rid, step);
    RequestStepForward(w, s, rid, step);
    if other in s.reqs {
      assert OnItsWay(s.rts, other, s.reqs[other]);
      var g := if s.reqs[other].phase.Admitted? || s.reqs[other].phase.Missed? || s.reqs[other].phase.Loaded? then s.reqs[other].phase.gen else 0;
      if g < |s.rts| { RequestStepBooks(w, s, rid, step, g); }
    }
  }

  lemma ScansDisjoint(w: World, s: State, rid: nat, step: RequestStep, g: nat, h: nat)
    requires Work(s) && RequestEnabled(s, rid, step) && g < h < |s.rts|
    ensures var t := RequestNext(w, s, rid, step);
            h < |t.rts| && t.rts[g].scanned !! t.rts[h].scanned
  {
    RequestStepBooks(w, s, rid, step, g);
    RequestStepBooks(w, s, rid, step, h);
    assert GenerationOk(|s.cfgs[g].tokens|, s.rts[g], s.reqs) && GenerationOk(|s.cfgs[h].tokens|, s.rts[h], s.reqs);
    if step.ScanAll? { ScanBooks(w, s, rid); }
  }

  lemma StepWorks(w: World, s: State, a: Action)
    requires Work(s) && Enabled(w, s, a)
    ensures Work(Next(w, s, a))
  {
    var t := Next(w, s, a);
    match a
    case OnRequest(rid, step) =>
      RequestStepFrame(w, s, rid, step);
      forall g | 0 <= g < |t.rts| ensures GenerationOk(|t.cfgs[g].tokens|, t.rts[g], t.reqs) {
        GenerationKept(w, s, rid, step, g);
      }
      forall other | other in t.reqs ensures OnItsWay(t.rts, other, t.reqs[other]) {
        WayKept(w, s, rid, step, other);
      }
      forall g, h | 0 <= g < h < |t.rts| ensures t.rts[g].scanned !! t.rts[h].scanned {
        ScansDisjoint(w, s, rid, step, g, h);
      }
    case OnCall(cid, step) => OnCallWorks(w, s, cid, step);
    case Publish(cfg) => PublishWorks(w, s, cfg);
    case _ =>
  }

  lemma PublishWorks(w: World, s: State, cfg: Config)
    requires Work(s) && Enabled(w, s, Publish(cfg))
    ensures Work(Next(w, s, Publish(cfg)))
  {
    var t := Next(w, s, Publish(cfg));
    forall g | 0 <= g < |t.rts| ensures GenerationOk(|t.cfgs[g].tokens|, t.rts[g], t.reqs) {
      if g < |s.rts| { assert GenerationOk(|s.cfgs[g].tokens|, s.rts[g], s.reqs); }
    }
    forall rid | rid in t.reqs ensures OnItsWay(t.rts, rid, t.reqs[rid]) {
      assert OnItsWay(s.rts, rid, s.reqs[rid]);
    }
  }

  lemma FinishForward(s: State, cid: Cid)
    requires CallEnabled(s, cid, Finish)
    ensures var t := FinishStep(s, cid);
            && t.reqs.Keys == s.reqs.Keys
            && forall rid :: rid in s.reqs ==> t.reqs[rid] == s.reqs[rid] || (s.reqs[rid].phase.Serving? && t.reqs[rid].phase.Closed?)
  {
  }

  lemma OnCallWorks(w: World, s: State, cid: Cid, step: CallStep)
    requires Work(s) && CallEnabled(s, cid, step)
    ensures Work(CallNext(w, s, cid, step))
  {
    var t := CallNext(w, s, cid, step);
    CallStepFrame(w, s, cid, step);
    if step.Finish? { FinishForward(s, cid); }
    forall g | 0 <= g < |t.rts| ensures GenerationOk(|t.cfgs[g].tokens|, t.rts[g], t.reqs) {
      assert GenerationOk(|s.cfgs[g].tokens|, s.rts[g], s.reqs);
    }
    forall rid | rid in t.reqs ensures OnItsWay(t.rts, rid, t.reqs[rid]) {
      assert OnItsWay(s.rts, rid, s.reqs[rid]);
    }
  }

  lemma {:induction false} WorkHolds(w: World, cfg: Config, actions: seq<Action>, s: State)
    requires Reaches(w, cfg, actions, s)
    ensures Work(s)
    decreases |actions|
  {
    if actions != [] {
      var before, a := LastAction(w, cfg, actions, s);
      WorkHolds(w, cfg, actions[..|actions| - 1], before);
      StepWorks(w, before, a);
    }
  }

  /** In every run, whatever is presented and however requests and reloads interleave: a generation
      has done exactly one verification per token for each request that missed its cache, never more
      than its tokens times the requests its address check admitted, and no request has
      been scanned twice, in one generation or across several. */
  lemma VerificationsAreBounded(w: World, cfg: Config, actions: seq<Action>, s: State, g: nat)
    requires Reaches(w, cfg, actions, s) && g < |s.cfgs|
    ensures |s.rts| == |s.cfgs|
    ensures s.rts[g].verifications == |s.rts[g].scanned| * |s.cfgs[g].tokens|
    ensures s.rts[g].verifications <= |s.rts[g].admitted| * |s.cfgs[g].tokens|
    ensures s.rts[g].scanned <= s.rts[g].admitted <= s.reqs.Keys
    ensures forall h :: 0 <= h < |s.rts| && h != g ==> s.rts[g].scanned !! s.rts[h].scanned
  {
    WorkHolds(w, cfg, actions, s);
    assert GenerationOk(|s.cfgs[g].tokens|, s.rts[g], s.reqs);
    Sums.SubsetSize(s.rts[g].scanned, s.rts[g].admitted);
    Sums.Scale(|s.rts[g].scanned|, |s.rts[g].admitted|, |s.cfgs[g].tokens|);
  }

}
