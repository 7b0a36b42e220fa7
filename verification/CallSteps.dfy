/** A step of a resolver is matched by the same step of the handler that stands in for it. */
module CallSteps {
  import opened Wrappers
  import opened Access
  import opened Lifecycle
  import opened Correspondence
  import Console
  import M = Metrics
  import Operations
  import Policy
  import RateLimit

  /** How a call and its image compare: the same, or the same through the other front end. */
  ghost predicate Alike(tw: Twins, cid: Cid, c: CallState, d: CallState) {
    if cid.rid == tw.doc then CallSim(c, d) else c == d
  }

  /** Both traces grew by one event of this call, or not at all. */
  ghost predicate TraceStep(tw: Twins, a: seq<Event>, a1: seq<Event>, b: seq<Event>, b1: seq<Event>) {
    (a1 == a && b1 == b) || (exists e :: a1 == a + [e] && b1 == b + [Renamed(tw, e)])
  }

  /** What a step of a call leaves behind, compared. */
  ghost predicate StepSim(tw: Twins, cid: Cid, s: State, s1: State, t: State, t1: State) {
    && RuntimesSim(s1.rts, t1.rts) && s1.consoles == t1.consoles && s1.created == t1.created
    && TraceStep(tw, s.trace, s1.trace, t.trace, t1.trace)
    && cid in s1.calls && Twin(tw, cid) in t1.calls
    && Alike(tw, cid, s1.calls[cid], t1.calls[Twin(tw, cid)])
  }

  /** What both sides hold before the step. */
  ghost predicate CallsAlike(tw: Twins, s: State, t: State, cid: Cid) {
    && SameAround(s, t) && |s.trace| == |t.trace|
    && cid in s.calls && Twin(tw, cid) in t.calls
    && Alike(tw, cid, s.calls[cid], t.calls[Twin(tw, cid)])
  }

  /** The two ways of asking are prepared, and credited, alike. */
  lemma SamePrepared(a: Ask, b: Ask, c: CallState, ceilings: Policy.Ceilings)
    requires Operations.SameAsk(a, b)
    ensures Prepare(a, ceilings) == Prepare(b, ceilings)
    ensures Permits(c.who.caller.token, a.op) == Permits(c.who.caller.token, b.op)
  {
  }

  lemma ChargeSim(w: World, tw: Twins, s: State, t: State, cid: Cid)
    requires CallsAlike(tw, s, t, cid) && CallEnabled(s, cid, Charge)
    ensures CallEnabled(t, Twin(tw, cid), Charge)
    ensures StepSim(tw, cid, s, ChargeStep(w, s, cid), t, ChargeStep(w, t, Twin(tw, cid)))
  {
    var c, s1, t1 := s.calls[cid], ChargeStep(w, s, cid), ChargeStep(w, t, Twin(tw, cid));
    var name := c.who.caller.token.name;
    var (ok, limiters) := RateLimit.CheckOn(w.quotaOf, s.rts[c.live].limiters, name, s.now);
    if ok {
      RuntimeAlike(s.rts, t.rts, c.live, s.rts[c.live].(limiters := limiters), t.rts[c.live].(limiters := limiters));
      assert s1.trace == s.trace + [Charged(cid, name, c.live, s.now)];
      assert t1.trace == t.trace + [Renamed(tw, Charged(cid, name, c.live, s.now))];
    } else {
      MovedSim(tw, s, t, cid, EndCall(c, Bad(RateLimited)), EndCall(t.calls[Twin(tw, cid)], Bad(RateLimited)));
    }
  }

  lemma SendSim(w: World, tw: Twins, s: State, t: State, cid: Cid)
    requires CallsAlike(tw, s, t, cid) && CallEnabled(s, cid, SendCall)
    ensures CallEnabled(t, Twin(tw, cid), SendCall)
    ensures StepSim(tw, cid, s, SendStep(s, cid), t, SendStep(t, Twin(tw, cid)))
  {
    var c, d := s.calls[cid], t.calls[Twin(tw, cid)];
    if cid.rid == tw.doc { SamePrepared(d.ask, c.ask, c, c.who.caller.ceilings); }
    var e := Sent(cid, c.live, Prepare(c.ask, c.who.caller.ceilings).value);
    assert SendStep(s, cid).trace == s.trace + [e] && SendStep(t, Twin(tw, cid)).trace == t.trace + [Renamed(tw, e)];
  }

  lemma ServeSim(w: World, tw: Twins, s: State, t: State, cid: Cid)
    requires CallsAlike(tw, s, t, cid) && CallEnabled(s, cid, ServeCall)
    ensures CallEnabled(t, Twin(tw, cid), ServeCall)
    ensures StepSim(tw, cid, s, ServeStep(w, s, cid), t, ServeStep(w, t, Twin(tw, cid)))
  {
    var s1, t1 := ServeStep(w, s, cid), ServeStep(w, t, Twin(tw, cid));
    var e := Handled(cid, MadeBy(s1.calls[cid].served.value.reply));
    assert s1.trace == s.trace + [e] && t1.trace == t.trace + [Renamed(tw, e)];
  }

  /** The steps that only move the call on. */
  lemma MoveSim(w: World, tw: Twins, s: State, t: State, cid: Cid, step: CallStep)
    requires CallsAlike(tw, s, t, cid) && CallEnabled(s, cid, step)
    requires step.LoadSecond? || step.Authorise? || step.PrepareCall?
    ensures CallEnabled(t, Twin(tw, cid), step)
    ensures StepSim(tw, cid, s, CallNext(w, s, cid, step), t, CallNext(w, t, Twin(tw, cid), step))
  {
    var c, d := s.calls[cid], t.calls[Twin(tw, cid)];
    match step
    case LoadSecond =>
      SeenSim(tw, cid, c, d, |s.cfgs| - 1);
      MovedSim(tw, s, t, cid, c.(stage := Seen, live := |s.cfgs| - 1), d.(stage := Seen, live := |s.cfgs| - 1));
    case Authorise =>
      AuthoriseSim(tw, cid, c, d);
      MovedSim(tw, s, t, cid, Authorised(c), Authorised(d));
    case PrepareCall =>
      PrepareSim(tw, cid, c, d);
      MovedSim(tw, s, t, cid, Prepared(c), Prepared(d));
  }

  /** The answer arrives, or nobody hears it. */
  lemma AnswerSim(w: World, tw: Twins, s: State, t: State, cid: Cid, step: CallStep)
    requires CallsAlike(tw, s, t, cid) && CallEnabled(s, cid, step) && (step.Receive? || step.Lose?)
    ensures CallEnabled(t, Twin(tw, cid), step)
    ensures StepSim(tw, cid, s, CallNext(w, s, cid, step), t, CallNext(w, t, Twin(tw, cid), step))
  {
    var c, d := s.calls[cid], t.calls[Twin(tw, cid)];
    var o := if step.Lose? then Bad(UpstreamUnreachable) else if Console.IsSuccess(c.served.value.reply) then Good else Bad(UpstreamError);
    EndSim(tw, cid, c, d, o);
    MovedSim(tw, s, t, cid, EndCall(c, o), EndCall(d, o));
  }

  lemma MovedSim(tw: Twins, s: State, t: State, cid: Cid, x: CallState, y: CallState)
    requires CallsAlike(tw, s, t, cid) && Alike(tw, cid, x, y)
    ensures StepSim(tw, cid, s, WithCall(s, cid, x), t, WithCall(t, Twin(tw, cid), y))
  {
  }

  lemma SeenSim(tw: Twins, cid: Cid, c: CallState, d: CallState, live: nat)
    requires Alike(tw, cid, c, d)
    ensures Alike(tw, cid, c.(stage := Seen, live := live), d.(stage := Seen, live := live))
  {
  }

  lemma EndSim(tw: Twins, cid: Cid, c: CallState, d: CallState, o: Outcome)
    requires Alike(tw, cid, c, d)
    ensures Alike(tw, cid, EndCall(c, o), EndCall(d, o))
  {
  }

  lemma AuthoriseSim(tw: Twins, cid: Cid, c: CallState, d: CallState)
    requires Alike(tw, cid, c, d)
    ensures Alike(tw, cid, Authorised(c), Authorised(d))
  {
    if cid.rid == tw.doc { SamePrepared(d.ask, c.ask, c, c.who.caller.ceilings); }
  }

  lemma PrepareSim(tw: Twins, cid: Cid, c: CallState, d: CallState)
    requires Alike(tw, cid, c, d)
    ensures Alike(tw, cid, Prepared(c), Prepared(d))
  {
    if cid.rid == tw.doc { SamePrepared(d.ask, c.ask, c, c.who.caller.ceilings); }
  }

  /** Starting: the document has not been closed, and the stand-in has not been called. */
  lemma StartSim(w: World, tw: Twins, s: State, t: State, cid: Cid)
    requires Distinct(tw) && Sim(tw, s, t) && CallEnabled(s, cid, StartCall) && cid.rid !in tw.rids
    ensures CallEnabled(t, Twin(tw, cid), StartCall)
    ensures StepSim(tw, cid, s, CallNext(w, s, cid, StartCall), t, CallNext(w, t, Twin(tw, cid), StartCall))
    ensures cid.rid == tw.doc ==>
              && tw.doc in t.reqs && t.reqs[tw.doc].phase.Serving? && cid.k < |tw.rids|
              && tw.rids[cid.k] in t.reqs && t.reqs[tw.rids[cid.k]].phase.Serving?
  {
    if cid.rid == tw.doc {
      assert StandsIn(tw, cid.k, t.reqs) && PairSim(tw, cid.k, t.reqs, s.calls, t.calls);
      assert FormFits(tw.forms[cid.k], s.reqs[tw.doc].arrival, cid.k);
      assert cid == Cid(tw.doc, cid.k);
    } else {
      assert IsApart(tw, cid.rid);
    }
  }

  lemma CallsAreAlike(tw: Twins, s: State, t: State, cid: Cid)
    requires Distinct(tw) && Sim(tw, s, t) && cid in s.calls
    ensures cid.rid !in tw.rids && CallsAlike(tw, s, t, cid)
    ensures cid.rid == tw.doc ==>
              && tw.doc in t.reqs && t.reqs[tw.doc].phase.Serving? && cid.k < |tw.rids|
              && tw.rids[cid.k] in t.reqs && t.reqs[tw.rids[cid.k]].arrival.work.Rest?
              && (!s.calls[cid].stage.Recorded? ==> t.reqs[tw.rids[cid.k]].phase.Serving?)
  {
    assert OwnCalls(tw, t.reqs, cid);
    if cid.rid == tw.doc {
      assert StandsIn(tw, cid.k, t.reqs) && PairSim(tw, cid.k, t.reqs, s.calls, t.calls);
      assert FormFits(tw.forms[cid.k], s.reqs[tw.doc].arrival, cid.k);
      assert cid == Cid(tw.doc, cid.k);
    } else {
      assert IsApart(tw, cid.rid);
    }
  }

  /** Finishing a call that both runs share. */
  lemma FinishShared(tw: Twins, s: State, t: State, cid: Cid)
    requires CallsAlike(tw, s, t, cid) && CallEnabled(s, cid, Finish) && cid.rid != tw.doc
    requires s.calls[cid].isRest ==> cid.rid in t.reqs && t.reqs[cid.rid] == s.reqs[cid.rid]
    ensures CallEnabled(t, cid, Finish)
    ensures StepSim(tw, cid, s, FinishStep(s, cid), t, FinishStep(t, cid))
  {
  }

  /** Finishing a resolver, and the handler that stands in for it: the same vouchers are counted for
      the same name. */
  lemma FinishPair(tw: Twins, s: State, t: State, cid: Cid)
    requires CallsAlike(tw, s, t, cid) && CallEnabled(s, cid, Finish) && cid.rid == tw.doc && cid.k < |tw.rids|
    requires tw.rids[cid.k] in t.reqs && t.reqs[tw.rids[cid.k]].phase.Serving?
    ensures CallEnabled(t, Twin(tw, cid), Finish)
    ensures StepSim(tw, cid, s, FinishStep(s, cid), t, FinishStep(t, Twin(tw, cid)))
  {
    var c, d := s.calls[cid], t.calls[Twin(tw, cid)];
    CreatedByFinish(s, cid);
    CreatedByFinish(t, Twin(tw, cid));
    assert CallSim(c.(stage := Recorded), d.(stage := Recorded));
  }

  /** What finishing leaves alone, and what it counts. */
  lemma CreatedByFinish(s: State, cid: Cid)
    requires CallEnabled(s, cid, Finish)
    ensures var c, t := s.calls[cid], FinishStep(s, cid);
            && t.rts == s.rts && t.consoles == s.consoles && t.trace == s.trace
            && cid in t.calls && t.calls[cid] == c.(stage := Recorded)
            && t.created == if c.outcome == Some(Good) && c.ask.op.CreateVouchers? && RequestOf(c.ask.input).Some?
                            then M.AddCreated(s.created, c.who.caller.token.name, RequestOf(c.ask.input).value.count) else s.created
  {
  }

  /** The resolver leaves its request to the document; the handler closes its own. */
  lemma ClosedByFinish(s: State, cid: Cid)
    requires CallEnabled(s, cid, Finish)
    ensures !s.calls[cid].isRest ==> FinishStep(s, cid).reqs == s.reqs
    ensures s.calls[cid].isRest ==>
              var rid, t := cid.rid, FinishStep(s, cid);
              && rid in t.reqs && t.reqs == s.reqs[rid := s.reqs[rid].(phase := t.reqs[rid].phase)] && t.reqs[rid].phase.Closed?
  {
  }

  lemma FinishSim(w: World, tw: Twins, s: State, t: State, cid: Cid)
    requires Distinct(tw) && Sim(tw, s, t) && CallEnabled(s, cid, Finish)
    ensures CallEnabled(t, Twin(tw, cid), Finish)
    ensures StepSim(tw, cid, s, FinishStep(s, cid), t, FinishStep(t, Twin(tw, cid)))
    ensures cid.rid == tw.doc ==>
              && cid.k < |tw.rids| && FinishStep(s, cid).reqs == s.reqs
              && var rid, t1 := tw.rids[cid.k], FinishStep(t, Twin(tw, cid));
                 && rid in t1.reqs && rid in t.reqs && t1.reqs == t.reqs[rid := t.reqs[rid].(phase := t1.reqs[rid].phase)]
                 && t1.reqs[rid].phase.Closed?
  {
    CallsAreAlike(tw, s, t, cid);
    if cid.rid == tw.doc {
      FinishPair(tw, s, t, cid);
      ClosedByFinish(s, cid);
      ClosedByFinish(t, Twin(tw, cid));
    } else {
      assert IsApart(tw, cid.rid);
      FinishShared(tw, s, t, cid);
    }
  }

  lemma OneStepSim(w: World, tw: Twins, s: State, t: State, cid: Cid, step: CallStep)
    requires Distinct(tw) && Sim(tw, s, t) && CallEnabled(s, cid, step) && cid.rid !in tw.rids
    ensures CallEnabled(t, Twin(tw, cid), step)
    ensures StepSim(tw, cid, s, CallNext(w, s, cid, step), t, CallNext(w, t, Twin(tw, cid), step))
  {
    if step.StartCall? {
      StartSim(w, tw, s, t, cid);
    } else {
      CallsAreAlike(tw, s, t, cid);
      match step
      case Charge => ChargeSim(w, tw, s, t, cid);
      case SendCall => SendSim(w, tw, s, t, cid);
      case ServeCall => ServeSim(w, tw, s, t, cid);
      case Finish => FinishSim(w, tw, s, t, cid);
      case Receive => AnswerSim(w, tw, s, t, cid, step);
      case Lose => AnswerSim(w, tw, s, t, cid, step);
      case _ => MoveSim(w, tw, s, t, cid, step);
    }
  }

  // ----- the whole state after it -----

  lemma TraceSimKept(tw: Twins, a: seq<Event>, a1: seq<Event>, b: seq<Event>, b1: seq<Event>)
    requires TraceSim(tw, a, b) && TraceStep(tw, a, a1, b, b1)
    ensures TraceSim(tw, a1, b1)
  {
  }

  /** The calls after a step: the pair concerned is alike again, and no other is touched. */
  lemma CallsSimKept(tw: Twins, b: map<nat, Request>, b1: map<nat, Request>, c: map<Cid, CallState>, d: map<Cid, CallState>,
                     cid: Cid, x: CallState, y: CallState)
    requires Distinct(tw) && CallsSim(tw, b, c, d)
    requires Alike(tw, cid, x, y) && OwnCalls(tw, b1, cid)
    requires tw.doc in b <==> tw.doc in b1
    requires tw.doc in b ==> b1[tw.doc] == b[tw.doc]
    requires forall k :: 0 <= k < |tw.rids| ==>
               && (tw.rids[k] in b <==> tw.rids[k] in b1)
               && (tw.rids[k] in b && Cid(tw.doc, k) != cid ==> b1[tw.rids[k]] == b[tw.rids[k]])
    requires cid.rid == tw.doc ==> (tw.rids[cid.k] in b1 && b1[tw.rids[cid.k]].phase.Closed? <==> y.stage.Recorded?)
    ensures CallsSim(tw, b1, c[cid := x], d[Twin(tw, cid) := y])
  {
    var c1, d1 := c[cid := x], d[Twin(tw, cid) := y];
    forall k | 0 <= k < |tw.rids| ensures PairSim(tw, k, b1, c1, d1) {
      assert PairSim(tw, k, b, c, d);
      if cid == Cid(tw.doc, k) {
        assert Twin(tw, cid) == Cid(tw.rids[k], 0);
      } else {
        assert Twin(tw, cid) != Cid(tw.rids[k], 0);
      }
    }
    forall other: Cid | IsApart(tw, other.rid)
      ensures (other in c1 <==> other in d1) && (other in c1 ==> c1[other] == d1[other])
    {
      assert other != cid ==> other != Twin(tw, cid);
    }
    forall other | other in c1 ensures OwnCalls(tw, b1, other) {
      assert other != cid ==> OwnCalls(tw, b, other);
    }
  }

  /** The requests of the document and its stand-ins, before and after a step of a call. */
  ghost predicate TwinsKept(tw: Twins, b: map<nat, Request>, b1: map<nat, Request>, cid: Cid) {
    && (tw.doc in b <==> tw.doc in b1) && (tw.doc in b ==> b1[tw.doc] == b[tw.doc])
    && forall k :: 0 <= k < |tw.rids| ==>
         && (tw.rids[k] in b <==> tw.rids[k] in b1)
         && (tw.rids[k] in b && Cid(tw.doc, k) != cid ==> b1[tw.rids[k]] == b[tw.rids[k]])
  }

  /** The requests after a step of a call: unchanged on both sides, or closed on both, or the
      document's stand-in closed alone. */
  lemma RequestsSimKept(w: World, tw: Twins, s: State, t: State, cid: Cid, step: CallStep)
    requires Distinct(tw) && Sim(tw, s, t) && CallEnabled(s, cid, step) && cid.rid !in tw.rids
    ensures CallEnabled(t, Twin(tw, cid), step)
    ensures RequestsSim(tw, CallNext(w, s, cid, step).reqs, CallNext(w, t, Twin(tw, cid), step).reqs)
    ensures TwinsKept(tw, t.reqs, CallNext(w, t, Twin(tw, cid), step).reqs, cid)
  {
    OneStepSim(w, tw, s, t, cid, step);
    if step.Finish? {
      FinishSim(w, tw, s, t, cid);
      CallsAreAlike(tw, s, t, cid);
      if cid.rid == tw.doc {
        ClosedAlone(tw, s.reqs, t.reqs, cid.k, FinishStep(t, Twin(tw, cid)).reqs);
      } else {
        ClosedOnBoth(tw, s, t, cid);
      }
    } else {
      CallStepFrame(w, s, cid, step);
      CallStepFrame(w, t, Twin(tw, cid), step);
    }
  }

  lemma ClosedAlone(tw: Twins, a: map<nat, Request>, b: map<nat, Request>, k: nat, b1: map<nat, Request>)
    requires Distinct(tw) && RequestsSim(tw, a, b) && k < |tw.rids| && tw.doc in b && b[tw.doc].phase.Serving?
    requires var rid := tw.rids[k];
             rid in b && rid in b1 && b1 == b[rid := b[rid].(phase := b1[rid].phase)] && b1[rid].phase.Closed?
    ensures RequestsSim(tw, a, b1) && TwinsKept(tw, b, b1, Cid(tw.doc, k))
  {
    forall j | 0 <= j < |tw.rids| ensures tw.rids[j] !in a && StandsIn(tw, j, b1) {
      assert StandsIn(tw, j, b);
    }
  }

  lemma ClosedOnBoth(tw: Twins, s: State, t: State, cid: Cid)
    requires Distinct(tw) && Sim(tw, s, t) && CallEnabled(s, cid, Finish) && CallEnabled(t, cid, Finish) && IsApart(tw, cid.rid)
    requires s.calls[cid] == t.calls[cid]
    ensures RequestsSim(tw, FinishStep(s, cid).reqs, FinishStep(t, cid).reqs)
    ensures TwinsKept(tw, t.reqs, FinishStep(t, cid).reqs, cid)
  {
    var a1, b1 := FinishStep(s, cid).reqs, FinishStep(t, cid).reqs;
    ClosedByFinish(s, cid);
    ClosedByFinish(t, cid);
    forall k | 0 <= k < |tw.rids| ensures tw.rids[k] !in a1 && StandsIn(tw, k, b1) && (tw.rids[k] in t.reqs <==> tw.rids[k] in b1) {
      assert StandsIn(tw, k, t.reqs) && tw.rids[k] != cid.rid;
    }
  }

  lemma CallKeepsSim(w: World, tw: Twins, s: State, t: State, cid: Cid, step: CallStep)
    requires Distinct(tw) && Sim(tw, s, t) && CallEnabled(s, cid, step) && cid.rid !in tw.rids
    ensures CallEnabled(t, Twin(tw, cid), step)
    ensures Sim(tw, CallNext(w, s, cid, step), CallNext(w, t, Twin(tw, cid), step))
  {
    OneStepSim(w, tw, s, t, cid, step);
    RequestsSimKept(w, tw, s, t, cid, step);
    var s1, t1 := CallNext(w, s, cid, step), CallNext(w, t, Twin(tw, cid), step);
    CallStepFrame(w, s, cid, step);
    CallStepFrame(w, t, Twin(tw, cid), step);
    TraceSimKept(tw, s.trace, s1.trace, t.trace, t1.trace);
    RecordedWhenClosed(w, tw, s, t, cid, step);
    CallsSimKept(tw, t.reqs, t1.reqs, s.calls, t.calls, cid, s1.calls[cid], t1.calls[Twin(tw, cid)]);
  }

  /** A stand-in's request is closed exactly when its call is recorded. */
  lemma RecordedWhenClosed(w: World, tw: Twins, s: State, t: State, cid: Cid, step: CallStep)
    requires Distinct(tw) && Sim(tw, s, t) && CallEnabled(s, cid, step) && cid.rid !in tw.rids
    requires CallEnabled(t, Twin(tw, cid), step) && TwinsKept(tw, t.reqs, CallNext(w, t, Twin(tw, cid), step).reqs, cid)
    ensures OwnCalls(tw, CallNext(w, t, Twin(tw, cid), step).reqs, cid)
    ensures cid.rid == tw.doc ==>
              var t1 := CallNext(w, t, Twin(tw, cid), step);
              && cid.k < |tw.rids| && tw.rids[cid.k] in t1.reqs && Twin(tw, cid) in t1.calls
              && (t1.reqs[tw.rids[cid.k]].phase.Closed? <==> t1.calls[Twin(tw, cid)].stage.Recorded?)
  {
    if cid.rid == tw.doc {
      if step.StartCall? {
        StartSim(w, tw, s, t, cid);
      } else {
        CallsAreAlike(tw, s, t, cid);
        assert cid == Cid(tw.doc, cid.k) && PairSim(tw, cid.k, t.reqs, s.calls, t.calls);
        if step.Finish? {
          FinishSim(w, tw, s, t, cid);
        } else {
          CallStepFrame(w, t, Twin(tw, cid), step);
          RecordedStays(w, t, Twin(tw, cid), step);
        }
      }
    }
  }

  /** Only finishing records a call, and a recorded call stays recorded. */
  lemma RecordedStays(w: World, s: State, cid: Cid, step: CallStep)
    requires CallEnabled(s, cid, step) && !step.Finish? && cid in s.calls
    ensures cid in CallNext(w, s, cid, step).calls
    ensures CallNext(w, s, cid, step).calls[cid].stage.Recorded? <==> s.calls[cid].stage.Recorded?
  {
    match step
    case LoadSecond =>
    case Authorise =>
    case Charge =>
    case PrepareCall =>
    case SendCall =>
    case ServeCall =>
    case Receive =>
    case Lose =>
  }
}
