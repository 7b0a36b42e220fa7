/** The handlers of the code and the steps of the machine agree: a call whose steps are taken without
    interruption does what the handler, or the resolver, does. */
module Uninterrupted {
  import opened Wrappers
  import opened Config
  import opened Access
  import opened Lifecycle
  import opened Operations
  import Auth
  import Authenticity
  import Generations
  import M = Metrics
  import ProxyState
  import Console

  /** The run goes on with steps of this call and nothing else. */
  ghost predicate OnlyCalls(actions: seq<Action>, more: seq<Action>, cid: Cid) {
    actions <= more && forall i :: |actions| <= i < |more| ==> more[i].OnCall? && more[i].cid == cid
  }

  /** The run goes on with steps of this request and nothing else. */
  ghost predicate OnlyRequests(actions: seq<Action>, more: seq<Action>, rid: nat) {
    actions <= more && forall i :: |actions| <= i < |more| ==> more[i].OnRequest? && more[i].rid == rid
  }

  /** What the console this configuration names would answer now. */
  function AnswerOf(w: World, consoles: Consoles, controller: ControllerConfig): Wire {
    (m: Message) =>
      if Console.IsSuccess(Console.Serve(consoles.At(w.consoleOf(controller)), w.keyOk(controller), m.call, m.body).0)
      then Ok(()) else Err(UpstreamError)
  }

  function OutcomeOf(r: Result<(), ErrorKind>): Outcome {
    match r
    case Ok(_) => Good
    case Err(e) => Bad(e)
  }

  function CountersOf(s: State): Counters { Counters(s.requests, s.created, s.upstreamCalls) }

  /** A call that is about to run, and may run. */
  ghost predicate Ready(s: State, cid: Cid) {
    && |s.rts| == |s.cfgs| > 0
    && cid in s.calls
    && var c := s.calls[cid];
       c == CallState(c.who, c.ask, c.isRest, Started, c.live, None, None, None, None)
       && (c.isRest ==> cid.rid in s.reqs && s.reqs[cid.rid].phase.Serving?)
  }

  /** What the handler does with the same caller, limiters, clock and console. */
  function HandlerEffect(w: World, s: State, cid: Cid): Effect
    requires cid in s.calls && |s.rts| == |s.cfgs| > 0
  {
    Attempt(w.quotaOf, s.rts[|s.rts| - 1].limiters, s.calls[cid].who.caller, s.calls[cid].ask, s.now,
            AnswerOf(w, s.consoles, s.cfgs[|s.cfgs| - 1].controller))
  }

  /** The call has ended as the handler would: same result, same message, same limiters, nothing
      else touched yet. */
  ghost predicate EndedAs(s: State, t: State, cid: Cid, e: Effect) {
    && t.cfgs == s.cfgs && t.reqs == s.reqs && CountersOf(t) == CountersOf(s)
    && |t.rts| == |s.rts| > 0
    && t.rts == s.rts[|s.rts| - 1 := s.rts[|s.rts| - 1].(limiters := e.limiters)]
    && cid in s.calls && cid in t.calls
    && var c, d := s.calls[cid], t.calls[cid];
       && d.who == c.who && d.ask == c.ask && d.isRest == c.isRest && d.live == |s.rts| - 1
       && d.stage.Ended? && d.outcome == Some(OutcomeOf(e.result))
       && (d.sent.Some? <==> e.sent.Some?) && (d.sent.Some? ==> d.sent.value.msg == e.sent.value)
  }

  lemma Permitted(w: World, cfg: Config, actions: seq<Action>, s: State, cid: Cid) returns (more: seq<Action>, t: State)
    requires Reaches(w, cfg, actions, s) && Ready(s, cid)
    ensures Reaches(w, cfg, more, t) && OnlyCalls(actions, more, cid)
    ensures t == WithCall(s, cid, Authorised(s.calls[cid].(stage := Seen, live := |s.cfgs| - 1)))
  {
    var c := s.calls[cid];
    var middle;
    more, middle := Generations.Step(w, cfg, actions, s, OnCall(cid, LoadSecond));
    more, t := Generations.Step(w, cfg, more, middle, OnCall(cid, Authorise));
  }

  /** From the charge to the prepared message. */
  lemma ChargedAndPrepared(w: World, cfg: Config, actions: seq<Action>, s: State, cid: Cid) returns (more: seq<Action>, t: State)
    requires Reaches(w, cfg, actions, s) && CallEnabled(s, cid, Charge)
    ensures Reaches(w, cfg, more, t) && OnlyCalls(actions, more, cid)
    ensures var u := ChargeStep(w, s, cid);
            cid in u.calls && t == if u.calls[cid].stage.Paid? then WithCall(u, cid, Prepared(u.calls[cid])) else u
  {
    more, t := Generations.Step(w, cfg, actions, s, OnCall(cid, Charge));
    CallStepFrame(w, s, cid, Charge);
    if t.calls[cid].stage.Paid? {
      more, t := Generations.Step(w, cfg, more, t, OnCall(cid, PrepareCall));
    }
  }

  /** What sending leaves alone. */
  lemma SendLeaves(s: State, cid: Cid)
    requires CallEnabled(s, cid, SendCall)
    ensures var c, t := s.calls[cid], SendStep(s, cid);
            && t == s.(calls := t.calls, trace := t.trace) && cid in t.calls
            && t.calls[cid] == c.(stage := Waiting, sent := Some(Dispatch(|s.trace|, Prepare(c.ask, c.who.caller.ceilings).value)))
  {
  }

  /** What being answered leaves alone. */
  lemma ServeLeaves(w: World, s: State, cid: Cid)
    requires CallEnabled(s, cid, ServeCall)
    ensures var c, t := s.calls[cid], ServeStep(w, s, cid);
            && t == s.(calls := t.calls, trace := t.trace, consoles := t.consoles) && cid in t.calls
            && t.calls[cid] == c.(served := t.calls[cid].served) && t.calls[cid].served.Some?
            && (if Console.IsSuccess(t.calls[cid].served.value.reply) then Ok(()) else Err(UpstreamError))
               == AnswerOf(w, s.consoles, s.cfgs[c.live].controller)(c.sent.value.msg)
  {
  }

  /** From the wire to the answer. */
  lemma SentAndAnswered(w: World, cfg: Config, actions: seq<Action>, s: State, cid: Cid) returns (more: seq<Action>, t: State)
    requires Reaches(w, cfg, actions, s) && CallEnabled(s, cid, SendCall) && s.calls[cid].served.None? && s.calls[cid].live < |s.cfgs|
    ensures Reaches(w, cfg, more, t) && OnlyCalls(actions, more, cid)
    ensures t == s.(calls := t.calls, trace := t.trace, consoles := t.consoles) && cid in t.calls
    ensures var c, d := s.calls[cid], t.calls[cid];
            var msg := Prepare(c.ask, c.who.caller.ceilings).value;
            && d.who == c.who && d.ask == c.ask && d.isRest == c.isRest && d.live == c.live
            && d.stage.Ended? && d.sent.Some? && d.sent.value.msg == msg
            && d.outcome == Some(OutcomeOf(AnswerOf(w, s.consoles, s.cfgs[c.live].controller)(msg)))
  {
    var u;
    more, u := Generations.Step(w, cfg, actions, s, OnCall(cid, SendCall));
    SendLeaves(s, cid);
    more, t := Answered(w, cfg, more, u, cid);
  }

  lemma Answered(w: World, cfg: Config, actions: seq<Action>, s: State, cid: Cid) returns (more: seq<Action>, t: State)
    requires Reaches(w, cfg, actions, s) && CallEnabled(s, cid, ServeCall) && s.calls[cid].stage.Waiting?
    ensures Reaches(w, cfg, more, t) && OnlyCalls(actions, more, cid)
    ensures t == s.(calls := t.calls, trace := t.trace, consoles := t.consoles) && cid in t.calls
    ensures var c, d := s.calls[cid], t.calls[cid];
            && d == c.(stage := Ended, served := d.served, outcome := d.outcome)
            && d.outcome == Some(OutcomeOf(AnswerOf(w, s.consoles, s.cfgs[c.live].controller)(c.sent.value.msg)))
  {
    var u;
    more, u := Generations.Step(w, cfg, actions, s, OnCall(cid, ServeCall));
    ServeLeaves(w, s, cid);
    more, t := Generations.Step(w, cfg, more, u, OnCall(cid, Receive));
  }

  /** Taken without interruption, the steps before the last end the call as the handler would. */
  lemma EndsAsTheHandler(w: World, cfg: Config, actions: seq<Action>, s: State, cid: Cid) returns (more: seq<Action>, t: State)
    requires Reaches(w, cfg, actions, s) && Ready(s, cid)
    ensures Reaches(w, cfg, more, t) && OnlyCalls(actions, more, cid) && EndedAs(s, t, cid, HandlerEffect(w, s, cid))
  {
    var last := |s.rts| - 1;
    assert s.rts[last := s.rts[last].(limiters := s.rts[last].limiters)] == s.rts;
    more, t := Permitted(w, cfg, actions, s, cid);
    if t.calls[cid].stage.Allowed? {
      var u := t;
      more, t := ChargedAndPrepared(w, cfg, more, u, cid);
      if t.calls[cid].stage.Ready? {
        var v := t;
        PreparedAsTheHandler(w, s, u, v, cid);
        more, t := SentAndAnswered(w, cfg, more, v, cid);
      } else {
        RefusedAsTheHandler(w, s, u, t, cid);
      }
    }
  }

  /** The state after the charge and, if it was let through, the preparation. */
  ghost predicate IsPrepared(w: World, u: State, t: State, cid: Cid)
    requires CallEnabled(u, cid, Charge)
  {
    var v := ChargeStep(w, u, cid);
    cid in v.calls && t == if v.calls[cid].stage.Paid? then WithCall(v, cid, Prepared(v.calls[cid])) else v
  }

  ghost predicate IsPermitted(s: State, u: State, cid: Cid) {
    && Ready(s, cid) && Permits(s.calls[cid].who.caller.token, s.calls[cid].ask.op)
    && u == WithCall(s, cid, s.calls[cid].(stage := Allowed, live := |s.cfgs| - 1))
  }

  /** A call refused for rate, or in preparation, has ended as the handler would end it. */
  lemma RefusedAsTheHandler(w: World, s: State, u: State, t: State, cid: Cid)
    requires IsPermitted(s, u, cid) && IsPrepared(w, u, t, cid) && !t.calls[cid].stage.Ready?
    ensures EndedAs(s, t, cid, HandlerEffect(w, s, cid))
  {
    var last := |s.rts| - 1;
    assert s.rts[last := s.rts[last].(limiters := s.rts[last].limiters)] == s.rts;
    if ChargeStep(w, u, cid).calls[cid].stage.Paid? {
      RefusedWhenPrepared(w, s, u, t, cid);
    } else {
      assert t == WithCall(u, cid, EndCall(u.calls[cid], Bad(RateLimited)));
      assert HandlerEffect(w, s, cid) == Effect(Err(RateLimited), None, s.rts[last].limiters);
    }
  }

  lemma RefusedWhenPrepared(w: World, s: State, u: State, t: State, cid: Cid)
    requires IsPermitted(s, u, cid) && IsPrepared(w, u, t, cid) && !t.calls[cid].stage.Ready?
    requires ChargeStep(w, u, cid).calls[cid].stage.Paid?
    ensures EndedAs(s, t, cid, HandlerEffect(w, s, cid))
  {
    var last, v, c := |s.rts| - 1, ChargeStep(w, u, cid), s.calls[cid];
    assert v.rts == s.rts[last := s.rts[last].(limiters := HandlerEffect(w, s, cid).limiters)];
    var e := Prepare(c.ask, c.who.caller.ceilings).error;
    assert t == WithCall(v, cid, EndCall(v.calls[cid], Bad(e)));
    assert HandlerEffect(w, s, cid).result == Err(e);
  }

  /** A call that is ready to be sent has been charged as the handler charges, and its message is the handler's. */
  lemma PreparedAsTheHandler(w: World, s: State, u: State, t: State, cid: Cid)
    requires IsPermitted(s, u, cid) && IsPrepared(w, u, t, cid) && t.calls[cid].stage.Ready?
    ensures CallEnabled(t, cid, SendCall)
    ensures var c, d, e := s.calls[cid], t.calls[cid], HandlerEffect(w, s, cid);
            && t == s.(calls := t.calls, trace := t.trace, rts := t.rts)
            && t.rts == s.rts[|s.rts| - 1 := s.rts[|s.rts| - 1].(limiters := e.limiters)]
            && d == c.(stage := Stage.Ready, live := |s.cfgs| - 1, paid := d.paid)
            && e.sent == Some(Prepare(c.ask, c.who.caller.ceilings).value)
            && e.result == AnswerOf(w, s.consoles, s.cfgs[|s.cfgs| - 1].controller)(e.sent.value)
  {
    var last := |s.rts| - 1;
    assert s.rts[last := s.rts[last].(limiters := s.rts[last].limiters)] == s.rts;
  }

  lemma FinishesAsTheHandler(s: State, t: State, cid: Cid, e: Effect)
    requires EndedAs(s, t, cid, e) && Ready(s, cid)
    ensures CallEnabled(t, cid, Finish)
    ensures var caller, ask := s.calls[cid].who.caller, s.calls[cid].ask;
            CountersOf(FinishStep(t, cid)) == if s.calls[cid].isRest then AfterRest(CountersOf(s), caller, ask, e.result)
                                              else AfterResolver(CountersOf(s), caller, ask, e.result)
    ensures FinishStep(t, cid).rts == t.rts && FinishStep(t, cid).calls[cid] == t.calls[cid].(stage := Recorded)
  {
  }

  /** Any run can go on with one call's steps alone until the call is recorded; it then has sent
      what the handler sends, left the limiters and the counters the handler leaves, and ended alike. */
  lemma UninterruptedCallIsTheHandler(w: World, cfg: Config, actions: seq<Action>, s: State, cid: Cid)
    returns (more: seq<Action>, t: State)
    requires Reaches(w, cfg, actions, s) && Ready(s, cid)
    ensures Reaches(w, cfg, more, t) && OnlyCalls(actions, more, cid)
    ensures |t.rts| == |s.rts| && cid in t.calls
    ensures var e := HandlerEffect(w, s, cid);
            var caller, ask := s.calls[cid].who.caller, s.calls[cid].ask;
            && t.rts[|s.rts| - 1].limiters == e.limiters
            && t.calls[cid].stage.Recorded? && t.calls[cid].outcome == Some(OutcomeOf(e.result))
            && (t.calls[cid].sent.Some? <==> e.sent.Some?)
            && (e.sent.Some? ==> t.calls[cid].sent.value.msg == e.sent.value)
            && CountersOf(t) == if s.calls[cid].isRest then AfterRest(CountersOf(s), caller, ask, e.result)
                                else AfterResolver(CountersOf(s), caller, ask, e.result)
  {
    var middle;
    more, middle := EndsAsTheHandler(w, cfg, actions, s, cid);
    FinishesAsTheHandler(s, middle, cid, HandlerEffect(w, s, cid));
    more, t := Generations.Step(w, cfg, more, middle, OnCall(cid, Finish));
  }

  // ----- the extractor -----

  /** The request has been identified, or turned away and counted, as the extractor would. */
  ghost predicate IdentifiedAs(s: State, t: State, rid: nat, verdict: Result<Caller, (string, Refusal)>) {
    && rid in s.reqs && rid in t.reqs
    && match verdict
       case Ok(c) => t.reqs[rid].phase.Serving? && t.reqs[rid].phase.who.caller == c && t.requests == s.requests
       case Err((name, why)) =>
         && t.reqs[rid].phase.Rejected? && t.reqs[rid].phase.name == name && t.reqs[rid].phase.why == why
         && t.requests == M.CountRequest(s.requests, M.Key(name, RouteText(s.reqs[rid].arrival.matched), RefusalText(why)))
  }

  /** What the extractor finds in a generation as it stands: through its cache, or by the scan. */
  function FoundIndex(w: World, s: State, g: nat, presented: Option<string>): (r: Option<nat>)
    requires g < |s.rts| == |s.cfgs|
    ensures r.Some? ==> r.value < |s.cfgs[g].tokens|
  {
    match presented
    case None => None
    case Some(p) => Auth.AuthenticateOn(w.crypto, s.cfgs[g].tokens, s.rts[g].cache, p).0
  }

  /** What the extractor decides in a generation as it stands. */
  function Verdict(w: World, s: State, g: nat, presented: Option<string>, ipOk: bool): Result<Caller, (string, Refusal)>
    requires g < |s.rts| == |s.cfgs|
  {
    ProxyState.Admit(s.cfgs[g].tokens, s.cfgs[g].limits, ipOk, presented, FoundIndex(w, s, g, presented), s.now)
  }

  /** The request has moved on; nothing the verdict depends on has changed, and nothing is counted yet. */
  ghost predicate Onward(s: State, t: State, rid: nat) {
    && t.cfgs == s.cfgs && t.now == s.now && t.requests == s.requests && |t.rts| == |s.rts|
    && rid in s.reqs && rid in t.reqs && t.reqs[rid].arrival == s.reqs[rid].arrival
  }

  lemma IdentifiedOnward(s: State, u: State, t: State, rid: nat, verdict: Result<Caller, (string, Refusal)>)
    requires Onward(s, u, rid) && IdentifiedAs(u, t, rid, verdict)
    ensures IdentifiedAs(s, t, rid, verdict)
  {
  }

  lemma OnlyRequestsOnward(a: seq<Action>, b: seq<Action>, c: seq<Action>, rid: nat)
    requires OnlyRequests(a, b, rid) && OnlyRequests(b, c, rid)
    ensures OnlyRequests(a, c, rid)
  {
    forall i | |a| <= i < |c| ensures c[i].OnRequest? && c[i].rid == rid {
      if i < |b| { assert c[i] == b[i]; }
    }
  }

  /** One more step of the request. */
  lemma RequestStepTaken(w: World, cfg: Config, actions: seq<Action>, s: State, rid: nat, step: RequestStep)
    returns (more: seq<Action>, t: State)
    requires Reaches(w, cfg, actions, s) && RequestEnabled(s, rid, step)
    ensures Reaches(w, cfg, more, t) && OnlyRequests(actions, more, rid) && t == RequestNext(w, s, rid, step)
  {
    more, t := Generations.Step(w, cfg, actions, s, OnRequest(rid, step));
  }

  // What one step does.

  lemma ExpiryDecides(s: State, rid: nat, g: nat, i: nat)
    requires rid in s.reqs && s.reqs[rid].phase == Known(g, i) && g < |s.cfgs| && i < |s.cfgs[g].tokens|
    requires s.reqs[rid].arrival.presented.Some?
    ensures IdentifiedAs(s, ExpiryStep(s, rid), rid,
                         ProxyState.Admit(s.cfgs[g].tokens, s.cfgs[g].limits, true, s.reqs[rid].arrival.presented, Some(i), s.now))
  {
    var token := s.cfgs[g].tokens[i];
    if token.IsExpiredAt(s.now) {
      assert ExpiryStep(s, rid) == Reject(s, rid, g, token.name, LapsedToken);
    }
  }

  lemma ScanFinds(w: World, s: State, rid: nat, g: nat, i: nat)
    requires rid in s.reqs && s.reqs[rid].phase == Missed(g) && g < |s.rts| == |s.cfgs|
    requires s.reqs[rid].arrival.presented.Some?
    requires Auth.FirstMatch(w.crypto, s.cfgs[g].tokens, s.reqs[rid].arrival.presented.value) == Some(i)
    ensures Onward(s, ScanStep(w, s, rid), rid) && ScanStep(w, s, rid).reqs[rid].phase == Found(g, i)
  {
  }

  lemma ScanFails(w: World, s: State, rid: nat, g: nat)
    requires rid in s.reqs && s.reqs[rid].phase == Missed(g) && g < |s.rts| == |s.cfgs|
    requires s.reqs[rid].arrival.presented.Some?
    requires Auth.FirstMatch(w.crypto, s.cfgs[g].tokens, s.reqs[rid].arrival.presented.value).None?
    ensures IdentifiedAs(s, ScanStep(w, s, rid), rid, Err(("-", UnknownToken)))
  {
  }

  lemma InsertMakesKnown(w: World, s: State, rid: nat, g: nat, i: nat)
    requires rid in s.reqs && s.reqs[rid].phase == Found(g, i) && g < |s.rts|
    requires s.reqs[rid].arrival.presented.Some?
    ensures Onward(s, InsertStep(w, s, rid), rid) && InsertStep(w, s, rid).reqs[rid].phase == Known(g, i)
  {
  }

  /** A lookup misses, or settles what the cache can settle. */
  lemma LookupSettles(w: World, s: State, rid: nat, g: nat)
    requires rid in s.reqs && s.reqs[rid].phase == Admitted(g) && g < |s.rts| == |s.cfgs|
    ensures var p, t, found := s.reqs[rid].arrival.presented, LookupStep(w, s, rid), FoundIndex(w, s, g, s.reqs[rid].arrival.presented);
            && (t.reqs[rid].phase.Missed? || t.reqs[rid].phase.Known? || IdentifiedAs(s, t, rid, Verdict(w, s, g, p, true)))
            && (t.reqs[rid].phase.Missed? ==>
                  && Onward(s, t, rid) && t.reqs[rid].phase == Missed(g) && p.Some?
                  && found == Auth.FirstMatch(w.crypto, s.cfgs[g].tokens, p.value))
            && (t.reqs[rid].phase.Known? ==> Onward(s, t, rid) && p.Some? && found.Some? && t.reqs[rid].phase == Known(g, found.value))
  {
    var t := LookupStep(w, s, rid);
    match s.reqs[rid].arrival.presented
    case None => assert t == Reject(s, rid, g, "-", MissingToken);
    case Some(p) =>
      if p == [] { assert t == Reject(s, rid, g, "-", UnknownToken); }
      else if w.crypto.digest(p) in s.rts[g].cache {
      }
  }

  // Taken one after the other.

  /** From a known token to the caller. */
  lemma ExpiryChecked(w: World, cfg: Config, actions: seq<Action>, s: State, rid: nat, g: nat, i: nat)
    returns (more: seq<Action>, t: State)
    requires Reaches(w, cfg, actions, s) && |s.rts| == |s.cfgs|
    requires rid in s.reqs && s.reqs[rid].phase == Known(g, i) && g < |s.cfgs| && i < |s.cfgs[g].tokens|
    requires s.reqs[rid].arrival.presented.Some?
    ensures Reaches(w, cfg, more, t) && OnlyRequests(actions, more, rid)
    ensures IdentifiedAs(s, t, rid,
                         ProxyState.Admit(s.cfgs[g].tokens, s.cfgs[g].limits, true, s.reqs[rid].arrival.presented, Some(i), s.now))
  {
    more, t := RequestStepTaken(w, cfg, actions, s, rid, CheckExpiry);
    ExpiryDecides(s, rid, g, i);
  }

  /** From a match, through the insert, to the caller. */
  lemma FoundIsIdentified(w: World, cfg: Config, actions: seq<Action>, s: State, rid: nat, g: nat, i: nat)
    returns (more: seq<Action>, t: State)
    requires Reaches(w, cfg, actions, s) && |s.rts| == |s.cfgs|
    requires rid in s.reqs && s.reqs[rid].phase == Found(g, i) && g < |s.cfgs| && i < |s.cfgs[g].tokens|
    requires s.reqs[rid].arrival.presented.Some?
    ensures Reaches(w, cfg, more, t) && OnlyRequests(actions, more, rid)
    ensures IdentifiedAs(s, t, rid,
                         ProxyState.Admit(s.cfgs[g].tokens, s.cfgs[g].limits, true, s.reqs[rid].arrival.presented, Some(i), s.now))
  {
    var middle, u := RequestStepTaken(w, cfg, actions, s, rid, Insert);
    InsertMakesKnown(w, s, rid, g, i);
    more, t := ExpiryChecked(w, cfg, middle, u, rid, g, i);
    OnlyRequestsOnward(actions, middle, more, rid);
  }

  /** From a miss, through the scan, to the caller or to the refusal. */
  lemma MissedIsIdentified(w: World, cfg: Config, actions: seq<Action>, s: State, rid: nat, g: nat)
    returns (more: seq<Action>, t: State)
    requires Reaches(w, cfg, actions, s) && |s.rts| == |s.cfgs|
    requires rid in s.reqs && s.reqs[rid].phase == Missed(g) && g < |s.cfgs| && s.reqs[rid].arrival.presented.Some?
    ensures Reaches(w, cfg, more, t) && OnlyRequests(actions, more, rid)
    ensures var p := s.reqs[rid].arrival.presented;
            var found := Auth.FirstMatch(w.crypto, s.cfgs[g].tokens, p.value);
            IdentifiedAs(s, t, rid, ProxyState.Admit(s.cfgs[g].tokens, s.cfgs[g].limits, true, p, found, s.now))
  {
    var middle, u := RequestStepTaken(w, cfg, actions, s, rid, ScanAll);
    match Auth.FirstMatch(w.crypto, s.cfgs[g].tokens, s.reqs[rid].arrival.presented.value)
    case None =>
      ScanFails(w, s, rid, g);
      more, t := middle, u;
    case Some(i) =>
      ScanFinds(w, s, rid, g, i);
      more, t := FoundIsIdentified(w, cfg, middle, u, rid, g, i);
      OnlyRequestsOnward(actions, middle, more, rid);
      var p := s.reqs[rid].arrival.presented;
      IdentifiedOnward(s, u, t, rid, ProxyState.Admit(s.cfgs[g].tokens, s.cfgs[g].limits, true, p, Some(i), s.now));
  }

  lemma AdmittedIsIdentified(w: World, cfg: Config, actions: seq<Action>, s: State, rid: nat, g: nat)
    returns (more: seq<Action>, t: State)
    requires Reaches(w, cfg, actions, s) && |s.rts| == |s.cfgs|
    requires rid in s.reqs && s.reqs[rid].phase == Admitted(g) && g < |s.cfgs|
    ensures Reaches(w, cfg, more, t) && OnlyRequests(actions, more, rid)
    ensures IdentifiedAs(s, t, rid, Verdict(w, s, g, s.reqs[rid].arrival.presented, true))
  {
    var p := s.reqs[rid].arrival.presented;
    var middle, u := RequestStepTaken(w, cfg, actions, s, rid, Lookup);
    LookupSettles(w, s, rid, g);
    if u.reqs[rid].phase.Missed? {
      more, t := MissedIsIdentified(w, cfg, middle, u, rid, g);
      OnlyRequestsOnward(actions, middle, more, rid);
      IdentifiedOnward(s, u, t, rid, Verdict(w, s, g, p, true));
    } else if u.reqs[rid].phase.Known? {
      more, t := ExpiryChecked(w, cfg, middle, u, rid, g, FoundIndex(w, s, g, p).value);
      OnlyRequestsOnward(actions, middle, more, rid);
      IdentifiedOnward(s, u, t, rid, Verdict(w, s, g, p, true));
    } else {
      more, t := middle, u;
    }
  }

  /** Loaded and past the address check. */
  lemma Gated(w: World, cfg: Config, actions: seq<Action>, s: State, rid: nat) returns (more: seq<Action>, t: State)
    requires Reaches(w, cfg, actions, s) && |s.rts| == |s.cfgs| > 0
    requires rid in s.reqs && s.reqs[rid].phase.Arrived?
    ensures Reaches(w, cfg, more, t) && OnlyRequests(actions, more, rid)
    ensures Onward(s, t, rid) && t.reqs[rid].phase == Admitted(|s.cfgs| - 1)
    ensures t.rts[|s.cfgs| - 1].cache == s.rts[|s.cfgs| - 1].cache
  {
    var middle, u := RequestStepTaken(w, cfg, actions, s, rid, LoadFirst);
    more, t := RequestStepTaken(w, cfg, middle, u, rid, CheckIp(true));
  }

  lemma TurnedAwayByAddress(w: World, cfg: Config, actions: seq<Action>, s: State, rid: nat) returns (more: seq<Action>, t: State)
    requires Reaches(w, cfg, actions, s) && |s.rts| == |s.cfgs| > 0
    requires rid in s.reqs && s.reqs[rid].phase.Arrived?
    ensures Reaches(w, cfg, more, t) && OnlyRequests(actions, more, rid)
    ensures IdentifiedAs(s, t, rid, Err(("-", IpRateLimited)))
  {
    var middle, u := RequestStepTaken(w, cfg, actions, s, rid, LoadFirst);
    more, t := RequestStepTaken(w, cfg, middle, u, rid, CheckIp(false));
  }

  lemma GatedAndIdentified(w: World, cfg: Config, actions: seq<Action>, s: State, rid: nat) returns (more: seq<Action>, t: State)
    requires Reaches(w, cfg, actions, s) && |s.rts| == |s.cfgs| > 0
    requires rid in s.reqs && s.reqs[rid].phase.Arrived?
    ensures Reaches(w, cfg, more, t) && OnlyRequests(actions, more, rid)
    ensures IdentifiedAs(s, t, rid, Verdict(w, s, |s.cfgs| - 1, s.reqs[rid].arrival.presented, true))
  {
    var g, p := |s.cfgs| - 1, s.reqs[rid].arrival.presented;
    var middle, u := Gated(w, cfg, actions, s, rid);
    more, t := AdmittedIsIdentified(w, cfg, middle, u, rid, g);
    OnlyRequestsOnward(actions, middle, more, rid);
    SameVerdict(w, s, u, g, p);
    IdentifiedOnward(s, u, t, rid, Verdict(w, s, g, p, true));
  }

  lemma SameVerdict(w: World, s: State, u: State, g: nat, p: Option<string>)
    requires u.cfgs == s.cfgs && u.now == s.now && g < |s.cfgs| == |s.rts| == |u.rts| && u.rts[g].cache == s.rts[g].cache
    ensures Verdict(w, u, g, p, true) == Verdict(w, s, g, p, true)
  {
  }

  lemma VerdictLikeTheScan(w: World, s: State, g: nat, p: Option<string>, ipOk: bool)
    requires Authenticity.CachesJustified(w, s) && g < |s.cfgs|
    ensures Auth.CollisionFree(w.crypto, s.cfgs[g].tokens) ==>
              Verdict(w, s, g, p, ipOk) == ProxyState.Identify(w.crypto, s.cfgs[g].tokens, s.cfgs[g].limits, ipOk, p, s.now)
  {
    if Auth.CollisionFree(w.crypto, s.cfgs[g].tokens) {
      ProxyState.MemoIdentifiesLikeTheScan(w.crypto, s.cfgs[g].tokens, s.rts[g].cache, s.cfgs[g].limits, ipOk, p, s.now);
    }
  }

  /** Any run can go on with one request's steps alone, through the address check, the cache or the
      scan, and the expiry check; the request then stands where the extractor's contract says:
      identified by the current configuration and its cache, or turned away and counted once. Without
      collisions that is who the uncached scan says it is. */
  lemma UninterruptedRequestIsTheExtractor(w: World, cfg: Config, actions: seq<Action>, s: State, rid: nat, ipOk: bool)
    returns (more: seq<Action>, t: State)
    requires Reaches(w, cfg, actions, s)
    requires rid in s.reqs && s.reqs[rid].phase.Arrived?
    ensures Reaches(w, cfg, more, t) && OnlyRequests(actions, more, rid) && |s.rts| == |s.cfgs| > 0
    ensures var g, p := |s.cfgs| - 1, s.reqs[rid].arrival.presented;
            && IdentifiedAs(s, t, rid, Verdict(w, s, g, p, ipOk))
            && (Auth.CollisionFree(w.crypto, s.cfgs[g].tokens) ==>
                  IdentifiedAs(s, t, rid, ProxyState.Identify(w.crypto, s.cfgs[g].tokens, s.cfgs[g].limits, ipOk, p, s.now)))
  {
    Authenticity.Holds(w, cfg, actions, s);
    if ipOk {
      more, t := GatedAndIdentified(w, cfg, actions, s, rid);
    } else {
      more, t := TurnedAwayByAddress(w, cfg, actions, s, rid);
    }
    VerdictLikeTheScan(w, s, |s.cfgs| - 1, s.reqs[rid].arrival.presented, ipOk);
  }
}
