/** Nothing reaches the console but what a permitted, charged call within its ceilings sends. */
module Sends {
  import opened Wrappers
  import opened Config
  import opened Policy
  import opened Access
  import opened Lifecycle
  import opened Authenticity
  import Upstream
  import Auth
  import Console

  predicate BeforePayment(stage: Stage) { stage.Started? || stage.Seen? || stage.Allowed? }
  predicate AwaitingAnswer(stage: Stage) { stage.Paid? || stage.Ready? || stage.Waiting? }
  predicate IsOver(stage: Stage) { stage.Ended? || stage.Recorded? }

  /** Where a call stands agrees with what the trace records of it. */
  ghost predicate TrailOk(generations: nat, trace: seq<Event>, cid: Cid, c: CallState) {
    && (!c.stage.Started? ==> c.who.gen <= c.live < generations)
    && (c.stage.Allowed? ==> Permits(c.who.caller.token, c.ask.op))
    && (BeforePayment(c.stage) ==> c.paid.None?)
    && (AwaitingAnswer(c.stage) ==> c.paid.Some?)
    && (c.paid.Some? ==>
          && Permits(c.who.caller.token, c.ask.op)
          && c.paid.value.at < |trace|
          && trace[c.paid.value.at] == Charged(cid, c.who.caller.token.name, c.live, c.paid.value.time)
          && c.who.checkedAt <= c.paid.value.time)
    && (c.stage.Paid? || c.stage.Ready? ==> c.sent.None?)
    && (c.stage.Waiting? ==> c.sent.Some?)
    && (c.sent.Some? ==>
          && c.paid.Some?
          && c.paid.value.at < c.sent.value.at < |trace|
          && trace[c.sent.value.at] == Sent(cid, c.live, c.sent.value.msg)
          && Prepare(c.ask, c.who.caller.ceilings) == Ok(c.sent.value.msg))
    && (c.served.Some? ==>
          && c.sent.Some?
          && c.sent.value.at < c.served.value.at < |trace|
          && trace[c.served.value.at] == Handled(cid, MadeBy(c.served.value.reply)))
    && (IsOver(c.stage) <==> c.outcome.Some?)
    && (c.outcome == Some(Good) ==> c.served.Some? && Console.IsSuccess(c.served.value.reply))
  }

  /** Every event is the one its call remembers. */
  ghost predicate EventOk(calls: map<Cid, CallState>, i: nat, e: Event) {
    && e.cid in calls
    && match e
       case Charged(cid, _, _, time) => calls[cid].paid == Some(Payment(i, time))
       case Sent(cid, _, msg) => calls[cid].sent == Some(Dispatch(i, msg))
       case Handled(cid, _) => calls[cid].served.Some? && calls[cid].served.value.at == i
  }

  ghost predicate TrailsOk(s: State) {
    forall cid :: cid in s.calls ==> TrailOk(|s.cfgs|, s.trace, cid, s.calls[cid])
  }

  ghost predicate EventsOk(s: State) {
    forall i :: 0 <= i < |s.trace| ==> EventOk(s.calls, i, s.trace[i])
  }

  ghost predicate Trails(s: State) {
    TrailsOk(s) && EventsOk(s)
  }

  // ----- each step keeps it -----

  lemma TrailOkLater(generations: nat, more: nat, trace: seq<Event>, longer: seq<Event>, cid: Cid, c: CallState)
    requires TrailOk(generations, trace, cid, c) && generations <= more && trace <= longer
    ensures TrailOk(more, longer, cid, c)
  {
  }

  /** The identity a call acts under. */
  lemma IdentityOfCall(w: World, s: State, cid: Cid)
    requires Authenticity.Inv(w, s) && cid in s.calls
    ensures cid.rid in s.reqs
    ensures IdentityOk(w, s.cfgs, s.now, s.reqs[cid.rid].arrival.presented, s.calls[cid].who)
  {
    assert Belongs(s.reqs, cid, s.calls[cid]);
    assert RequestOk(w, s.cfgs, s.now, s.reqs[cid.rid]);
  }

  lemma ChargeTrail(w: World, s: State, cid: Cid)
    requires CallEnabled(s, cid, Charge)
    requires TrailOk(|s.cfgs|, s.trace, cid, s.calls[cid])
    requires s.calls[cid].who.checkedAt <= s.now
    ensures var t := ChargeStep(w, s, cid);
            TrailOk(|s.cfgs|, t.trace, cid, t.calls[cid])
  {
  }

  lemma SendTrail(s: State, cid: Cid)
    requires CallEnabled(s, cid, SendCall)
    requires TrailOk(|s.cfgs|, s.trace, cid, s.calls[cid])
    ensures var t := SendStep(s, cid);
            TrailOk(|s.cfgs|, t.trace, cid, t.calls[cid])
  {
  }

  lemma ServeTrail(w: World, s: State, cid: Cid)
    requires CallEnabled(s, cid, ServeCall)
    requires TrailOk(|s.cfgs|, s.trace, cid, s.calls[cid])
    ensures var t := ServeStep(w, s, cid);
            TrailOk(|s.cfgs|, t.trace, cid, t.calls[cid])
  {
  }

  /** A step other than charging, sending and serving leaves the call's records alone. */
  lemma RecordsKept(w: World, s: State, cid: Cid, step: CallStep)
    requires CallEnabled(s, cid, step) && cid in s.calls
    requires !step.Charge? && !step.SendCall? && !step.ServeCall?
    ensures var c, d := s.calls[cid], CallNext(w, s, cid, step).calls[cid];
            d.paid == c.paid && d.sent == c.sent && d.served == c.served && d.who == c.who && d.ask == c.ask
  {
    match step
    case LoadSecond =>
    case Authorise =>
    case PrepareCall =>
    case Receive =>
    case Lose =>
    case Finish =>
  }

  lemma EndTrail(generations: nat, trace: seq<Event>, cid: Cid, c: CallState, o: Outcome)
    requires TrailOk(generations, trace, cid, c) && !c.stage.Started?
    requires o.Good? ==> c.served.Some? && Console.IsSuccess(c.served.value.reply)
    ensures TrailOk(generations, trace, cid, EndCall(c, o))
  {
  }

  lemma AuthoriseTrail(generations: nat, trace: seq<Event>, cid: Cid, c: CallState)
    requires TrailOk(generations, trace, cid, c) && c.stage.Seen?
    ensures TrailOk(generations, trace, cid, Authorised(c))
  {
    EndTrail(generations, trace, cid, c, Bad(Forbidden));
  }

  lemma PrepareTrail(generations: nat, trace: seq<Event>, cid: Cid, c: CallState)
    requires TrailOk(generations, trace, cid, c) && c.stage.Paid?
    ensures TrailOk(generations, trace, cid, Prepared(c))
  {
    match Prepare(c.ask, c.who.caller.ceilings)
    case Ok(_) =>
    case Err(e) => EndTrail(generations, trace, cid, c, Bad(e));
  }

  lemma RecordTrail(generations: nat, trace: seq<Event>, cid: Cid, c: CallState)
    requires TrailOk(generations, trace, cid, c) && c.stage.Ended?
    ensures TrailOk(generations, trace, cid, c.(stage := Recorded))
  {
  }

  lemma FinishTrail(s: State, cid: Cid)
    requires CallEnabled(s, cid, Finish)
    requires TrailOk(|s.cfgs|, s.trace, cid, s.calls[cid])
    ensures TrailOk(|s.cfgs|, s.trace, cid, FinishStep(s, cid).calls[cid])
  {
    RecordTrail(|s.cfgs|, s.trace, cid, s.calls[cid]);
    assert FinishStep(s, cid).calls[cid] == s.calls[cid].(stage := Recorded);
  }

  lemma QuietTrail(w: World, s: State, cid: Cid, step: CallStep)
    requires CallEnabled(s, cid, step) && cid in s.calls && !step.StartCall?
    requires !step.Charge? && !step.SendCall? && !step.ServeCall?
    requires TrailOk(|s.cfgs|, s.trace, cid, s.calls[cid]) && s.calls[cid].who.gen < |s.cfgs|
    ensures TrailOk(|s.cfgs|, s.trace, cid, CallNext(w, s, cid, step).calls[cid])
  {
    var c := s.calls[cid];
    match step
    case LoadSecond =>
    case Authorise => AuthoriseTrail(|s.cfgs|, s.trace, cid, c);
    case PrepareCall => PrepareTrail(|s.cfgs|, s.trace, cid, c);
    case Receive =>
      EndTrail(|s.cfgs|, s.trace, cid, c, if Console.IsSuccess(c.served.value.reply) then Good else Bad(UpstreamError));
    case Lose => EndTrail(|s.cfgs|, s.trace, cid, c, Bad(UpstreamUnreachable));
    case Finish => FinishTrail(s, cid);
  }

  lemma StartTrail(w: World, s: State, cid: Cid)
    requires CallEnabled(s, cid, StartCall)
    ensures var t := CallNext(w, s, cid, StartCall);
            TrailOk(|s.cfgs|, s.trace, cid, t.calls[cid])
  {
  }

  lemma OwnTrail(w: World, s: State, cid: Cid, step: CallStep)
    requires Trails(s) && Authenticity.Inv(w, s) && CallEnabled(s, cid, step)
    ensures var t := CallNext(w, s, cid, step);
            cid in t.calls && TrailOk(|t.cfgs|, t.trace, cid, t.calls[cid])
  {
    CallStepFrame(w, s, cid, step);
    if step.StartCall? {
      StartTrail(w, s, cid);
    } else {
      IdentityOfCall(w, s, cid);
      match step
      case Charge => ChargeTrail(w, s, cid);
      case SendCall => SendTrail(s, cid);
      case ServeCall => ServeTrail(w, s, cid);
      case _ => QuietTrail(w, s, cid, step);
    }
  }

  /** The event a step adds is the one its call then remembers; the older ones still are. */
  lemma EventsKept(w: World, s: State, cid: Cid, step: CallStep)
    requires Trails(s) && CallEnabled(s, cid, step)
    ensures EventsOk(CallNext(w, s, cid, step))
  {
    var t := CallNext(w, s, cid, step);
    CallStepFrame(w, s, cid, step);
    NewEventOk(w, s, cid, step);
    forall i | 0 <= i < |t.trace| ensures EventOk(t.calls, i, t.trace[i]) {
      if i < |s.trace| {
        OneEventKept(w, s, cid, step, i);
      }
    }
  }

  lemma OneEventKept(w: World, s: State, cid: Cid, step: CallStep, i: nat)
    requires Trails(s) && CallEnabled(s, cid, step) && i < |s.trace|
    ensures EventOk(CallNext(w, s, cid, step).calls, i, s.trace[i])
  {
    assert EventOk(s.calls, i, s.trace[i]);
    if s.trace[i].cid == cid {
      assert TrailOk(|s.cfgs|, s.trace, cid, s.calls[cid]);
      OldEventKept(w, s, cid, step, i);
    } else {
      CallStepFrame(w, s, cid, step);
    }
  }

  /** A record once made is not overwritten: charging, sending and serving each happen at most once. */
  lemma OldEventKept(w: World, s: State, cid: Cid, step: CallStep, i: nat)
    requires CallEnabled(s, cid, step) && i < |s.trace| && s.trace[i].cid == cid
    requires EventOk(s.calls, i, s.trace[i]) && TrailOk(|s.cfgs|, s.trace, cid, s.calls[cid])
    ensures EventOk(CallNext(w, s, cid, step).calls, i, s.trace[i])
  {
    CallStepFrame(w, s, cid, step);
    match step
    case Charge =>
    case SendCall =>
    case ServeCall =>
    case _ => RecordsKept(w, s, cid, step);
  }

  lemma NewEventOk(w: World, s: State, cid: Cid, step: CallStep)
    requires CallEnabled(s, cid, step)
    ensures var t := CallNext(w, s, cid, step);
            |t.trace| > |s.trace| ==> EventOk(t.calls, |s.trace|, t.trace[|s.trace|])
  {
    CallStepFrame(w, s, cid, step);
    match step
    case Charge =>
    case SendCall =>
    case ServeCall =>
    case _ =>
  }

  lemma OnCallTrails(w: World, s: State, cid: Cid, step: CallStep)
    requires Trails(s) && Authenticity.Inv(w, s) && CallEnabled(s, cid, step)
    ensures Trails(CallNext(w, s, cid, step))
  {
    var t := CallNext(w, s, cid, step);
    CallStepFrame(w, s, cid, step);
    EventsKept(w, s, cid, step);
    forall other | other in t.calls ensures TrailOk(|t.cfgs|, t.trace, other, t.calls[other]) {
      if other == cid {
        OwnTrail(w, s, cid, step);
      } else {
        TrailOkLater(|s.cfgs|, |t.cfgs|, s.trace, t.trace, other, s.calls[other]);
      }
    }
  }

  lemma StepTrails(w: World, s: State, a: Action)
    requires Trails(s) && Authenticity.Inv(w, s) && Enabled(w, s, a)
    ensures Trails(Next(w, s, a))
  {
    match a
    case OnCall(cid, step) => OnCallTrails(w, s, cid, step);
    case OnRequest(rid, step) => RequestStepFrame(w, s, rid, step);
    case _ =>
      var t := Next(w, s, a);
      forall cid | cid in t.calls ensures TrailOk(|t.cfgs|, t.trace, cid, t.calls[cid]) {
        TrailOkLater(|s.cfgs|, |t.cfgs|, s.trace, t.trace, cid, s.calls[cid]);
      }
  }

  lemma {:induction false} TrailsHold(w: World, cfg: Config, actions: seq<Action>, s: State)
    requires Reaches(w, cfg, actions, s)
    ensures Authenticity.Inv(w, s) && Trails(s)
    decreases |actions|
  {
    Authenticity.Holds(w, cfg, actions, s);
    if actions != [] {
      var before, a := LastAction(w, cfg, actions, s);
      TrailsHold(w, cfg, actions[..|actions| - 1], before);
      StepTrails(w, before, a);
    }
  }

  // ----- main results -----

  /** The place in the trace where the call that sent event `i` was charged. */
  ghost function ChargeOf(s: State, i: nat): nat
    requires Trails(s) && i < |s.trace| && s.trace[i].Sent?
  {
    assert EventOk(s.calls, i, s.trace[i]);
    s.calls[s.trace[i].cid].paid.value.at
  }

  /** What must be true of a message on the wire, told from the message itself, from the
      generation `who` came from, and from what the request presented. */
  ghost predicate Licensed(w: World, cfgs: seq<Config>, presented: Option<string>, who: Identity, chargedAt: nat, msg: Message) {
    && IdentityOk(w, cfgs, chargedAt, presented, who)
    && (Auth.CollisionFree(w.crypto, cfgs[who.gen].tokens) ==> ScansTo(w, cfgs, who.gen, presented, Some(who.idx)))
    && var token := cfgs[who.gen].tokens[who.idx];
       var op := Upstream.ParseCall(msg.call);
       && op.Some?
       && (token.expiresAt.None? || who.checkedAt < token.expiresAt.value)
       && (op.value.ListSites? ==> SitesRead in token.scopes)
       && (op.value.ListVouchers? ==> VouchersRead in token.scopes)
       && (op.value.CreateVouchers? ==> VouchersCreate in token.scopes)
       && (op.value.DeleteVoucher? ==> VouchersRevoke in token.scopes)
       && (!op.value.ListSites? ==> "*" in token.sites || op.value.site in token.sites)
       && Upstream.IdsAreSafe(op.value)
       && (op.value.CreateVouchers? ==>
             exists r :: msg.body == ToUpstreamBody(r) && msg.count == Some(r.count)
               && 1 <= r.count <= token.EffectiveMaxVouchers(cfgs[who.gen].limits)
               && 1 <= r.timeLimitMinutes <= token.EffectiveMaxValidity(cfgs[who.gen].limits)
               && r.timeLimitMinutes <= 1_000_000)
  }

  /** Event `i` was paid for by its own call's earlier charge, at one generation no older than the
      caller's, and its message is licensed. */
  ghost predicate IsPaidAndLicensed(w: World, s: State, i: nat)
    requires Trails(s) && i < |s.trace| && s.trace[i].Sent?
  {
    var j := ChargeOf(s, i);
    var rid := s.trace[i].cid.rid;
    && j < i
    && s.trace[j].Charged? && s.trace[j].cid == s.trace[i].cid && s.trace[j].gen == s.trace[i].gen
    && rid in s.reqs
    && exists who :: Licensed(w, s.cfgs, s.reqs[rid].arrival.presented, who, s.trace[j].time, s.trace[i].msg)
         && GoesBy(s.reqs[rid].phase, who)
         && s.trace[j].name == s.cfgs[who.gen].tokens[who.idx].name
         && who.gen <= s.trace[j].gen < |s.cfgs|
  }

  /** In every interleaving of requests, reloads and console activity, each message sent was paid
      for beforehand, by its own charge and no other's, under the name of a token that a published
      generation identifies the request's own presented text as; that token had not lapsed when it
      was checked, which was before the charge; it carries the scope and the site of the operation
      on the wire; the ids on the wire are safe; and a create stays within that caller's ceilings.
      The generation charged is never older than the one the caller came from. */
  lemma EverySendIsLicensed(w: World, cfg: Config, actions: seq<Action>, s: State)
    requires Reaches(w, cfg, actions, s)
    ensures Trails(s)
    ensures forall i :: 0 <= i < |s.trace| && s.trace[i].Sent? ==> IsPaidAndLicensed(w, s, i)
    ensures forall i, k :: (0 <= i < |s.trace| && 0 <= k < |s.trace| && s.trace[i].Sent? && s.trace[k].Sent?
              && ChargeOf(s, i) == ChargeOf(s, k)) ==> i == k
  {
    TrailsHold(w, cfg, actions, s);
    forall i | 0 <= i < |s.trace| && s.trace[i].Sent? ensures IsPaidAndLicensed(w, s, i) {
      SendIsLicensed(w, s, i);
    }
    forall i, k | 0 <= i < |s.trace| && 0 <= k < |s.trace| && s.trace[i].Sent? && s.trace[k].Sent? && ChargeOf(s, i) == ChargeOf(s, k)
      ensures i == k
    {
      OneSendPerCharge(s, i, k);
    }
  }

  lemma OneSendPerCharge(s: State, i: nat, k: nat)
    requires Trails(s) && i < |s.trace| && k < |s.trace| && s.trace[i].Sent? && s.trace[k].Sent?
    requires ChargeOf(s, i) == ChargeOf(s, k)
    ensures i == k
  {
    assert EventOk(s.calls, i, s.trace[i]) && EventOk(s.calls, k, s.trace[k]);
    assert TrailOk(|s.cfgs|, s.trace, s.trace[i].cid, s.calls[s.trace[i].cid]);
    assert TrailOk(|s.cfgs|, s.trace, s.trace[k].cid, s.calls[s.trace[k].cid]);
  }

  lemma SendIsLicensed(w: World, s: State, i: nat)
    requires Authenticity.Inv(w, s) && Trails(s) && i < |s.trace| && s.trace[i].Sent?
    ensures IsPaidAndLicensed(w, s, i)
  {
    var cid := s.trace[i].cid;
    assert EventOk(s.calls, i, s.trace[i]);
    var c := s.calls[cid];
    assert TrailOk(|s.cfgs|, s.trace, cid, c);
    assert EventOk(s.calls, c.paid.value.at, s.trace[c.paid.value.at]);
    assert Belongs(s.reqs, cid, c);
    var r := s.reqs[cid.rid];
    assert RequestOk(w, s.cfgs, s.now, r);
    assert IdentityOk(w, s.cfgs, s.now, r.arrival.presented, c.who);
    MessageIsLicensed(w, s.cfgs, r.arrival.presented, c, s.now);
  }

  lemma MessageIsLicensed(w: World, cfgs: seq<Config>, presented: Option<string>, c: CallState, now: nat)
    requires IdentityOk(w, cfgs, now, presented, c.who)
    requires c.paid.Some? && c.who.checkedAt <= c.paid.value.time
    requires c.sent.Some? && Prepare(c.ask, c.who.caller.ceilings) == Ok(c.sent.value.msg)
    requires Permits(c.who.caller.token, c.ask.op)
    ensures Licensed(w, cfgs, presented, c.who, c.paid.value.time, c.sent.value.msg)
  {
    var msg := c.sent.value.msg;
    Auth.ResolvedIsScanned(w.crypto, cfgs[c.who.gen].tokens, presented.value, c.who.idx);
    PreparedExactlyWhenAcceptable(c.ask, c.who.caller.ceilings);
    if c.ask.op.CreateVouchers? {
      var r := RequestOf(c.ask.input).value;
      assert WithinCeilings(r, c.who.caller.ceilings);
      assert msg.body == ToUpstreamBody(r) && msg.count == Some(r.count);
    }
  }
}
