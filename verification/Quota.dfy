/** What a token's budget is worth: charges, and so vouchers, per window of time. */
module Quota {
  import opened Wrappers
  import opened Config
  import opened Policy
  import opened Access
  import opened Lifecycle
  import opened Authenticity
  import opened Sends
  import opened Ledger
  import RateLimit
  import Sums

  // ----- each limiter's log is the record of the charges it let through -----

  ghost predicate UpTo(log: seq<nat>, now: nat) {
    forall i :: 0 <= i < |log| ==> log[i] <= now
  }

  ghost predicate LogCounts(calls: map<Cid, CallState>, g: nat, name: string, log: seq<nat>) {
    forall from: nat, width: nat :: Sum(calls, Charges(g, name, from, width)) == RateLimit.CountIn(log, from, width)
  }

  ghost predicate LimiterOk(w: World, s: State, g: nat, name: string, l: RateLimit.Limiter) {
    && RateLimit.Sorted(l.admitted)
    && UpTo(l.admitted, s.now)
    && (RateLimit.Honest(w.quotaOf(l.rate)) ==> RateLimit.WithinAllowance(l.admitted, w.quotaOf(l.rate).allowance))
    && LogCounts(s.calls, g, name, l.admitted)
  }

  /** A generation keeps the limiters it was built with, at their rates. */
  ghost predicate SameLimiters(cfg: Config, limiters: RateLimit.Limiters) {
    var built := RateLimit.LimitersFor(cfg.tokens, cfg.limits);
    limiters.Keys == built.Keys && forall name :: name in built ==> limiters[name].rate == built[name].rate
  }

  ghost predicate Budgets(w: World, s: State) {
    && |s.rts| == |s.cfgs|
    && (forall g :: 0 <= g < |s.rts| ==> SameLimiters(s.cfgs[g], s.rts[g].limiters))
    && (forall g, name :: 0 <= g < |s.rts| && name in s.rts[g].limiters ==> LimiterOk(w, s, g, name, s.rts[g].limiters[name]))
  }

  // ----- each step keeps it -----

  lemma LogExtends(q: RateLimit.Quota, log: seq<nat>, now: nat)
    requires RateLimit.Sorted(log) && UpTo(log, now) && q.admit(log, now)
    ensures RateLimit.Sorted(log + [now]) && UpTo(log + [now], now)
    ensures RateLimit.Honest(q) && RateLimit.WithinAllowance(log, q.allowance) ==> RateLimit.WithinAllowance(log + [now], q.allowance)
  {
  }

  lemma CountExtends(log: seq<nat>, now: nat, from: nat, width: nat)
    ensures RateLimit.CountIn(log + [now], from, width)
            == RateLimit.CountIn(log, from, width) + (if from <= now <= from + width then 1 else 0)
  {
    assert (log + [now])[..|log|] == log;
  }

  /** Outside a charge, no sum of charges changes. */
  lemma ChargesKept(w: World, s: State, cid: Cid, step: CallStep, g: nat, name: string, from: nat, width: nat)
    requires CallEnabled(s, cid, step) && !step.Charge?
    requires cid in s.calls ==> TrailOk(|s.cfgs|, s.trace, cid, s.calls[cid])
    ensures Sum(CallNext(w, s, cid, step).calls, Charges(g, name, from, width)) == Sum(s.calls, Charges(g, name, from, width))
  {
    var t := CallNext(w, s, cid, step);
    CallStepFrame(w, s, cid, step);
    SumUpdate(s.calls, Charges(g, name, from, width), cid, t.calls[cid]);
    PaymentKept(w, s, cid, step);
  }

  lemma PaymentKept(w: World, s: State, cid: Cid, step: CallStep)
    requires CallEnabled(s, cid, step) && !step.Charge?
    requires cid in s.calls ==> TrailOk(|s.cfgs|, s.trace, cid, s.calls[cid])
    ensures var t := CallNext(w, s, cid, step);
            && cid in t.calls
            && (cid !in s.calls ==> t.calls[cid].paid.None?)
            && (cid in s.calls ==> t.calls[cid].paid == s.calls[cid].paid && t.calls[cid].who == s.calls[cid].who)
            && (cid in s.calls && s.calls[cid].paid.Some? ==> t.calls[cid].live == s.calls[cid].live)
  {
    match step
    case StartCall =>
    case LoadSecond =>
    case Authorise =>
    case PrepareCall =>
    case SendCall =>
    case ServeCall =>
    case Receive =>
    case Lose =>
    case Finish =>
  }

  /** A charge adds one to the sums it falls in, and to those only when it is let through. */
  lemma ChargeCounts(w: World, s: State, cid: Cid, g: nat, name: string, from: nat, width: nat)
    requires CallEnabled(s, cid, Charge) && s.calls[cid].paid.None?
    ensures var c, t := s.calls[cid], ChargeStep(w, s, cid);
            Sum(t.calls, Charges(g, name, from, width)) ==
              Sum(s.calls, Charges(g, name, from, width)) +
              (if t.calls[cid].paid.Some? && c.live == g && c.who.caller.token.name == name && from <= s.now <= from + width then 1 else 0)
  {
    var t := ChargeStep(w, s, cid);
    SumUpdate(s.calls, Charges(g, name, from, width), cid, t.calls[cid]);
    assert t.calls == s.calls[cid := t.calls[cid]];
  }

  /** What a charge does to a limiter: its own log grows by now exactly when it lets the charge
      through; every other limiter is untouched. */
  lemma ChargeOnLimiter(w: World, s: State, cid: Cid, g: nat, name: string)
    requires CallEnabled(s, cid, Charge) && s.calls[cid].paid.None?
    requires |s.rts| == |s.cfgs| && g < |s.rts| && name in s.rts[g].limiters
    ensures var c, t, l := s.calls[cid], ChargeStep(w, s, cid), s.rts[g].limiters[name];
            var mine := c.live == g && c.who.caller.token.name == name;
            && name in t.rts[g].limiters && t.rts[g].limiters[name].rate == l.rate
            && (mine && t.calls[cid].paid.Some? ==>
                  w.quotaOf(l.rate).admit(l.admitted, s.now) && t.rts[g].limiters[name].admitted == l.admitted + [s.now])
            && (!(mine && t.calls[cid].paid.Some?) ==> t.rts[g].limiters[name] == l)
  {
    var c := s.calls[cid];
    CheckOnLimiter(w.quotaOf, s.rts[c.live].limiters, c.who.caller.token.name, s.now, name);
    if c.live == g {
    } else {
      assert ChargeStep(w, s, cid).rts[g] == s.rts[g];
    }
  }

  lemma CheckOnLimiter(quotaOf: u32 -> RateLimit.Quota, limiters: RateLimit.Limiters, mine: string, now: nat, name: string)
    ensures var (ok, after) := RateLimit.CheckOn(quotaOf, limiters, mine, now);
            && (!ok ==> after == limiters)
            && (name in limiters ==>
                  && name in after && after[name].rate == limiters[name].rate
                  && (mine == name && ok ==>
                        && quotaOf(limiters[name].rate).admit(limiters[name].admitted, now)
                        && after[name].admitted == limiters[name].admitted + [now])
                  && (mine != name ==> after[name] == limiters[name]))
  {
  }

  lemma ChargeKeepsLimiter(w: World, s: State, cid: Cid, g: nat, name: string)
    requires CallEnabled(s, cid, Charge) && s.calls[cid].paid.None?
    requires |s.rts| == |s.cfgs| && g < |s.rts| && name in s.rts[g].limiters
    requires LimiterOk(w, s, g, name, s.rts[g].limiters[name])
    ensures var t := ChargeStep(w, s, cid);
            name in t.rts[g].limiters && LimiterOk(w, t, g, name, t.rts[g].limiters[name])
  {
    var t, l := ChargeStep(w, s, cid), s.rts[g].limiters[name];
    ChargeOnLimiter(w, s, cid, g, name);
    var log := t.rts[g].limiters[name].admitted;
    if log != l.admitted {
      LogExtends(w.quotaOf(l.rate), l.admitted, s.now);
    }
    forall from: nat, width: nat ensures Sum(t.calls, Charges(g, name, from, width)) == RateLimit.CountIn(log, from, width) {
      ChargeCounts(w, s, cid, g, name, from, width);
      CountExtends(l.admitted, s.now, from, width);
    }
  }

  lemma ChargeKeepsRates(w: World, s: State, cid: Cid, g: nat)
    requires cid in s.calls && s.calls[cid].live < |s.rts| && g < |s.rts|
    ensures var t := ChargeStep(w, s, cid);
            && g < |t.rts| && t.rts[g].limiters.Keys == s.rts[g].limiters.Keys
            && forall name :: name in s.rts[g].limiters ==> t.rts[g].limiters[name].rate == s.rts[g].limiters[name].rate
  {
  }

  lemma ChargeBudgets(w: World, s: State, cid: Cid)
    requires Budgets(w, s) && Trails(s) && CallEnabled(s, cid, Charge)
    ensures Budgets(w, ChargeStep(w, s, cid))
  {
    var t := ChargeStep(w, s, cid);
    CallStepFrame(w, s, cid, Charge);
    assert TrailOk(|s.cfgs|, s.trace, cid, s.calls[cid]);
    forall g | 0 <= g < |t.rts| ensures SameLimiters(t.cfgs[g], t.rts[g].limiters) {
      ChargeKeepsRates(w, s, cid, g);
      assert SameLimiters(s.cfgs[g], s.rts[g].limiters);
    }
    forall g, name | 0 <= g < |t.rts| && name in t.rts[g].limiters
      ensures LimiterOk(w, t, g, name, t.rts[g].limiters[name])
    {
      ChargeKeepsRates(w, s, cid, g);
      ChargeKeepsLimiter(w, s, cid, g, name);
    }
  }

  lemma LimiterLater(w: World, s: State, t: State, g: nat, name: string, l: RateLimit.Limiter)
    requires LimiterOk(w, s, g, name, l) && s.now <= t.now
    requires forall from: nat, width: nat :: Sum(t.calls, Charges(g, name, from, width)) == Sum(s.calls, Charges(g, name, from, width))
    ensures LimiterOk(w, t, g, name, l)
  {
  }

  lemma QuietBudgets(w: World, s: State, cid: Cid, step: CallStep)
    requires Budgets(w, s) && Trails(s) && CallEnabled(s, cid, step) && !step.Charge?
    ensures Budgets(w, CallNext(w, s, cid, step))
  {
    var t := CallNext(w, s, cid, step);
    CallStepFrame(w, s, cid, step);
    forall g, name | 0 <= g < |t.rts| && name in t.rts[g].limiters
      ensures LimiterOk(w, t, g, name, t.rts[g].limiters[name])
    {
      forall from: nat, width: nat ensures Sum(t.calls, Charges(g, name, from, width)) == Sum(s.calls, Charges(g, name, from, width)) {
        ChargesKept(w, s, cid, step, g, name, from, width);
      }
      LimiterLater(w, s, t, g, name, s.rts[g].limiters[name]);
    }
  }

  /** No call has been charged at a generation that does not exist yet. */
  lemma NothingCharged(s: State, g: nat, name: string, from: nat, width: nat)
    requires Trails(s) && g >= |s.cfgs|
    ensures Sum(s.calls, Charges(g, name, from, width)) == 0
  {
    forall cid | cid in s.calls ensures Weight(Charges(g, name, from, width), s.calls[cid]) == 0 {
      assert TrailOk(|s.cfgs|, s.trace, cid, s.calls[cid]);
    }
    SumOfNothing(s.calls, Charges(g, name, from, width));
  }

  lemma PublishBudgets(w: World, s: State, cfg: Config)
    requires Budgets(w, s) && Trails(s) && Enabled(w, s, Publish(cfg))
    ensures Budgets(w, Next(w, s, Publish(cfg)))
  {
    var t := Next(w, s, Publish(cfg));
    forall g, name | 0 <= g < |t.rts| && name in t.rts[g].limiters
      ensures LimiterOk(w, t, g, name, t.rts[g].limiters[name])
    {
      if g < |s.rts| {
        LimiterLater(w, s, t, g, name, s.rts[g].limiters[name]);
      } else {
        forall from: nat, width: nat ensures Sum(t.calls, Charges(g, name, from, width)) == 0 {
          NothingCharged(s, g, name, from, width);
        }
        FreshLimiterOk(w, t, cfg, g, name);
      }
    }
  }

  lemma FreshLimiterOk(w: World, t: State, cfg: Config, g: nat, name: string)
    requires name in RateLimit.LimitersFor(cfg.tokens, cfg.limits)
    requires forall from: nat, width: nat :: Sum(t.calls, Charges(g, name, from, width)) == 0
    ensures LimiterOk(w, t, g, name, RateLimit.LimitersFor(cfg.tokens, cfg.limits)[name])
  {
    RateLimit.LimiterNamesAreTokenNames(cfg.tokens, cfg.limits, name);
  }

  lemma StepBudgets(w: World, s: State, a: Action)
    requires Budgets(w, s) && Trails(s) && Enabled(w, s, a)
    ensures Budgets(w, Next(w, s, a))
  {
    match a
    case OnRequest(rid, step) => OnRequestBudgets(w, s, rid, step);
    case OnCall(cid, step) =>
      if step.Charge? { ChargeBudgets(w, s, cid); } else { QuietBudgets(w, s, cid, step); }
    case Publish(cfg) => PublishBudgets(w, s, cfg);
    case Tick(d) => LaterBudgets(w, s, s.(now := s.now + d));
    case RefuseReload => LaterBudgets(w, s, s.(reload := Refused));
    case CountReload => LaterBudgets(w, s, Next(w, s, CountReload));
  }

  lemma LaterBudgets(w: World, s: State, t: State)
    requires Budgets(w, s) && s.now <= t.now && t.cfgs == s.cfgs && t.rts == s.rts && t.calls == s.calls
    ensures Budgets(w, t)
  {
    forall g, name | 0 <= g < |t.rts| && name in t.rts[g].limiters ensures LimiterOk(w, t, g, name, t.rts[g].limiters[name]) {
      LimiterLater(w, s, t, g, name, s.rts[g].limiters[name]);
    }
  }

  lemma OnRequestBudgets(w: World, s: State, rid: nat, step: RequestStep)
    requires Budgets(w, s) && RequestEnabled(s, rid, step)
    ensures Budgets(w, RequestNext(w, s, rid, step))
  {
    var t := RequestNext(w, s, rid, step);
    RequestStepFrame(w, s, rid, step);
    forall g, name | 0 <= g < |t.rts| && name in t.rts[g].limiters ensures LimiterOk(w, t, g, name, t.rts[g].limiters[name]) {
      LimiterLater(w, s, t, g, name, s.rts[g].limiters[name]);
    }
  }

  lemma {:induction false} BudgetsHold(w: World, cfg: Config, actions: seq<Action>, s: State)
    requires Reaches(w, cfg, actions, s)
    ensures Budgets(w, s) && Trails(s) && Authenticity.Inv(w, s)
    decreases |actions|
  {
    TrailsHold(w, cfg, actions, s);
    if actions == [] {
      forall name | name in s.rts[0].limiters ensures LimiterOk(w, s, 0, name, s.rts[0].limiters[name]) {
        forall from: nat, width: nat ensures Sum(s.calls, Charges(0, name, from, width)) == 0 {
          SumOfNothing(s.calls, Charges(0, name, from, width));
        }
        FreshLimiterOk(w, s, cfg, 0, name);
      }
    } else {
      var before, a := LastAction(w, cfg, actions, s);
      BudgetsHold(w, cfg, actions[..|actions| - 1], before);
      StepBudgets(w, before, a);
    }
  }

  // ----- main results -----

  /** `most` bounds the voucher ceilings of every token called `name` in the generations up to `g`:
      a caller identified in an older one keeps its ceilings when it is charged at a newer one. */
  ghost predicate CeilingUpTo(cfgs: seq<Config>, g: nat, name: string, most: nat) {
    forall h, i :: 0 <= h < |cfgs| && h <= g && 0 <= i < |cfgs[h].tokens| && cfgs[h].tokens[i].name == name ==>
      cfgs[h].tokens[i].EffectiveMaxVouchers(cfgs[h].limits) <= most
  }

  /** A call's message asks for no more than its caller's ceiling allows. */
  lemma RequestWithinCeiling(w: World, s: State, cid: Cid, g: nat, most: nat)
    requires Authenticity.Inv(w, s) && Trails(s) && cid in s.calls
    requires s.calls[cid].who.gen <= g && CeilingUpTo(s.cfgs, g, s.calls[cid].who.caller.token.name, most)
    ensures RequestedBy(s.calls[cid]) <= most
    ensures CreditOf(s.calls[cid]) > 0 ==> s.calls[cid].paid.Some? && CreditOf(s.calls[cid]) <= most
  {
    var c := s.calls[cid];
    assert TrailOk(|s.cfgs|, s.trace, cid, c);
    IdentityOfCall(w, s, cid);
    MessageWithinCeiling(c.ask, c.who.caller.ceilings);
    assert s.cfgs[c.who.gen].tokens[c.who.idx].EffectiveMaxVouchers(s.cfgs[c.who.gen].limits) <= most;
  }

  lemma MessageWithinCeiling(ask: Ask, ceilings: Ceilings)
    ensures Prepare(ask, ceilings).Ok? ==>
              var count := Prepare(ask, ceilings).value.count;
              && (count.Some? ==> count.value <= ceilings.maxVouchers)
              && (ask.op.CreateVouchers? ==> RequestOf(ask.input).Some? && RequestOf(ask.input).value.count <= ceilings.maxVouchers)
  {
    PreparedExactlyWhenAcceptable(ask, ceilings);
  }

  /** In every run, in any window of time, the charges let through for a limited name at one
      generation are at most the limiter's allowance for that width, and the vouchers their messages
      ask for are at most that many times the largest ceiling a caller of that name can have. */
  lemma WindowsAreBudgeted(w: World, cfg: Config, actions: seq<Action>, s: State,
                           g: nat, name: string, from: nat, width: nat, most: nat)
    requires Reaches(w, cfg, actions, s)
    requires g < |s.cfgs| && name in RateLimit.LimitersFor(s.cfgs[g].tokens, s.cfgs[g].limits)
    requires RateLimit.Honest(w.quotaOf(RateLimit.LimitersFor(s.cfgs[g].tokens, s.cfgs[g].limits)[name].rate))
    requires CeilingUpTo(s.cfgs, g, name, most)
    ensures var allowance := w.quotaOf(RateLimit.LimitersFor(s.cfgs[g].tokens, s.cfgs[g].limits)[name].rate).allowance;
            && Sum(s.calls, Charges(g, name, from, width)) <= allowance(width)
            && Sum(s.calls, Requested(g, name, from, width)) <= allowance(width) * most
  {
    BudgetsHold(w, cfg, actions, s);
    ChargesAreBudgeted(w, s, g, name, from, width);
    RequestedPerCharge(w, s, g, name, from, width, most);
    var rate := RateLimit.LimitersFor(s.cfgs[g].tokens, s.cfgs[g].limits)[name].rate;
    Sums.Scale(Sum(s.calls, Charges(g, name, from, width)), w.quotaOf(rate).allowance(width), most);
  }

  lemma ChargesAreBudgeted(w: World, s: State, g: nat, name: string, from: nat, width: nat)
    requires Budgets(w, s) && g < |s.cfgs| && name in RateLimit.LimitersFor(s.cfgs[g].tokens, s.cfgs[g].limits)
    requires RateLimit.Honest(w.quotaOf(RateLimit.LimitersFor(s.cfgs[g].tokens, s.cfgs[g].limits)[name].rate))
    ensures Sum(s.calls, Charges(g, name, from, width)) <=
              w.quotaOf(RateLimit.LimitersFor(s.cfgs[g].tokens, s.cfgs[g].limits)[name].rate).allowance(width)
  {
    var l := s.rts[g].limiters[name];
    assert SameLimiters(s.cfgs[g], s.rts[g].limiters) && LimiterOk(w, s, g, name, l);
    RateLimit.WindowBound(w.quotaOf(l.rate).allowance, l.admitted, from, width);
  }

  lemma RequestedPerCharge(w: World, s: State, g: nat, name: string, from: nat, width: nat, most: nat)
    requires Authenticity.Inv(w, s) && Trails(s) && CeilingUpTo(s.cfgs, g, name, most)
    ensures Sum(s.calls, Requested(g, name, from, width)) <= Sum(s.calls, Charges(g, name, from, width)) * most
  {
    forall cid | cid in s.calls
      ensures Weight(Requested(g, name, from, width), s.calls[cid]) <= Weight(Charges(g, name, from, width), s.calls[cid]) * most
    {
      var c := s.calls[cid];
      assert TrailOk(|s.cfgs|, s.trace, cid, c);
      if ChargedIn(c, g, name, from, width) { RequestWithinCeiling(w, s, cid, g, most); }
    }
    SumBound(s.calls, Requested(g, name, from, width), Charges(g, name, from, width), most);
  }

  // ----- over all generations -----

  ghost predicate LimitsName(cfg: Config, name: string) { name in RateLimit.LimitersFor(cfg.tokens, cfg.limits) }

  /** What one generation lets through in a window, where it limits the name. */
  ghost function AllowanceOf(w: World, cfg: Config, name: string, width: nat): nat {
    if LimitsName(cfg, name) then w.quotaOf(RateLimit.LimitersFor(cfg.tokens, cfg.limits)[name].rate).allowance(width) else 0
  }

  /** What each generation lets through. */
  ghost function Allowances(w: World, cfgs: seq<Config>, name: string, width: nat): seq<nat> {
    seq(|cfgs|, g requires 0 <= g < |cfgs| => AllowanceOf(w, cfgs[g], name, width))
  }

  /** The generations that limit the name, among the first `n`. */
  ghost function Limiting(cfgs: seq<Config>, n: nat, name: string): set<nat>
    requires n <= |cfgs|
  {
    set g: nat | g < n && LimitsName(cfgs[g], name)
  }

  ghost predicate AllHonest(w: World, cfgs: seq<Config>, name: string) {
    forall g :: 0 <= g < |cfgs| && LimitsName(cfgs[g], name) ==>
      RateLimit.Honest(w.quotaOf(RateLimit.LimitersFor(cfgs[g].tokens, cfgs[g].limits)[name].rate))
  }

  /** What reloads can add up to. In every run, in any window, the charges let through for a name at
      all the generations that limit it are at most the sum of what each allows, and the vouchers
      asked for at most that times the largest ceiling the name ever had. Where every generation
      limits the name, these are all its charges in the window. */
  lemma ReloadsAreBudgeted(w: World, cfg: Config, actions: seq<Action>, s: State, name: string, from: nat, width: nat, most: nat)
    requires Reaches(w, cfg, actions, s) && AllHonest(w, s.cfgs, name)
    requires CeilingUpTo(s.cfgs, |s.cfgs|, name, most)
    ensures var gens, allowed := Limiting(s.cfgs, |s.cfgs|, name), Sums.ListTotal(Allowances(w, s.cfgs, name, width));
            && Sum(s.calls, ChargesAt(gens, name, from, width)) <= allowed
            && Sum(s.calls, RequestedAt(gens, name, from, width)) <= allowed * most
            && ((forall g :: 0 <= g < |s.cfgs| ==> LimitsName(s.cfgs[g], name)) ==>
                  Sum(s.calls, ChargesDuring(name, from, width)) <= allowed)
  {
    var n := |s.cfgs|;
    var gens := Limiting(s.cfgs, n, name);
    BudgetsHold(w, cfg, actions, s);
    LimitedChargesAreBudgeted(w, s, name, from, width);
    RequestedPerChargeAt(w, s, gens, name, from, width, most);
    Sums.Scale(ChargesOfFirst(s, n, name, from, width), Sums.ListTotal(Allowances(w, s.cfgs, name, width)), most);
    if forall g :: 0 <= g < n ==> LimitsName(s.cfgs[g], name) {
      ChargesAreAtLimits(s, gens, name, from, width);
    }
  }

  /** The charges in a window at those of the first `n` generations that limit the name. */
  ghost function ChargesOfFirst(s: State, n: nat, name: string, from: nat, width: nat): nat
    requires n <= |s.cfgs|
  {
    Sum(s.calls, ChargesAt(Limiting(s.cfgs, n, name), name, from, width))
  }

  /** The same, one after the other, from none to all of the generations. */
  ghost function ChargesGrowing(s: State, name: string, from: nat, width: nat): seq<nat> {
    seq(|s.cfgs| + 1, g requires 0 <= g <= |s.cfgs| => ChargesOfFirst(s, g, name, from, width))
  }

  lemma ChargesGrowAtMost(w: World, s: State, g: nat, name: string, from: nat, width: nat)
    requires Budgets(w, s) && AllHonest(w, s.cfgs, name) && g < |s.cfgs|
    ensures ChargesGrowing(s, name, from, width)[g + 1]
            <= ChargesGrowing(s, name, from, width)[g] + Allowances(w, s.cfgs, name, width)[g]
  {
    ChargesOfNext(w, s, g, name, from, width);
    assert ChargesGrowing(s, name, from, width)[g + 1] == ChargesOfFirst(s, g + 1, name, from, width);
    assert ChargesGrowing(s, name, from, width)[g] == ChargesOfFirst(s, g, name, from, width);
    assert Allowances(w, s.cfgs, name, width)[g] == AllowanceOf(w, s.cfgs[g], name, width);
  }

  lemma ChargesGrowFromNone(s: State, name: string, from: nat, width: nat)
    ensures var sums := ChargesGrowing(s, name, from, width);
            |sums| == |s.cfgs| + 1 && sums[0] == 0 && sums[|s.cfgs|] == ChargesOfFirst(s, |s.cfgs|, name, from, width)
  {
    ChargesOfNone(s, name, from, width);
  }

  lemma LimitedChargesAreBudgeted(w: World, s: State, name: string, from: nat, width: nat)
    requires Budgets(w, s) && AllHonest(w, s.cfgs, name)
    ensures ChargesOfFirst(s, |s.cfgs|, name, from, width) <= Sums.ListTotal(Allowances(w, s.cfgs, name, width))
  {
    var sums, xs := ChargesGrowing(s, name, from, width), Allowances(w, s.cfgs, name, width);
    ChargesGrowFromNone(s, name, from, width);
    forall g | 0 <= g < |xs| ensures sums[g + 1] <= sums[g] + xs[g] {
      ChargesGrowAtMost(w, s, g, name, from, width);
    }
    Sums.GrowthBound(sums, xs);
  }

  lemma ChargesOfNone(s: State, name: string, from: nat, width: nat)
    ensures ChargesOfFirst(s, 0, name, from, width) == 0
  {
    SumOfNothing(s.calls, ChargesAt(Limiting(s.cfgs, 0, name), name, from, width));
  }

  lemma ChargesOfNext(w: World, s: State, g: nat, name: string, from: nat, width: nat)
    requires Budgets(w, s) && AllHonest(w, s.cfgs, name) && g < |s.cfgs|
    ensures ChargesOfFirst(s, g + 1, name, from, width)
            <= ChargesOfFirst(s, g, name, from, width) + AllowanceOf(w, s.cfgs[g], name, width)
  {
    ChargesOneMore(s, g, name, from, width);
    if LimitsName(s.cfgs[g], name) { ChargesAreBudgeted(w, s, g, name, from, width); }
  }

  lemma ChargesOneMore(s: State, g: nat, name: string, from: nat, width: nat)
    requires g < |s.cfgs|
    ensures ChargesOfFirst(s, g + 1, name, from, width) == ChargesOfFirst(s, g, name, from, width)
              + (if LimitsName(s.cfgs[g], name) then Sum(s.calls, Charges(g, name, from, width)) else 0)
  {
    if LimitsName(s.cfgs[g], name) {
      assert Limiting(s.cfgs, g + 1, name) == Limiting(s.cfgs, g, name) + {g};
      ChargesAdd(s.calls, Limiting(s.cfgs, g, name), g, name, from, width);
    } else {
      assert Limiting(s.cfgs, g + 1, name) == Limiting(s.cfgs, g, name);
    }
  }

  lemma ChargesAdd(calls: map<Cid, CallState>, gens: set<nat>, g: nat, name: string, from: nat, width: nat)
    requires g !in gens
    ensures Sum(calls, ChargesAt(gens + {g}, name, from, width))
            == Sum(calls, ChargesAt(gens, name, from, width)) + Sum(calls, Charges(g, name, from, width))
  {
    var none := ChargesAt({}, name, from, width);
    SumOfNothing(calls, none);
    SumSplit(calls, ChargesAt(gens + {g}, name, from, width), ChargesAt(gens, name, from, width), Charges(g, name, from, width), none);
  }

  lemma RequestedPerChargeAt(w: World, s: State, gens: set<nat>, name: string, from: nat, width: nat, most: nat)
    requires Authenticity.Inv(w, s) && Trails(s) && CeilingUpTo(s.cfgs, |s.cfgs|, name, most)
    ensures Sum(s.calls, RequestedAt(gens, name, from, width)) <= Sum(s.calls, ChargesAt(gens, name, from, width)) * most
  {
    forall cid | cid in s.calls
      ensures Weight(RequestedAt(gens, name, from, width), s.calls[cid]) <= Weight(ChargesAt(gens, name, from, width), s.calls[cid]) * most
    {
      if s.calls[cid].who.caller.token.name == name { RequestWithinLargest(w, s, cid, most); }
      WeightAtMost(s.calls[cid], gens, name, from, width, most);
    }
    SumBound(s.calls, RequestedAt(gens, name, from, width), ChargesAt(gens, name, from, width), most);
  }

  lemma RequestWithinLargest(w: World, s: State, cid: Cid, most: nat)
    requires Authenticity.Inv(w, s) && Trails(s) && cid in s.calls
    requires CeilingUpTo(s.cfgs, |s.cfgs|, s.calls[cid].who.caller.token.name, most)
    ensures RequestedBy(s.calls[cid]) <= most
    ensures CreditOf(s.calls[cid]) > 0 ==> s.calls[cid].paid.Some? && CreditOf(s.calls[cid]) <= most
  {
    IdentityOfCall(w, s, cid);
    RequestWithinCeiling(w, s, cid, |s.cfgs|, most);
  }

  lemma WeightAtMost(c: CallState, gens: set<nat>, name: string, from: nat, width: nat, most: nat)
    requires c.who.caller.token.name == name ==> RequestedBy(c) <= most
    ensures Weight(RequestedAt(gens, name, from, width), c) <= Weight(ChargesAt(gens, name, from, width), c) * most
  {
  }

  lemma ChargesAreAtLimits(s: State, gens: set<nat>, name: string, from: nat, width: nat)
    requires Trails(s) && forall g: nat :: g < |s.cfgs| ==> g in gens
    ensures Sum(s.calls, ChargesDuring(name, from, width)) <= Sum(s.calls, ChargesAt(gens, name, from, width))
  {
    forall cid | cid in s.calls
      ensures Weight(ChargesDuring(name, from, width), s.calls[cid]) <= Weight(ChargesAt(gens, name, from, width), s.calls[cid]) * 1
    {
      assert TrailOk(|s.cfgs|, s.trace, cid, s.calls[cid]);
    }
    SumBound(s.calls, ChargesDuring(name, from, width), ChargesAt(gens, name, from, width), 1);
  }

  // ----- one token -----

  /** What a token itself is worth, in every run, at a generation whose names are unique: in any
      window the vouchers asked for by callers identified and charged there are at most the
      allowance times the token's ceiling, the smaller of its own and the configuration's. Callers
      still at work from an earlier generation carry that one's ceilings. */
  lemma TokenIsBudgeted(w: World, cfg: Config, actions: seq<Action>, s: State, g: nat, i: nat, from: nat, width: nat)
    requires Reaches(w, cfg, actions, s) && g < |s.cfgs|
    requires RateLimit.UniqueNames(s.cfgs[g].tokens) && i < |s.cfgs[g].tokens|
    requires s.cfgs[g].tokens[i].EffectiveRateLimit(s.cfgs[g].limits) != 0
    requires RateLimit.Honest(w.quotaOf(s.cfgs[g].tokens[i].EffectiveRateLimit(s.cfgs[g].limits)))
    ensures var token, limits := s.cfgs[g].tokens[i], s.cfgs[g].limits;
            var allowance := w.quotaOf(token.EffectiveRateLimit(limits)).allowance;
            && Sum(s.calls, Charges(g, token.name, from, width)) <= allowance(width)
            && Sum(s.calls, RequestedByOwn(g, token.name, from, width)) <= allowance(width) * token.EffectiveMaxVouchers(limits)
  {
    var token, limits := s.cfgs[g].tokens[i], s.cfgs[g].limits;
    var most := token.EffectiveMaxVouchers(limits);
    RateLimit.LimiterOfToken(s.cfgs[g].tokens, limits, i);
    BudgetsHold(w, cfg, actions, s);
    ChargesAreBudgeted(w, s, g, token.name, from, width);
    OwnRequestsPerCharge(w, s, g, i, from, width);
    Sums.Scale(Sum(s.calls, Charges(g, token.name, from, width)), w.quotaOf(token.EffectiveRateLimit(limits)).allowance(width), most);
  }

  lemma OwnRequestsPerCharge(w: World, s: State, g: nat, i: nat, from: nat, width: nat)
    requires Authenticity.Inv(w, s) && Trails(s) && g < |s.cfgs|
    requires RateLimit.UniqueNames(s.cfgs[g].tokens) && i < |s.cfgs[g].tokens|
    ensures var token := s.cfgs[g].tokens[i];
            Sum(s.calls, RequestedByOwn(g, token.name, from, width))
            <= Sum(s.calls, Charges(g, token.name, from, width)) * token.EffectiveMaxVouchers(s.cfgs[g].limits)
  {
    var token := s.cfgs[g].tokens[i];
    var most := token.EffectiveMaxVouchers(s.cfgs[g].limits);
    forall cid | cid in s.calls
      ensures Weight(RequestedByOwn(g, token.name, from, width), s.calls[cid]) <= Weight(Charges(g, token.name, from, width), s.calls[cid]) * most
    {
      if s.calls[cid].who.gen == g && s.calls[cid].who.caller.token.name == token.name {
        OwnRequestWithinCeiling(w, s, cid, i);
      }
      OwnWeight(s.calls[cid], g, token.name, from, width, most);
    }
    SumBound(s.calls, RequestedByOwn(g, token.name, from, width), Charges(g, token.name, from, width), most);
  }

  lemma OwnWeight(c: CallState, g: nat, name: string, from: nat, width: nat, most: nat)
    requires c.who.gen == g && c.who.caller.token.name == name ==> RequestedBy(c) <= most
    ensures Weight(RequestedByOwn(g, name, from, width), c) <= Weight(Charges(g, name, from, width), c) * most
  {
  }

  /** With unique names a caller of that name is that token. */
  lemma OwnRequestWithinCeiling(w: World, s: State, cid: Cid, i: nat)
    requires Authenticity.Inv(w, s) && Trails(s) && cid in s.calls && s.calls[cid].who.gen < |s.cfgs|
    requires var cfg := s.cfgs[s.calls[cid].who.gen];
             RateLimit.UniqueNames(cfg.tokens) && i < |cfg.tokens| && cfg.tokens[i].name == s.calls[cid].who.caller.token.name
    ensures var cfg := s.cfgs[s.calls[cid].who.gen];
            RequestedBy(s.calls[cid]) <= cfg.tokens[i].EffectiveMaxVouchers(cfg.limits)
  {
    var c := s.calls[cid];
    assert TrailOk(|s.cfgs|, s.trace, cid, c);
    IdentityOfCall(w, s, cid);
    assert c.who.idx == i;
    MessageWithinCeiling(c.ask, c.who.caller.ceilings);
  }

  /** Over any run, reloads included, a voucher counter never exceeds the charges its name was let
      through times the largest ceiling any token of that name ever had. */
  lemma CountersAreBudgeted(w: World, cfg: Config, actions: seq<Action>, s: State, name: string, most: nat)
    requires Reaches(w, cfg, actions, s)
    requires CeilingUpTo(s.cfgs, |s.cfgs|, name, most)
    ensures Sums.Entry(s.created, name) <= Sum(s.calls, AllCharges(name)) * most
  {
    BudgetsHold(w, cfg, actions, s);
    CreditsHold(w, cfg, actions, s);
    forall cid | cid in s.calls
      ensures Weight(Credited(Some(name)), s.calls[cid]) <= Weight(AllCharges(name), s.calls[cid]) * most
    {
      CreditPerCharge(w, s, cid, name, most);
    }
    SumBound(s.calls, Credited(Some(name)), AllCharges(name), most);
  }

  lemma CreditPerCharge(w: World, s: State, cid: Cid, name: string, most: nat)
    requires Authenticity.Inv(w, s) && Trails(s) && cid in s.calls
    requires CeilingUpTo(s.cfgs, |s.cfgs|, name, most)
    ensures Weight(Credited(Some(name)), s.calls[cid]) <= Weight(AllCharges(name), s.calls[cid]) * most
  {
    var c := s.calls[cid];
    if c.who.caller.token.name == name { RequestWithinLargest(w, s, cid, most); }
    CreditWeight(c, name, most);
  }

  lemma CreditWeight(c: CallState, name: string, most: nat)
    requires c.who.caller.token.name == name && CreditOf(c) > 0 ==> c.paid.Some? && CreditOf(c) <= most
    ensures Weight(Credited(Some(name)), c) <= Weight(AllCharges(name), c) * most
  {
  }

  // ----- who is ever refused for rate -----

  /** A call refused for rate was charged at a generation that limits its name. */
  ghost predicate RefusedOk(cfgs: seq<Config>, c: CallState) {
    c.outcome == Some(Bad(RateLimited)) ==>
      c.live < |cfgs| && c.who.caller.token.name in RateLimit.LimitersFor(cfgs[c.live].tokens, cfgs[c.live].limits)
  }

  ghost predicate RefusalsOk(cfgs: seq<Config>, calls: map<Cid, CallState>) {
    forall cid :: cid in calls ==> RefusedOk(cfgs, calls[cid])
  }

  lemma ChargeRefuses(w: World, s: State, cid: Cid)
    requires Budgets(w, s) && CallEnabled(s, cid, Charge)
    ensures RefusedOk(s.cfgs, ChargeStep(w, s, cid).calls[cid]) || s.calls[cid].outcome.Some?
  {
    assert SameLimiters(s.cfgs[s.calls[cid].live], s.rts[s.calls[cid].live].limiters);
  }

  lemma PrepareRefuses(cfgs: seq<Config>, c: CallState)
    requires RefusedOk(cfgs, c)
    ensures RefusedOk(cfgs, Prepared(c))
  {
    PreparedExactlyWhenAcceptable(c.ask, c.who.caller.ceilings);
  }

  lemma CallRefuses(w: World, s: State, cid: Cid, step: CallStep)
    requires Budgets(w, s) && Trails(s) && CallEnabled(s, cid, step) && RefusalsOk(s.cfgs, s.calls)
    ensures var t := CallNext(w, s, cid, step);
            cid in t.calls && RefusedOk(s.cfgs, t.calls[cid])
  {
    if cid in s.calls { assert TrailOk(|s.cfgs|, s.trace, cid, s.calls[cid]) && RefusedOk(s.cfgs, s.calls[cid]); }
    match step
    case StartCall =>
    case LoadSecond =>
    case Authorise =>
    case Charge => ChargeRefuses(w, s, cid);
    case PrepareCall => PrepareRefuses(s.cfgs, s.calls[cid]);
    case SendCall =>
    case ServeCall =>
    case Receive =>
    case Lose =>
    case Finish =>
  }

  lemma OnCallRefuses(w: World, s: State, cid: Cid, step: CallStep)
    requires Budgets(w, s) && Trails(s) && CallEnabled(s, cid, step) && RefusalsOk(s.cfgs, s.calls)
    ensures RefusalsOk(CallNext(w, s, cid, step).cfgs, CallNext(w, s, cid, step).calls)
  {
    CallStepFrame(w, s, cid, step);
    CallRefuses(w, s, cid, step);
  }

  lemma StepRefuses(w: World, s: State, a: Action)
    requires Budgets(w, s) && Trails(s) && Enabled(w, s, a) && RefusalsOk(s.cfgs, s.calls)
    ensures RefusalsOk(Next(w, s, a).cfgs, Next(w, s, a).calls)
  {
    match a
    case OnRequest(rid, step) => RequestStepFrame(w, s, rid, step);
    case OnCall(cid, step) => OnCallRefuses(w, s, cid, step);
    case Publish(cfg) => RefusalsLater(s.cfgs, s.cfgs + [cfg], s.calls);
    case _ =>
  }

  lemma RefusalsLater(cfgs: seq<Config>, more: seq<Config>, calls: map<Cid, CallState>)
    requires RefusalsOk(cfgs, calls) && cfgs <= more
    ensures RefusalsOk(more, calls)
  {
  }

  lemma {:induction false} RefusalsHold(w: World, cfg: Config, actions: seq<Action>, s: State)
    requires Reaches(w, cfg, actions, s)
    ensures RefusalsOk(s.cfgs, s.calls)
    decreases |actions|
  {
    if actions != [] {
      var before, a := LastAction(w, cfg, actions, s);
      BudgetsHold(w, cfg, actions[..|actions| - 1], before);
      RefusalsHold(w, cfg, actions[..|actions| - 1], before);
      StepRefuses(w, before, a);
    }
  }

  /** In every run, a call is refused for rate only where some token of its name is limited in the
      generation it was charged at: an unlimited token never is, and neither is a caller whose name a
      reload dropped or unlimited, although it was identified in a generation that limited it. */
  lemma UnlistedNamesPass(w: World, cfg: Config, actions: seq<Action>, s: State, cid: Cid)
    requires Reaches(w, cfg, actions, s) && cid in s.calls
    requires s.calls[cid].outcome == Some(Bad(RateLimited))
    ensures var c := s.calls[cid];
            && c.live < |s.cfgs|
            && exists i :: 0 <= i < |s.cfgs[c.live].tokens| && s.cfgs[c.live].tokens[i].name == c.who.caller.token.name
                 && RateLimit.IsLimited(s.cfgs[c.live].tokens[i], s.cfgs[c.live].limits)
  {
    RefusalsHold(w, cfg, actions, s);
    var c := s.calls[cid];
    assert RefusedOk(s.cfgs, c);
    RateLimit.NameIsLimitedExactly(s.cfgs[c.live].tokens, s.cfgs[c.live].limits, c.who.caller.token.name);
  }
}
