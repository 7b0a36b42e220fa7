/** Sums over the calls of a run: charges, vouchers asked for, made, credited, lost. */
module Ledger {
  import opened Wrappers
  import opened Access
  import opened Lifecycle
  import opened Config
  import Authenticity
  import M = Metrics
  import Sums

  /** What is summed. `whose` restricts a sum to the calls of one token name, `console` to what one
      console made, `gens` to charges at these generations; `RequestedByOwn` leaves out callers
      identified in an earlier generation. A window is one of charging times. */
  datatype Measure =
    | Charges(gen: nat, name: string, from: nat, width: nat)
    | Requested(gen: nat, name: string, from: nat, width: nat)
    | RequestedByOwn(gen: nat, name: string, from: nat, width: nat)
    | ChargesAt(gens: set<nat>, name: string, from: nat, width: nat)
    | RequestedAt(gens: set<nat>, name: string, from: nat, width: nat)
    | ChargesDuring(name: string, from: nat, width: nat)
    | AllCharges(name: string)
    | Credited(whose: Option<string>)
    | Made(whose: Option<string>)
    | MadeOn(console: nat)
    | Lost(whose: Option<string>)
    | Pending(whose: Option<string>)

  predicate IsOf(whose: Option<string>, c: CallState) { whose.None? || whose.value == c.who.caller.token.name }

  /** The call was charged at generation `gen`, under `name`, within the window. */
  predicate ChargedIn(c: CallState, gen: nat, name: string, from: nat, width: nat) {
    && c.paid.Some? && c.live == gen && c.who.caller.token.name == name
    && from <= c.paid.value.time <= from + width
  }

  /** How many vouchers the call's message asks the console for. */
  function RequestedBy(c: CallState): nat {
    if c.sent.Some? && c.sent.value.msg.count.Some? then c.sent.value.msg.count.value else 0
  }

  function MadeFor(c: CallState): nat {
    if c.served.Some? then MadeBy(c.served.value.reply) else 0
  }

  /** Nobody heard the answer. */
  predicate IsLost(c: CallState) { c.outcome == Some(Bad(UpstreamUnreachable)) }

  /** The answer is still on its way to the counters. */
  predicate IsPending(c: CallState) { c.outcome.None? || (c.outcome == Some(Good) && !c.stage.Recorded?) }

  function Weight(m: Measure, c: CallState): nat {
    match m
    case Charges(gen, name, from, width) => if ChargedIn(c, gen, name, from, width) then 1 else 0
    case Requested(gen, name, from, width) => if ChargedIn(c, gen, name, from, width) then RequestedBy(c) else 0
    case RequestedByOwn(gen, name, from, width) =>
      if ChargedIn(c, gen, name, from, width) && c.who.gen == gen then RequestedBy(c) else 0
    case ChargesAt(gens, name, from, width) => if c.live in gens && ChargedIn(c, c.live, name, from, width) then 1 else 0
    case RequestedAt(gens, name, from, width) => if c.live in gens && ChargedIn(c, c.live, name, from, width) then RequestedBy(c) else 0
    case ChargesDuring(name, from, width) => if ChargedIn(c, c.live, name, from, width) then 1 else 0
    case AllCharges(name) => if c.paid.Some? && c.who.caller.token.name == name then 1 else 0
    case Credited(whose) => if IsOf(whose, c) then CreditOf(c) else 0
    case Made(whose) => if IsOf(whose, c) then MadeFor(c) else 0
    case MadeOn(console) => if c.served.Some? && c.served.value.console == console then MadeFor(c) else 0
    case Lost(whose) => if IsOf(whose, c) && IsLost(c) then MadeFor(c) else 0
    case Pending(whose) => if IsOf(whose, c) && IsPending(c) then MadeFor(c) else 0
  }

  function Weights(calls: map<Cid, CallState>, m: Measure): map<Cid, nat> {
    map cid | cid in calls :: Weight(m, calls[cid])
  }

  ghost function Sum(calls: map<Cid, CallState>, m: Measure): nat {
    Sums.Total(Weights(calls, m))
  }

  function WeightAt(calls: map<Cid, CallState>, m: Measure, cid: Cid): nat {
    if cid in calls then Weight(m, calls[cid]) else 0
  }

  /** Changing one call changes a sum by as much. */
  lemma SumUpdate(calls: map<Cid, CallState>, m: Measure, cid: Cid, c: CallState)
    ensures Sum(calls[cid := c], m) == Sum(calls, m) + Weight(m, c) - WeightAt(calls, m, cid)
  {
    Sums.TotalUpdate(Weights(calls, m), cid, Weight(m, c));
    assert Weights(calls[cid := c], m) == Weights(calls, m)[cid := Weight(m, c)];
  }

  /** Where each call weighs at most `n` times as much, so do they together. */
  lemma SumBound(calls: map<Cid, CallState>, a: Measure, b: Measure, n: nat)
    requires forall cid :: cid in calls ==> Weight(a, calls[cid]) <= Weight(b, calls[cid]) * n
    ensures Sum(calls, a) <= Sum(calls, b) * n
  {
    var wa, wb := Weights(calls, a), Weights(calls, b);
    forall cid | cid in wa ensures wa[cid] <= wb[cid] * n {
      assert wa[cid] == Weight(a, calls[cid]) && wb[cid] == Weight(b, calls[cid]);
    }
    Sums.TotalBound(wa, wb, n);
  }

  /** Where each call's weight is split in three, so is the sum. */
  lemma SumSplit(calls: map<Cid, CallState>, m: Measure, a: Measure, b: Measure, c: Measure)
    requires forall cid :: cid in calls ==>
               Weight(m, calls[cid]) == Weight(a, calls[cid]) + Weight(b, calls[cid]) + Weight(c, calls[cid])
    ensures Sum(calls, m) == Sum(calls, a) + Sum(calls, b) + Sum(calls, c)
  {
    var wm, wa, wb, wc := Weights(calls, m), Weights(calls, a), Weights(calls, b), Weights(calls, c);
    forall cid | cid in wm ensures wm[cid] == wa[cid] + wb[cid] + wc[cid] {
      assert cid in calls;
    }
    Sums.TotalSplit(wm, wa, wb, wc);
  }

  lemma SumOfNothing(calls: map<Cid, CallState>, m: Measure)
    requires forall cid :: cid in calls ==> Weight(m, calls[cid]) == 0
    ensures Sum(calls, m) == 0
  {
    SumBound(calls, m, m, 0);
  }

  // ----- the voucher counters are sums of credits -----

  ghost predicate CreditsCounted(s: State) {
    && (forall name :: Sums.Entry(s.created, name) == Sum(s.calls, Credited(Some(name))))
    && Sums.Total(s.created) == Sum(s.calls, Credited(None))
  }

  /** Only finishing a call changes its credit. */
  lemma CreditKept(w: World, s: State, cid: Cid, step: CallStep)
    requires CallEnabled(s, cid, step) && !step.Finish?
    ensures var t := CallNext(w, s, cid, step);
            && cid in t.calls
            && CreditOf(t.calls[cid]) == (if cid in s.calls then CreditOf(s.calls[cid]) else 0)
            && (cid in s.calls ==> t.calls[cid].who == s.calls[cid].who)
  {
    match step
    case StartCall =>
    case LoadSecond =>
    case Authorise =>
    case Charge =>
    case PrepareCall =>
    case SendCall =>
    case ServeCall =>
    case Receive =>
    case Lose =>
  }

  /** Finishing a call adds its credit to its own token's counter. */
  lemma FinishCredits(s: State, cid: Cid)
    requires CallEnabled(s, cid, Finish)
    ensures var t := FinishStep(s, cid);
            var credit := CreditOf(t.calls[cid]);
            && CreditOf(s.calls[cid]) == 0
            && t.calls[cid].who == s.calls[cid].who
            && ((t.created == s.created && credit == 0)
                || t.created == M.AddCreated(s.created, s.calls[cid].who.caller.token.name, credit))
  {
  }

  lemma CreatedAfter(created: M.Created, name: string, n: nat, other: string)
    ensures Sums.Entry(M.AddCreated(created, name, n), other) == Sums.Entry(created, other) + (if other == name then n else 0)
    ensures Sums.Total(M.AddCreated(created, name, n)) == Sums.Total(created) + n
  {
    Sums.TotalUpdate(created, name, Sums.Entry(created, name) + n);
    assert M.AddCreated(created, name, n) == created[name := Sums.Entry(created, name) + n];
  }

  lemma FinishCounts(s: State, cid: Cid)
    requires CreditsCounted(s) && CallEnabled(s, cid, Finish)
    ensures CreditsCounted(FinishStep(s, cid))
  {
    var t := FinishStep(s, cid);
    var d := t.calls[cid];
    FinishCredits(s, cid);
    assert t.calls == s.calls[cid := d];
    CreditsAdd(s.calls, s.created, t.created, cid, d, CreditOf(d));
  }

  lemma CreditAdds(calls: map<Cid, CallState>, cid: Cid, d: CallState, credit: nat, whose: Option<string>)
    requires cid in calls && CreditOf(calls[cid]) == 0 && CreditOf(d) == credit && d.who == calls[cid].who
    ensures Sum(calls[cid := d], Credited(whose)) == Sum(calls, Credited(whose)) + (if IsOf(whose, d) then credit else 0)
  {
    SumUpdate(calls, Credited(whose), cid, d);
  }

  lemma CreditsAdd(calls: map<Cid, CallState>, created: M.Created, after: M.Created, cid: Cid, d: CallState, credit: nat)
    requires cid in calls && CreditOf(calls[cid]) == 0 && CreditOf(d) == credit && d.who == calls[cid].who
    requires forall name :: Sums.Entry(created, name) == Sum(calls, Credited(Some(name)))
    requires Sums.Total(created) == Sum(calls, Credited(None))
    requires (after == created && credit == 0) || after == M.AddCreated(created, d.who.caller.token.name, credit)
    ensures forall name :: Sums.Entry(after, name) == Sum(calls[cid := d], Credited(Some(name)))
    ensures Sums.Total(after) == Sum(calls[cid := d], Credited(None))
  {
    var mine := d.who.caller.token.name;
    forall name ensures Sums.Entry(after, name) == Sum(calls[cid := d], Credited(Some(name))) {
      CreditAdds(calls, cid, d, credit, Some(name));
      CreatedAfter(created, mine, credit, name);
    }
    CreditAdds(calls, cid, d, credit, None);
    CreatedAfter(created, mine, credit, mine);
  }

  lemma StepCounts(w: World, s: State, a: Action)
    requires CreditsCounted(s) && Enabled(w, s, a)
    ensures CreditsCounted(Next(w, s, a))
  {
    match a
    case OnRequest(rid, step) => RequestStepFrame(w, s, rid, step);
    case OnCall(cid, step) =>
      if step.Finish? {
        FinishCounts(s, cid);
      } else {
        QuietCounts(w, s, cid, step);
      }
    case _ =>
  }

  lemma QuietCounts(w: World, s: State, cid: Cid, step: CallStep)
    requires CreditsCounted(s) && CallEnabled(s, cid, step) && !step.Finish?
    ensures CreditsCounted(CallNext(w, s, cid, step))
  {
    var t := CallNext(w, s, cid, step);
    CallStepFrame(w, s, cid, step);
    CreditKept(w, s, cid, step);
    forall whose ensures Sum(t.calls, Credited(whose)) == Sum(s.calls, Credited(whose)) {
      SumUpdate(s.calls, Credited(whose), cid, t.calls[cid]);
      SameCredit(s.calls, whose, cid, t.calls[cid]);
    }
  }

  lemma SameCredit(calls: map<Cid, CallState>, whose: Option<string>, cid: Cid, d: CallState)
    requires CreditOf(d) == (if cid in calls then CreditOf(calls[cid]) else 0)
    requires cid in calls ==> d.who == calls[cid].who
    ensures Weight(Credited(whose), d) == WeightAt(calls, Credited(whose), cid)
  {
  }

  lemma {:induction false} CreditsHold(w: World, cfg: Config, actions: seq<Action>, s: State)
    requires Reaches(w, cfg, actions, s)
    ensures CreditsCounted(s)
    decreases |actions|
  {
    if actions == [] {
      forall whose ensures Sum(s.calls, Credited(whose)) == 0 {
        SumOfNothing(s.calls, Credited(whose));
      }
    } else {
      var before, a := Authenticity.LastAction(w, cfg, actions, s);
      CreditsHold(w, cfg, actions[..|actions| - 1], before);
      StepCounts(w, before, a);
    }
  }
}
