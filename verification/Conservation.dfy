/** End to end: no voucher appears or disappears between the callers, the counters and the console. */
module Conservation {
  import opened Wrappers
  import opened Config
  import opened Policy
  import opened Access
  import opened Lifecycle
  import opened Authenticity
  import opened Sends
  import opened Ledger
  import Console
  import Sums

  // ----- what the console answers to the proxy -----

  /** The answer to what the proxy sends: never out of range, never an unknown route, vouchers only
      for a create, and then as many as the request counted. */
  ghost predicate AnswerFits(ask: Ask, reply: Console.Reply) {
    && !reply.OutOfRange? && !reply.NoRoute?
    && (reply.Made? ==> ask.op.CreateVouchers? && RequestOf(ask.input).Some? && |reply.vouchers| == RequestOf(ask.input).value.count)
    && (reply.Deleted? ==> ask.op.DeleteVoucher?)
    && (ask.op.CreateVouchers? && Console.IsSuccess(reply) ==> reply.Made?)
  }

  /** The console served a message the proxy prepared: its books still balance. */
  lemma ServeKeepsBalance(store: Console.Store, keyOk: bool, ask: Ask, ceilings: Ceilings, made: nat, deleted: nat)
    requires Prepare(ask, ceilings).Ok? && Console.Balanced(store, made, deleted)
    ensures var msg := Prepare(ask, ceilings).value;
            var (reply, after) := Console.Serve(store, keyOk, msg.call, msg.body);
            && AnswerFits(ask, reply)
            && Console.Balanced(after, made + MadeBy(reply), deleted + DeletedBy(reply))
  {
    PreparedExactlyWhenAcceptable(ask, ceilings);
    match ask.op
    case ListSites =>
    case ListVouchers(_) =>
    case CreateVouchers(site) =>
      var r := RequestOf(ask.input).value;
      Console.ProxyBodyIsRead(r);
      Console.CreateKeepsBalance(store, site, Console.ReadOrder(ToUpstreamBody(r)), made, deleted);
    case DeleteVoucher(site, voucher) =>
      Console.DeleteKeepsBalance(store, site, voucher, made, deleted);
  }

  // ----- how calls end -----

  /** A call that ended badly for any reason but silence made no vouchers. */
  ghost predicate EndingOk(c: CallState) {
    && (c.served.Some? ==> AnswerFits(c.ask, c.served.value.reply))
    && (c.outcome.Some? && c.outcome.value.Bad? && !IsLost(c) ==>
          c.sent.None? || (c.served.Some? && !Console.IsSuccess(c.served.value.reply)))
  }

  lemma PreparedEnds(c: CallState)
    requires EndingOk(c) && c.stage.Paid? && c.sent.None? && c.outcome.None?
    ensures EndingOk(Prepared(c))
  {
  }

  lemma QuietEnding(w: World, s: State, cid: Cid, step: CallStep)
    requires CallEnabled(s, cid, step) && !step.StartCall? && !step.ServeCall? && !step.Finish?
    requires EndingOk(s.calls[cid]) && TrailOk(|s.cfgs|, s.trace, cid, s.calls[cid])
    ensures EndingOk(CallNext(w, s, cid, step).calls[cid])
  {
    SentIsLate(|s.cfgs|, s.trace, cid, s.calls[cid]);
    match step
    case LoadSecond =>
    case Authorise =>
    case Charge =>
    case PrepareCall => PreparedEnds(s.calls[cid]);
    case SendCall =>
    case Receive =>
    case Lose =>
  }

  predicate IsBeforeSending(stage: Stage) { BeforePayment(stage) || stage.Paid? || stage.Ready? }

  lemma SentIsLate(generations: nat, trace: seq<Event>, cid: Cid, c: CallState)
    requires TrailOk(generations, trace, cid, c)
    ensures IsBeforeSending(c.stage) ==> c.sent.None?
  {
  }

  lemma FinishEnding(s: State, cid: Cid)
    requires CallEnabled(s, cid, Finish) && EndingOk(s.calls[cid])
    ensures EndingOk(FinishStep(s, cid).calls[cid])
  {
  }

  lemma ServeEnding(w: World, s: State, cid: Cid, made: nat, deleted: nat)
    requires CallEnabled(s, cid, ServeCall) && EndingOk(s.calls[cid])
    requires TrailOk(|s.cfgs|, s.trace, cid, s.calls[cid])
    requires Console.Balanced(s.consoles.At(ConsoleOf(w, s, cid)), made, deleted)
    ensures var t, console := ServeStep(w, s, cid), ConsoleOf(w, s, cid);
            var c, reply := t.calls[cid], t.calls[cid].served.value.reply;
            && EndingOk(c) && c.served.value.console == console && c.who == s.calls[cid].who
            && Console.Balanced(t.consoles.At(console), made + MadeBy(reply), deleted + DeletedBy(reply))
            && t.consoles == s.consoles.With(console, t.consoles.At(console), reply)
            && MadeFor(s.calls[cid]) == 0 && MadeFor(c) == MadeBy(reply)
  {
    var c := s.calls[cid];
    ServeKeepsBalance(s.consoles.At(ConsoleOf(w, s, cid)), w.keyOk(s.cfgs[c.live].controller), c.ask, c.who.caller.ceilings, made, deleted);
  }

  function ConsoleOf(w: World, s: State, cid: Cid): nat
    requires cid in s.calls && s.calls[cid].live < |s.cfgs|
  {
    w.consoleOf(s.cfgs[s.calls[cid].live].controller)
  }

  // ----- the books over a run -----

  /** Each console's books balance with what it made for the calls it served. */
  ghost predicate ConsolesBalance(consoles: Consoles, calls: map<Cid, CallState>) {
    forall console :: Console.Balanced(consoles.At(console), Sum(calls, MadeOn(console)), consoles.Deleted(console))
  }

  ghost function StoredOn(consoles: Consoles): map<nat, nat> {
    map console | console in consoles.stores :: Console.Stored(consoles.stores[console].sites)
  }

  /** What all consoles store, and what was ever deleted from them. */
  ghost function StoredOrDeleted(consoles: Consoles): nat {
    Sums.Total(StoredOn(consoles)) + Sums.Total(consoles.deleted)
  }

  ghost predicate EndingsOk(calls: map<Cid, CallState>) {
    forall cid :: cid in calls ==> EndingOk(calls[cid])
  }

  ghost predicate BooksOf(consoles: Consoles, calls: map<Cid, CallState>) {
    && EndingsOk(calls)
    && ConsolesBalance(consoles, calls)
    && StoredOrDeleted(consoles) == Sum(calls, Made(None))
  }

  ghost predicate Books(s: State) { BooksOf(s.consoles, s.calls) }

  /** A console that serves one request changes the totals by as much as its own books. */
  lemma TotalsAfter(consoles: Consoles, console: nat, store: Console.Store, reply: Console.Reply, made: nat, deleted: nat)
    requires Console.Stored(consoles.At(console).sites) + deleted == made && consoles.Deleted(console) == deleted
    requires Console.Stored(store.sites) + deleted + DeletedBy(reply) == made + MadeBy(reply)
    ensures StoredOrDeleted(consoles.With(console, store, reply)) == StoredOrDeleted(consoles) + MadeBy(reply)
  {
    StoredAfter(consoles, console, store, reply);
    Sums.TotalUpdate(StoredOn(consoles), console, Console.Stored(store.sites));
    Sums.TotalUpdate(consoles.deleted, console, deleted + DeletedBy(reply));
    EntryOfConsole(consoles, console);
  }

  lemma StoredAfter(consoles: Consoles, console: nat, store: Console.Store, reply: Console.Reply)
    ensures StoredOn(consoles.With(console, store, reply)) == StoredOn(consoles)[console := Console.Stored(store.sites)]
  {
  }

  lemma EntryOfConsole(consoles: Consoles, console: nat)
    ensures Sums.Entry(StoredOn(consoles), console) == Console.Stored(consoles.At(console).sites)
  {
    EmptyStoresNothing();
  }

  lemma EmptyStoresNothing()
    ensures Console.Stored(Console.EMPTY.sites) == 0 && Console.Balanced(Console.EMPTY, 0, 0)
  {
    assert Console.Sizes(map[]) == map[];
  }

  /** Serving aside, a step leaves what was made for its call alone. */
  lemma MadeKept(w: World, s: State, cid: Cid, step: CallStep)
    requires CallEnabled(s, cid, step) && !step.ServeCall?
    ensures var t := CallNext(w, s, cid, step);
            && cid in t.calls
            && (cid in s.calls ==> t.calls[cid].served == s.calls[cid].served)
            && (cid !in s.calls ==> t.calls[cid].served.None?)
  {
    if step.Charge? || step.SendCall? || step.StartCall? {
    } else {
      RecordsKept(w, s, cid, step);
    }
  }

  /** Serving aside, a call's own step keeps its ending. */
  lemma EndingKept(w: World, s: State, cid: Cid, step: CallStep)
    requires Books(s) && Trails(s) && CallEnabled(s, cid, step) && !step.ServeCall?
    ensures var t := CallNext(w, s, cid, step);
            cid in t.calls && EndingOk(t.calls[cid])
  {
    if !step.StartCall? {
      assert TrailOk(|s.cfgs|, s.trace, cid, s.calls[cid]) && EndingOk(s.calls[cid]);
      if step.Finish? { FinishEnding(s, cid); } else { QuietEnding(w, s, cid, step); }
    }
  }

  /** Where a call's answer is unchanged, so is every sum of what was made. */
  lemma SumsKept(calls: map<Cid, CallState>, cid: Cid, d: CallState)
    requires if cid in calls then d.served == calls[cid].served else d.served.None?
    ensures forall console :: Sum(calls[cid := d], MadeOn(console)) == Sum(calls, MadeOn(console))
    ensures Sum(calls[cid := d], Made(None)) == Sum(calls, Made(None))
  {
    forall console ensures Sum(calls[cid := d], MadeOn(console)) == Sum(calls, MadeOn(console)) {
      SumUpdate(calls, MadeOn(console), cid, d);
    }
    SumUpdate(calls, Made(None), cid, d);
  }

  /** Where a call is answered, the sums of the console that answered grow by what it made. */
  lemma SumsServed(calls: map<Cid, CallState>, cid: Cid, d: CallState, console: nat)
    requires cid in calls && calls[cid].served.None? && d.served.Some?
    ensures Sum(calls[cid := d], MadeOn(console)) ==
              Sum(calls, MadeOn(console)) + (if d.served.value.console == console then MadeBy(d.served.value.reply) else 0)
    ensures Sum(calls[cid := d], Made(None)) == Sum(calls, Made(None)) + MadeBy(d.served.value.reply)
  {
    SumUpdate(calls, MadeOn(console), cid, d);
    SumUpdate(calls, Made(None), cid, d);
  }

  lemma ServeBooks(w: World, s: State, cid: Cid)
    requires Books(s) && Trails(s) && CallEnabled(s, cid, ServeCall)
    ensures Books(ServeStep(w, s, cid))
  {
    var t, console := ServeStep(w, s, cid), ConsoleOf(w, s, cid);
    assert TrailOk(|s.cfgs|, s.trace, cid, s.calls[cid]) && EndingOk(s.calls[cid]);
    assert Console.Balanced(s.consoles.At(console), Sum(s.calls, MadeOn(console)), s.consoles.Deleted(console));
    ServeEnding(w, s, cid, Sum(s.calls, MadeOn(console)), s.consoles.Deleted(console));
    assert t.calls == s.calls[cid := t.calls[cid]];
    AnsweredBooks(s.consoles, s.calls, cid, t.calls[cid], t.consoles.At(console));
  }

  lemma AnsweredBooks(consoles: Consoles, calls: map<Cid, CallState>, cid: Cid, d: CallState, store: Console.Store)
    requires BooksOf(consoles, calls)
    requires cid in calls && calls[cid].served.None? && d.served.Some? && EndingOk(d)
    requires var Service(_, console, reply) := d.served.value;
             Console.Balanced(store, Sum(calls, MadeOn(console)) + MadeBy(reply), consoles.Deleted(console) + DeletedBy(reply))
    ensures BooksOf(consoles.With(d.served.value.console, store, d.served.value.reply), calls[cid := d])
  {
    var Service(_, console, reply) := d.served.value;
    var made, deleted := Sum(calls, MadeOn(console)), consoles.Deleted(console);
    assert Console.Stored(consoles.At(console).sites) + deleted == made by {
      OneBalance(consoles, calls, console);
      BalanceAddsUp(consoles.At(console), made, deleted);
    }
    BalanceAddsUp(store, made + MadeBy(reply), deleted + DeletedBy(reply));
    AnsweredTotals(consoles, calls, cid, d, store, made, deleted);
    OthersBalance(consoles, calls, cid, d, console, store, reply);
    EndingsKept(calls, cid, d);
  }

  lemma OneBalance(consoles: Consoles, calls: map<Cid, CallState>, console: nat)
    requires ConsolesBalance(consoles, calls)
    ensures Console.Balanced(consoles.At(console), Sum(calls, MadeOn(console)), consoles.Deleted(console))
  {
  }

  lemma EndingsKept(calls: map<Cid, CallState>, cid: Cid, d: CallState)
    requires EndingOk(d) && EndingsOk(calls)
    ensures EndingsOk(calls[cid := d])
  {
  }

  lemma AnsweredTotals(consoles: Consoles, calls: map<Cid, CallState>, cid: Cid, d: CallState, store: Console.Store, made: nat, deleted: nat)
    requires StoredOrDeleted(consoles) == Sum(calls, Made(None))
    requires cid in calls && calls[cid].served.None? && d.served.Some?
    requires var Service(_, console, reply) := d.served.value;
             && Console.Stored(consoles.At(console).sites) + deleted == made && consoles.Deleted(console) == deleted
             && Console.Stored(store.sites) + deleted + DeletedBy(reply) == made + MadeBy(reply)
    ensures StoredOrDeleted(consoles.With(d.served.value.console, store, d.served.value.reply)) == Sum(calls[cid := d], Made(None))
  {
    var Service(_, console, reply) := d.served.value;
    TotalsAfter(consoles, console, store, reply, made, deleted);
    SumsServed(calls, cid, d, console);
  }

  lemma BalanceAddsUp(store: Console.Store, made: nat, deleted: nat)
    requires Console.Balanced(store, made, deleted)
    ensures Console.Stored(store.sites) + deleted == made
  {
  }

  /** The consoles that did not serve the request balance as before, and so does the one that did. */
  lemma OthersBalance(consoles: Consoles, calls: map<Cid, CallState>, cid: Cid, d: CallState,
                      console: nat, store: Console.Store, reply: Console.Reply)
    requires ConsolesBalance(consoles, calls)
    requires cid in calls && calls[cid].served.None? && d.served.Some?
    requires d.served.value.console == console && d.served.value.reply == reply
    requires Console.Balanced(store, Sum(calls, MadeOn(console)) + MadeBy(reply), consoles.Deleted(console) + DeletedBy(reply))
    ensures ConsolesBalance(consoles.With(console, store, reply), calls[cid := d])
  {
    var after := consoles.With(console, store, reply);
    forall other ensures Console.Balanced(after.At(other), Sum(calls[cid := d], MadeOn(other)), after.Deleted(other)) {
      SumsServed(calls, cid, d, other);
      if other == console {
        assert after.At(other) == store && after.Deleted(other) == consoles.Deleted(console) + DeletedBy(reply);
      } else {
        assert after.At(other) == consoles.At(other) && after.Deleted(other) == consoles.Deleted(other);
      }
    }
  }

  lemma OnCallBooks(w: World, s: State, cid: Cid, step: CallStep)
    requires Books(s) && Trails(s) && CallEnabled(s, cid, step)
    ensures Books(CallNext(w, s, cid, step))
  {
    if step.ServeCall? {
      ServeBooks(w, s, cid);
    } else {
      var t := CallNext(w, s, cid, step);
      CallStepFrame(w, s, cid, step);
      MadeKept(w, s, cid, step);
      EndingKept(w, s, cid, step);
      SumsKept(s.calls, cid, t.calls[cid]);
    }
  }

  /** Steps of requests, reloads and the clock touch no console and no call. */
  lemma QuietStep(w: World, s: State, a: Action)
    requires Enabled(w, s, a) && !a.OnCall?
    ensures Next(w, s, a).calls == s.calls && Next(w, s, a).consoles == s.consoles
  {
    if a.OnRequest? { RequestStepFrame(w, s, a.rid, a.request); }
  }

  lemma StepBooks(w: World, s: State, a: Action)
    requires Books(s) && Trails(s) && Enabled(w, s, a)
    ensures Books(Next(w, s, a))
  {
    if a.OnCall? {
      OnCallBooks(w, s, a.cid, a.call);
    } else {
      QuietStep(w, s, a);
    }
  }

  lemma {:induction false} BooksHold(w: World, cfg: Config, actions: seq<Action>, s: State)
    requires Reaches(w, cfg, actions, s)
    ensures Books(s) && Trails(s)
    decreases |actions|
  {
    TrailsHold(w, cfg, actions, s);
    if actions == [] {
      forall m ensures Sum(s.calls, m) == 0 { SumOfNothing(s.calls, m); }
      EmptyStoresNothing();
      assert StoredOn(s.consoles) == map[];
    } else {
      var before, a := LastAction(w, cfg, actions, s);
      BooksHold(w, cfg, actions[..|actions| - 1], before);
      StepBooks(w, before, a);
    }
  }

  // ----- main results -----

  /** What the console made for a call has been counted, was lost, or is on its way. */
  lemma MadeIsAccountedFor(generations: nat, trace: seq<Event>, cid: Cid, c: CallState, whose: Option<string>)
    requires TrailOk(generations, trace, cid, c) && EndingOk(c)
    ensures Weight(Made(whose), c) == Weight(Credited(whose), c) + Weight(Lost(whose), c) + Weight(Pending(whose), c)
  {
  }

  /** In every run with the proxy as the consoles' only client, reloads that change the console
      included: no console's own range check ever fires; each console's ids are distinct across sites
      and below its counter; what it stores is what it made less what was deleted; and for every
      token, and for all of them together, what the consoles made is what the counter shows, plus the
      creates whose reply was lost, plus those still on their way. */
  lemma VouchersAreConserved(w: World, cfg: Config, actions: seq<Action>, s: State)
    requires Reaches(w, cfg, actions, s)
    ensures forall cid :: cid in s.calls && s.calls[cid].served.Some? ==> AnswerFits(s.calls[cid].ask, s.calls[cid].served.value.reply)
    ensures forall console :: var store := s.consoles.At(console);
              && Console.AllIssued(store) && Console.AllDistinct(store.sites)
              && Console.Stored(store.sites) + s.consoles.Deleted(console) == Sum(s.calls, MadeOn(console)) == store.next - 1
    ensures StoredOrDeleted(s.consoles) == Sum(s.calls, Made(None))
    ensures Sum(s.calls, Made(None)) == Sums.Total(s.created) + Sum(s.calls, Lost(None)) + Sum(s.calls, Pending(None))
    ensures forall name :: Sum(s.calls, Made(Some(name))) ==
              Sums.Entry(s.created, name) + Sum(s.calls, Lost(Some(name))) + Sum(s.calls, Pending(Some(name)))
  {
    BooksHold(w, cfg, actions, s);
    CreditsHold(w, cfg, actions, s);
    forall cid | cid in s.calls && s.calls[cid].served.Some? ensures AnswerFits(s.calls[cid].ask, s.calls[cid].served.value.reply) {
      assert EndingOk(s.calls[cid]);
    }
    assert ConsolesBalance(s.consoles, s.calls);
    MadeSplits(s, None);
    forall name ensures Sum(s.calls, Made(Some(name))) ==
                          Sums.Entry(s.created, name) + Sum(s.calls, Lost(Some(name))) + Sum(s.calls, Pending(Some(name))) {
      MadeSplits(s, Some(name));
    }
  }

  lemma MadeSplits(s: State, whose: Option<string>)
    requires Books(s) && Trails(s)
    ensures Sum(s.calls, Made(whose)) == Sum(s.calls, Credited(whose)) + Sum(s.calls, Lost(whose)) + Sum(s.calls, Pending(whose))
  {
    forall cid | cid in s.calls
      ensures Weight(Made(whose), s.calls[cid]) ==
                Weight(Credited(whose), s.calls[cid]) + Weight(Lost(whose), s.calls[cid]) + Weight(Pending(whose), s.calls[cid])
    {
      assert TrailOk(|s.cfgs|, s.trace, cid, s.calls[cid]) && EndingOk(s.calls[cid]);
      MadeIsAccountedFor(|s.cfgs|, s.trace, cid, s.calls[cid], whose);
    }
    SumSplit(s.calls, Made(whose), Credited(whose), Lost(whose), Pending(whose));
  }

  lemma RecordedIsNotPending(generations: nat, trace: seq<Event>, cid: Cid, c: CallState)
    requires TrailOk(generations, trace, cid, c) && c.stage.Recorded?
    ensures Weight(Pending(None), c) == 0
  {
  }

  /** Once every call has been recorded, the vouchers in the consoles and those deleted from them are
      exactly the ones counted and the ones whose reply was lost. */
  lemma WhenQuietTheCountersTell(w: World, cfg: Config, actions: seq<Action>, s: State)
    requires Reaches(w, cfg, actions, s)
    requires forall cid :: cid in s.calls ==> s.calls[cid].stage.Recorded?
    ensures StoredOrDeleted(s.consoles) == Sums.Total(s.created) + Sum(s.calls, Lost(None))
  {
    VouchersAreConserved(w, cfg, actions, s);
    BooksHold(w, cfg, actions, s);
    forall cid | cid in s.calls ensures Weight(Pending(None), s.calls[cid]) == 0 {
      assert TrailOk(|s.cfgs|, s.trace, cid, s.calls[cid]);
      RecordedIsNotPending(|s.cfgs|, s.trace, cid, s.calls[cid]);
    }
    SumOfNothing(s.calls, Pending(None));
  }
}
