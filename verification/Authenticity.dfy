/** In every interleaving a request is identified exactly as the uncached scan would identify it,
    and what it may do comes whole from one published configuration. */
module Authenticity {
  import opened Wrappers
  import opened Config
  import opened Policy
  import opened Access
  import opened Lifecycle
  import Auth

  ghost predicate Shape(s: State) {
    && |s.rts| == |s.cfgs| >= 1
    && s.reloads + (if s.reload.Stored? then 1 else 0) == |s.cfgs| - 1
  }

  /** A caller is a token of one generation that the presented text resolves to, with the ceilings
      of that same generation, and it had not lapsed when that was checked. */
  ghost predicate IdentityOk(w: World, cfgs: seq<Config>, now: nat, presented: Option<string>, who: Identity) {
    && who.gen < |cfgs|
    && who.idx < |cfgs[who.gen].tokens|
    && who.caller == CallerFor(cfgs[who.gen].tokens[who.idx], cfgs[who.gen].limits)
    && ResolvesTo(w, cfgs, who.gen, presented, who.idx)
    && (who.caller.token.expiresAt.None? || who.checkedAt < who.caller.token.expiresAt.value)
    && who.checkedAt <= now
  }

  ghost predicate ScansTo(w: World, cfgs: seq<Config>, g: nat, presented: Option<string>, r: Option<nat>) {
    g < |cfgs| && presented.Some? && Auth.Scan(w.crypto, cfgs[g].tokens, presented.value) == r
  }

  ghost predicate ResolvesTo(w: World, cfgs: seq<Config>, g: nat, presented: Option<string>, idx: nat) {
    && g < |cfgs| && presented.Some? && presented.value != []
    && Auth.Resolves(w.crypto, cfgs[g].tokens, presented.value, idx)
  }

  /** The presented text is that of a token of this name that has an expiry, which has passed. */
  ghost predicate LapsedAs(w: World, cfgs: seq<Config>, now: nat, g: nat, presented: Option<string>, name: string) {
    && g < |cfgs|
    && exists i: nat :: i < |cfgs[g].tokens| && ResolvesTo(w, cfgs, g, presented, i)
         && cfgs[g].tokens[i].name == name && cfgs[g].tokens[i].expiresAt.Some? && cfgs[g].tokens[i].expiresAt.value <= now
  }

  ghost predicate IsPublishedName(cfgs: seq<Config>, name: string) {
    exists g, i :: 0 <= g < |cfgs| && 0 <= i < |cfgs[g].tokens| && cfgs[g].tokens[i].name == name
  }

  ghost predicate RequestOk(w: World, cfgs: seq<Config>, now: nat, r: Request) {
    match r.phase
    case Arrived => true
    case Loaded(g) => g < |cfgs|
    case Admitted(g) => g < |cfgs|
    case Missed(g) => g < |cfgs| && r.arrival.presented.Some? && r.arrival.presented.value != []
    case Found(g, i) => ScansTo(w, cfgs, g, r.arrival.presented, Some(i)) && r.arrival.presented.value != []
    case Known(g, i) => ResolvesTo(w, cfgs, g, r.arrival.presented, i) && i < |cfgs[g].tokens|
    case Serving(who) => IdentityOk(w, cfgs, now, r.arrival.presented, who)
    case Closed(who, _, _) => IdentityOk(w, cfgs, now, r.arrival.presented, who)
    case Rejected(g, name, why) =>
      && g < |cfgs|
      && (if why.LapsedToken? then LapsedAs(w, cfgs, now, g, r.arrival.presented, name) else name == "-")
      && (why.UnknownToken? ==> ScansTo(w, cfgs, g, r.arrival.presented, None))
      && (why.MissingToken? ==> r.arrival.presented.None?)
  }

  ghost predicate CachesJustified(w: World, s: State) {
    |s.rts| == |s.cfgs| && forall g :: 0 <= g < |s.rts| ==> Auth.CacheJustified(w.crypto, s.cfgs[g].tokens, s.rts[g].cache)
  }

  ghost predicate RequestsOk(w: World, s: State) {
    forall rid :: rid in s.reqs ==> RequestOk(w, s.cfgs, s.now, s.reqs[rid])
  }

  /** The identity a request goes by once it has one. */
  predicate GoesBy(p: Phase, who: Identity) {
    p == Serving(who) || (p.Closed? && p.client == who)
  }

  /** A call acts for its request: same identity, one of the things asked. */
  ghost predicate Belongs(reqs: map<nat, Request>, cid: Cid, c: CallState) {
    && cid.rid in reqs
    && GoesBy(reqs[cid.rid].phase, c.who)
    && cid.k < |Asks(reqs[cid.rid].arrival.work)|
    && c.ask == Asks(reqs[cid.rid].arrival.work)[cid.k]
    && c.isRest == reqs[cid.rid].arrival.work.Rest?
  }

  ghost predicate CallsBelong(s: State) {
    forall cid :: cid in s.calls ==> Belongs(s.reqs, cid, s.calls[cid])
  }

  ghost predicate Inv(w: World, s: State) {
    Shape(s) && CachesJustified(w, s) && RequestsOk(w, s) && CallsBelong(s)
  }

  // ----- each step keeps it -----

  lemma LapsedLater(w: World, cfgs: seq<Config>, more: seq<Config>, now: nat, later: nat, g: nat, presented: Option<string>, name: string)
    requires LapsedAs(w, cfgs, now, g, presented, name) && cfgs <= more && now <= later
    ensures LapsedAs(w, more, later, g, presented, name)
  {
    var i: nat :| i < |cfgs[g].tokens| && ResolvesTo(w, cfgs, g, presented, i)
      && cfgs[g].tokens[i].name == name && cfgs[g].tokens[i].expiresAt.Some? && cfgs[g].tokens[i].expiresAt.value <= now;
    assert ResolvesTo(w, more, g, presented, i);
  }

  /** What was true of a request stays true when more configurations are published and time passes. */
  lemma RequestOkLater(w: World, cfgs: seq<Config>, more: seq<Config>, now: nat, later: nat, r: Request)
    requires RequestOk(w, cfgs, now, r) && cfgs <= more && now <= later
    ensures RequestOk(w, more, later, r)
  {
    if r.phase.Rejected? && r.phase.why.LapsedToken? {
      LapsedLater(w, cfgs, more, now, later, r.phase.gen, r.arrival.presented, r.phase.name);
    }
  }

  /** Nothing published is ever taken back or changed, time does not run backwards, the trace
      only grows, and requests keep what they came with. */
  lemma StepGrows(w: World, s: State, a: Action)
    requires Enabled(w, s, a)
    ensures var t := Next(w, s, a);
            && s.cfgs <= t.cfgs && s.now <= t.now && s.trace <= t.trace
            && (forall rid :: rid in s.reqs ==> rid in t.reqs && t.reqs[rid].arrival == s.reqs[rid].arrival)
  {
    match a
    case OnRequest(rid, step) => RequestStepFrame(w, s, rid, step);
    case OnCall(cid, step) => CallStepFrame(w, s, cid, step);
    case _ =>
  }

  lemma LookupKeeps(w: World, s: State, rid: nat)
    requires Inv(w, s) && RequestEnabled(s, rid, Lookup)
    ensures var t := RequestNext(w, s, rid, Lookup);
            rid in t.reqs && RequestOk(w, s.cfgs, s.now, t.reqs[rid])
  {
    var g, p := s.reqs[rid].phase.gen, s.reqs[rid].arrival.presented;
    if p.Some? && p.value != [] && w.crypto.digest(p.value) in s.rts[g].cache {
      Auth.HitIsFirstMatch(w.crypto, s.cfgs[g].tokens, s.rts[g].cache, p.value);
    }
  }

  lemma ScanKeeps(w: World, s: State, rid: nat)
    requires Inv(w, s) && RequestEnabled(s, rid, ScanAll)
    ensures var t := RequestNext(w, s, rid, ScanAll);
            rid in t.reqs && RequestOk(w, s.cfgs, s.now, t.reqs[rid])
  {
    var g, p := s.reqs[rid].phase.gen, s.reqs[rid].arrival.presented;
    assert RequestOk(w, s.cfgs, s.now, s.reqs[rid]);
    assert ScansTo(w, s.cfgs, g, p, Auth.FirstMatch(w.crypto, s.cfgs[g].tokens, p.value));
  }

  lemma ExpiryKeeps(w: World, s: State, rid: nat, g: nat, i: nat)
    requires rid in s.reqs && s.reqs[rid].phase == Known(g, i) && RequestOk(w, s.cfgs, s.now, s.reqs[rid])
    ensures var t := ExpiryStep(s, rid);
            rid in t.reqs && RequestOk(w, s.cfgs, s.now, t.reqs[rid])
  {
    var token := s.cfgs[g].tokens[i];
    if token.IsExpiredAt(s.now) {
      assert ExpiryStep(s, rid) == Reject(s, rid, g, token.name, LapsedToken);
      assert ResolvesTo(w, s.cfgs, g, s.reqs[rid].arrival.presented, i);
    }
  }

  lemma InsertKeeps(w: World, s: State, rid: nat)
    requires Inv(w, s) && RequestEnabled(s, rid, Insert)
    ensures var t := RequestNext(w, s, rid, Insert);
            rid in t.reqs && RequestOk(w, s.cfgs, s.now, t.reqs[rid])
    ensures CachesJustified(w, RequestNext(w, s, rid, Insert))
  {
    assert RequestOk(w, s.cfgs, s.now, s.reqs[rid]);
    var Found(g, i) := s.reqs[rid].phase;
    var p := s.reqs[rid].arrival.presented.value;
    assert Auth.Justifies(w.crypto, s.cfgs[g].tokens, p, w.crypto.digest(p), i);
    Auth.InsertKeepsJustified(w.crypto, s.cfgs[g].tokens, s.rts[g].cache, s.reqs[rid].arrival.presented.value, i);
  }

  /** Only an insert touches a cache. */
  lemma CacheFrame(w: World, s: State, rid: nat, step: RequestStep, g: nat)
    requires RequestEnabled(s, rid, step) && !step.Insert? && g < |s.rts|
    ensures g < |RequestNext(w, s, rid, step).rts| && RequestNext(w, s, rid, step).rts[g].cache == s.rts[g].cache
  {
    match step
    case CheckIp(_) =>
    case Lookup =>
    case ScanAll =>
    case CheckExpiry =>
    case _ =>
  }

  lemma RequestStepKeeps(w: World, s: State, rid: nat, step: RequestStep)
    requires Inv(w, s) && RequestEnabled(s, rid, step)
    ensures var t := RequestNext(w, s, rid, step);
            rid in t.reqs && RequestOk(w, s.cfgs, s.now, t.reqs[rid])
    ensures CachesJustified(w, RequestNext(w, s, rid, step))
  {
    if !step.Arrive? { assert RequestOk(w, s.cfgs, s.now, s.reqs[rid]); }
    RequestStepFrame(w, s, rid, step);
    if step.Insert? {
      InsertKeeps(w, s, rid);
    } else {
      forall g | 0 <= g < |s.rts| ensures RequestNext(w, s, rid, step).rts[g].cache == s.rts[g].cache {
        CacheFrame(w, s, rid, step, g);
      }
      match step
      case Lookup => LookupKeeps(w, s, rid);
      case ScanAll => ScanKeeps(w, s, rid);
      case CheckExpiry => ExpiryKeeps(w, s, rid, s.reqs[rid].phase.gen, s.reqs[rid].phase.idx);
      case _ =>
    }
  }

  /** Once a request has an identity, its steps keep it. */
  lemma IdentityKept(w: World, s: State, rid: nat, step: RequestStep, who: Identity)
    requires RequestEnabled(s, rid, step) && rid in s.reqs && GoesBy(s.reqs[rid].phase, who)
    ensures rid in RequestNext(w, s, rid, step).reqs && GoesBy(RequestNext(w, s, rid, step).reqs[rid].phase, who)
  {
    match step
    case CloseSimple =>
    case CloseDocument(_) =>
    case _ =>
  }

  lemma OnRequestKeeps(w: World, s: State, rid: nat, step: RequestStep)
    requires Inv(w, s) && RequestEnabled(s, rid, step)
    ensures Inv(w, RequestNext(w, s, rid, step))
  {
    var t := RequestNext(w, s, rid, step);
    RequestStepFrame(w, s, rid, step);
    RequestStepKeeps(w, s, rid, step);
    forall cid | cid in t.calls ensures Belongs(t.reqs, cid, t.calls[cid]) {
      assert Belongs(s.reqs, cid, s.calls[cid]);
      if cid.rid == rid { IdentityKept(w, s, rid, step, s.calls[cid].who); }
    }
    forall other | other in t.reqs ensures RequestOk(w, t.cfgs, t.now, t.reqs[other]) {
      if other != rid { assert RequestOk(w, s.cfgs, s.now, s.reqs[other]); }
    }
  }

  /** The only thing a call does to requests is to close its own, under the same identity. */
  lemma CallStepOnRequests(w: World, s: State, cid: Cid, step: CallStep, rid: nat)
    requires CallsBelong(s) && CallEnabled(s, cid, step)
    ensures rid in CallNext(w, s, cid, step).reqs <==> rid in s.reqs
    ensures rid in s.reqs ==>
              var r, q := s.reqs[rid], CallNext(w, s, cid, step).reqs[rid];
              && q.arrival == r.arrival
              && (q == r || (r.phase.Serving? && q.phase.Closed? && q.phase.client == r.phase.who))
  {
    if step.Finish? {
      FinishOnRequests(s, cid);
    } else {
      CallStepFrame(w, s, cid, step);
    }
  }

  lemma FinishOnRequests(s: State, cid: Cid)
    requires CallsBelong(s) && CallEnabled(s, cid, Finish)
    ensures var c, t := s.calls[cid], FinishStep(s, cid);
            && (!c.isRest ==> t.reqs == s.reqs)
            && (c.isRest ==>
                  && cid.rid in s.reqs && s.reqs[cid.rid].phase == Serving(c.who)
                  && cid.rid in t.reqs && t.reqs[cid.rid].phase.Closed? && t.reqs[cid.rid].phase.client == c.who
                  && t.reqs == s.reqs[cid.rid := s.reqs[cid.rid].(phase := t.reqs[cid.rid].phase)])
  {
    assert Belongs(s.reqs, cid, s.calls[cid]);
  }

  /** A call's own step keeps what it acts for. */
  lemma CallStepKeepsIdentity(w: World, s: State, cid: Cid, step: CallStep)
    requires Inv(w, s) && CallEnabled(s, cid, step)
    ensures cid in CallNext(w, s, cid, step).calls
    ensures Belongs(CallNext(w, s, cid, step).reqs, cid, CallNext(w, s, cid, step).calls[cid])
  {
    CallStepFrame(w, s, cid, step);
    CallStepOnRequests(w, s, cid, step, cid.rid);
    if !step.StartCall? {
      CallPurposeIsFixed(w, s, cid, step);
      assert Belongs(s.reqs, cid, s.calls[cid]);
    }
  }

  lemma CallStepKeepsBelonging(w: World, s: State, cid: Cid, step: CallStep)
    requires Inv(w, s) && CallEnabled(s, cid, step)
    ensures CallsBelong(CallNext(w, s, cid, step))
  {
    var t := CallNext(w, s, cid, step);
    CallStepFrame(w, s, cid, step);
    CallStepKeepsIdentity(w, s, cid, step);
    forall other | other in t.calls ensures Belongs(t.reqs, other, t.calls[other]) {
      CallStepOnRequests(w, s, cid, step, other.rid);
      if other != cid { assert Belongs(s.reqs, other, s.calls[other]); }
    }
  }

  lemma CallStepKeepsRequests(w: World, s: State, cid: Cid, step: CallStep)
    requires Inv(w, s) && CallEnabled(s, cid, step)
    ensures RequestsOk(w, CallNext(w, s, cid, step))
  {
    var t := CallNext(w, s, cid, step);
    CallStepFrame(w, s, cid, step);
    forall rid | rid in t.reqs ensures RequestOk(w, t.cfgs, t.now, t.reqs[rid]) {
      CallStepKeepsRequest(w, s, cid, step, rid);
    }
  }

  lemma CallStepKeepsRequest(w: World, s: State, cid: Cid, step: CallStep, rid: nat)
    requires Inv(w, s) && CallEnabled(s, cid, step) && rid in CallNext(w, s, cid, step).reqs
    ensures RequestOk(w, s.cfgs, s.now, CallNext(w, s, cid, step).reqs[rid])
  {
    CallStepOnRequests(w, s, cid, step, rid);
    assert RequestOk(w, s.cfgs, s.now, s.reqs[rid]);
  }

  lemma OnCallKeeps(w: World, s: State, cid: Cid, step: CallStep)
    requires Inv(w, s) && CallEnabled(s, cid, step)
    ensures Inv(w, CallNext(w, s, cid, step))
  {
    var t := CallNext(w, s, cid, step);
    CallStepFrame(w, s, cid, step);
    CallStepKeepsBelonging(w, s, cid, step);
    CallStepKeepsRequests(w, s, cid, step);
    forall g | 0 <= g < |t.rts| ensures Auth.CacheJustified(w.crypto, t.cfgs[g].tokens, t.rts[g].cache) {
      assert t.rts[g].cache == s.rts[g].cache;
    }
  }

  lemma TickKeeps(w: World, s: State, d: nat)
    requires Inv(w, s)
    ensures Inv(w, s.(now := s.now + d))
  {
    var t := s.(now := s.now + d);
    forall rid | rid in t.reqs ensures RequestOk(w, t.cfgs, t.now, t.reqs[rid]) {
      RequestOkLater(w, s.cfgs, s.cfgs, s.now, t.now, s.reqs[rid]);
    }
  }

  /** Requests keep what is true of them, and the new generation starts with an empty cache. */
  lemma PublishKeeps(w: World, s: State, cfg: Config)
    requires Inv(w, s) && s.reload.Idle?
    ensures Inv(w, s.(cfgs := s.cfgs + [cfg], rts := s.rts + [Fresh(cfg)], reload := Stored))
  {
    var t := s.(cfgs := s.cfgs + [cfg], rts := s.rts + [Fresh(cfg)], reload := Stored);
    forall rid | rid in t.reqs ensures RequestOk(w, t.cfgs, t.now, t.reqs[rid]) {
      RequestOkLater(w, s.cfgs, t.cfgs, s.now, s.now, s.reqs[rid]);
    }
    forall g | 0 <= g < |t.rts| ensures Auth.CacheJustified(w.crypto, t.cfgs[g].tokens, t.rts[g].cache) {
      if g < |s.rts| { assert Auth.CacheJustified(w.crypto, s.cfgs[g].tokens, s.rts[g].cache); }
    }
  }

  /** Refusing or counting a reload touches nothing that is promised here but the number of reloads. */
  lemma BookkeepingKeeps(w: World, s: State, t: State)
    requires Inv(w, s) && Shape(t)
    requires t.cfgs == s.cfgs && t.rts == s.rts && t.reqs == s.reqs && t.calls == s.calls && t.now == s.now
    ensures Inv(w, t)
  {
  }

  lemma StepKeeps(w: World, s: State, a: Action)
    requires Inv(w, s) && Enabled(w, s, a)
    ensures Inv(w, Next(w, s, a))
  {
    match a
    case OnRequest(rid, step) => OnRequestKeeps(w, s, rid, step);
    case OnCall(cid, step) => OnCallKeeps(w, s, cid, step);
    case Tick(d) => TickKeeps(w, s, d);
    case Publish(cfg) => PublishKeeps(w, s, cfg);
    case RefuseReload => BookkeepingKeeps(w, s, s.(reload := Refused));
    case CountReload => BookkeepingKeeps(w, s, Next(w, s, CountReload));
  }

  /** Every run splits into its last action and the run before it. */
  lemma LastAction(w: World, cfg: Config, actions: seq<Action>, s: State) returns (before: State, a: Action)
    requires Reaches(w, cfg, actions, s) && actions != []
    ensures Reaches(w, cfg, actions[..|actions| - 1], before) && Enabled(w, before, a) && s == Next(w, before, a)
    ensures a == actions[|actions| - 1] && before.cfgs <= s.cfgs
  {
    before := Exec(w, cfg, actions[..|actions| - 1]).value;
    a := actions[|actions| - 1];
    StepGrows(w, before, a);
  }

  lemma {:induction false} Holds(w: World, cfg: Config, actions: seq<Action>, s: State)
    requires Reaches(w, cfg, actions, s)
    ensures Inv(w, s)
    decreases |actions|
  {
    if actions != [] {
      var before, a := LastAction(w, cfg, actions, s);
      Holds(w, cfg, actions[..|actions| - 1], before);
      StepKeeps(w, before, a);
    }
  }

  // ----- main results -----

  predicate TurnedAwayAsUnknown(r: Request) { r.phase.Rejected? && r.phase.why.UnknownToken? }

  /** Under any interleaving of lookups, scans, inserts and reloads by any number of requests: a
      request turned away as unknown matches no token of the generation it was looked up in; one that
      was identified was identified as a token that some text with its digest matches first, and
      without collisions as the first that it matches itself; every cached index is in range and is then
      the first match of every text with that digest. */
  lemma AuthenticationIsTheScan(w: World, cfg: Config, actions: seq<Action>, s: State)
    requires Reaches(w, cfg, actions, s)
    ensures |s.rts| == |s.cfgs|
    ensures forall rid :: rid in s.reqs && TurnedAwayAsUnknown(s.reqs[rid]) ==>
              ScansTo(w, s.cfgs, s.reqs[rid].phase.gen, s.reqs[rid].arrival.presented, None)
    ensures forall rid :: rid in s.reqs && TokenOf(s.reqs[rid].phase).Some? ==>
              var (g, i) := TokenOf(s.reqs[rid].phase).value;
              && ResolvesTo(w, s.cfgs, g, s.reqs[rid].arrival.presented, i)
              && (Auth.CollisionFree(w.crypto, s.cfgs[g].tokens) ==> ScansTo(w, s.cfgs, g, s.reqs[rid].arrival.presented, Some(i)))
    ensures forall g, p :: 0 <= g < |s.cfgs| && p != [] && w.crypto.digest(p) in s.rts[g].cache ==>
              var i := s.rts[g].cache[w.crypto.digest(p)];
              && i < |s.cfgs[g].tokens|
              && (Auth.CollisionFree(w.crypto, s.cfgs[g].tokens) ==> Auth.FirstMatch(w.crypto, s.cfgs[g].tokens, p) == Some(i))
  {
    Holds(w, cfg, actions, s);
    forall rid | rid in s.reqs
      ensures TurnedAwayAsUnknown(s.reqs[rid]) ==>
                ScansTo(w, s.cfgs, s.reqs[rid].phase.gen, s.reqs[rid].arrival.presented, None)
      ensures TokenOf(s.reqs[rid].phase).Some? ==>
                var (g, i) := TokenOf(s.reqs[rid].phase).value;
                && ResolvesTo(w, s.cfgs, g, s.reqs[rid].arrival.presented, i)
                && (Auth.CollisionFree(w.crypto, s.cfgs[g].tokens) ==> ScansTo(w, s.cfgs, g, s.reqs[rid].arrival.presented, Some(i)))
    {
      assert RequestOk(w, s.cfgs, s.now, s.reqs[rid]);
      if TokenOf(s.reqs[rid].phase).Some? { TokenIsScanned(w, s.cfgs, s.now, s.reqs[rid]); }
    }
    forall g, p | 0 <= g < |s.cfgs| && p != [] && w.crypto.digest(p) in s.rts[g].cache
      ensures var i := s.rts[g].cache[w.crypto.digest(p)];
              && i < |s.cfgs[g].tokens|
              && (Auth.CollisionFree(w.crypto, s.cfgs[g].tokens) ==> Auth.FirstMatch(w.crypto, s.cfgs[g].tokens, p) == Some(i))
    {
      Auth.HitIsFirstMatch(w.crypto, s.cfgs[g].tokens, s.rts[g].cache, p);
    }
  }

  /** The token a request has been resolved to, once it has: its generation and index. */
  function TokenOf(p: Phase): Option<(nat, nat)> {
    match p
    case Found(g, i) => Some((g, i))
    case Known(g, i) => Some((g, i))
    case Serving(who) => Some((who.gen, who.idx))
    case Closed(who, _, _) => Some((who.gen, who.idx))
    case _ => None
  }

  lemma TokenIsScanned(w: World, cfgs: seq<Config>, now: nat, r: Request)
    requires RequestOk(w, cfgs, now, r) && TokenOf(r.phase).Some?
    ensures var (g, i) := TokenOf(r.phase).value;
            && ResolvesTo(w, cfgs, g, r.arrival.presented, i)
            && (Auth.CollisionFree(w.crypto, cfgs[g].tokens) ==> ScansTo(w, cfgs, g, r.arrival.presented, Some(i)))
  {
    var (g, i) := TokenOf(r.phase).value;
    var p := r.arrival.presented.value;
    if r.phase.Found? { assert Auth.Justifies(w.crypto, cfgs[g].tokens, p, w.crypto.digest(p), i); }
    Auth.ResolvedIsScanned(w.crypto, cfgs[g].tokens, p, i);
  }

  /** The number of entries any generation's cache holds never exceeds its number of tokens. */
  lemma CachesStayBounded(w: World, cfg: Config, actions: seq<Action>, s: State, g: nat)
    requires Reaches(w, cfg, actions, s) && Auth.OneTextPerHash(w.crypto)
    requires g < |s.cfgs|
    ensures g < |s.rts| && |s.rts[g].cache| <= |s.cfgs[g].tokens|
  {
    Holds(w, cfg, actions, s);
    Auth.CacheIsBounded(w.crypto, s.cfgs[g].tokens, s.rts[g].cache);
  }

  /** A caller's token and ceilings come from one generation, and its token had no expiry or one
      still to come when that was checked. */
  lemma CallersAreWhole(w: World, cfg: Config, actions: seq<Action>, s: State, rid: nat)
    requires Reaches(w, cfg, actions, s)
    requires rid in s.reqs && s.reqs[rid].phase.Serving?
    ensures IdentityOk(w, s.cfgs, s.now, s.reqs[rid].arrival.presented, s.reqs[rid].phase.who)
    ensures var who := s.reqs[rid].phase.who;
            && who.gen < |s.cfgs| && who.idx < |s.cfgs[who.gen].tokens|
            && var token, limits := s.cfgs[who.gen].tokens[who.idx], s.cfgs[who.gen].limits;
               && who.caller == Caller(token, Ceilings(token.EffectiveMaxVouchers(limits), token.EffectiveMaxValidity(limits)))
               && (token.expiresAt.None? || who.checkedAt < token.expiresAt.value)
               && who.checkedAt <= s.now
  {
    Holds(w, cfg, actions, s);
    assert RequestOk(w, s.cfgs, s.now, s.reqs[rid]);
  }

  /** Whoever is turned away for an expired token presented one: the text is resolved, at the generation
      that was loaded, to a token of that name whose expiry had come. */
  lemma OnlyLapsedTokensExpire(w: World, cfg: Config, actions: seq<Action>, s: State, rid: nat)
    requires Reaches(w, cfg, actions, s)
    requires rid in s.reqs && s.reqs[rid].phase.Rejected? && s.reqs[rid].phase.why.LapsedToken?
    ensures var g, presented := s.reqs[rid].phase.gen, s.reqs[rid].arrival.presented;
            && g < |s.cfgs|
            && exists i: nat :: i < |s.cfgs[g].tokens| && ResolvesTo(w, s.cfgs, g, presented, i)
                 && s.cfgs[g].tokens[i].name == s.reqs[rid].phase.name
                 && s.cfgs[g].tokens[i].expiresAt.Some? && s.cfgs[g].tokens[i].expiresAt.value <= s.now
  {
    Holds(w, cfg, actions, s);
    assert RequestOk(w, s.cfgs, s.now, s.reqs[rid]);
  }

  /** A name under which something was refused as expired is a published one. */
  lemma LapsedNameIsPublished(w: World, s: State, rid: nat)
    requires Inv(w, s) && rid in s.reqs && s.reqs[rid].phase.Rejected? && s.reqs[rid].phase.why.LapsedToken?
    ensures IsPublishedName(s.cfgs, s.reqs[rid].phase.name)
  {
    assert RequestOk(w, s.cfgs, s.now, s.reqs[rid]);
  }

  /** Whatever happens to the requests in between, the published generations number one more than
      the reloads counted, give or take the one that is stored but not yet counted. */
  lemma ReloadsCountGenerations(w: World, cfg: Config, actions: seq<Action>, s: State)
    requires Reaches(w, cfg, actions, s)
    ensures |s.cfgs| >= 1 && s.cfgs[0] == cfg
    ensures s.reloads <= |s.cfgs| - 1 <= s.reloads + 1
    ensures |s.cfgs| - 1 == s.reloads + 1 <==> s.reload.Stored?
    decreases |actions|
  {
    ShapeHolds(w, cfg, actions, s);
  }

  lemma {:induction false} ShapeHolds(w: World, cfg: Config, actions: seq<Action>, s: State)
    requires Reaches(w, cfg, actions, s)
    ensures Shape(s) && s.cfgs[0] == cfg
    decreases |actions|
  {
    if actions != [] {
      var before, a := LastAction(w, cfg, actions, s);
      ShapeHolds(w, cfg, actions[..|actions| - 1], before);
      match a
      case OnRequest(rid, step) => RequestStepFrame(w, before, rid, step);
      case OnCall(cid, step) => CallStepFrame(w, before, cid, step);
      case _ =>
    }
  }
}
