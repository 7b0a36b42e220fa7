/** A step of the document is matched by its own and, right after it, its stand-ins'; a step of any
    other request by the same step. */
module RequestSteps {
  import opened Wrappers
  import opened Access
  import opened Lifecycle
  import opened Correspondence
  import Config
  import Auth
  import Authenticity
  import Generations

  predicate Identifies(step: RequestStep) { !step.Arrive? && !Closes(step) }

  /** Two requests that are at the same point, present the same text and see the same configurations,
      clock and caches. */
  ghost predicate SameSight(s: State, r: nat, t: State, q: nat) {
    && t.cfgs == s.cfgs && t.now == s.now && RuntimesSim(s.rts, t.rts)
    && r in s.reqs && q in t.reqs && t.reqs[q].phase == s.reqs[r].phase
    && t.reqs[q].arrival.presented == s.reqs[r].arrival.presented
  }

  ghost predicate MovedAlike(s: State, r: nat, t: State, q: nat) {
    RuntimesSim(s.rts, t.rts) && r in s.reqs && q in t.reqs && t.reqs[q].phase == s.reqs[r].phase
  }

  lemma RejectAlike(s: State, r: nat, t: State, q: nat, gen: nat, name: string, why: Refusal)
    requires RuntimesSim(s.rts, t.rts) && r in s.reqs && q in t.reqs
    ensures MovedAlike(Reject(s, r, gen, name, why), r, Reject(t, q, gen, name, why), q)
  {
  }

  lemma PhaseAlike(s: State, r: nat, t: State, q: nat, p: Phase)
    requires RuntimesSim(s.rts, t.rts) && r in s.reqs && q in t.reqs
    ensures MovedAlike(WithPhase(s, r, p), r, WithPhase(t, q, p), q)
  {
  }

  lemma IpAlike(s: State, r: nat, t: State, q: nat, ok: bool)
    requires SameSight(s, r, t, q) && s.reqs[r].phase.Loaded? && s.reqs[r].phase.gen < |s.rts|
    ensures MovedAlike(IpStep(s, r, ok), r, IpStep(t, q, ok), q)
  {
  }

  lemma LookupAlike(w: World, s: State, r: nat, t: State, q: nat)
    requires SameSight(s, r, t, q) && s.reqs[r].phase.Admitted? && s.reqs[r].phase.gen < |s.rts| == |s.cfgs|
    ensures MovedAlike(LookupStep(w, s, r), r, LookupStep(w, t, q), q)
  {
    var g := s.reqs[r].phase.gen;
    RejectAlike(s, r, t, q, g, "-", MissingToken);
    RejectAlike(s, r, t, q, g, "-", UnknownToken);
    match s.reqs[r].arrival.presented
    case None => assert LookupStep(w, s, r) == Reject(s, r, g, "-", MissingToken);
    case Some(p) =>
      if p == [] {
        assert LookupStep(w, s, r) == Reject(s, r, g, "-", UnknownToken);
      } else if w.crypto.digest(p) in s.rts[g].cache {
        PhaseAlike(s, r, t, q, Known(g, s.rts[g].cache[w.crypto.digest(p)]));
      } else {
        PhaseAlike(s, r, t, q, Missed(g));
      }
  }

  /** A scan is booked first; what comes of it is the request's. */
  lemma ScanBooks(w: World, s: State, r: nat, g: nat) returns (s1: State)
    requires r in s.reqs && s.reqs[r].phase == Missed(g) && g < |s.rts| == |s.cfgs| && s.reqs[r].arrival.presented.Some?
    ensures RuntimesSim(s.rts, s1.rts) && s1.reqs == s.reqs
    ensures var found := Auth.FirstMatch(w.crypto, s.cfgs[g].tokens, s.reqs[r].arrival.presented.value);
            && (found.None? ==> ScanStep(w, s, r) == Reject(s1, r, g, "-", UnknownToken))
            && (found.Some? ==> ScanStep(w, s, r) == WithPhase(s1, r, Found(g, found.value)))
  {
    var x := s.rts[g];
    s1 := WithRuntime(s, g, x.(scanned := x.scanned + {r}, verifications := x.verifications + |s.cfgs[g].tokens|));
  }

  lemma ScanAlike(w: World, s: State, r: nat, t: State, q: nat)
    requires SameSight(s, r, t, q) && s.reqs[r].phase.Missed? && s.reqs[r].phase.gen < |s.rts| == |s.cfgs|
    requires s.reqs[r].arrival.presented.Some?
    ensures MovedAlike(ScanStep(w, s, r), r, ScanStep(w, t, q), q)
  {
    var g := s.reqs[r].phase.gen;
    var s1 := ScanBooks(w, s, r, g);
    var t1 := ScanBooks(w, t, q, g);
    match Auth.FirstMatch(w.crypto, s.cfgs[g].tokens, s.reqs[r].arrival.presented.value)
    case None => RejectAlike(s1, r, t1, q, g, "-", UnknownToken);
    case Some(i) => PhaseAlike(s1, r, t1, q, Found(g, i));
  }

  lemma InsertAlike(w: World, s: State, r: nat, t: State, q: nat)
    requires SameSight(s, r, t, q) && s.reqs[r].phase.Found? && s.reqs[r].phase.gen < |s.rts|
    requires s.reqs[r].arrival.presented.Some?
    ensures MovedAlike(InsertStep(w, s, r), r, InsertStep(w, t, q), q)
  {
  }

  lemma ExpiryAlike(s: State, r: nat, t: State, q: nat)
    requires SameSight(s, r, t, q) && s.reqs[r].phase.Known? && s.reqs[r].phase.gen < |s.cfgs|
    requires s.reqs[r].phase.idx < |s.cfgs[s.reqs[r].phase.gen].tokens|
    ensures MovedAlike(ExpiryStep(s, r), r, ExpiryStep(t, q), q)
  {
    var Known(g, i) := s.reqs[r].phase;
    var token := s.cfgs[g].tokens[i];
    RejectAlike(s, r, t, q, g, token.name, LapsedToken);
    PhaseAlike(s, r, t, q, Serving(Identity(g, i, s.now, CallerFor(token, s.cfgs[g].limits))));
  }

  lemma StepAlike(w: World, s: State, r: nat, t: State, q: nat, step: RequestStep)
    requires Identifies(step) && SameSight(s, r, t, q) && RequestEnabled(s, r, step)
    ensures RequestEnabled(t, q, step)
    ensures MovedAlike(RequestNext(w, s, r, step), r, RequestNext(w, t, q, step), q)
  {
    match step
    case LoadFirst =>
    case CheckIp(ok) => IpAlike(s, r, t, q, ok);
    case Lookup => LookupAlike(w, s, r, t, q);
    case ScanAll => ScanAlike(w, s, r, t, q);
    case Insert => InsertAlike(w, s, r, t, q);
    case CheckExpiry => ExpiryAlike(s, r, t, q);
  }

  // ----- one step of another request -----

  /** Two states that agree on everything a request's step looks at, and on what it changes. */
  ghost predicate SeenAlike(s: State, t: State, rid: nat) {
    && SameAround(s, t)
    && (rid in s.reqs <==> rid in t.reqs) && (rid in s.reqs ==> s.reqs[rid] == t.reqs[rid])
    && (forall k: nat :: (Cid(rid, k) in s.calls <==> Cid(rid, k) in t.calls)
                         && (Cid(rid, k) in s.calls ==> s.calls[Cid(rid, k)] == t.calls[Cid(rid, k)]))
  }

  lemma RequestStepSim(w: World, s: State, t: State, rid: nat, step: RequestStep)
    requires SeenAlike(s, t, rid) && RequestEnabled(s, rid, step)
    ensures RequestEnabled(t, rid, step)
    ensures var s1, t1 := RequestNext(w, s, rid, step), RequestNext(w, t, rid, step);
            && RuntimesSim(s1.rts, t1.rts) && rid in s1.reqs && rid in t1.reqs && s1.reqs[rid] == t1.reqs[rid]
  {
    if Identifies(step) {
      StepAlike(w, s, rid, t, rid, step);
      RequestStepFrame(w, s, rid, step);
      RequestStepFrame(w, t, rid, step);
    }
  }

  lemma OtherIsSeenAlike(tw: Twins, s: State, t: State, rid: nat)
    requires Distinct(tw) && Sim(tw, s, t) && IsApart(tw, rid)
    ensures SeenAlike(s, t, rid)
  {
    forall k: nat
      ensures (Cid(rid, k) in s.calls <==> Cid(rid, k) in t.calls)
              && (Cid(rid, k) in s.calls ==> s.calls[Cid(rid, k)] == t.calls[Cid(rid, k)])
    {
      assert IsApart(tw, Cid(rid, k).rid);
    }
  }

  /** A request other than the document and its stand-ins takes its step on both sides. */
  lemma RequestKeepsSim(w: World, tw: Twins, s: State, t: State, rid: nat, step: RequestStep)
    requires Distinct(tw) && Sim(tw, s, t) && RequestEnabled(s, rid, step) && IsApart(tw, rid)
    ensures RequestEnabled(t, rid, step)
    ensures Sim(tw, RequestNext(w, s, rid, step), RequestNext(w, t, rid, step))
  {
    OtherIsSeenAlike(tw, s, t, rid);
    RequestStepSim(w, s, t, rid, step);
    RequestStepFrame(w, s, rid, step);
    RequestStepFrame(w, t, rid, step);
    var s1, t1 := RequestNext(w, s, rid, step), RequestNext(w, t, rid, step);
    RequestsUpdated(tw, s.reqs, t.reqs, rid, s1.reqs[rid]);
    assert t1.reqs == t.reqs[rid := s1.reqs[rid]];
    CallsSimElsewhere(tw, t.reqs, t1.reqs, s.calls, t.calls);
  }

  ghost predicate SameTwins(tw: Twins, b: map<nat, Request>, b1: map<nat, Request>) {
    && (tw.doc in b <==> tw.doc in b1) && (tw.doc in b ==> b1[tw.doc] == b[tw.doc])
    && forall k :: 0 <= k < |tw.rids| ==>
         (tw.rids[k] in b <==> tw.rids[k] in b1) && (tw.rids[k] in b ==> b1[tw.rids[k]] == b[tw.rids[k]])
  }

  lemma RequestsUpdated(tw: Twins, a: map<nat, Request>, b: map<nat, Request>, rid: nat, r: Request)
    requires Distinct(tw) && RequestsSim(tw, a, b) && IsApart(tw, rid)
    ensures RequestsSim(tw, a[rid := r], b[rid := r]) && SameTwins(tw, b, b[rid := r])
  {
    forall k | 0 <= k < |tw.rids|
      ensures tw.rids[k] !in a[rid := r] && StandsIn(tw, k, b[rid := r])
      ensures (tw.rids[k] in b <==> tw.rids[k] in b[rid := r]) && (tw.rids[k] in b ==> b[rid := r][tw.rids[k]] == b[tw.rids[k]])
    {
      assert StandsIn(tw, k, b) && tw.rids[k] in tw.rids;
    }
  }

  lemma CallsSimElsewhere(tw: Twins, b: map<nat, Request>, b1: map<nat, Request>, c: map<Cid, CallState>, d: map<Cid, CallState>)
    requires CallsSim(tw, b, c, d) && SameTwins(tw, b, b1)
    ensures CallsSim(tw, b1, c, d)
  {
    forall k | 0 <= k < |tw.rids| ensures PairSim(tw, k, b1, c, d) {
      assert PairSim(tw, k, b, c, d);
    }
    forall cid | cid in c ensures OwnCalls(tw, b1, cid) {
      assert OwnCalls(tw, b, cid);
    }
  }

  // ----- one step of the document -----

  /** Closing the document changes nothing that matters to the handlers. */
  lemma ClosingKeepsSim(w: World, tw: Twins, s: State, t: State, step: RequestStep)
    requires Distinct(tw) && Sim(tw, s, t) && RequestEnabled(s, tw.doc, step) && Closes(step)
    ensures Sim(tw, RequestNext(w, s, tw.doc, step), t)
  {
    RequestStepFrame(w, s, tw.doc, step);
  }

  lemma CachesKept(w: World, s: State, rid: nat, step: RequestStep)
    requires RequestEnabled(s, rid, step) && !step.Insert?
    ensures RuntimesSim(s.rts, RequestNext(w, s, rid, step).rts)
  {
    RequestStepFrame(w, s, rid, step);
    forall g | 0 <= g < |s.rts| ensures RequestNext(w, s, rid, step).rts[g].cache == s.rts[g].cache {
      Authenticity.CacheFrame(w, s, rid, step, g);
    }
  }

  /** The second of two inserts for one text leaves the cache as it is. */
  lemma FollowInsert(w: World, t: State, doc: nat, v: State, q: nat)
    requires RequestEnabled(t, doc, Insert)
    requires q in v.reqs && v.reqs[q].phase == t.reqs[doc].phase && v.reqs[q].arrival.presented == t.reqs[doc].arrival.presented
    requires |v.rts| == |v.cfgs| && RuntimesSim(InsertStep(w, t, doc).rts, v.rts)
    ensures RequestEnabled(v, q, Insert)
    ensures RuntimesSim(v.rts, InsertStep(w, v, q).rts)
    ensures q in InsertStep(w, v, q).reqs && InsertStep(w, v, q).reqs[q].phase == InsertStep(w, t, doc).reqs[doc].phase
  {
    var Found(g, i) := t.reqs[doc].phase;
    var key := w.crypto.digest(t.reqs[doc].arrival.presented.value);
    assert v.rts[g].cache == t.rts[g].cache[key := i];
    assert v.rts[g].cache[key := i] == v.rts[g].cache;
  }

  /** A stand-in at the point where the document was takes the same step after it, and comes to the
      point where the document is, without changing a cache again. */
  lemma FollowStep(w: World, t: State, doc: nat, v: State, q: nat, step: RequestStep)
    requires Identifies(step) && RequestEnabled(t, doc, step)
    requires v.cfgs == t.cfgs && v.now == t.now && RuntimesSim(RequestNext(w, t, doc, step).rts, v.rts)
    requires q in v.reqs && v.reqs[q].phase == t.reqs[doc].phase && v.reqs[q].arrival.presented == t.reqs[doc].arrival.presented
    ensures RequestEnabled(v, q, step)
    ensures RuntimesSim(v.rts, RequestNext(w, v, q, step).rts)
    ensures var u, x := RequestNext(w, t, doc, step), RequestNext(w, v, q, step);
            doc in u.reqs && q in x.reqs && x.reqs[q].phase == u.reqs[doc].phase
  {
    RequestStepFrame(w, t, doc, step);
    if step.Insert? {
      FollowInsert(w, t, doc, v, q);
    } else {
      CachesKept(w, t, doc, step);
      StepAlike(w, t, doc, v, q, step);
      CachesKept(w, v, q, step);
    }
  }

  ghost predicate CaughtUp(tw: Twins, k: nat, u: map<nat, Request>, v: map<nat, Request>)
    requires k < |tw.rids| == |tw.forms| && tw.doc in u
  {
    tw.rids[k] in v && v[tw.rids[k]] == Request(tw.forms[k], u[tw.doc].phase)
  }

  ghost predicate AsBefore(tw: Twins, k: nat, t: map<nat, Request>, v: map<nat, Request>)
    requires k < |tw.rids|
  {
    (tw.rids[k] in v <==> tw.rids[k] in t) && (tw.rids[k] in v ==> v[tw.rids[k]] == t[tw.rids[k]])
  }

  /** The document has gone from `t` to `u`, and the first `n` stand-ins have followed, to `v`. */
  ghost predicate Following(tw: Twins, t: State, u: State, v: State, n: nat)
    requires n <= |tw.rids| == |tw.forms|
  {
    && v == u.(reqs := v.reqs, rts := v.rts, requests := v.requests)
    && RuntimesSim(u.rts, v.rts)
    && tw.doc in u.reqs
    && (forall rid :: rid !in tw.rids ==> (rid in v.reqs <==> rid in u.reqs) && (rid in v.reqs ==> v.reqs[rid] == u.reqs[rid]))
    && (forall k :: 0 <= k < n ==> CaughtUp(tw, k, u.reqs, v.reqs))
    && (forall k :: n <= k < |tw.rids| ==> AsBefore(tw, k, t.reqs, v.reqs))
  }

  /** The stand-ins are where the document is and present what it presents, or are yet to come. */
  ghost predicate CanFollow(tw: Twins, t: State, step: RequestStep)
    requires |tw.forms| == |tw.rids|
  {
    forall k :: 0 <= k < |tw.rids| ==>
      if step.Arrive? then tw.rids[k] !in t.reqs
      else tw.doc in t.reqs && CaughtUp(tw, k, t.reqs, t.reqs) && tw.forms[k].presented == t.reqs[tw.doc].arrival.presented
  }

  /** The document's own step. */
  ghost predicate Steps(w: World, tw: Twins, t: State, u: State, step: RequestStep) {
    !Closes(step) && RequestEnabled(t, tw.doc, step) && u == RequestNext(w, t, tw.doc, step)
  }

  lemma NextFollows(w: World, cfg: Config.Config, run: seq<Action>, tw: Twins, t: State, u: State, v: State, step: RequestStep, n: nat)
    returns (x: State)
    requires Distinct(tw) && n < |tw.rids| && CanFollow(tw, t, step)
    requires Steps(w, tw, t, u, step) && Reaches(w, cfg, run + Followers(tw, step, n), v) && Following(tw, t, u, v, n)
    ensures Reaches(w, cfg, run + Followers(tw, step, n + 1), x) && Following(tw, t, u, x, n + 1)
  {
    var q := tw.rids[n];
    assert AsBefore(tw, n, t.reqs, v.reqs);
    RequestStepFrame(w, t, tw.doc, step);
    if step.Arrive? {
      x := RequestNext(w, v, q, Arrive(tw.forms[n]));
    } else {
      assert CaughtUp(tw, n, t.reqs, t.reqs);
      FollowStep(w, t, tw.doc, v, q, step);
      RequestStepFrame(w, v, q, step);
      x := RequestNext(w, v, q, step);
    }
    OneMoreFollows(tw, t, u, v, x, n);
    Generations.Extend(w, cfg, run + Followers(tw, step, n), v, Followed(tw, n, step));
    FollowersGrow(run, tw, step, n);
  }

  lemma NobodyFollows(run: seq<Action>, tw: Twins, step: RequestStep)
    requires |tw.rids| == |tw.forms|
    ensures run + Followers(tw, step, 0) == run
  {
  }

  lemma FollowersGrow(run: seq<Action>, tw: Twins, step: RequestStep, n: nat)
    requires n < |tw.rids| == |tw.forms|
    ensures run + Followers(tw, step, n) + [Followed(tw, n, step)] == run + Followers(tw, step, n + 1)
  {
  }

  lemma OneMoreFollows(tw: Twins, t: State, u: State, v: State, x: State, n: nat)
    requires Distinct(tw) && n < |tw.rids| && Following(tw, t, u, v, n)
    requires x == v.(reqs := x.reqs, rts := x.rts, requests := x.requests) && RuntimesSim(v.rts, x.rts)
    requires tw.rids[n] in x.reqs && x.reqs == v.reqs[tw.rids[n] := x.reqs[tw.rids[n]]] && CaughtUp(tw, n, u.reqs, x.reqs)
    ensures Following(tw, t, u, x, n + 1)
  {
    forall k | 0 <= k < n + 1 ensures CaughtUp(tw, k, u.reqs, x.reqs) {
      assert k < n ==> CaughtUp(tw, k, u.reqs, v.reqs);
    }
    forall k | n + 1 <= k < |tw.rids| ensures AsBefore(tw, k, t.reqs, x.reqs) {
      assert AsBefore(tw, k, t.reqs, v.reqs);
    }
  }

  /** All of them follow, one after the other. */
  lemma {:induction false} AllFollow(w: World, cfg: Config.Config, run: seq<Action>, tw: Twins, t: State, u: State, step: RequestStep, n: nat)
    returns (v: State)
    requires Distinct(tw) && n <= |tw.rids| && CanFollow(tw, t, step)
    requires Steps(w, tw, t, u, step) && Reaches(w, cfg, run, u) && Following(tw, t, u, u, 0)
    ensures Reaches(w, cfg, run + Followers(tw, step, n), v) && Following(tw, t, u, v, n)
  {
    if n == 0 {
      NobodyFollows(run, tw, step);
      v := u;
    } else {
      var m: nat := n - 1;
      var v0 := AllFollow(w, cfg, run, tw, t, u, step, m);
      v := NextFollows(w, cfg, run, tw, t, u, v0, step, m);
      assert m + 1 == n;
    }
  }

  /** Before it is served the document calls nothing, and neither do its stand-ins, which are where it is. */
  lemma NothingCalledYet(tw: Twins, s: State, t: State, step: RequestStep)
    requires Distinct(tw) && Sim(tw, s, t) && RequestEnabled(s, tw.doc, step) && !Closes(step)
    ensures CanFollow(tw, t, step)
    ensures forall cid :: cid in s.calls ==> cid.rid != tw.doc
    ensures forall k :: 0 <= k < |tw.rids| ==> Cid(tw.rids[k], 0) !in t.calls
  {
    forall cid | cid in s.calls ensures cid.rid != tw.doc {
      assert OwnCalls(tw, t.reqs, cid);
    }
    forall k | 0 <= k < |tw.rids|
      ensures Cid(tw.rids[k], 0) !in t.calls
      ensures step.Arrive? ==> tw.rids[k] !in t.reqs
      ensures !step.Arrive? ==> CaughtUp(tw, k, t.reqs, t.reqs) && tw.forms[k].presented == t.reqs[tw.doc].arrival.presented
    {
      assert PairSim(tw, k, t.reqs, s.calls, t.calls) && StandsIn(tw, k, t.reqs);
      assert tw.doc in s.reqs ==> FormFits(tw.forms[k], s.reqs[tw.doc].arrival, k);
    }
  }

  /** The document moves from `s` to `s1` and, on the other side, from `t` to `u`, where its stand-ins
      have yet to follow. */
  ghost predicate BothMoved(tw: Twins, s: State, s1: State, t: State, u: State) {
    && SameAround(s1, u) && s1.calls == s.calls && u.calls == t.calls && s1.trace == s.trace && u.trace == t.trace
    && tw.doc in s1.reqs && tw.doc in u.reqs && s1.reqs[tw.doc] == u.reqs[tw.doc] && !s1.reqs[tw.doc].phase.Closed?
    && s1.reqs == s.reqs[tw.doc := s1.reqs[tw.doc]] && u.reqs == t.reqs[tw.doc := u.reqs[tw.doc]]
    && Fits(tw, s1.reqs[tw.doc].arrival)
  }

  lemma DocumentMoves(w: World, tw: Twins, s: State, t: State, step: RequestStep)
    requires Distinct(tw) && Sim(tw, s, t) && RequestEnabled(s, tw.doc, step) && !Closes(step)
    requires step.Arrive? ==> Fits(tw, step.arrival)
    ensures RequestEnabled(t, tw.doc, step)
    ensures BothMoved(tw, s, RequestNext(w, s, tw.doc, step), t, RequestNext(w, t, tw.doc, step))
    ensures Following(tw, t, RequestNext(w, t, tw.doc, step), RequestNext(w, t, tw.doc, step), 0)
  {
    if !step.Arrive? {
      StepAlike(w, s, tw.doc, t, tw.doc, step);
      NotClosed(w, s, tw.doc, step);
    }
    RequestStepFrame(w, s, tw.doc, step);
    RequestStepFrame(w, t, tw.doc, step);
  }

  lemma NotClosed(w: World, s: State, rid: nat, step: RequestStep)
    requires Identifies(step) && RequestEnabled(s, rid, step)
    ensures rid in RequestNext(w, s, rid, step).reqs && !RequestNext(w, s, rid, step).reqs[rid].phase.Closed?
  {
    RequestStepFrame(w, s, rid, step);
    if step.Lookup? {
      LookupDoesNotClose(w, s, rid);
    }
  }

  lemma LookupDoesNotClose(w: World, s: State, rid: nat)
    requires RequestEnabled(s, rid, Lookup)
    ensures rid in LookupStep(w, s, rid).reqs && !LookupStep(w, s, rid).reqs[rid].phase.Closed?
  {
    var g, s1 := s.reqs[rid].phase.gen, LookupStep(w, s, rid);
    match s.reqs[rid].arrival.presented
    case None => assert s1 == Reject(s, rid, g, "-", MissingToken);
    case Some(p) =>
      if p == [] { assert s1 == Reject(s, rid, g, "-", UnknownToken); }
      else if w.crypto.digest(p) in s.rts[g].cache {
      }
  }

  lemma DocumentKeepsSim(w: World, cfg: Config.Config, run: seq<Action>, tw: Twins, s: State, t: State, step: RequestStep)
    returns (t1: State)
    requires Distinct(tw) && Sim(tw, s, t) && RequestEnabled(s, tw.doc, step) && !Closes(step) && Reaches(w, cfg, run, t)
    requires step.Arrive? ==> Fits(tw, step.arrival)
    ensures Reaches(w, cfg, run + Image(tw, OnRequest(tw.doc, step)), t1)
    ensures Sim(tw, RequestNext(w, s, tw.doc, step), t1)
  {
    DocumentMoves(w, tw, s, t, step);
    NothingCalledYet(tw, s, t, step);
    t1 := DocumentAndFollowers(w, cfg, run, tw, t, step);
    FollowedSim(tw, s, RequestNext(w, s, tw.doc, step), t, RequestNext(w, t, tw.doc, step), t1);
  }

  lemma DocumentAndFollowers(w: World, cfg: Config.Config, run: seq<Action>, tw: Twins, t: State, step: RequestStep)
    returns (v: State)
    requires Distinct(tw) && RequestEnabled(t, tw.doc, step) && !Closes(step) && Reaches(w, cfg, run, t) && CanFollow(tw, t, step)
    requires Following(tw, t, RequestNext(w, t, tw.doc, step), RequestNext(w, t, tw.doc, step), 0)
    ensures Reaches(w, cfg, run + Image(tw, OnRequest(tw.doc, step)), v)
    ensures Following(tw, t, RequestNext(w, t, tw.doc, step), v, |tw.rids|)
  {
    var a, u := OnRequest(tw.doc, step), RequestNext(w, t, tw.doc, step);
    Generations.Extend(w, cfg, run, t, a);
    v := AllFollow(w, cfg, run + [a], tw, t, u, step, |tw.rids|);
    assert run + [a] + Followers(tw, step, |tw.rids|) == run + ([a] + Followers(tw, step, |tw.rids|));
  }

  /** When the document and its stand-ins have moved, the two sides correspond again. */
  lemma FollowedSim(tw: Twins, s: State, s1: State, t: State, u: State, v: State)
    requires Distinct(tw) && Sim(tw, s, t) && BothMoved(tw, s, s1, t, u) && Following(tw, t, u, v, |tw.rids|)
    requires forall cid :: cid in s.calls ==> cid.rid != tw.doc
    requires forall k :: 0 <= k < |tw.rids| ==> Cid(tw.rids[k], 0) !in t.calls
    ensures Sim(tw, s1, v)
  {
    FollowedRequests(tw, s.reqs, s1.reqs, t.reqs, u.reqs, v.reqs);
    FollowedCalls(tw, t.reqs, v.reqs, s.calls, t.calls);
  }

  lemma FollowedRequests(tw: Twins, a: map<nat, Request>, a1: map<nat, Request>, b: map<nat, Request>, u: map<nat, Request>, v: map<nat, Request>)
    requires Distinct(tw) && RequestsSim(tw, a, b)
    requires tw.doc in a1 && tw.doc in u && a1[tw.doc] == u[tw.doc] && !a1[tw.doc].phase.Closed? && Fits(tw, a1[tw.doc].arrival)
    requires a1 == a[tw.doc := a1[tw.doc]] && u == b[tw.doc := u[tw.doc]]
    requires forall rid :: rid !in tw.rids ==> (rid in v <==> rid in u) && (rid in v ==> v[rid] == u[rid])
    requires forall k :: 0 <= k < |tw.rids| ==> CaughtUp(tw, k, u, v)
    ensures RequestsSim(tw, a1, v)
    ensures forall k :: 0 <= k < |tw.rids| ==> tw.rids[k] in v && !v[tw.rids[k]].phase.Closed?
  {
    forall k | 0 <= k < |tw.rids| ensures tw.rids[k] !in a1 && StandsIn(tw, k, v) && tw.rids[k] in v && !v[tw.rids[k]].phase.Closed? {
      assert CaughtUp(tw, k, u, v);
    }
  }

  lemma FollowedCalls(tw: Twins, b: map<nat, Request>, v: map<nat, Request>, c: map<Cid, CallState>, d: map<Cid, CallState>)
    requires CallsSim(tw, b, c, d)
    requires forall cid :: cid in c ==> cid.rid != tw.doc
    requires forall k :: 0 <= k < |tw.rids| ==> Cid(tw.rids[k], 0) !in d && tw.rids[k] in v && !v[tw.rids[k]].phase.Closed?
    ensures CallsSim(tw, v, c, d)
  {
    forall cid | cid in c ensures OwnCalls(tw, v, cid) {
      assert OwnCalls(tw, b, cid);
    }
    forall k | 0 <= k < |tw.rids| ensures PairSim(tw, k, v, c, d) {
      assert Cid(tw.doc, k) !in c && Cid(tw.rids[k], 0) !in d;
    }
  }
}
