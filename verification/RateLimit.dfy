/** Request budgets: one limiter per token, one keyed limiter per source address. */
module RateLimit {
  import opened Wrappers
  import opened Config
  import Sums

  // ----- the abstract limiter -----

  /** A limiter as an object of the library: its state is the list of times it has admitted, and
      `admit` decides the next check. `allowance(w)` is the most it admits in a window of width
      `w`; `stale` says that its state is as good as new. */
  datatype Quota = Quota(
    admit: (seq<nat>, nat) -> bool,
    allowance: nat -> nat,
    stale: (seq<nat>, nat) -> bool)

  ghost predicate Sorted(log: seq<nat>) {
    forall i, j :: 0 <= i <= j < |log| ==> log[i] <= log[j]
  }

  ghost predicate AtOrAfter(log: seq<nat>, t: nat) {
    forall i :: 0 <= i < |log| ==> t <= log[i]
  }

  /** Between any two admissions no more were made than the allowance of the time between them. */
  ghost predicate WithinAllowance(log: seq<nat>, allowance: nat -> nat) {
    forall i, j :: 0 <= i <= j < |log| && log[i] <= log[j] ==> j - i + 1 <= allowance(log[j] - log[i])
  }

  ghost predicate Monotone(allowance: nat -> nat) {
    forall w: nat, v: nat :: w <= v ==> allowance(w) <= allowance(v)
  }

  /** What is assumed of the library's limiter. */
  ghost predicate Honest(q: Quota) {
    && Monotone(q.allowance)
    && (forall log: seq<nat>, now: nat ::
          q.admit(log, now) && Sorted(log + [now]) && WithinAllowance(log, q.allowance)
          ==> WithinAllowance(log + [now], q.allowance))
  }

  /** Two states that no later check can tell apart. */
  ghost predicate Alike(q: Quota, a: seq<nat>, b: seq<nat>, since: nat) {
    forall later: seq<nat>, now: nat ::
      Sorted(later) && AtOrAfter(later, since) && since <= now && (forall i :: 0 <= i < |later| ==> later[i] <= now)
      ==> q.admit(a + later, now) == q.admit(b + later, now)
  }

  /** What is assumed of the library's sweep: it drops only states that behave like fresh ones. */
  ghost predicate SweepsOnlyFresh(q: Quota) {
    forall log: seq<nat>, now: nat :: q.stale(log, now) ==> Alike(q, log, [], now)
  }

  /** How many admissions fall in the window from `from` to `from + width`. */
  function CountIn(log: seq<nat>, from: nat, width: nat): nat {
    if log == [] then 0
    else CountIn(log[..|log| - 1], from, width)
         + (if from <= log[|log| - 1] <= from + width then 1 else 0)
  }

  lemma {:induction false} CountOfSuffix(log: seq<nat>, from: nat, width: nat, i: nat)
    requires i <= |log|
    requires forall k :: 0 <= k < i ==> log[k] < from
    requires forall k :: i <= k < |log| ==> from <= log[k] <= from + width
    ensures CountIn(log, from, width) == |log| - i
  {
    if log != [] {
      var last := |log| - 1;
      if i == |log| {
        CountOfSuffix(log[..last], from, width, last);
      } else {
        CountOfSuffix(log[..last], from, width, i);
      }
    }
  }

  lemma {:induction false} SuffixStart(log: seq<nat>, from: nat) returns (i: nat)
    requires Sorted(log)
    ensures i <= |log|
    ensures forall k :: 0 <= k < i ==> log[k] < from
    ensures forall k :: i <= k < |log| ==> from <= log[k]
  {
    if log == [] || log[|log| - 1] < from {
      i := |log|;
    } else {
      i := SuffixStart(log[..|log| - 1], from);
    }
  }

  lemma AllowanceBetween(log: seq<nat>, allowance: nat -> nat, i: nat, j: nat)
    requires Sorted(log) && WithinAllowance(log, allowance) && i <= j < |log|
    ensures log[i] <= log[j] && j - i + 1 <= allowance(log[j] - log[i])
  {
  }

  lemma WithinAllowanceOfPrefix(log: seq<nat>, allowance: nat -> nat, n: nat)
    requires Sorted(log) && WithinAllowance(log, allowance) && n <= |log|
    ensures Sorted(log[..n]) && WithinAllowance(log[..n], allowance)
  {
  }

  lemma WindowBoundAtLast(allowance: nat -> nat, log: seq<nat>, from: nat, width: nat)
    requires Monotone(allowance) && Sorted(log) && WithinAllowance(log, allowance)
    requires log != [] && from <= log[|log| - 1] <= from + width
    ensures CountIn(log, from, width) <= allowance(width)
  {
    var last := |log| - 1;
    var i := SuffixStart(log, from);
    CountOfSuffix(log, from, width, i);
    AllowanceBetween(log, allowance, i, last);
    assert allowance(log[last] - log[i]) <= allowance(width);
  }

  /** In any window whatever, no more than the allowance is admitted. */
  lemma {:induction false} WindowBound(allowance: nat -> nat, log: seq<nat>, from: nat, width: nat)
    requires Monotone(allowance) && Sorted(log) && WithinAllowance(log, allowance)
    ensures CountIn(log, from, width) <= allowance(width)
    decreases |log|
  {
    if log != [] {
      var last := |log| - 1;
      if from <= log[last] <= from + width {
        WindowBoundAtLast(allowance, log, from, width);
      } else {
        WithinAllowanceOfPrefix(log, allowance, last);
        WindowBound(allowance, log[..last], from, width);
      }
    }
  }

  // ----- per-token limiters -----

  datatype Limiter = Limiter(rate: u32, admitted: seq<nat>)

  type Limiters = map<string, Limiter>

  /** One fresh limiter per token name with a non-zero effective rate; a later token with the
      same name replaces the limiter of an earlier one. */
  function LimitersFor(tokens: seq<TokenConfig>, limits: Limits): Limiters {
    if tokens == [] then map[]
    else
      var last := tokens[|tokens| - 1];
      var before := LimitersFor(tokens[..|tokens| - 1], limits);
      if last.EffectiveRateLimit(limits) == 0 then before
      else before[last.name := Limiter(last.EffectiveRateLimit(limits), [])]
  }

  ghost predicate UniqueNames(tokens: seq<TokenConfig>) {
    forall i, j :: 0 <= i < j < |tokens| ==> tokens[i].name != tokens[j].name
  }

  /** With unique names a token has a limiter exactly when its effective rate is not 0, and it is its own. */
  lemma {:induction false} LimiterOfToken(tokens: seq<TokenConfig>, limits: Limits, i: nat)
    requires UniqueNames(tokens) && i < |tokens|
    ensures var rate := tokens[i].EffectiveRateLimit(limits);
            && (tokens[i].name in LimitersFor(tokens, limits) <==> rate != 0)
            && (rate != 0 ==> LimitersFor(tokens, limits)[tokens[i].name] == Limiter(rate, []))
  {
    var last := |tokens| - 1;
    if i < last {
      LimiterOfToken(tokens[..last], limits, i);
    } else if tokens[last].name in LimitersFor(tokens[..last], limits) {
      LimiterNamesAreTokenNames(tokens[..last], limits, tokens[last].name);
    }
  }

  lemma {:induction false} LimiterNamesAreTokenNames(tokens: seq<TokenConfig>, limits: Limits, name: string)
    requires name in LimitersFor(tokens, limits)
    ensures exists i :: 0 <= i < |tokens| && tokens[i].name == name
    ensures LimitersFor(tokens, limits)[name].admitted == []
  {
    if tokens[|tokens| - 1].name == name && tokens[|tokens| - 1].EffectiveRateLimit(limits) != 0 {
    } else {
      LimiterNamesAreTokenNames(tokens[..|tokens| - 1], limits, name);
      var i :| 0 <= i < |tokens[..|tokens| - 1]| && tokens[..|tokens| - 1][i].name == name;
      assert tokens[i].name == name;
    }
  }

  /** Spending one unit: a name without a limiter always passes. */
  function CheckOn(quotaOf: u32 -> Quota, limiters: Limiters, name: string, now: nat): (bool, Limiters) {
    if name !in limiters then (true, limiters)
    else
      var l := limiters[name];
      if quotaOf(l.rate).admit(l.admitted, now) then
        (true, limiters[name := l.(admitted := l.admitted + [now])])
      else (false, limiters)
  }

  // ----- whose limiter it is -----

  predicate IsLimited(t: TokenConfig, limits: Limits) { t.EffectiveRateLimit(limits) != 0 }

  /** The last limited token of a name is `i`. */
  ghost predicate IsLastLimited(tokens: seq<TokenConfig>, limits: Limits, name: string, i: nat) {
    && i < |tokens| && tokens[i].name == name && IsLimited(tokens[i], limits)
    && forall j :: i < j < |tokens| && tokens[j].name == name ==> !IsLimited(tokens[j], limits)
  }

  /** For every list of tokens: a name has a limiter exactly when some token of that name is limited,
      and the limiter is the last such token's. */
  lemma {:induction false} NameIsLimitedExactly(tokens: seq<TokenConfig>, limits: Limits, name: string)
    ensures name in LimitersFor(tokens, limits) <==>
              exists i :: 0 <= i < |tokens| && tokens[i].name == name && IsLimited(tokens[i], limits)
    ensures name in LimitersFor(tokens, limits) ==>
              exists i: nat :: IsLastLimited(tokens, limits, name, i)
                && LimitersFor(tokens, limits)[name] == Limiter(tokens[i].EffectiveRateLimit(limits), [])
  {
    if tokens != [] {
      var last, before := |tokens| - 1, tokens[..|tokens| - 1];
      NameIsLimitedExactly(before, limits, name);
      if tokens[last].name == name && IsLimited(tokens[last], limits) {
        assert IsLastLimited(tokens, limits, name, last);
      } else if name in LimitersFor(before, limits) {
        var i: nat :| IsLastLimited(before, limits, name, i)
          && LimitersFor(before, limits)[name] == Limiter(before[i].EffectiveRateLimit(limits), []);
        assert tokens[i] == before[i];
        assert IsLastLimited(tokens, limits, name, i);
      } else {
        forall i | 0 <= i < |tokens| && tokens[i].name == name ensures !IsLimited(tokens[i], limits) {
          if i < last { assert before[i] == tokens[i]; }
        }
      }
    }
  }

  function LimiterOf(limiters: Limiters, t: TokenConfig): Option<Limiter> {
    if t.name in limiters then Some(limiters[t.name]) else None
  }

  /** What is promised: each limited token has a limiter of its own rate and each unlimited one has
      none, and no charge to one token is felt by another. */
  ghost predicate EachHasItsOwn(tokens: seq<TokenConfig>, limits: Limits) {
    var limiters := LimitersFor(tokens, limits);
    && (forall i :: 0 <= i < |tokens| ==>
          LimiterOf(limiters, tokens[i]) ==
            if IsLimited(tokens[i], limits) then Some(Limiter(tokens[i].EffectiveRateLimit(limits), [])) else None)
    && (forall i, j, quotaOf, now :: 0 <= i < |tokens| && 0 <= j < |tokens| && i != j ==>
          LimiterOf(CheckOn(quotaOf, limiters, tokens[i].name, now).1, tokens[j]) == LimiterOf(limiters, tokens[j]))
  }

  /** No limited token shares its name with another token, limited or not. */
  ghost predicate LimitedNamesAreOwn(tokens: seq<TokenConfig>, limits: Limits) {
    forall i, j :: 0 <= i < |tokens| && 0 <= j < |tokens| && i != j && IsLimited(tokens[i], limits) ==>
      tokens[i].name != tokens[j].name
  }

  /** Two tokens of one name, one of them limited, share one budget: a charge to either is felt by
      the other, and a token configured as unlimited is limited after all. */
  lemma SharedNameSharesBudget(tokens: seq<TokenConfig>, limits: Limits, i: nat, j: nat, now: nat)
    requires i < |tokens| && j < |tokens| && tokens[i].name == tokens[j].name && IsLimited(tokens[i], limits)
    ensures var limiters := LimitersFor(tokens, limits);
            var quotaOf := (rate: u32) => TokenBucket(1, 1);
            && LimiterOf(limiters, tokens[i]) == LimiterOf(limiters, tokens[j]) != None
            && LimiterOf(CheckOn(quotaOf, limiters, tokens[i].name, now).1, tokens[j]) != LimiterOf(limiters, tokens[j])
  {
    NameIsLimitedExactly(tokens, limits, tokens[i].name);
    var l := LimitersFor(tokens, limits)[tokens[i].name];
    assert l.admitted == [] && |l.admitted + [now]| == 1;
  }

  /** The promise is kept exactly when no limited token shares its name. */
  lemma OwnLimitersExactlyWithOwnNames(tokens: seq<TokenConfig>, limits: Limits)
    ensures EachHasItsOwn(tokens, limits) <==> LimitedNamesAreOwn(tokens, limits)
  {
    var limiters := LimitersFor(tokens, limits);
    if LimitedNamesAreOwn(tokens, limits) {
      forall i | 0 <= i < |tokens|
        ensures LimiterOf(limiters, tokens[i]) ==
                  if IsLimited(tokens[i], limits) then Some(Limiter(tokens[i].EffectiveRateLimit(limits), [])) else None
      {
        OwnNameOwnLimiter(tokens, limits, i);
      }
      forall i, j, quotaOf, now | 0 <= i < |tokens| && 0 <= j < |tokens| && i != j
        ensures LimiterOf(CheckOn(quotaOf, limiters, tokens[i].name, now).1, tokens[j]) == LimiterOf(limiters, tokens[j])
      {
        OwnNameOwnLimiter(tokens, limits, i);
      }
    } else {
      var i, j :| 0 <= i < |tokens| && 0 <= j < |tokens| && i != j && IsLimited(tokens[i], limits) && tokens[i].name == tokens[j].name;
      SharedNameSharesBudget(tokens, limits, i, j, 0);
    }
  }

  lemma OwnNameOwnLimiter(tokens: seq<TokenConfig>, limits: Limits, i: nat)
    requires LimitedNamesAreOwn(tokens, limits) && i < |tokens|
    ensures LimiterOf(LimitersFor(tokens, limits), tokens[i]) ==
              if IsLimited(tokens[i], limits) then Some(Limiter(tokens[i].EffectiveRateLimit(limits), [])) else None
  {
    NameIsLimitedExactly(tokens, limits, tokens[i].name);
    if tokens[i].name in LimitersFor(tokens, limits) {
      var k: nat :| IsLastLimited(tokens, limits, tokens[i].name, k)
        && LimitersFor(tokens, limits)[tokens[i].name] == Limiter(tokens[k].EffectiveRateLimit(limits), []);
      assert k == i;
    }
  }

  // ----- the keyed limiter of source addresses -----

  type Ip = int
  type Store = map<Ip, seq<nat>>

  function LogOf(store: Store, ip: Ip): seq<nat> {
    if ip in store then store[ip] else []
  }

  function Swept(q: Quota, store: Store, now: nat): Store {
    map ip | ip in store && !q.stale(store[ip], now) :: store[ip]
  }

  /** One check of one address; the key is stored whatever the answer. */
  function CheckKey(q: Quota, store: Store, ip: Ip, now: nat): (bool, Store) {
    var log := LogOf(store, ip);
    if q.admit(log, now) then (true, store[ip := log + [now]]) else (false, store[ip := log])
  }

  const SWEEP_EVERY := 1024
  const U32_SIZE := 0x1_0000_0000

  ghost predicate StoresAlike(q: Quota, a: Store, b: Store, since: nat) {
    forall ip :: Alike(q, LogOf(a, ip), LogOf(b, ip), since)
  }

  lemma AlikeLater(q: Quota, a: seq<nat>, b: seq<nat>, since: nat, later: nat)
    requires Alike(q, a, b, since) && since <= later
    ensures Alike(q, a, b, later)
  {
    forall l: seq<nat>, now: nat | Sorted(l) && AtOrAfter(l, later) && later <= now && (forall i :: 0 <= i < |l| ==> l[i] <= now)
      ensures q.admit(a + l, now) == q.admit(b + l, now)
    {
      assert AtOrAfter(l, since);
    }
  }

  lemma AlikeExtends(q: Quota, a: seq<nat>, b: seq<nat>, now: nat)
    requires Alike(q, a, b, now)
    ensures Alike(q, a + [now], b + [now], now)
  {
    forall l: seq<nat>, t: nat | Sorted(l) && AtOrAfter(l, now) && now <= t && (forall i :: 0 <= i < |l| ==> l[i] <= t)
      ensures q.admit(a + [now] + l, t) == q.admit(b + [now] + l, t)
    {
      var m := [now] + l;
      assert a + [now] + l == a + m && b + [now] + l == b + m;
      assert Sorted(m) && AtOrAfter(m, now);
    }
  }

  lemma AlikeDecides(q: Quota, a: seq<nat>, b: seq<nat>, now: nat)
    requires Alike(q, a, b, now)
    ensures q.admit(a, now) == q.admit(b, now)
  {
    var none: seq<nat> := [];
    assert a + none == a && b + none == b;
    assert Sorted(none) && AtOrAfter(none, now);
  }

  lemma AlikeComposes(q: Quota, a: seq<nat>, b: seq<nat>, c: seq<nat>, since: nat)
    requires Alike(q, a, b, since) && Alike(q, b, c, since)
    ensures Alike(q, a, c, since)
  {
    forall l: seq<nat>, now: nat | Sorted(l) && AtOrAfter(l, since) && since <= now && (forall i :: 0 <= i < |l| ==> l[i] <= now)
      ensures q.admit(a + l, now) == q.admit(c + l, now)
    {
      assert q.admit(a + l, now) == q.admit(b + l, now);
    }
  }

  lemma SweepKeepsAlike(q: Quota, store: Store, whole: Store, since: nat, now: nat)
    requires SweepsOnlyFresh(q) && since <= now
    requires StoresAlike(q, whole, store, since)
    ensures StoresAlike(q, whole, Swept(q, store, now), now)
  {
    forall ip ensures Alike(q, LogOf(whole, ip), LogOf(Swept(q, store, now), ip), now) {
      AlikeLater(q, LogOf(whole, ip), LogOf(store, ip), since, now);
      if ip in store && q.stale(store[ip], now) {
        AlikeComposes(q, LogOf(whole, ip), store[ip], [], now);
      }
    }
  }

  lemma CheckKeepsAlike(q: Quota, store: Store, whole: Store, ip: Ip, now: nat)
    requires StoresAlike(q, whole, store, now)
    ensures CheckKey(q, store, ip, now).0 == CheckKey(q, whole, ip, now).0
    ensures StoresAlike(q, CheckKey(q, whole, ip, now).1, CheckKey(q, store, ip, now).1, now)
  {
    var s, w := CheckKey(q, store, ip, now).1, CheckKey(q, whole, ip, now).1;
    AlikeDecides(q, LogOf(whole, ip), LogOf(store, ip), now);
    forall other ensures Alike(q, LogOf(w, other), LogOf(s, other), now) {
      assert Alike(q, LogOf(whole, other), LogOf(store, other), now);
      if other == ip && q.admit(LogOf(store, ip), now) {
        AlikeExtends(q, LogOf(whole, ip), LogOf(store, ip), now);
      }
    }
  }

  predicate SweepIsDue(sweep: u32) {
    sweep % SWEEP_EVERY == SWEEP_EVERY - 1
  }

  function Bump(sweep: u32): u32 {
    (sweep + 1) % U32_SIZE
  }

  /** The store a check meets: swept first when the counter says so. */
  function StoreToCheck(q: Quota, store: Store, sweep: u32, now: nat): Store {
    if SweepIsDue(sweep) then Swept(q, store, now) else store
  }

  // ----- any number of checks -----

  /** One check: which address, and when. */
  datatype Query = Query(ip: Ip, at: nat)

  ghost predicate InOrder(queries: seq<Query>) {
    forall i, j :: 0 <= i <= j < |queries| ==> queries[i].at <= queries[j].at
  }

  function Latest(queries: seq<Query>): nat {
    if queries == [] then 0 else queries[|queries| - 1].at
  }

  /** What a sequence of checks on a new keyed limiter leads to: its store, its 32-bit counter, how
      many sweeps were made, what the last one left, and the answers. */
  datatype Run = Run(store: Store, counter: u32, sweeps: nat, kept: Store, answers: seq<bool>)

  function RunOf(q: Quota, queries: seq<Query>): Run {
    if queries == [] then Run(map[], 0, 0, map[], [])
    else RunStep(q, RunOf(q, queries[..|queries| - 1]), queries[|queries| - 1])
  }

  function RunStep(q: Quota, r: Run, x: Query): Run {
    var met := StoreToCheck(q, r.store, r.counter, x.at);
    var (ok, store) := CheckKey(q, met, x.ip, x.at);
    if SweepIsDue(r.counter) then Run(store, Bump(r.counter), r.sweeps + 1, met, r.answers + [ok])
    else Run(store, Bump(r.counter), r.sweeps, r.kept, r.answers + [ok])
  }

  /** The store and the answers had it never been swept. */
  function Unswept(q: Quota, queries: seq<Query>): (Store, seq<bool>) {
    if queries == [] then (map[], [])
    else
      var (store, answers) := Unswept(q, queries[..|queries| - 1]);
      var x := queries[|queries| - 1];
      var (ok, after) := CheckKey(q, store, x.ip, x.at);
      (after, answers + [ok])
  }

  lemma RemainderIs(n: nat, k: nat, c: nat)
    requires n == U32_SIZE * k + c && c < U32_SIZE
    ensures n % U32_SIZE == c
  {
  }

  lemma SweepRemainderIs(n: nat, k: nat, c: nat)
    requires n == SWEEP_EVERY * k + c && c < SWEEP_EVERY
    ensures n % SWEEP_EVERY == c && n / SWEEP_EVERY == k
  {
  }

  /** Counting on: the wrapped counter knows when the next sweep is due. */
  lemma CounterStep(n: nat)
    ensures Bump(n % U32_SIZE) == (n + 1) % U32_SIZE
    ensures SweepIsDue(n % U32_SIZE) <==> n % SWEEP_EVERY == SWEEP_EVERY - 1
  {
    var k, c := n / U32_SIZE, n % U32_SIZE;
    if c + 1 == U32_SIZE { RemainderIs(n + 1, k + 1, 0); } else { RemainderIs(n + 1, k, c + 1); }
    SweepRemainderIs(n, 4194304 * k + c / SWEEP_EVERY, c % SWEEP_EVERY);
  }

  lemma QuotientStep(n: nat)
    ensures (n + 1) / SWEEP_EVERY == n / SWEEP_EVERY + (if n % SWEEP_EVERY == SWEEP_EVERY - 1 then 1 else 0)
    ensures (n + 1) % SWEEP_EVERY == if n % SWEEP_EVERY == SWEEP_EVERY - 1 then 0 else n % SWEEP_EVERY + 1
  {
    var k, c := n / SWEEP_EVERY, n % SWEEP_EVERY;
    if c == SWEEP_EVERY - 1 { SweepRemainderIs(n + 1, k + 1, 0); } else { SweepRemainderIs(n + 1, k, c + 1); }
  }

  lemma OneMoreKey(q: Quota, met: Store, kept: Store, x: Query)
    ensures |CheckKey(q, met, x.ip, x.at).1.Keys - kept.Keys| <= |met.Keys - kept.Keys| + 1
  {
    var after := CheckKey(q, met, x.ip, x.at).1;
    assert after.Keys - kept.Keys <= (met.Keys - kept.Keys) + {x.ip};
    Sums.SubsetSize(after.Keys - kept.Keys, (met.Keys - kept.Keys) + {x.ip});
  }

  /** After `n` checks: what has been swept, counted, added and answered. */
  ghost predicate Counted(r: Run, n: nat) {
    && r.sweeps == n / SWEEP_EVERY
    && r.counter == n % U32_SIZE
    && |r.store.Keys - r.kept.Keys| <= n % SWEEP_EVERY + (if r.sweeps == 0 then 0 else 1)
    && |r.answers| == n
  }

  lemma StepCounted(q: Quota, r: Run, n: nat, x: Query)
    requires Counted(r, n)
    ensures Counted(RunStep(q, r, x), n + 1)
  {
    CounterStep(n);
    QuotientStep(n);
    var met := StoreToCheck(q, r.store, r.counter, x.at);
    if SweepIsDue(r.counter) {
      var none: set<Ip> := {};
      assert met.Keys - met.Keys == none;
      OneMoreKey(q, met, met, x);
    } else {
      OneMoreKey(q, met, r.kept, x);
    }
  }

  /** For any number of checks, including past the counter's 32-bit wrap: exactly one sweep has been
      made per 1024 checks, and since the last one at most 1024 addresses have been added. */
  lemma {:induction false} SweepsExactly(q: Quota, queries: seq<Query>)
    ensures var r := RunOf(q, queries);
            && r.sweeps == |queries| / 1024
            && |r.store.Keys - r.kept.Keys| <= 1024
            && Counted(r, |queries|)
    decreases |queries|
  {
    if queries == [] {
      var none: set<Ip> := {};
      assert RunOf(q, queries).store.Keys - RunOf(q, queries).kept.Keys == none;
    } else {
      var n := |queries| - 1;
      SweepsExactly(q, queries[..n]);
      StepCounted(q, RunOf(q, queries[..n]), n, queries[n]);
    }
  }

  /** Every answer is the one a store that is never swept would have given. */
  lemma {:induction false} AnswersAsUnswept(q: Quota, queries: seq<Query>)
    requires SweepsOnlyFresh(q) && InOrder(queries)
    ensures RunOf(q, queries).answers == Unswept(q, queries).1
    ensures StoresAlike(q, Unswept(q, queries).0, RunOf(q, queries).store, Latest(queries))
    decreases |queries|
  {
    if queries != [] {
      var n := |queries| - 1;
      AnswersAsUnswept(q, queries[..n]);
      var r, x := RunOf(q, queries[..n]), queries[n];
      assert Latest(queries[..n]) <= x.at;
      CheckIpAgrees(q, r.store, Unswept(q, queries[..n]).0, Latest(queries[..n]), x.ip, x.at, r.counter);
    }
  }

  class RateLimits {
    const quotaOf: u32 -> Quota
    var limiters: Limiters
    /** The per-address rate; 0 means no keyed limiter at all. */
    const ipRate: u32
    var store: Store
    var sweep: u32
    /** Every check of an address so far. */
    ghost var queries: seq<Query>

    ghost predicate Valid()
      reads this`store, this`sweep, this`queries
    {
      && InOrder(queries)
      && store == RunOf(quotaOf(ipRate), queries).store
      && sweep == RunOf(quotaOf(ipRate), queries).counter
    }

    /** Builds one fresh limiter per limited token, in the order of the configuration. */
    constructor FromConfig(quotaOf: u32 -> Quota, tokens: seq<TokenConfig>, limits: Limits)
      ensures Valid() && this.quotaOf == quotaOf && ipRate == limits.rateLimitPerIpPerMinute
      ensures limiters == LimitersFor(tokens, limits)
      ensures store == map[] && sweep == 0 && queries == []
    {
      var built: Limiters := map[];
      for i := 0 to |tokens|
        invariant built == LimitersFor(tokens[..i], limits)
      {
        assert tokens[..i + 1][..i] == tokens[..i];
        var perMinute := tokens[i].EffectiveRateLimit(limits);
        if perMinute != 0 {
          built := built[tokens[i].name := Limiter(perMinute, [])];
        }
      }
      assert tokens[..|tokens|] == tokens;
      this.quotaOf := quotaOf;
      this.ipRate := limits.rateLimitPerIpPerMinute;
      store, sweep, limiters := map[], 0, built;
      queries := [];
    }

    /** Spends one unit of the token's budget: a name without a limiter passes, and otherwise its own
        limiter answers and, if it lets the charge through, remembers it; no other limiter changes. */
    method Check(token: TokenConfig, now: nat) returns (ok: bool)
      requires Valid()
      modifies this`limiters
      ensures Valid()
      ensures (ok, limiters) == CheckOn(quotaOf, old(limiters), token.name, now)
      ensures token.name !in old(limiters) ==> ok
      ensures token.name in old(limiters) ==> ok == quotaOf(old(limiters)[token.name].rate).admit(old(limiters)[token.name].admitted, now)
      ensures token.name in old(limiters) && ok ==>
                var l := old(limiters)[token.name];
                limiters == old(limiters)[token.name := Limiter(l.rate, l.admitted + [now])]
      ensures token.name !in old(limiters) || !ok ==> limiters == old(limiters)
    {
      if token.name in limiters {
        var l := limiters[token.name];
        ok := quotaOf(l.rate).admit(l.admitted, now);
        if ok {
          limiters := limiters[token.name := l.(admitted := l.admitted + [now])];
        }
      } else {
        ok := true;
      }
    }

    /** Spends one unit of an address's budget, sweeping first on every 1024th check. */
    method CheckIp(ip: Ip, now: nat) returns (ok: bool)
      requires Valid() && Latest(queries) <= now
      modifies this`store, this`sweep, this`queries
      ensures Valid()
      ensures ipRate == 0 ==> ok && unchanged(this)
      ensures ipRate != 0 ==> queries == old(queries) + [Query(ip, now)]
      ensures ipRate != 0 ==>
                (ok, store) == CheckKey(quotaOf(ipRate), StoreToCheck(quotaOf(ipRate), old(store), old(sweep), now), ip, now)
      ensures ipRate != 0 ==>
                var met := if old(sweep) % 1024 == 1023 then Swept(quotaOf(ipRate), old(store), now) else old(store);
                var log := if ip in met then met[ip] else [];
                && ok == quotaOf(ipRate).admit(log, now)
                && store == met[ip := if ok then log + [now] else log]
                && sweep == (old(sweep) + 1) % 0x1_0000_0000
      ensures ipRate != 0 ==> RunOf(quotaOf(ipRate), queries).answers == RunOf(quotaOf(ipRate), old(queries)).answers + [ok]
    {
      if ipRate == 0 {
        return true;
      }
      var q := quotaOf(ipRate);
      RunExtends(q, queries, Query(ip, now));
      var before := sweep;
      sweep := Bump(sweep);
      if SweepIsDue(before) {
        store := Swept(q, store, now);
      }
      var log := LogOf(store, ip);
      ok := q.admit(log, now);
      store := store[ip := if ok then log + [now] else log];
      queries := queries + [Query(ip, now)];
    }
  }

  lemma RunExtends(q: Quota, queries: seq<Query>, x: Query)
    requires InOrder(queries) && Latest(queries) <= x.at
    ensures InOrder(queries + [x]) && RunOf(q, queries + [x]) == RunStep(q, RunOf(q, queries), x)
  {
    assert (queries + [x])[..|queries|] == queries;
  }

  /** Sweeping first or not, the answer and the later behaviour are those of the unswept store. */
  lemma CheckIpAgrees(q: Quota, store: Store, whole: Store, since: nat, ip: Ip, now: nat, sweep: u32)
    requires SweepsOnlyFresh(q) && StoresAlike(q, whole, store, since) && since <= now
    ensures var s := StoreToCheck(q, store, sweep, now);
            && CheckKey(q, s, ip, now).0 == CheckKey(q, whole, ip, now).0
            && StoresAlike(q, CheckKey(q, whole, ip, now).1, CheckKey(q, s, ip, now).1, now)
  {
    if SweepIsDue(sweep) {
      SweepKeepsAlike(q, store, whole, since, now);
      CheckKeepsAlike(q, Swept(q, store, now), whole, ip, now);
    } else {
      forall other ensures Alike(q, LogOf(whole, other), LogOf(store, other), now) {
        AlikeLater(q, LogOf(whole, other), LogOf(store, other), since, now);
      }
      CheckKeepsAlike(q, store, whole, ip, now);
    }
  }

  // ----- an instance -----

  /** The theoretical arrival time of a token bucket after its admissions. */
  function ArrivalTime(log: seq<nat>, interval: nat): nat {
    if log == [] then 0
    else
      var before, last := ArrivalTime(log[..|log| - 1], interval), log[|log| - 1];
      (if before < last then last else before) + interval
  }

  /** A token bucket that holds `burst` units and regains one every `interval`. */
  function TokenBucket(burst: nat, interval: nat): Quota
    requires burst >= 1 && interval >= 1
  {
    Quota((log: seq<nat>, now: nat) => ArrivalTime(log, interval) <= now + (burst - 1) * interval,
          (w: nat) => burst + w / interval,
          (log: seq<nat>, now: nat) => ArrivalTime(log, interval) <= now)
  }

  lemma {:induction false} ArrivalTimeGrows(log: seq<nat>, interval: nat, i: nat)
    requires i < |log|
    ensures ArrivalTime(log, interval) >= log[i] + (|log| - i) * interval
    decreases |log|
  {
    var last := |log| - 1;
    if i < last {
      ArrivalTimeGrows(log[..last], interval, i);
      MulStep(last - i, interval);
    } else {
      assert (|log| - i) * interval == interval;
    }
  }

  lemma MulStep(k: nat, t: nat)
    ensures (k + 1) * t == k * t + t
  {
  }

  lemma QuotientBound(d: nat, w: nat, t: nat)
    requires t >= 1 && d * t <= w
    ensures d <= w / t
  {
    var r := w % t;
    assert w == (w / t) * t + r;
    assert (w / t + 1) * t == (w / t) * t + t;
    assert d * t < (w / t + 1) * t;
    assert d < w / t + 1;
  }

  lemma DivideBound(k: nat, burst: nat, w: nat, t: nat)
    requires t >= 1 && k * t <= w + burst * t
    ensures k <= burst + w / t
  {
    if k > burst {
      var d := k - burst;
      assert k * t == d * t + burst * t;
      QuotientBound(d, w, t);
    }
  }

  lemma WidestAllowance(w: nat, v: nat, t: nat)
    requires t >= 1 && w <= v
    ensures w / t <= v / t
  {
    assert w == (w / t) * t + w % t;
    QuotientBound(w / t, v, t);
  }

  /** The assumptions made of the library's limiter can be met: a token bucket meets the first. */
  lemma TokenBucketIsHonest(burst: nat, interval: nat)
    requires burst >= 1 && interval >= 1
    ensures Honest(TokenBucket(burst, interval))
  {
    var q := TokenBucket(burst, interval);
    forall w: nat, v: nat | w <= v ensures q.allowance(w) <= q.allowance(v) {
      WidestAllowance(w, v, interval);
    }
    forall log: seq<nat>, now: nat | q.admit(log, now) && Sorted(log + [now]) && WithinAllowance(log, q.allowance)
      ensures WithinAllowance(log + [now], q.allowance)
    {
      BucketAdmission(burst, interval, log, now);
    }
  }

  lemma BucketAdmission(burst: nat, interval: nat, log: seq<nat>, now: nat)
    requires burst >= 1 && interval >= 1
    requires var q := TokenBucket(burst, interval);
             q.admit(log, now) && Sorted(log + [now]) && WithinAllowance(log, q.allowance)
    ensures WithinAllowance(log + [now], TokenBucket(burst, interval).allowance)
  {
    var q, after := TokenBucket(burst, interval), log + [now];
    assert after[..|log|] == log;
    forall i, j | 0 <= i <= j < |after| && after[i] <= after[j] ensures j - i + 1 <= q.allowance(after[j] - after[i]) {
      if j == |log| {
        NewestAdmission(burst, interval, log, now, i);
      } else {
        assert after[i] == log[i] && after[j] == log[j];
      }
    }
  }

  lemma NewestAdmission(burst: nat, interval: nat, log: seq<nat>, now: nat, i: nat)
    requires burst >= 1 && interval >= 1 && i <= |log|
    requires TokenBucket(burst, interval).admit(log, now) && Sorted(log + [now])
    ensures (log + [now])[i] <= now && |log| - i + 1 <= burst + (now - (log + [now])[i]) / interval
  {
    var after := log + [now];
    assert after[..|log|] == log && after[|log|] == now;
    ArrivalTimeGrows(after, interval, i);
    MulStep(burst - 1, interval);
    assert ArrivalTime(after, interval) <= now + burst * interval;
    DivideBound(|log| - i + 1, burst, now - after[i], interval);
  }

  lemma {:induction false} StaleIsForgotten(log: seq<nat>, later: seq<nat>, since: nat, interval: nat)
    requires ArrivalTime(log, interval) <= since && AtOrAfter(later, since) && later != []
    ensures ArrivalTime(log + later, interval) == ArrivalTime(later, interval)
  {
    var last := |later| - 1;
    assert (log + later)[..|log + later| - 1] == log + later[..last];
    if last == 0 {
      assert later[..last] == [] && log + [] == log;
    } else {
      StaleIsForgotten(log, later[..last], since, interval);
    }
  }

  /** ... and the second. */
  lemma TokenBucketSweepsOnlyFresh(burst: nat, interval: nat)
    requires burst >= 1 && interval >= 1
    ensures SweepsOnlyFresh(TokenBucket(burst, interval))
  {
    var q := TokenBucket(burst, interval);
    forall log: seq<nat>, now: nat | q.stale(log, now) ensures Alike(q, log, [], now) {
      forall later: seq<nat>, t: nat | Sorted(later) && AtOrAfter(later, now) && now <= t && (forall i :: 0 <= i < |later| ==> later[i] <= t)
        ensures q.admit(log + later, t) == q.admit([] + later, t)
      {
        StaleDecidesAlike(burst, interval, log, later, now, t);
      }
    }
  }

  lemma StaleDecidesAlike(burst: nat, interval: nat, log: seq<nat>, later: seq<nat>, now: nat, t: nat)
    requires burst >= 1 && interval >= 1
    requires ArrivalTime(log, interval) <= now <= t && AtOrAfter(later, now)
    ensures TokenBucket(burst, interval).admit(log + later, t) == TokenBucket(burst, interval).admit([] + later, t)
  {
    assert [] + later == later;
    if later == [] {
      assert log + later == log;
      BurstCovers(burst, interval);
    } else {
      StaleIsForgotten(log, later, now, interval);
    }
  }

  lemma BurstCovers(burst: nat, interval: nat)
    requires burst >= 1
    ensures (burst - 1) * interval >= 0
  {
  }
}
