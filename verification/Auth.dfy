/** Token authentication: a memo over a linear scan, and the strength test for self-chosen keys. */
module Auth {
  import opened Wrappers
  import opened Config

  /** The two library functions, as values: a digest of the presented text, and whether a text matches a stored hash. */
  datatype Crypto = Crypto(digest: string -> int, verify: (string, string) -> bool)

  /** The uncached scan looks at every token and keeps the first that matches. */
  function FirstMatch(c: Crypto, tokens: seq<TokenConfig>, presented: string): (r: Option<nat>)
    ensures r.Some? ==> r.value < |tokens| && c.verify(presented, tokens[r.value].hash)
    ensures forall j :: 0 <= j < (if r.Some? then r.value else |tokens|) ==> !c.verify(presented, tokens[j].hash)
  {
    if tokens == [] then None
    else
      var last := |tokens| - 1;
      match FirstMatch(c, tokens[..last], presented)
      case Some(i) => Some(i)
      case None => if c.verify(presented, tokens[last].hash) then Some(last) else None
  }

  function Scan(c: Crypto, tokens: seq<TokenConfig>, presented: string): (r: Option<nat>)
    ensures r.Some? ==> r.value < |tokens| && c.verify(presented, tokens[r.value].hash)
  {
    if presented == [] then None else FirstMatch(c, tokens, presented)
  }

  type Cache = map<int, nat>

  /** A cache entry was put there by a presented text that the scan resolves to that index. */
  ghost predicate Justifies(c: Crypto, tokens: seq<TokenConfig>, presented: string, key: int, idx: nat) {
    presented != [] && c.digest(presented) == key && FirstMatch(c, tokens, presented) == Some(idx)
  }

  ghost predicate CacheJustified(c: Crypto, tokens: seq<TokenConfig>, cache: Cache) {
    forall key :: key in cache ==> exists p :: Justifies(c, tokens, p, key, cache[key])
  }

  /** No text shares a digest with a text that the scan resolves differently. An injective digest
      guarantees this; it is also exactly what the memo needs, as shown below. */
  ghost predicate CollisionFree(c: Crypto, tokens: seq<TokenConfig>) {
    forall a, b :: a != [] && b != [] && c.digest(a) == c.digest(b) && FirstMatch(c, tokens, a).Some?
                   ==> FirstMatch(c, tokens, b) == FirstMatch(c, tokens, a)
  }

  /** What an entry for this text's digest says of it: some text with that digest scans to `idx`. */
  ghost predicate Resolves(c: Crypto, tokens: seq<TokenConfig>, presented: string, idx: nat) {
    exists p :: Justifies(c, tokens, p, c.digest(presented), idx)
  }

  /** Without collisions that text scans to `idx` itself. */
  lemma ResolvedIsScanned(c: Crypto, tokens: seq<TokenConfig>, presented: string, idx: nat)
    requires presented != [] && Resolves(c, tokens, presented, idx)
    ensures idx < |tokens|
    ensures CollisionFree(c, tokens) ==> Scan(c, tokens, presented) == Some(idx)
  {
    var p :| Justifies(c, tokens, p, c.digest(presented), idx);
  }

  ghost predicate InjectiveDigest(c: Crypto) {
    forall a, b :: c.digest(a) == c.digest(b) ==> a == b
  }

  /** A stored hash accepts at most one text. */
  ghost predicate OneTextPerHash(c: Crypto) {
    forall h, a, b :: c.verify(a, h) && c.verify(b, h) ==> a == b
  }

  lemma InjectiveDigestIsCollisionFree(c: Crypto, tokens: seq<TokenConfig>)
    requires InjectiveDigest(c)
    ensures CollisionFree(c, tokens)
  {
  }

  // ----- one call, as the code runs it -----

  /** What one call returns and leaves in the cache. */
  function AuthenticateOn(c: Crypto, tokens: seq<TokenConfig>, cache: Cache, presented: string): (r: (Option<nat>, Cache))
    ensures r.0.Some? ==> r.0.value < |tokens|
  {
    if presented == [] then (None, cache)
    else if c.digest(presented) in cache then
      (if cache[c.digest(presented)] < |tokens| then Some(cache[c.digest(presented)]) else None, cache)
    else
      match FirstMatch(c, tokens, presented)
      case None => (None, cache)
      case Some(i) => (Some(i), cache[c.digest(presented) := i])
  }

  class Authenticator {
    const crypto: Crypto
    const tokens: seq<TokenConfig>
    var cache: Cache
    /** How many password verifications have been paid for. */
    ghost var verifications: nat

    ghost predicate Valid()
      reads this`cache
    {
      CacheJustified(crypto, tokens, cache)
    }

    constructor (crypto: Crypto, tokens: seq<TokenConfig>)
      ensures Valid() && this.crypto == crypto && this.tokens == tokens
      ensures cache == map[] && verifications == 0
    {
      this.crypto := crypto;
      this.tokens := tokens;
      this.cache := map[];
      this.verifications := 0;
    }

    /** The memoised answer is the scan's answer; a hit verifies nothing, a miss verifies every
        token once wherever the match is, and only a success is remembered. */
    method Authenticate(presented: string) returns (found: Option<nat>)
      requires Valid()
      modifies this
      ensures Valid()
      ensures (found, cache) == AuthenticateOn(crypto, tokens, old(cache), presented)
      ensures found.Some? ==> found.value < |tokens|
      ensures CollisionFree(crypto, tokens) ==> found == Scan(crypto, tokens, presented)
      ensures verifications == old(verifications) +
                (if presented == [] || crypto.digest(presented) in old(cache) then 0 else |tokens|)
    {
      if presented == [] {
        return None;
      }
      var key := crypto.digest(presented);
      if key in cache {
        found := None;
        var idx := cache[key];
        if idx < |tokens| {
          found := Some(idx);
        }
        HitIsFirstMatch(crypto, tokens, cache, presented);
        return;
      }
      found := None;
      for idx := 0 to |tokens|
        invariant found == FirstMatch(crypto, tokens[..idx], presented)
        invariant cache == old(cache) && verifications == old(verifications) + idx
      {
        assert tokens[..idx + 1][..idx] == tokens[..idx];
        verifications := verifications + 1;
        if crypto.verify(presented, tokens[idx].hash) && found.None? {
          found := Some(idx);
        }
      }
      assert tokens[..|tokens|] == tokens;
      if found.None? {
        return None;
      }
      InsertKeepsJustified(crypto, tokens, cache, presented, found.value);
      cache := cache[key := found.value];
    }
  }

  /** A cached index is in range; without collisions it is the scan's answer. */
  lemma HitIsFirstMatch(c: Crypto, tokens: seq<TokenConfig>, cache: Cache, presented: string)
    requires CacheJustified(c, tokens, cache)
    requires presented != [] && c.digest(presented) in cache
    ensures cache[c.digest(presented)] < |tokens|
    ensures Resolves(c, tokens, presented, cache[c.digest(presented)])
    ensures CollisionFree(c, tokens) ==> FirstMatch(c, tokens, presented) == Some(cache[c.digest(presented)])
  {
    var key := c.digest(presented);
    var p :| Justifies(c, tokens, p, key, cache[key]);
  }

  lemma InsertKeepsJustified(c: Crypto, tokens: seq<TokenConfig>, cache: Cache, presented: string, idx: nat)
    requires CacheJustified(c, tokens, cache)
    requires presented != [] && FirstMatch(c, tokens, presented) == Some(idx)
    ensures CacheJustified(c, tokens, cache[c.digest(presented) := idx])
  {
    var key := c.digest(presented);
    var after := cache[key := idx];
    assert Justifies(c, tokens, presented, key, idx);
    forall k | k in after ensures exists p :: Justifies(c, tokens, p, k, after[k]) {
      if k != key {
        var p :| Justifies(c, tokens, p, k, cache[k]);
        assert Justifies(c, tokens, p, k, after[k]);
      }
    }
  }

  /** Two racing calls that insert for the same text, or for texts with one digest, write the same entry. */
  lemma RacingInsertsAgree(c: Crypto, tokens: seq<TokenConfig>, cache: Cache, a: string, b: string)
    requires CollisionFree(c, tokens) && a != [] && b != [] && c.digest(a) == c.digest(b)
    requires FirstMatch(c, tokens, a).Some?
    ensures FirstMatch(c, tokens, b).Some?
    ensures cache[c.digest(a) := FirstMatch(c, tokens, a).value] == cache[c.digest(b) := FirstMatch(c, tokens, b).value]
  {
  }

  // ----- sequences of calls -----

  /** The answers to a sequence of calls on one cache. */
  function Answers(c: Crypto, tokens: seq<TokenConfig>, cache: Cache, calls: seq<string>): seq<Option<nat>>
    decreases |calls|
  {
    if calls == [] then []
    else
      var (r, after) := AuthenticateOn(c, tokens, cache, calls[0]);
      [r] + Answers(c, tokens, after, calls[1..])
  }

  ghost predicate AnswersAreScans(c: Crypto, tokens: seq<TokenConfig>, calls: seq<string>) {
    var answers := Answers(c, tokens, map[], calls);
    |answers| == |calls| && forall i :: 0 <= i < |calls| ==> answers[i] == Scan(c, tokens, calls[i])
  }

  lemma {:induction false} CollisionFreeAnswers(c: Crypto, tokens: seq<TokenConfig>, cache: Cache, calls: seq<string>)
    requires CollisionFree(c, tokens) && CacheJustified(c, tokens, cache)
    ensures var answers := Answers(c, tokens, cache, calls);
            |answers| == |calls| && forall i :: 0 <= i < |calls| ==> answers[i] == Scan(c, tokens, calls[i])
    decreases |calls|
  {
    if calls != [] {
      var p := calls[0];
      var (r, after) := AuthenticateOn(c, tokens, cache, p);
      if p != [] {
        if c.digest(p) in cache {
          HitIsFirstMatch(c, tokens, cache, p);
        } else if FirstMatch(c, tokens, p).Some? {
          InsertKeepsJustified(c, tokens, cache, p, FirstMatch(c, tokens, p).value);
        }
      }
      CollisionFreeAnswers(c, tokens, after, calls[1..]);
    }
  }

  /** The memo agrees with the scan on every sequence of presented texts exactly when no text
      shares a digest with a text that the scan resolves differently. */
  lemma MemoAgreesExactlyWithoutCollisions(c: Crypto, tokens: seq<TokenConfig>)
    ensures (forall calls :: AnswersAreScans(c, tokens, calls)) <==> CollisionFree(c, tokens)
  {
    if CollisionFree(c, tokens) {
      forall calls ensures AnswersAreScans(c, tokens, calls) {
        CollisionFreeAnswers(c, tokens, map[], calls);
      }
    } else {
      var a, b :| a != [] && b != [] && c.digest(a) == c.digest(b) && FirstMatch(c, tokens, a).Some?
                  && FirstMatch(c, tokens, b) != FirstMatch(c, tokens, a);
      var i := FirstMatch(c, tokens, a).value;
      var calls := [a, b];
      var cache: Cache := map[c.digest(a) := i];
      assert calls[1..] == [b] && calls[1..][1..] == [];
      assert AuthenticateOn(c, tokens, map[], a) == (Some(i), cache);
      assert AuthenticateOn(c, tokens, cache, b) == (Some(i), cache);
      assert Answers(c, tokens, cache, calls[1..]) == [Some(i)] + Answers(c, tokens, cache, []);
      assert Answers(c, tokens, map[], calls)[1] == Some(i);
      assert !AnswersAreScans(c, tokens, calls);
    }
  }

  // ----- the cache is bounded by the token list -----

  lemma {:induction false} Pigeonhole(m: map<int, nat>, n: nat)
    requires forall k :: k in m ==> m[k] < n
    requires forall k, l :: k in m && l in m && m[k] == m[l] ==> k == l
    ensures |m| <= n
  {
    if n == 0 {
      assert forall k :: k !in m;
      assert m.Keys == {};
    } else if k :| k in m && m[k] == n - 1 {
      var rest := m - {k};
      assert rest.Keys == m.Keys - {k};
      Pigeonhole(rest, n - 1);
    } else {
      Pigeonhole(m, n - 1);
    }
  }

  /** However many texts are presented, the cache holds at most one entry per token. */
  lemma CacheIsBounded(c: Crypto, tokens: seq<TokenConfig>, cache: Cache)
    requires OneTextPerHash(c) && CacheJustified(c, tokens, cache)
    ensures |cache| <= |tokens|
  {
    forall k | k in cache ensures cache[k] < |tokens| {
      var p :| Justifies(c, tokens, p, k, cache[k]);
    }
    forall k, l | k in cache && l in cache && cache[k] == cache[l] ensures k == l {
      var p :| Justifies(c, tokens, p, k, cache[k]);
      var q :| Justifies(c, tokens, q, l, cache[l]);
      assert c.verify(p, tokens[cache[k]].hash) && c.verify(q, tokens[cache[k]].hash);
    }
    Pigeonhole(cache, |tokens|);
  }
}
