/** Judging a self-chosen key. The source compares `len * log2(pool)` with 80 in floating point;
    no pool is a power of two, so the comparison with 2^80 in integers never meets equality. */
module Strength {
  import opened Wrappers
  import opened Text
  import Sums

  datatype Weakness = TooShort(len: nat) | TooRepetitive(distinct: nat) | TooLittleEntropy

  const MIN_LENGTH := 16
  const MIN_DISTINCT := 8
  const TWO_TO_THE_80 := 0x1_0000_0000_0000_0000_0000

  function Pow(base: nat, exponent: nat): nat {
    if exponent == 0 then 1 else base * Pow(base, exponent - 1)
  }

  predicate HasLower(s: string) { exists i :: 0 <= i < |s| && IsLowerLetter(s[i]) }
  predicate HasUpper(s: string) { exists i :: 0 <= i < |s| && IsUpperLetter(s[i]) }
  predicate HasDigit(s: string) { exists i :: 0 <= i < |s| && IsDigit(s[i]) }
  predicate HasOther(s: string) { exists i :: 0 <= i < |s| && !IsAlphanumeric(s[i]) }

  function Pool(s: string): nat {
    (if HasLower(s) then 26 else 0) + (if HasUpper(s) then 26 else 0)
    + (if HasDigit(s) then 10 else 0) + (if HasOther(s) then 33 else 0)
  }

  function Letters(s: string): set<char> { set c | c in s }

  predicate IsStrong(s: string) {
    |s| >= MIN_LENGTH && |Letters(s)| >= MIN_DISTINCT && Pow(Pool(s), |s|) >= TWO_TO_THE_80
  }

  ghost predicate AllBetween(s: string, first: char, last: char) {
    forall i :: 0 <= i < |s| ==> first <= s[i] <= last
  }

  /** The test as the code runs it: length, then the pool built class by class, then distinct
      characters, then entropy. What it asks for is 16 characters and 8 different ones, 25 if there are
      only digits, and 18 if there are only lower-case or only upper-case letters. */
  method AssessStrength(token: string) returns (verdict: Result<(), Weakness>)
    ensures verdict.Ok? <==> IsStrong(token)
    ensures verdict == Err(TooShort(|token|)) <==> |token| < 16
    ensures verdict == Err(TooRepetitive(|set c | c in token|)) <==> |token| >= 16 && |set c | c in token| < 8
    ensures verdict == Err(TooLittleEntropy) <==>
              && |token| >= 16 && |set c | c in token| >= 8
              && ((AllBetween(token, '0', '9') && |token| < 25)
                  || (AllBetween(token, 'a', 'z') && |token| < 18)
                  || (AllBetween(token, 'A', 'Z') && |token| < 18))
  {
    StrengthInPlainTerms(token);
    if |token| < MIN_LENGTH {
      return Err(TooShort(|token|));
    }
    var pool := 0;
    if HasLower(token) { pool := pool + 26; }
    if HasUpper(token) { pool := pool + 26; }
    if HasDigit(token) { pool := pool + 10; }
    if HasOther(token) { pool := pool + 33; }
    var distinct := |Letters(token)|;
    if distinct < MIN_DISTINCT {
      return Err(TooRepetitive(distinct));
    }
    if Pow(pool, |token|) < TWO_TO_THE_80 {
      return Err(TooLittleEntropy);
    }
    return Ok(());
  }

  lemma {:induction false} PowGrows(a: nat, b: nat, m: nat, n: nat)
    requires 1 <= a <= b && m <= n
    ensures 1 <= Pow(a, m) <= Pow(b, n)
    decreases n
  {
    if n > 0 {
      if m == n {
        PowGrows(a, b, m - 1, n - 1);
        MulMono(a, b, Pow(a, m - 1), Pow(b, n - 1));
      } else {
        PowGrows(a, b, m, n - 1);
        MulMono(1, b, Pow(b, n - 1), Pow(b, n - 1));
      }
    }
  }

  lemma MulMono(a: nat, b: nat, x: nat, y: nat)
    requires 1 <= a <= b && 1 <= x <= y
    ensures 1 <= a * x <= b * y
  {
  }

  lemma LettersGrow(s: string, t: string)
    ensures |Letters(s)| <= |Letters(s + t)|
  {
    Sums.SubsetSize(Letters(s), Letters(s + t));
  }

  lemma PoolGrows(s: string, t: string)
    ensures Pool(s) <= Pool(s + t)
  {
    var u := s + t;
    if i :| 0 <= i < |s| && IsLowerLetter(s[i]) { assert IsLowerLetter(u[i]); }
    if i :| 0 <= i < |s| && IsUpperLetter(s[i]) { assert IsUpperLetter(u[i]); }
    if i :| 0 <= i < |s| && IsDigit(s[i]) { assert IsDigit(u[i]); }
    if i :| 0 <= i < |s| && !IsAlphanumeric(s[i]) { assert !IsAlphanumeric(u[i]); }
  }

  /** A non-empty key always has some pool: every character belongs to one of the four classes. */
  lemma PoolIsNeverEmpty(s: string)
    requires s != []
    ensures Pool(s) >= 10
  {
    assert IsAlphanumeric(s[0]) || !IsAlphanumeric(s[0]);
    assert IsLowerLetter(s[0]) || IsUpperLetter(s[0]) || IsDigit(s[0]) || !IsAlphanumeric(s[0]);
  }

  /** Making an accepted key longer never makes it unacceptable. */
  lemma StrongStaysStrong(s: string, t: string)
    requires IsStrong(s)
    ensures IsStrong(s + t)
  {
    PoolIsNeverEmpty(s);
    PoolGrows(s, t);
    LettersGrow(s, t);
    PowGrows(Pool(s), Pool(s + t), |s|, |s + t|);
  }

  lemma {:induction false} PowSplits(b: nat, m: nat, n: nat)
    ensures Pow(b, m + n) == Pow(b, m) * Pow(b, n)
  {
    if m > 0 {
      PowSplits(b, m - 1, n);
      MulAssoc(b, Pow(b, m - 1), Pow(b, n));
    }
  }

  lemma MulAssoc(a: nat, b: nat, c: nat)
    ensures (a * b) * c == a * (b * c)
  {
  }

  lemma PowDoubles(b: nat, n: nat, v: nat)
    requires Pow(b, n) == v
    ensures Pow(b, 2 * n) == v * v
  {
    PowSplits(b, n, n);
  }

  lemma PowValues()
    ensures Pow(10, 24) < TWO_TO_THE_80 <= Pow(10, 25)
    ensures Pow(26, 17) < TWO_TO_THE_80 <= Pow(26, 18)
    ensures TWO_TO_THE_80 <= Pow(33, 16)
  {
    assert Pow(10, 3) == 1000;
    PowDoubles(10, 3, 1000);
    PowDoubles(10, 6, 1_000_000);
    PowDoubles(10, 12, 1_000_000_000_000);
    assert Pow(26, 1) == 26;
    PowDoubles(26, 1, 26);
    PowDoubles(26, 2, 676);
    PowDoubles(26, 4, 676 * 676);
    PowDoubles(26, 8, 456976 * 456976);
    assert Pow(33, 1) == 33;
    PowDoubles(33, 1, 33);
    PowDoubles(33, 2, 1089);
    PowDoubles(33, 4, 1089 * 1089);
    PowDoubles(33, 8, 1185921 * 1185921);
  }

  /** Which classes a key draws on, by the size of its pool. */
  lemma PoolSays(s: string)
    requires s != []
    ensures Pool(s) == 10 <==> AllBetween(s, '0', '9')
    ensures Pool(s) == 26 <==> AllBetween(s, 'a', 'z') || AllBetween(s, 'A', 'Z')
    ensures Pool(s) !in {10, 26} ==> Pool(s) >= 33
  {
    if AllBetween(s, '0', '9') || AllBetween(s, 'a', 'z') || AllBetween(s, 'A', 'Z') {
      assert IsLowerLetter(s[0]) || IsUpperLetter(s[0]) || IsDigit(s[0]);
    }
    forall i | 0 <= i < |s|
      ensures IsLowerLetter(s[i]) || IsUpperLetter(s[i]) || IsDigit(s[i]) || !IsAlphanumeric(s[i])
    {
    }
    PoolIsNeverEmpty(s);
  }

  /** The thresholds in plain terms: digits alone need 25 characters, one case of letters alone needs
      18, and any other mixture is accepted from the floor of 16 characters, 8 of them different. */
  lemma StrengthInPlainTerms(s: string)
    ensures IsStrong(s) <==>
            && |s| >= 16
            && |set c | c in s| >= 8
            && (AllBetween(s, '0', '9') ==> |s| >= 25)
            && (AllBetween(s, 'a', 'z') ==> |s| >= 18)
            && (AllBetween(s, 'A', 'Z') ==> |s| >= 18)
  {
    if |s| >= 16 {
      PowValues();
      PoolSays(s);
      var pool, len := Pool(s), |s|;
      if pool == 10 {
        assert !AllBetween(s, 'a', 'z') && !AllBetween(s, 'A', 'Z') by { assert s[0] <= '9'; }
        if len >= 25 { PowGrows(10, 10, 25, len); } else { PowGrows(10, 10, len, 24); }
      } else if pool == 26 {
        if len >= 18 { PowGrows(26, 26, 18, len); } else { PowGrows(26, 26, len, 17); }
      } else {
        PowGrows(33, pool, 16, len);
      }
    }
  }
}
