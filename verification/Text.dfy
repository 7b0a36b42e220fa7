/** Strings as sequences of Unicode scalar values, with the few library operations the proxy relies on. */
module Text {
  import opened Wrappers

  /** Unicode White_Space: what trimming removes. */
  predicate IsWhitespace(c: char) {
    || '\t' <= c <= '\r'
    || c == ' ' || c == '\U{85}' || c == '\U{A0}' || c == '\U{1680}'
    || '\U{2000}' <= c <= '\U{200A}'
    || c == '\U{2028}' || c == '\U{2029}' || c == '\U{202F}' || c == '\U{205F}' || c == '\U{3000}'
  }

  /** Unicode category Cc. */
  predicate IsControl(c: char) {
    c <= '\U{1F}' || '\U{7F}' <= c <= '\U{9F}'
  }

  predicate IsLowerLetter(c: char) { 'a' <= c <= 'z' }
  predicate IsUpperLetter(c: char) { 'A' <= c <= 'Z' }
  predicate IsDigit(c: char) { '0' <= c <= '9' }
  predicate IsAlphanumeric(c: char) { IsLowerLetter(c) || IsUpperLetter(c) || IsDigit(c) }

  ghost predicate AllWhitespace(s: string) {
    forall i :: 0 <= i < |s| ==> IsWhitespace(s[i])
  }

  function TrimStart(s: string): string {
    if s != [] && IsWhitespace(s[0]) then TrimStart(s[1..]) else s
  }

  function TrimEnd(s: string): string {
    if s != [] && IsWhitespace(s[|s| - 1]) then TrimEnd(s[..|s| - 1]) else s
  }

  function Trim(s: string): string {
    TrimEnd(TrimStart(s))
  }

  /** Removes every trailing occurrence of one character. */
  function TrimEndOf(s: string, c: char): string {
    if s != [] && s[|s| - 1] == c then TrimEndOf(s[..|s| - 1], c) else s
  }

  /** ASCII lower-casing leaves every other character alone. */
  function Lower(c: char): char {
    if IsUpperLetter(c) then (c as int + 32) as char else c
  }

  function LowerAll(s: string): (r: string)
    ensures |r| == |s|
    ensures forall i :: 0 <= i < |s| ==> r[i] == Lower(s[i])
  {
    seq(|s|, i requires 0 <= i < |s| => Lower(s[i]))
  }

  /** Number of bytes of one scalar value in UTF-8. */
  function Utf8Width(c: char): (n: nat)
    ensures 1 <= n <= 4
  {
    if c <= '\U{7F}' then 1 else if c <= '\U{7FF}' then 2 else if c <= '\U{FFFF}' then 3 else 4
  }

  /** Length in bytes of the UTF-8 form. */
  function Utf8Length(s: string): nat {
    if s == [] then 0 else Utf8Length(s[..|s| - 1]) + Utf8Width(s[|s| - 1])
  }

  lemma {:induction false} Utf8LengthOfPrefix(s: string, n: nat, m: nat)
    requires n <= m <= |s|
    ensures Utf8Length(s[..m]) - Utf8Length(s[..n]) >= m - n
  {
    if n < m {
      Utf8LengthOfPrefix(s, n, m - 1);
      assert s[..m][..m - 1] == s[..m - 1];
    }
  }

  // ----- trimming -----

  lemma {:induction false} TrimStartSplits(s: string)
    ensures |TrimStart(s)| <= |s|
    ensures TrimStart(s) == s[|s| - |TrimStart(s)|..]
    ensures AllWhitespace(s[..|s| - |TrimStart(s)|])
    ensures TrimStart(s) != [] ==> !IsWhitespace(TrimStart(s)[0])
  {
    if s != [] && IsWhitespace(s[0]) {
      TrimStartSplits(s[1..]);
      var n := |s| - |TrimStart(s)|;
      assert s[..n] == [s[0]] + s[1..][..n - 1];
    }
  }

  lemma {:induction false} TrimEndSplits(s: string)
    ensures |TrimEnd(s)| <= |s|
    ensures TrimEnd(s) == s[..|TrimEnd(s)|]
    ensures AllWhitespace(s[|TrimEnd(s)|..])
    ensures TrimEnd(s) != [] ==> !IsWhitespace(TrimEnd(s)[|TrimEnd(s)| - 1])
  {
    if s != [] && IsWhitespace(s[|s| - 1]) {
      TrimEndSplits(s[..|s| - 1]);
      var n := |TrimEnd(s)|;
      assert s[n..] == s[..|s| - 1][n..] + [s[|s| - 1]];
    }
  }

  /** Trimming removes a run of white space at each end and stops at the first character that is not. */
  lemma TrimSplits(s: string) returns (l: string, r: string)
    ensures s == l + Trim(s) + r
    ensures AllWhitespace(l) && AllWhitespace(r)
    ensures Trim(s) != [] ==> !IsWhitespace(Trim(s)[0]) && !IsWhitespace(Trim(s)[|Trim(s)| - 1])
  {
    TrimStartSplits(s);
    var t := TrimStart(s);
    TrimEndSplits(t);
    l, r := s[..|s| - |t|], t[|Trim(s)|..];
    assert s == l + t;
  }

  /** A text with no white space at its ends is its own trimmed form. */
  lemma TrimKeeps(s: string)
    requires s != [] ==> !IsWhitespace(s[0]) && !IsWhitespace(s[|s| - 1])
    ensures Trim(s) == s
  {
  }

  /** A beginning with no white space at its ends survives trimming, whatever follows it. */
  lemma TrimKeepsBeginning(p: string, rest: string)
    requires p != [] && !IsWhitespace(p[0]) && !IsWhitespace(p[|p| - 1])
    ensures p <= Trim(p + rest)
  {
    var s := p + rest;
    var l, r := TrimSplits(s);
    assert s[0] == p[0] && s[|p| - 1] == p[|p| - 1];
    assert l == [];
    assert forall i :: |Trim(s)| <= i < |s| ==> s[i] == r[i - |Trim(s)|];
    assert |p| <= |Trim(s)|;
    assert Trim(s) == s[..|Trim(s)|];
  }

  lemma {:induction false} TrimEndOfSplits(s: string, c: char)
    ensures TrimEndOf(s, c) <= s
    ensures forall i :: |TrimEndOf(s, c)| <= i < |s| ==> s[i] == c
    ensures TrimEndOf(s, c) != [] ==> TrimEndOf(s, c)[|TrimEndOf(s, c)| - 1] != c
  {
    if s != [] && s[|s| - 1] == c {
      TrimEndOfSplits(s[..|s| - 1], c);
    }
  }

  /** A prefix that ends in the character removed survives exactly when something else comes after it. */
  lemma TrimEndOfKeepsExactly(s: string, p: string, c: char)
    requires p != [] && p[|p| - 1] == c
    ensures p <= TrimEndOf(s, c) <==> p <= s && exists i :: |p| <= i < |s| && s[i] != c
  {
    TrimEndOfSplits(s, c);
    var h := TrimEndOf(s, c);
    if p <= h {
      assert h[|p| - 1] == c;
      assert s[|h| - 1] != c;
    }
  }

  lemma {:induction false} TrimStartDrops(before: string, s: string)
    requires AllWhitespace(before) && s != [] && !IsWhitespace(s[0])
    ensures TrimStart(before + s) == s
  {
    if before == [] {
      assert before + s == s;
    } else {
      TrimStartDrops(before[1..], s);
      assert (before + s)[1..] == before[1..] + s && (before + s)[0] == before[0];
    }
  }

  lemma {:induction false} TrimEndDrops(s: string, after: string)
    requires AllWhitespace(after) && s != [] && !IsWhitespace(s[|s| - 1])
    ensures TrimEnd(s + after) == s
  {
    if after == [] {
      assert s + after == s;
    } else {
      var last := |after| - 1;
      TrimEndDrops(s, after[..last]);
      assert (s + after)[..|s| + last] == s + after[..last] && (s + after)[|s| + last] == after[last];
    }
  }

  /** Trimming drops the white space around a text and nothing of the text. */
  lemma TrimIs(before: string, s: string, after: string)
    requires AllWhitespace(before) && AllWhitespace(after) && s != [] && !IsWhitespace(s[0]) && !IsWhitespace(s[|s| - 1])
    ensures Trim(before + s + after) == s
  {
    assert before + s + after == before + (s + after) && (s + after)[0] == s[0];
    TrimStartDrops(before, s + after);
    TrimEndDrops(s, after);
  }

  lemma {:induction false} TrimEndOfIs(s: string, tail: string, c: char)
    requires s != [] && s[|s| - 1] != c && forall i :: 0 <= i < |tail| ==> tail[i] == c
    ensures TrimEndOf(s + tail, c) == s
  {
    if tail == [] {
      assert s + tail == s;
    } else {
      var last := |tail| - 1;
      TrimEndOfIs(s, tail[..last], c);
      assert (s + tail)[..|s| + last] == s + tail[..last] && (s + tail)[|s| + last] == tail[last];
    }
  }

  // ----- decimal numbers -----

  function DigitChar(d: nat): (c: char)
    requires d < 10
    ensures IsDigit(c)
  {
    (48 + d) as char
  }

  function DigitValue(c: char): nat
    requires IsDigit(c)
  {
    c as int - 48
  }

  /** Decimal without leading zeros. */
  function Decimal(n: nat): (s: string)
    ensures s != []
    ensures forall i :: 0 <= i < |s| ==> IsDigit(s[i])
  {
    if n < 10 then [DigitChar(n)] else Decimal(n / 10) + [DigitChar(n % 10)]
  }

  predicate AllDigits(s: string) {
    forall i :: 0 <= i < |s| ==> IsDigit(s[i])
  }

  function DecimalValue(s: string): nat
    requires AllDigits(s)
  {
    if s == [] then 0 else DecimalValue(s[..|s| - 1]) * 10 + DigitValue(s[|s| - 1])
  }

  function ParseDecimal(s: string): Option<nat> {
    if s != [] && AllDigits(s) then Some(DecimalValue(s)) else None
  }

  lemma {:induction false} DecimalRoundTrip(n: nat)
    ensures ParseDecimal(Decimal(n)) == Some(n)
  {
    var s := Decimal(n);
    if n < 10 {
      assert s == [DigitChar(n)] && s[..|s| - 1] == [];
      assert DecimalValue(s) == DecimalValue(s[..|s| - 1]) * 10 + DigitValue(s[|s| - 1]);
    } else {
      DecimalRoundTrip(n / 10);
      assert s[..|s| - 1] == Decimal(n / 10);
      assert DigitValue(s[|s| - 1]) == n % 10;
    }
  }

  // ----- splitting on a separator -----

  /** Splits at every occurrence of the separator; always at least one piece. */
  function Split(s: string, c: char): (r: seq<string>)
    ensures r != []
  {
    if s == [] then [[]]
    else
      var rest := Split(s[1..], c);
      if s[0] == c then [[]] + rest else [[s[0]] + rest[0]] + rest[1..]
  }

  lemma {:induction false} SplitPiece(a: string, c: char)
    requires c !in a
    ensures Split(a, c) == [a]
  {
    if a != [] {
      SplitPiece(a[1..], c);
      assert a == [a[0]] + a[1..];
    }
  }

  lemma {:induction false} SplitFirst(a: string, c: char, b: string)
    requires c !in a
    ensures Split(a + [c] + b, c) == [a] + Split(b, c)
  {
    var s := a + [c] + b;
    if a == [] {
      assert s[1..] == b;
    } else {
      SplitFirst(a[1..], c, b);
      assert s[1..] == a[1..] + [c] + b;
      assert a == [a[0]] + a[1..];
    }
  }

  /** The pieces put back with the separator between them. */
  function Join(pieces: seq<string>, c: char): string {
    if pieces == [] then []
    else if |pieces| == 1 then pieces[0]
    else pieces[0] + [c] + Join(pieces[1..], c)
  }

  lemma {:induction false} SplitIsInvertible(s: string, c: char)
    ensures Join(Split(s, c), c) == s
    ensures forall i :: 0 <= i < |Split(s, c)| ==> c !in Split(s, c)[i]
  {
    if s != [] {
      SplitIsInvertible(s[1..], c);
      var rest := Split(s[1..], c);
      if s[0] == c {
        assert ([[]] + rest)[1..] == rest;
      } else {
        var pieces := [[s[0]] + rest[0]] + rest[1..];
        assert pieces[1..] == rest[1..];
        assert s == [s[0]] + s[1..];
        if |rest| > 1 {
          assert Join(pieces, c) == [s[0]] + (rest[0] + [c] + Join(rest[1..], c));
        }
      }
    }
  }

  lemma {:induction false} JoinIsInvertible(pieces: seq<string>, c: char)
    requires pieces != [] && forall i :: 0 <= i < |pieces| ==> c !in pieces[i]
    ensures Split(Join(pieces, c), c) == pieces
  {
    if |pieces| == 1 {
      SplitPiece(pieces[0], c);
    } else {
      JoinIsInvertible(pieces[1..], c);
      SplitFirst(pieces[0], c, Join(pieces[1..], c));
    }
  }

  lemma {:induction false} JoinAvoids(pieces: seq<string>, c: char, x: char)
    requires x != c && forall i :: 0 <= i < |pieces| ==> x !in pieces[i]
    ensures x !in Join(pieces, c)
  {
    if |pieces| > 1 { JoinAvoids(pieces[1..], c, x); }
  }
}
