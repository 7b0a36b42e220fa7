/** Certificate fingerprints: reading the spellings operators use, and lower-case hex. */
module Fingerprint {
  import opened Wrappers
  import opened Text

  predicate IsHexDigit(c: char) { IsDigit(c) || 'a' <= c <= 'f' || 'A' <= c <= 'F' }
  predicate IsLowerHex(c: char) { IsDigit(c) || 'a' <= c <= 'f' }
  predicate IsSeparator(c: char) { c == ':' || c == ' ' || c == '-' }

  const LOWER_PREFIX := "sha256:"
  const UPPER_PREFIX := "SHA256:"

  /** Removes every leading occurrence of `prefix`. */
  function TrimStartOf(s: string, prefix: string): string
    requires prefix != []
    decreases |s|
  {
    if prefix <= s then TrimStartOf(s[|prefix|..], prefix) else s
  }

  function DropSeparators(s: string): string {
    if s == [] then []
    else if IsSeparator(s[0]) then DropSeparators(s[1..])
    else [s[0]] + DropSeparators(s[1..])
  }

  /** The canonical form: 64 lower-case hex digits. */
  predicate IsPin(s: string) {
    |s| == 64 && forall i :: 0 <= i < |s| ==> IsLowerHex(s[i])
  }

  function Cleaned(raw: string): string {
    LowerAll(DropSeparators(TrimStartOf(TrimStartOf(Trim(raw), LOWER_PREFIX), UPPER_PREFIX)))
  }

  function NormalizeFingerprint(raw: string): Result<string, nat> {
    var cleaned := Cleaned(raw);
    if Utf8Length(cleaned) != 64 || !(forall i :: 0 <= i < |cleaned| ==> IsHexDigit(cleaned[i])) then
      Err(Utf8Length(cleaned))
    else
      Ok(cleaned)
  }

  function Repeat(s: string, n: nat): string {
    if n == 0 then [] else s + Repeat(s, n - 1)
  }

  /** One way an operator may write the pin `h`: white space around, any number of
      recognised prefixes (all the lower-case ones first), then the digits in either
      case with separators anywhere. */
  ghost predicate IsSpelling(raw: string, l: string, i: nat, j: nat, body: string, r: string, h: string) {
    && raw == l + (Repeat(LOWER_PREFIX, i) + Repeat(UPPER_PREFIX, j) + body) + r
    && AllWhitespace(l) && AllWhitespace(r)
    && IsPin(h)
    && LowerAll(DropSeparators(body)) == h
  }

  // ----- helpers -----

  lemma {:induction false} AsciiLength(s: string)
    requires forall i :: 0 <= i < |s| ==> s[i] <= '\U{7F}'
    ensures Utf8Length(s) == |s|
  {
    if s != [] { AsciiLength(s[..|s| - 1]); }
  }

  lemma NormalizedIsPin(raw: string)
    ensures NormalizeFingerprint(raw).Ok? <==> IsPin(Cleaned(raw))
    ensures NormalizeFingerprint(raw).Ok? ==> NormalizeFingerprint(raw).value == Cleaned(raw)
  {
    var c := Cleaned(raw);
    var d := DropSeparators(TrimStartOf(TrimStartOf(Trim(raw), LOWER_PREFIX), UPPER_PREFIX));
    if forall i :: 0 <= i < |c| ==> IsHexDigit(c[i]) {
      AsciiLength(c);
      forall i | 0 <= i < |c| ensures IsLowerHex(c[i]) {
        assert c[i] == Lower(d[i]);
      }
    } else {
      var k :| 0 <= k < |c| && !IsHexDigit(c[k]);
      assert !IsLowerHex(c[k]);
    }
  }

  lemma {:induction false} TrimStartOfSplits(s: string, prefix: string) returns (n: nat)
    requires prefix != []
    ensures s == Repeat(prefix, n) + TrimStartOf(s, prefix)
    decreases |s|
  {
    if prefix <= s {
      n := TrimStartOfSplits(s[|prefix|..], prefix);
      n := n + 1;
      assert s == prefix + s[|prefix|..];
    } else {
      n := 0;
    }
  }

  lemma {:induction false} TrimStartOfRepeat(prefix: string, n: nat, rest: string)
    requires prefix != [] && !(prefix <= rest)
    ensures TrimStartOf(Repeat(prefix, n) + rest, prefix) == rest
  {
    if n == 0 {
      assert Repeat(prefix, 0) + rest == rest;
    } else {
      var s, t := Repeat(prefix, n) + rest, Repeat(prefix, n - 1) + rest;
      assert s == prefix + t;
      assert prefix <= s && s[|prefix|..] == t;
      assert TrimStartOf(s, prefix) == TrimStartOf(t, prefix);
      TrimStartOfRepeat(prefix, n - 1, rest);
    }
  }

  lemma {:induction false} DropSeparatorsAppend(a: string, b: string)
    ensures DropSeparators(a + b) == DropSeparators(a) + DropSeparators(b)
  {
    if a == [] {
      assert a + b == b;
    } else {
      DropSeparatorsAppend(a[1..], b);
      assert (a + b)[1..] == a[1..] + b && (a + b)[0] == a[0];
      var u, v := DropSeparators(a[1..]), DropSeparators(b);
      assert [a[0]] + (u + v) == ([a[0]] + u) + v;
    }
  }

  lemma {:induction false} DropSeparatorsKeeps(s: string)
    requires forall i :: 0 <= i < |s| ==> !IsSeparator(s[i])
    ensures DropSeparators(s) == s
  {
    if s != [] { DropSeparatorsKeeps(s[1..]); }
  }

  /** Every character of the text before separators are dropped is a separator or survives. */
  lemma {:induction false} SurvivorsOf(s: string, k: nat) returns (i: nat)
    requires k < |s| && !IsSeparator(s[k])
    ensures i < |DropSeparators(s)| && DropSeparators(s)[i] == s[k]
  {
    if k == 0 {
      i := 0;
    } else {
      i := SurvivorsOf(s[1..], k - 1);
      if !IsSeparator(s[0]) { i := i + 1; }
    }
  }

  lemma PinLetter(d: string, i: nat)
    requires IsPin(LowerAll(d)) && i < |d|
    ensures IsHexDigit(d[i])
  {
    var h := LowerAll(d);
    assert h[i] == Lower(d[i]) && IsLowerHex(h[i]);
  }

  /** A body whose cleaned form is a pin is made of hex digits and separators only. */
  lemma BodyAlphabet(body: string, k: nat)
    requires k < |body| && !IsSeparator(body[k]) && !IsHexDigit(body[k])
    ensures !IsPin(LowerAll(DropSeparators(body)))
  {
    var i := SurvivorsOf(body, k);
    if IsPin(LowerAll(DropSeparators(body))) { PinLetter(DropSeparators(body), i); }
  }

  lemma BodyHasNoPrefix(body: string)
    requires IsPin(LowerAll(DropSeparators(body)))
    ensures !(LOWER_PREFIX <= body) && !(UPPER_PREFIX <= body)
  {
    if LOWER_PREFIX <= body || UPPER_PREFIX <= body { BodyAlphabet(body, 0); }
  }

  lemma {:induction false} RepeatStarts(prefix: string, n: nat, rest: string)
    requires n > 0
    ensures prefix <= Repeat(prefix, n) + rest
  {
    assert Repeat(prefix, n) + rest == prefix + (Repeat(prefix, n - 1) + rest);
  }

  /** Stripping the prefixes of a spelling leaves its body. */
  lemma PrefixesStripped(i: nat, j: nat, body: string)
    requires IsPin(LowerAll(DropSeparators(body)))
    ensures TrimStartOf(TrimStartOf(Repeat(LOWER_PREFIX, i) + Repeat(UPPER_PREFIX, j) + body, LOWER_PREFIX), UPPER_PREFIX) == body
  {
    BodyHasNoPrefix(body);
    var tail := Repeat(UPPER_PREFIX, j) + body;
    if j > 0 {
      RepeatStarts(UPPER_PREFIX, j, body);
      assert tail[0] == UPPER_PREFIX[0];
      assert LOWER_PREFIX[0] == 's';
    } else {
      assert tail == body;
    }
    assert !(LOWER_PREFIX <= tail);
    TrimStartOfRepeat(LOWER_PREFIX, i, tail);
    assert Repeat(LOWER_PREFIX, i) + tail == Repeat(LOWER_PREFIX, i) + Repeat(UPPER_PREFIX, j) + body;
    TrimStartOfRepeat(UPPER_PREFIX, j, body);
  }

  lemma {:induction false} DropSeparatorsDropsAll(s: string)
    requires forall i :: 0 <= i < |s| ==> IsSeparator(s[i])
    ensures DropSeparators(s) == []
  {
    if s != [] { DropSeparatorsDropsAll(s[1..]); }
  }

  /** White space at the ends of a body never matters. */
  lemma BodyTrims(body: string) returns (bl: string, b: string, br: string)
    requires IsPin(LowerAll(DropSeparators(body)))
    ensures body == bl + b + br && AllWhitespace(bl) && AllWhitespace(br)
    ensures b != [] && !IsWhitespace(b[0]) && !IsWhitespace(b[|b| - 1])
    ensures DropSeparators(b) == DropSeparators(body)
    ensures DropSeparators(bl + b) == DropSeparators(body)
  {
    bl, br := TrimSplits(body);
    b := Trim(body);
    forall k | 0 <= k < |bl| ensures IsSeparator(bl[k]) {
      assert body[k] == bl[k];
      if !IsSeparator(body[k]) { BodyAlphabet(body, k); }
    }
    forall k | 0 <= k < |br| ensures IsSeparator(br[k]) {
      var m := |bl + b| + k;
      assert body[m] == br[k];
      if !IsSeparator(body[m]) { BodyAlphabet(body, m); }
    }
    DropSeparatorsDropsAll(bl);
    DropSeparatorsDropsAll(br);
    DropSeparatorsAppend(bl + b, br);
    DropSeparatorsAppend(bl, b);
  }

  lemma RepeatStartsWith(i: nat, j: nat, rest: string)
    requires i + j > 0
    ensures var s := Repeat(LOWER_PREFIX, i) + Repeat(UPPER_PREFIX, j) + rest;
            s != [] && !IsWhitespace(s[0])
  {
    var s := Repeat(LOWER_PREFIX, i) + Repeat(UPPER_PREFIX, j) + rest;
    if i > 0 {
      RepeatStarts(LOWER_PREFIX, i, Repeat(UPPER_PREFIX, j) + rest);
      assert s == Repeat(LOWER_PREFIX, i) + (Repeat(UPPER_PREFIX, j) + rest);
      assert s[0] == LOWER_PREFIX[0];
    } else {
      RepeatStarts(UPPER_PREFIX, j, rest);
      assert s == Repeat(UPPER_PREFIX, j) + rest;
      assert s[0] == UPPER_PREFIX[0];
    }
  }

  // ----- main results -----

  /** Every spelling of a pin is read, and read as that pin. */
  lemma SpellingIsRead(raw: string, l: string, i: nat, j: nat, body: string, r: string, h: string)
    requires IsSpelling(raw, l, i, j, body, r, h)
    ensures NormalizeFingerprint(raw) == Ok(h)
  {
    var bl, b, br := BodyTrims(body);
    var prefixes := Repeat(LOWER_PREFIX, i) + Repeat(UPPER_PREFIX, j);
    if i + j > 0 {
      var t := prefixes + (bl + b);
      RepeatStartsWith(i, j, bl + b);
      assert t[|t| - 1] == b[|b| - 1];
      assert raw == l + t + (br + r);
      TrimIs(l, t, br + r);
      PrefixesStripped(i, j, bl + b);
    } else {
      assert prefixes == [];
      assert raw == (l + bl) + b + (br + r);
      TrimIs(l + bl, b, br + r);
      PrefixesStripped(0, 0, b);
      assert prefixes + b == b;
    }
    NormalizedIsPin(raw);
  }

  /** Two characters at a time, with something in between. */
  function InPairs(s: string, between: char): string {
    if |s| <= 2 then s else s[..2] + [between] + InPairs(s[2..], between)
  }

  lemma {:induction false} PairsDrop(s: string, between: char)
    requires between == ':' || between == ' ' || between == '-'
    requires forall i :: 0 <= i < |s| ==> !IsSeparator(s[i])
    ensures DropSeparators(InPairs(s, between)) == s
  {
    if |s| <= 2 {
      DropSeparatorsKeeps(s);
    } else {
      PairsDrop(s[2..], between);
      DropSeparatorsKeeps(s[..2]);
      DropSeparatorsAppend(s[..2] + [between], InPairs(s[2..], between));
      DropSeparatorsAppend(s[..2], [between]);
      assert [between][1..] == [];
      assert s == s[..2] + s[2..];
    }
  }

  /** The documented forms, in capitals or not: the plain digits, the digits in pairs with colons, blanks
      or hyphens in between, and either of them after a prefix. */
  lemma DocumentedFormsAreRead(digits: string, between: char)
    requires IsPin(LowerAll(digits)) && (between == ':' || between == ' ' || between == '-')
    ensures var h := Ok(LowerAll(digits));
            && NormalizeFingerprint(digits) == h && NormalizeFingerprint(InPairs(digits, between)) == h
            && NormalizeFingerprint("sha256:" + digits) == h && NormalizeFingerprint("SHA256:" + digits) == h
            && NormalizeFingerprint("sha256:" + InPairs(digits, between)) == h
            && NormalizeFingerprint("SHA256:" + InPairs(digits, between)) == h
  {
    forall i | 0 <= i < |digits| ensures !IsSeparator(digits[i]) {
      PinLetter(digits, i);
    }
    DropSeparatorsKeeps(digits);
    PairsDrop(digits, between);
    PrefixedIsRead(digits, LowerAll(digits));
    PrefixedIsRead(InPairs(digits, between), LowerAll(digits));
  }

  lemma RepeatFew(p: string)
    ensures Repeat(p, 0) == [] && Repeat(p, 1) == p
  {
    assert Repeat(p, 1) == p + Repeat(p, 0);
  }

  lemma FormIsRead(i: nat, j: nat, body: string, h: string)
    requires IsPin(h) && LowerAll(DropSeparators(body)) == h
    ensures NormalizeFingerprint(Repeat("sha256:", i) + Repeat("SHA256:", j) + body) == Ok(h)
  {
    var text := Repeat("sha256:", i) + Repeat("SHA256:", j) + body;
    assert [] + text + [] == text;
    SpellingIsRead(text, [], i, j, body, [], h);
  }

  lemma PrefixedIsRead(body: string, h: string)
    requires IsPin(h) && LowerAll(DropSeparators(body)) == h
    ensures NormalizeFingerprint(body) == Ok(h)
    ensures NormalizeFingerprint("sha256:" + body) == Ok(h) && NormalizeFingerprint("SHA256:" + body) == Ok(h)
  {
    RepeatFew("sha256:");
    RepeatFew("SHA256:");
    FormIsRead(0, 0, body, h);
    FormIsRead(1, 0, body, h);
    FormIsRead(0, 1, body, h);
    var none: string := [];
    assert none + none + body == body && "sha256:" + none == "sha256:" && none + "SHA256:" == "SHA256:";
  }

  /** Nothing but a spelling is read. */
  lemma OnlySpellingsAreRead(raw: string) returns (l: string, i: nat, j: nat, body: string, r: string)
    requires NormalizeFingerprint(raw).Ok?
    ensures IsSpelling(raw, l, i, j, body, r, NormalizeFingerprint(raw).value)
  {
    NormalizedIsPin(raw);
    l, r := TrimSplits(raw);
    i := TrimStartOfSplits(Trim(raw), LOWER_PREFIX);
    var rest := TrimStartOf(Trim(raw), LOWER_PREFIX);
    j := TrimStartOfSplits(rest, UPPER_PREFIX);
    body := TrimStartOf(rest, UPPER_PREFIX);
    assert Trim(raw) == Repeat(LOWER_PREFIX, i) + Repeat(UPPER_PREFIX, j) + body;
  }

  lemma PinSpellsItself(h: string)
    requires IsPin(h)
    ensures IsSpelling(h, [], 0, 0, h, [], h)
  {
    DropSeparatorsKeeps(h);
    assert LowerAll(h) == h;
    var none: string := [];
    assert Repeat(LOWER_PREFIX, 0) == none && Repeat(UPPER_PREFIX, 0) == none;
    assert none + none + h == h && none + h + none == h;
  }

  /** A canonical pin is left as it is, so reading twice reads once. */
  lemma NormalizeIsIdempotent(raw: string)
    requires NormalizeFingerprint(raw).Ok?
    ensures IsPin(NormalizeFingerprint(raw).value)
    ensures NormalizeFingerprint(NormalizeFingerprint(raw).value) == NormalizeFingerprint(raw)
  {
    NormalizedIsPin(raw);
    var h := NormalizeFingerprint(raw).value;
    PinSpellsItself(h);
    SpellingIsRead(h, [], 0, 0, h, [], h);
  }

  // ----- hex of a digest -----

  function HexChar(n: nat): (c: char)
    requires n < 16
    ensures IsLowerHex(c)
  {
    if n < 10 then (48 + n) as char else (87 + n) as char
  }

  function HexValue(c: char): (n: nat)
    requires IsLowerHex(c)
    ensures n < 16 && HexChar(n) == c
  {
    if IsDigit(c) then c as int - 48 else c as int - 87
  }

  function HexEncode(bytes: seq<byte>): (h: string)
    ensures |h| == 2 * |bytes|
    ensures forall i :: 0 <= i < |h| ==> IsLowerHex(h[i])
  {
    if bytes == [] then [] else [HexChar(bytes[0] / 16), HexChar(bytes[0] % 16)] + HexEncode(bytes[1..])
  }

  function HexDecode(h: string): (bytes: seq<byte>)
    requires |h| % 2 == 0 && forall i :: 0 <= i < |h| ==> IsLowerHex(h[i])
    ensures 2 * |bytes| == |h|
  {
    if h == [] then [] else [16 * HexValue(h[0]) + HexValue(h[1])] + HexDecode(h[2..])
  }

  /** Each byte is written as its high and then its low digit, in lower case. */
  lemma {:induction false} HexDigitsOf(bytes: seq<byte>, i: nat)
    requires i < |bytes|
    ensures var digits, b := "0123456789abcdef", bytes[i];
            HexEncode(bytes)[2 * i] == digits[b / 16] && HexEncode(bytes)[2 * i + 1] == digits[b % 16]
  {
    if i == 0 {
      HexCharIs(bytes[0] / 16);
      HexCharIs(bytes[0] % 16);
    } else {
      HexDigitsOf(bytes[1..], i - 1);
    }
  }

  lemma HexCharIs(n: nat)
    requires n < 16
    ensures HexChar(n) == "0123456789abcdef"[n]
  {
  }

  /** Lower-case hex is a bijection, so comparing texts compares digests. */
  lemma {:induction false} HexDecodeEncode(bytes: seq<byte>)
    ensures HexDecode(HexEncode(bytes)) == bytes
  {
    if bytes != [] {
      HexDecodeEncode(bytes[1..]);
      var h := HexEncode(bytes);
      assert h[2..] == HexEncode(bytes[1..]);
      assert HexValue(HexChar(bytes[0] / 16)) == bytes[0] / 16;
      assert HexValue(HexChar(bytes[0] % 16)) == bytes[0] % 16;
    }
  }

  lemma {:induction false} HexEncodeDecode(h: string)
    requires |h| % 2 == 0 && forall i :: 0 <= i < |h| ==> IsLowerHex(h[i])
    ensures HexEncode(HexDecode(h)) == h
  {
    if h != [] {
      var bytes := HexDecode(h);
      HexEncodeDecode(h[2..]);
      assert bytes[0] == 16 * HexValue(h[0]) + HexValue(h[1]) && bytes[1..] == HexDecode(h[2..]);
      assert bytes[0] / 16 == HexValue(h[0]) && bytes[0] % 16 == HexValue(h[1]);
      assert HexEncode(bytes) == [h[0], h[1]] + h[2..];
    }
  }
}
