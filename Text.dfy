/** String primitives of the JavaScript runtime that the handlers rely on:
    `trim`, the `\s` and `\D` regular-expression classes, `indexOf`,
    `replace` of a single character, `substring`, and decimal numerals. */
module Text {

  /** JavaScript's WhiteSpace and LineTerminator code points: what `String.prototype.trim`
      removes and what the regular-expression class `\s` matches. */
  predicate IsSpace(c: char) {
    ('\t' <= c <= '\r') || c == ' ' || c == '\U{00A0}' || c == '\U{1680}' ||
    ('\U{2000}' <= c <= '\U{200A}') || c == '\U{2028}' || c == '\U{2029}' || c == '\U{202F}' ||
    c == '\U{205F}' || c == '\U{3000}' || c == '\U{FEFF}'
  }

  /** The regular-expression class `\d`. */
  predicate IsDigit(c: char) {
    '0' <= c <= '9'
  }

  predicate AllDigits(s: string) {
    forall i :: 0 <= i < |s| ==> IsDigit(s[i])
  }

  predicate NoSpace(s: string) {
    forall i :: 0 <= i < |s| ==> !IsSpace(s[i])
  }

  /** `s.trimStart()`: drops the leading white space and nothing else. */
  function TrimStart(s: string): (r: string)
    ensures |r| <= |s| && r == s[|s| - |r|..]
    ensures forall i :: 0 <= i < |s| - |r| ==> IsSpace(s[i])
    ensures r == [] || !IsSpace(r[0])
  {
    if s != [] && IsSpace(s[0]) then TrimStart(s[1..]) else s
  }

  /** `s.trimEnd()`: drops the trailing white space and nothing else. */
  function TrimEnd(s: string): (r: string)
    ensures |r| <= |s| && r == s[..|r|]
    ensures forall i :: |r| <= i < |s| ==> IsSpace(s[i])
    ensures r == [] || !IsSpace(r[|r| - 1])
  {
    if s != [] && IsSpace(s[|s| - 1]) then TrimEnd(s[..|s| - 1]) else s
  }

  /** `s.trim()`. */
  function Trim(s: string): string {
    TrimEnd(TrimStart(s))
  }

  /** What `trim` keeps is a slice of its input, everything cut away is white space,
      and the result neither starts nor ends with white space. */
  lemma TrimSpec(s: string)
    ensures var k, r := |s| - |TrimStart(s)|, Trim(s);
      k + |r| <= |s| && r == s[k..k + |r|]
      && (forall i :: 0 <= i < k ==> IsSpace(s[i]))
      && (forall i :: k + |r| <= i < |s| ==> IsSpace(s[i]))
    ensures Trim(s) == [] || (!IsSpace(Trim(s)[0]) && !IsSpace(Trim(s)[|Trim(s)| - 1]))
  {
    TrimSlice(s);
    TrimCutFront(s);
    TrimCutBack(s);
    TrimEnds(s);
  }

  /** What `trim` keeps is a slice of its input. */
  lemma {:induction false} TrimSlice(s: string)
    ensures var k, r := |s| - |TrimStart(s)|, Trim(s);
      k + |r| <= |s| && r == s[k..k + |r|]
  {
    var t := TrimStart(s);
    TrimEndOfSuffix(s, |s| - |t|, t);
    assert TrimEnd(t) == Trim(s);
  }

  /** Only white space is cut in front of what `trim` keeps. */
  lemma {:induction false} TrimCutFront(s: string)
    ensures forall i :: 0 <= i < |s| - |TrimStart(s)| ==> IsSpace(s[i])
  {
  }

  /** Only white space is cut after what `trim` keeps. */
  lemma {:induction false} TrimCutBack(s: string)
    ensures var k, r := |s| - |TrimStart(s)|, Trim(s);
      forall i :: k + |r| <= i < |s| ==> IsSpace(s[i])
  {
    var t := TrimStart(s);
    TrimEndOfSuffix(s, |s| - |t|, t);
    assert TrimEnd(t) == Trim(s);
  }

  /** The trimmed string neither starts nor ends with white space. */
  lemma TrimEnds(s: string)
    ensures Trim(s) == [] || (!IsSpace(Trim(s)[0]) && !IsSpace(Trim(s)[|Trim(s)| - 1]))
  {
    var t := TrimStart(s);
    var r := TrimEnd(t);
    assert r == Trim(s);
    if r != [] {
      assert r[0] == t[0];
      assert !IsSpace(r[0]);
      assert !IsSpace(r[|r| - 1]);
    }
  }

  /** What `trimEnd` keeps of a suffix `t` of `s` is a slice of `s`, followed only by white space. */
  lemma TrimEndOfSuffix(s: string, k: nat, t: string)
    requires k <= |s| && t == s[k..]
    ensures var r := TrimEnd(t);
      k + |r| <= |s| && r == s[k..k + |r|] && (forall i :: k + |r| <= i < |s| ==> IsSpace(s[i]))
  {
    var r := TrimEnd(t);
    assert r == s[k..k + |r|];
    forall i | k + |r| <= i < |s| ensures IsSpace(s[i]) {
      assert s[i] == t[i - k];
    }
  }

  lemma TrimStartOfTrimmed(s: string)
    requires s == [] || !IsSpace(s[0])
    ensures TrimStart(s) == s
  {
  }

  /** Trimming twice is trimming once. */
  lemma TrimIdempotent(s: string)
    ensures Trim(Trim(s)) == Trim(s)
  {
    TrimSpec(s);
    var r := Trim(s);
    TrimStartOfTrimmed(r);
  }

  /** A string without white space is its own trim. */
  lemma TrimNoSpace(s: string)
    requires NoSpace(s)
    ensures Trim(s) == s
  {
    assert TrimStart(s) == s;
  }

  /** A string that neither starts nor ends with white space is its own trim. */
  lemma TrimUnpadded(s: string)
    requires s == [] || (!IsSpace(s[0]) && !IsSpace(s[|s| - 1]))
    ensures Trim(s) == s
  {
    TrimStartOfTrimmed(s);
  }

  predicate AllSpace(s: string) {
    forall i :: 0 <= i < |s| ==> IsSpace(s[i])
  }

  /** Trimming leaves nothing exactly when the text is all white space. */
  lemma TrimEmpty(s: string)
    ensures Trim(s) == [] <==> AllSpace(s)
  {
    TrimSpec(s);
    if AllSpace(s) {
      assert TrimStart(s) == [];
    }
  }

  /** `s.replace(/\D/g, "")`: keeps exactly the digits, in order. */
  function DigitsOnly(s: string): (r: string)
    ensures AllDigits(r) && |r| <= |s|
    ensures forall c {:trigger multiset(r)[c]} :: IsDigit(c) ==> multiset(r)[c] == multiset(s)[c]
    ensures AllDigits(s) ==> r == s
    ensures |s| == 1 ==> r == if IsDigit(s[0]) then s else []
  {
    if s == [] then []
    else
      assert s == [s[0]] + s[1..];
      (if IsDigit(s[0]) then [s[0]] else []) + DigitsOnly(s[1..])
  }

  /** Stripping non-digits distributes over concatenation; with the one-character case
      (a digit is kept, anything else dropped) this fixes the digits' order. */
  lemma {:induction false} DigitsOnlyAppend(a: string, b: string)
    ensures DigitsOnly(a + b) == DigitsOnly(a) + DigitsOnly(b)
  {
    if a == [] {
      assert a + b == b;
    } else {
      assert (a + b)[0] == a[0] && (a + b)[1..] == a[1..] + b;
      DigitsOnlyAppend(a[1..], b);
    }
  }

  /** Stripping non-digits is idempotent. */
  lemma DigitsOnlyIdempotent(s: string)
    ensures DigitsOnly(DigitsOnly(s)) == DigitsOnly(s)
  {
  }

  /** `s.indexOf(c)`: the first position holding `c`, or -1. */
  function IndexOf(s: string, c: char): (r: int)
    ensures -1 <= r < |s|
    ensures r == -1 <==> c !in s
    ensures 0 <= r ==> s[r] == c && c !in s[..r]
  {
    if s == [] then -1
    else if s[0] == c then 0
    else
      var k := IndexOf(s[1..], c);
      if k < 0 then -1
      else
        assert s[..k + 1] == [s[0]] + s[1..][..k];
        k + 1
  }

  /** `s.replace(c, d)` with a one-character search string: only the first occurrence changes. */
  function ReplaceFirst(s: string, c: char, d: char): (r: string)
    ensures |r| == |s|
    ensures c !in s ==> r == s
    ensures c in s ==> var i := IndexOf(s, c);
      r[i] == d && (forall j :: 0 <= j < |s| && j != i ==> r[j] == s[j])
  {
    var i := IndexOf(s, c);
    if i < 0 then s else s[..i] + [d] + s[i + 1..]
  }

  /** `s.substring(0, n)` for `n >= 0`. */
  function Take(s: string, n: nat): (r: string)
    ensures |r| == if n <= |s| then n else |s|
    ensures r <= s
  {
    if n <= |s| then s[..n] else s
  }

  /** The part of `s` before its first white space: `s.split(/\s+/)[0]` for a string
      that does not start with white space. */
  function FirstToken(s: string): (r: string)
    ensures r <= s && NoSpace(r)
    ensures r == s || IsSpace(s[|r|])
  {
    if s == [] || IsSpace(s[0]) then [] else [s[0]] + FirstToken(s[1..])
  }

  /** `s.toUpperCase()` on the ASCII letters. */
  function ToUpperAscii(s: string): (r: string)
    ensures |r| == |s|
  {
    seq(|s|, i requires 0 <= i < |s| => if 'a' <= s[i] <= 'z' then (s[i] as int - 32) as char else s[i])
  }

  /** ASCII case-insensitive prefix test, as a regular expression with the `i` flag does it. */
  predicate StartsWithIgnoreCase(s: string, prefix: string) {
    |prefix| <= |s| && ToUpperAscii(s[..|prefix|]) == ToUpperAscii(prefix)
  }

  function Pow10(k: nat): (r: nat)
    ensures r >= 1
  {
    if k == 0 then 1 else 10 * Pow10(k - 1)
  }

  lemma {:induction false} Pow10Add(a: nat, b: nat)
    ensures Pow10(a + b) == Pow10(a) * Pow10(b)
  {
    if a > 0 {
      Pow10Add(a - 1, b);
      assert Pow10(a + b) == 10 * Pow10(a - 1 + b);
      MulAssoc10(Pow10(a - 1), Pow10(b));
    }
  }

  lemma MulAssoc10(x: int, y: int)
    ensures 10 * (x * y) == (10 * x) * y
  {
  }

  function DigitChar(d: nat): char
    requires d < 10
  {
    ('0' as int + d) as char
  }

  function DigitVal(c: char): nat
    requires IsDigit(c)
  {
    c as int - '0' as int
  }

  /** The value of a string of decimal digits (0 for the empty string). */
  function DigitsValue(ds: string): nat
    requires AllDigits(ds)
  {
    if ds == [] then 0 else 10 * DigitsValue(ds[..|ds| - 1]) + DigitVal(ds[|ds| - 1])
  }

  /** Reading digits left to right: appending `b` shifts `a` by `|b|` places. */
  lemma {:induction false} DigitsValueAppend(a: string, b: string)
    requires AllDigits(a) && AllDigits(b)
    ensures AllDigits(a + b)
    ensures DigitsValue(a + b) == DigitsValue(a) * Pow10(|b|) + DigitsValue(b)
  {
    if b == [] {
      assert a + b == a;
    } else {
      var b', d := b[..|b| - 1], DigitVal(b[|b| - 1]);
      assert (a + b)[..|a + b| - 1] == a + b';
      assert DigitsValue(a + b) == 10 * DigitsValue(a + b') + d;
      DigitsValueAppend(a, b');
      ShiftStep(DigitsValue(a), Pow10(|b'|), DigitsValue(b'), d);
    }
  }

  lemma ShiftStep(x: int, p: int, y: int, d: int)
    ensures 10 * (x * p + y) + d == x * (10 * p) + (10 * y + d)
  {
  }

  lemma DigitsValueBound(ds: string)
    requires AllDigits(ds)
    ensures DigitsValue(ds) < Pow10(|ds|)
  {
    if ds != [] {
      DigitsValueBound(ds[..|ds| - 1]);
    }
  }

  /** The decimal numeral of `n`, as `String(n)` writes it. */
  function NatToString(n: nat): (r: string)
    ensures r != [] && AllDigits(r)
  {
    if n < 10 then [DigitChar(n)] else NatToString(n / 10) + [DigitChar(n % 10)]
  }

  /** `String(i)` for an integer. */
  function IntToString(i: int): string {
    if i < 0 then "-" + NatToString(-i) else NatToString(i)
  }

  /** Reading back a numeral gives the number: the numeral is a faithful encoding. */
  lemma {:induction false} NatToStringRoundTrip(n: nat)
    ensures DigitsValue(NatToString(n)) == n
  {
    if n >= 10 {
      NatToStringRoundTrip(n / 10);
      var s := NatToString(n);
      assert s[..|s| - 1] == NatToString(n / 10);
    }
  }

  /** Distinct numbers have distinct numerals. */
  lemma NatToStringInjective(a: nat, b: nat)
    requires NatToString(a) == NatToString(b)
    ensures a == b
  {
    NatToStringRoundTrip(a);
    NatToStringRoundTrip(b);
  }
}
