/** String primitives of JavaScript that the dashboard relies on: `trim`, the `\s`
    class of its regular expressions, ASCII `toLowerCase`, `includes`, `join`, and
    decimal rendering of a status code. Strings are sequences of Unicode scalars;
    `length` counts their UTF-16 code units. */
module Text {

  /** ECMAScript WhiteSpace and LineTerminator code points: what `String.prototype.trim`
      removes and what the regular-expression class `\s` matches. */
  predicate IsWhitespace(c: char) {
    || c == '\t' || c == '\n' || c == '\U{0B}' || c == '\U{0C}' || c == '\r' || c == ' '
    || c == '\U{A0}' || c == '\U{1680}' || ('\U{2000}' <= c <= '\U{200A}')
    || c == '\U{2028}' || c == '\U{2029}' || c == '\U{202F}' || c == '\U{205F}'
    || c == '\U{3000}' || c == '\U{FEFF}'
  }

  predicate AllWhitespace(s: string) {
    forall i :: 0 <= i < |s| ==> IsWhitespace(s[i])
  }

  /** No whitespace at either end: what `trim` leaves. */
  predicate IsTrimmed(s: string) {
    s == [] || (!IsWhitespace(s[0]) && !IsWhitespace(s[|s| - 1]))
  }

  function TrimStart(s: string): (r: string)
    ensures |r| <= |s|
    ensures r == [] || !IsWhitespace(r[0])
  {
    if s != [] && IsWhitespace(s[0]) then TrimStart(s[1..]) else s
  }

  /** `trimStart` drops a run of leading whitespace and keeps the rest. */
  lemma {:induction false} TrimStartDrops(s: string)
    ensures |TrimStart(s)| <= |s| && TrimStart(s) == s[|s| - |TrimStart(s)|..]
    ensures AllWhitespace(s[..|s| - |TrimStart(s)|])
    decreases |s|
  {
    if s != [] && IsWhitespace(s[0]) {
      TrimStartDrops(s[1..]);
      var k := |s| - |TrimStart(s)|;
      assert s[1..][k - 1..] == s[k..];
      assert forall i :: 1 <= i < k ==> s[..k][i] == s[1..][..k - 1][i - 1];
    }
  }

  function TrimEnd(s: string): (r: string)
    ensures |r| <= |s|
    ensures r == [] || !IsWhitespace(r[|r| - 1])
  {
    if s != [] && IsWhitespace(s[|s| - 1]) then TrimEnd(s[..|s| - 1]) else s
  }

  /** `trimEnd` drops a run of trailing whitespace and keeps the rest. */
  lemma {:induction false} TrimEndDrops(s: string)
    ensures |TrimEnd(s)| <= |s| && TrimEnd(s) == s[..|TrimEnd(s)|]
    ensures AllWhitespace(s[|TrimEnd(s)|..])
    decreases |s|
  {
    if s != [] && IsWhitespace(s[|s| - 1]) {
      var n := |s| - 1;
      TrimEndDrops(s[..n]);
      var k := |TrimEnd(s)|;
      assert s[..n][..k] == s[..k];
      forall i | 0 <= i < |s| - k
        ensures IsWhitespace(s[k..][i])
      {
        if k + i < n {
          assert s[k..][i] == s[..n][k..][i];
        }
      }
    }
  }

  lemma {:induction false} TrimStartSkips(c: char, s: string)
    requires IsWhitespace(c)
    ensures TrimStart([c] + s) == TrimStart(s)
  {
    assert ([c] + s)[1..] == s;
  }

  /** `r` occurs in `s` starting at index `k`. */
  predicate InfixAt(r: string, s: string, k: int) {
    0 <= k && k + |r| <= |s| && r == s[k..k + |r|]
  }

  /** `String.prototype.trim`: the longest infix with no whitespace at either end. */
  function Trim(s: string): (r: string)
    ensures IsTrimmed(r)
    ensures |r| <= |s|
    ensures r == [] <==> AllWhitespace(s)
  {
    var t := TrimStart(s);
    var r := TrimEnd(t);
    TrimFacts(s, t, r);
    r
  }

  /** What `trim` returns is the text between the leading and the trailing whitespace. */
  lemma {:induction false} TrimInfix(s: string)
    ensures InfixAt(Trim(s), s, |s| - |TrimStart(s)|)
  {
    TrimFacts(s, TrimStart(s), TrimEnd(TrimStart(s)));
  }

  lemma {:induction false} TrimFacts(s: string, t: string, r: string)
    requires t == TrimStart(s) && r == TrimEnd(t)
    ensures IsTrimmed(r)
    ensures |r| <= |s|
    ensures InfixAt(r, s, |s| - |TrimStart(s)|)
    ensures r == [] <==> AllWhitespace(s)
  {
    TrimIsInfix(s, t, r);
    TrimEmptyIffBlank(s, t, r);
  }

  lemma {:induction false} TrimIsInfix(s: string, t: string, r: string)
    requires t == TrimStart(s) && r == TrimEnd(t)
    ensures IsTrimmed(r)
    ensures InfixAt(r, s, |s| - |t|)
  {
    TrimStartDrops(s);
    TrimEndDrops(t);
    TrimmedEnds(t, r);
    InfixOfSuffix(s, t, r);
  }

  lemma {:induction false} TrimmedEnds(t: string, r: string)
    requires t == [] || !IsWhitespace(t[0])
    requires r == [] || !IsWhitespace(r[|r| - 1])
    requires |r| <= |t| && r == t[..|r|]
    ensures IsTrimmed(r)
  {
    if r != [] {
      assert r[0] == t[0];
    }
  }

  lemma {:induction false} InfixOfSuffix(s: string, t: string, r: string)
    requires |t| <= |s| && t == s[|s| - |t|..]
    requires |r| <= |t| && r == t[..|r|]
    ensures InfixAt(r, s, |s| - |t|)
  {
  }

  lemma {:induction false} TrimEmptyIffBlank(s: string, t: string, r: string)
    requires t == TrimStart(s) && r == TrimEnd(t)
    ensures r == [] <==> AllWhitespace(s)
  {
    if r == [] {
      TrimEndDrops(t);
      assert t[|r|..] == t;
      BlankBeforeEmpty(s, t);
    }
    if AllWhitespace(s) {
      TrimStartOfBlank(s);
    }
  }

  lemma {:induction false} BlankBeforeEmpty(s: string, t: string)
    requires t == TrimStart(s) && AllWhitespace(t)
    ensures AllWhitespace(s)
  {
    TrimStartDrops(s);
    var k := |s| - |t|;
    assert s == s[..k] + t;
    BlankConcat(s[..k], t);
  }

  lemma {:induction false} BlankConcat(x: string, y: string)
    requires AllWhitespace(x) && AllWhitespace(y)
    ensures AllWhitespace(x + y)
  {
    assert forall i :: |x| <= i < |x + y| ==> (x + y)[i] == y[i - |x|];
  }

  lemma {:induction false} TrimStartOfBlank(s: string)
    requires AllWhitespace(s)
    ensures TrimStart(s) == []
    decreases |s|
  {
    if s != [] {
      assert forall i :: 0 <= i < |s| - 1 ==> s[1..][i] == s[i + 1];
      TrimStartOfBlank(s[1..]);
    }
  }

  /** Trimming removes characters and never adds one. */
  lemma {:induction false} TrimKeepsOut(s: string, c: char)
    requires c !in s
    ensures c !in Trim(s)
  {
    TrimInfix(s);
    var r := Trim(s);
    var k := |s| - |TrimStart(s)|;
    assert forall i :: 0 <= i < |r| ==> r[i] == s[k + i];
  }

  lemma {:induction false} TrimStartKeepsOut(s: string, c: char)
    requires c !in s
    ensures c !in TrimStart(s)
  {
    TrimStartDrops(s);
    var r := TrimStart(s);
    assert forall i :: 0 <= i < |r| ==> r[i] == s[|s| - |r| + i];
  }

  lemma {:induction false} TrimOfTrimmed(s: string)
    requires IsTrimmed(s)
    ensures Trim(s) == s
  {
  }

  /** The UTF-16 code units of one character: two for a character outside the Basic
      Multilingual Plane, which JavaScript stores as a surrogate pair. */
  function CodeUnits(c: char): nat {
    if c as int > 0xFFFF then 2 else 1
  }

  /** `s.length`: the number of UTF-16 code units, so at least one per character and
      exactly one per character when none lies outside the Basic Multilingual Plane. */
  function Utf16Length(s: string): (n: nat)
    ensures |s| <= n <= 2 * |s|
    ensures n == |s| <==> forall i :: 0 <= i < |s| ==> s[i] as int <= 0xFFFF
    ensures n == 2 * |s| <==> forall i :: 0 <= i < |s| ==> s[i] as int > 0xFFFF
  {
    if s == [] then 0
    else
      var rest := Utf16Length(s[1..]);
      assert forall i :: 1 <= i < |s| ==> s[i] == s[1..][i - 1];
      CodeUnits(s[0]) + rest
  }

  /** The `length` of a concatenation is the sum of the lengths. */
  lemma {:induction false} Utf16LengthAppend(a: string, b: string)
    ensures Utf16Length(a + b) == Utf16Length(a) + Utf16Length(b)
  {
    if a != [] {
      Utf16LengthAppend(a[1..], b);
      assert (a + b)[0] == a[0] && (a + b)[1..] == a[1..] + b;
    } else {
      assert a + b == b;
    }
  }

  /** An infix is never longer, in code units, than the text it occurs in. */
  lemma {:induction false} Utf16LengthInfix(r: string, s: string, k: int)
    requires InfixAt(r, s, k)
    ensures Utf16Length(r) <= Utf16Length(s)
  {
    var tail := s[k + |r|..];
    assert s == s[..k] + (r + tail);
    Utf16LengthAppend(s[..k], r + tail);
    Utf16LengthAppend(r, tail);
  }

  /** Trimming never makes a text longer in code units. */
  lemma {:induction false} TrimShortens(s: string)
    ensures Utf16Length(TrimStart(s)) <= Utf16Length(s)
    ensures Utf16Length(Trim(s)) <= Utf16Length(s)
  {
    TrimStartDrops(s);
    Utf16LengthInfix(TrimStart(s), s, |s| - |TrimStart(s)|);
    TrimInfix(s);
    Utf16LengthInfix(Trim(s), s, |s| - |TrimStart(s)|);
  }

  /** `toLowerCase`, modelled on the ASCII letters only. */
  function LowerChar(c: char): (d: char)
    ensures 'A' <= c <= 'Z' ==> d != c && 'a' <= d <= 'z'
    ensures !('A' <= c <= 'Z') ==> d == c
  {
    if 'A' <= c <= 'Z' then (c as int - 'A' as int + 'a' as int) as char else c
  }

  function ToLower(s: string): (r: string)
    ensures |r| == |s|
    ensures forall i :: 0 <= i < |s| ==> r[i] == LowerChar(s[i])
  {
    if s == [] then [] else [LowerChar(s[0])] + ToLower(s[1..])
  }

  /** `s.includes(t)`: `t` occurs in `s` at some position. */
  predicate Contains(s: string, t: string) {
    t <= s || (s != [] && Contains(s[1..], t))
  }

  lemma {:induction false} ContainsAt(s: string, t: string, i: nat)
    requires i + |t| <= |s| && s[i..i + |t|] == t
    ensures Contains(s, t)
  {
    if i > 0 {
      assert s[1..][i - 1..i - 1 + |t|] == t;
      ContainsAt(s[1..], t, i - 1);
    }
  }

  /** Lower-casing twice is lower-casing once. */
  lemma {:induction false} ToLowerIdempotent(s: string)
    ensures ToLower(ToLower(s)) == ToLower(s)
  {
    var l := ToLower(s);
    assert forall i :: 0 <= i < |s| ==> ToLower(l)[i] == LowerChar(l[i]) == l[i];
  }

  /** An occurrence of a lower-case `t` survives lower-casing the text it occurs in. */
  lemma {:induction false} LowerKeepsContains(s: string, t: string)
    requires ToLower(t) == t && Contains(s, t)
    ensures Contains(ToLower(s), t)
  {
    if t <= s {
      assert forall i :: 0 <= i < |t| ==> ToLower(s)[i] == LowerChar(s[i]) == LowerChar(t[i]) == t[i];
      assert ToLower(s)[..|t|] == t;
    } else {
      LowerKeepsContains(s[1..], t);
      assert ToLower(s)[1..] == ToLower(s[1..]);
    }
  }

  /** `parts.join(sep)`. */
  function Join(parts: seq<string>, sep: string): (r: string)
    ensures parts == [] ==> r == []
    ensures |parts| == 1 ==> r == parts[0]
  {
    if parts == [] then []
    else if |parts| == 1 then parts[0]
    else parts[0] + sep + Join(parts[1..], sep)
  }

  function DigitChar(d: nat): (c: char)
    requires d < 10
    ensures '0' <= c <= '9'
  {
    ('0' as int + d) as char
  }

  /** Decimal rendering of a natural number, as template literals print it. */
  function NatToString(n: nat): (r: string)
    ensures r != [] && forall i :: 0 <= i < |r| ==> '0' <= r[i] <= '9'
  {
    if n < 10 then [DigitChar(n)] else NatToString(n / 10) + [DigitChar(n % 10)]
  }

  /** `String(i)` for an integer. */
  function IntToString(i: int): (r: string)
    ensures r != []
  {
    if i < 0 then "-" + NatToString(-i) else NatToString(i)
  }
}
