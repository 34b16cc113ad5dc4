/** What the two search views share: splitting the text box into terms, and tagging
    every hit with the term that produced it. */
module SearchCommon {
  import opened Text
  import opened Js
  import opened Sequences

  // The two splitting rules: a comma with the whitespace after it, or a line feed, in
  // SearchProductsView; a comma with the whitespace after it in ProductSearchView.
  datatype Separators = CommaOrNewline | CommaOnly

  // `s.split(rule)`: the pieces between separators, in order. A comma also swallows
  // the whitespace after it, as the greedy `\s*` does.
  function Split(s: string, seps: Separators): (pieces: seq<string>)
    ensures |pieces| >= 1
    ensures forall i :: 0 <= i < |pieces| ==> SeparatorFree(pieces[i], seps)
    decreases |s|
  {
    if s == [] then [[]]
    else if s[0] == ',' then [[]] + Split(TrimStart(s[1..]), seps)
    else if seps == CommaOrNewline && s[0] == '\n' then [[]] + Split(s[1..], seps)
    else
      var p := Split(s[1..], seps);
      assert forall i :: 1 <= i < |p| ==> ([[s[0]] + p[0]] + p[1..])[i] == p[i];
      [[s[0]] + p[0]] + p[1..]
  }

  /** No character the rule splits at. */
  predicate SeparatorFree(t: string, seps: Separators) {
    ',' !in t && (seps == CommaOrNewline ==> '\n' !in t)
  }

  /** A term as the views keep it: trimmed, at least three UTF-16 code units long, and
      free of the separators it was split on. */
  predicate WellFormedTerm(t: string, seps: Separators) {
    IsTrimmed(t) && Utf16Length(t) >= 3 && SeparatorFree(t, seps)
  }

  /** One piece, trimmed, kept when its `length` is at least three. */
  function PieceTerm(p: string, seps: Separators): (r: seq<string>)
    requires SeparatorFree(p, seps)
    ensures Utf16Length(Trim(p)) >= 3 ==> r == [Trim(p)]
    ensures Utf16Length(Trim(p)) < 3 ==> r == []
    ensures forall i :: 0 <= i < |r| ==> WellFormedTerm(r[i], seps)
  {
    if Utf16Length(Trim(p)) >= 3 then
      PieceWellFormed(p, seps);
      [Trim(p)]
    else []
  }

  lemma {:induction false} PieceWellFormed(p: string, seps: Separators)
    requires SeparatorFree(p, seps) && Utf16Length(Trim(p)) >= 3
    ensures forall i :: 0 <= i < |[Trim(p)]| ==> WellFormedTerm([Trim(p)][i], seps)
  {
    TrimKeepsSeparatorsOut(p, seps);
    assert WellFormedTerm(Trim(p), seps);
  }

  /** `pieces.map(t => t.trim()).filter(t => t.length >= 3)`. */
  function KeepTerms(pieces: seq<string>, seps: Separators): (terms: seq<string>)
    requires forall i :: 0 <= i < |pieces| ==> SeparatorFree(pieces[i], seps)
    ensures |terms| <= |pieces|
    ensures forall i :: 0 <= i < |terms| ==> WellFormedTerm(terms[i], seps)
  {
    if pieces == [] then []
    else
      var first := PieceTerm(pieces[0], seps);
      var rest := KeepTerms(pieces[1..], seps);
      AppendWellFormed(first, rest, seps);
      first + rest
  }

  lemma {:induction false} AppendWellFormed(a: seq<string>, b: seq<string>, seps: Separators)
    requires forall i :: 0 <= i < |a| ==> WellFormedTerm(a[i], seps)
    requires forall i :: 0 <= i < |b| ==> WellFormedTerm(b[i], seps)
    ensures forall i :: 0 <= i < |a + b| ==> WellFormedTerm((a + b)[i], seps)
  {
    assert forall i :: |a| <= i < |a + b| ==> (a + b)[i] == b[i - |a|];
  }

  lemma {:induction false} TrimKeepsSeparatorsOut(p: string, seps: Separators)
    requires SeparatorFree(p, seps)
    ensures SeparatorFree(Trim(p), seps)
  {
    TrimKeepsOut(p, ',');
    if seps == CommaOrNewline { TrimKeepsOut(p, '\n'); }
  }

  /** `getSearchTerms`: nothing for a blank box, otherwise the kept pieces. */
  function Terms(s: string, seps: Separators): (terms: seq<string>)
    ensures AllWhitespace(s) ==> terms == []
    ensures forall i :: 0 <= i < |terms| ==> WellFormedTerm(terms[i], seps)
  {
    if Trim(s) == [] then [] else KeepTerms(Split(s, seps), seps)
  }

  // ---------------------------------------------------------------------------
  // Joining the terms back together

  /** A piece starting with a plain character keeps it at its front. */
  lemma {:induction false} SplitPlainStep(s: string, seps: Separators)
    requires s != [] && s[0] != ',' && s[0] != '\n'
    ensures Split(s, seps) == [[s[0]] + Split(s[1..], seps)[0]] + Split(s[1..], seps)[1..]
  {
  }

  lemma {:induction false} SplitPlainPrefix(t: string, rest: string, seps: Separators)
    requires ',' !in t && '\n' !in t
    ensures Split(t + rest, seps) == [t + Split(rest, seps)[0]] + Split(rest, seps)[1..]
    decreases |t|
  {
    var q := Split(rest, seps);
    if t != [] {
      var s := t + rest;
      assert t[0] in t;
      assert s[0] == t[0] && s[1..] == t[1..] + rest;
      SplitPlainPrefix(t[1..], rest, seps);
      SplitPlainStep(s, seps);
      assert [t[0]] + (t[1..] + q[0]) == t + q[0];
    } else {
      assert t + rest == rest && t + q[0] == q[0];
      assert q == [q[0]] + q[1..];
    }
  }

  lemma {:induction false} SplitPlainAll(t: string, seps: Separators)
    requires ',' !in t && '\n' !in t
    ensures Split(t, seps) == [t]
  {
    SplitPlainPrefix(t, [], seps);
    assert t + [] == t;
  }

  /** Terms joined with commas split back into the same terms. */
  lemma {:induction false} SplitJoined(ts: seq<string>, seps: Separators)
    requires ts != []
    requires forall i :: 0 <= i < |ts| ==> WellFormedTerm(ts[i], seps) && '\n' !in ts[i]
    ensures Split(Join(ts, ","), seps) == ts
  {
    if |ts| == 1 {
      SplitPlainAll(ts[0], seps);
    } else {
      var rest := ts[1..];
      var j := Join(rest, ",");
      JoinCons(ts);
      SplitJoined(rest, seps);
      JoinedTrimmedStart(rest);
      SplitAtComma(j, seps);
      SplitPlainPrefix(ts[0], "," + j, seps);
      assert ts[0] + [] == ts[0];
      assert [ts[0]] + rest == ts;
    }
  }

  lemma {:induction false} JoinCons(ts: seq<string>)
    requires |ts| >= 2
    ensures Join(ts, ",") == ts[0] + ("," + Join(ts[1..], ","))
  {
    AppendAssoc(ts[0], ",", Join(ts[1..], ","));
  }

  /** Joined terms start with a visible character. */
  lemma {:induction false} JoinedTrimmedStart(ts: seq<string>)
    requires ts != [] && IsTrimmed(ts[0]) && ts[0] != []
    ensures TrimStart(Join(ts, ",")) == Join(ts, ",")
  {
    JoinStartsWith(ts);
    var j := Join(ts, ",");
    assert !IsWhitespace(j[0]);
  }

  lemma {:induction false} JoinStartsWith(ts: seq<string>)
    requires ts != [] && ts[0] != []
    ensures Join(ts, ",") != [] && Join(ts, ",")[0] == ts[0][0]
  {
  }

  lemma {:induction false} KeepWellFormed(ts: seq<string>, seps: Separators)
    requires forall i :: 0 <= i < |ts| ==> SeparatorFree(ts[i], seps)
    requires forall i :: 0 <= i < |ts| ==> IsTrimmed(ts[i]) && Utf16Length(ts[i]) >= 3
    ensures KeepTerms(ts, seps) == ts
  {
    if ts != [] {
      TrimOfTrimmed(ts[0]);
      KeepWellFormed(ts[1..], seps);
    }
  }

  /** Joining well-formed terms with commas and reading the box again gives the same
      terms, in the same order. */
  lemma {:induction false} JoinedNotBlank(ts: seq<string>, seps: Separators)
    requires ts != [] && WellFormedTerm(ts[0], seps)
    ensures Trim(Join(ts, ",")) != []
  {
    JoinStartsWith(ts);
    assert !IsWhitespace(Join(ts, ",")[0]);
  }

  lemma {:induction false} WellFormedAreSeparatorFree(ts: seq<string>, seps: Separators)
    requires forall i :: 0 <= i < |ts| ==> WellFormedTerm(ts[i], seps)
    ensures forall i :: 0 <= i < |ts| ==> SeparatorFree(ts[i], seps)
    ensures forall i :: 0 <= i < |ts| ==> IsTrimmed(ts[i]) && Utf16Length(ts[i]) >= 3
  {
    forall i | 0 <= i < |ts|
      ensures SeparatorFree(ts[i], seps) && IsTrimmed(ts[i]) && Utf16Length(ts[i]) >= 3
    {
      assert WellFormedTerm(ts[i], seps);
    }
  }

  lemma {:induction false} TermsOfJoined(ts: seq<string>, seps: Separators)
    requires forall i :: 0 <= i < |ts| ==> WellFormedTerm(ts[i], seps) && '\n' !in ts[i]
    ensures Terms(Join(ts, ","), seps) == ts
  {
    if ts != [] {
      JoinedNotBlank(ts, seps);
      SplitJoined(ts, seps);
      WellFormedAreSeparatorFree(ts, seps);
      KeepWellFormed(ts, seps);
    }
  }

  /** Reading the box is idempotent: writing the terms back, comma-separated, and
      reading again changes nothing. */
  lemma {:induction false} TermsIdempotent(s: string)
    ensures Terms(Join(Terms(s, CommaOrNewline), ","), CommaOrNewline) == Terms(s, CommaOrNewline)
  {
    TermsOfJoined(Terms(s, CommaOrNewline), CommaOrNewline);
  }

  lemma {:induction false} SplitAtComma(x: string, seps: Separators)
    ensures Split("," + x, seps) == [[]] + Split(TrimStart(x), seps)
  {
    assert ("," + x)[0] == ',' && ("," + x)[1..] == x;
  }

  lemma {:induction false} SplitAtNewline(x: string)
    ensures Split("\n" + x, CommaOrNewline) == [[]] + Split(x, CommaOrNewline)
  {
    assert ("\n" + x)[0] == '\n' && ("\n" + x)[1..] == x;
  }

  lemma {:induction false} KeepStep(pieces: seq<string>, seps: Separators)
    requires pieces != []
    requires forall i :: 0 <= i < |pieces| ==> SeparatorFree(pieces[i], seps)
    ensures KeepTerms(pieces, seps) == PieceTerm(pieces[0], seps) + KeepTerms(pieces[1..], seps)
  {
  }

  /** The kept terms of one piece. */
  lemma {:induction false} KeepOne(a: string, seps: Separators)
    requires SeparatorFree(a, seps)
    ensures KeepTerms([a], seps) == if Utf16Length(Trim(a)) >= 3 then [Trim(a)] else []
  {
    var one := [a];
    KeepStep(one, seps);
    assert one[1..] == [];
    assert KeepTerms(one[1..], seps) == [];
  }

  lemma {:induction false} KeepTwo(a: string, b: string, seps: Separators)
    requires SeparatorFree(a, seps) && SeparatorFree(b, seps)
    ensures KeepTerms([a, b], seps)
         == (if Utf16Length(Trim(a)) >= 3 then [Trim(a)] else [])
          + (if Utf16Length(Trim(b)) >= 3 then [Trim(b)] else [])
  {
    var two := [a, b];
    KeepStep(two, seps);
    assert two[1..] == [b];
    KeepOne(b, seps);
  }

  lemma {:induction false} NotBlank(s: string)
    requires s != [] && !IsWhitespace(s[0])
    ensures Trim(s) != []
  {
  }

  /** A piece whose `length` is under three is dropped: `"bolt, nu"` gives only
      `"bolt"`. */
  lemma {:induction false} ShortTermDropped(a: string, b: string, seps: Separators)
    requires WellFormedTerm(a, seps) && '\n' !in a
    requires SeparatorFree(b, seps) && '\n' !in b && Utf16Length(b) < 3
    ensures Terms(a + ", " + b, seps) == [a]
  {
    var s := a + ", " + b;
    NotBlankAfter(a, ", " + b);
    AppendAssoc(a, ", ", b);
    TermsOfNonBlank(s, seps);
    SplitTwoPieces(a, b, seps);
    TrimShortens(b);
    KeepFirstOnly(a, TrimStart(b), seps);
  }

  /** A box holding one trimmed piece yields that piece exactly when its `length`,
      counted in UTF-16 code units, is at least three. */
  lemma {:induction false} SinglePieceKept(t: string, seps: Separators)
    requires SeparatorFree(t, seps) && '\n' !in t && IsTrimmed(t) && t != []
    ensures Terms(t, seps) == if Utf16Length(t) >= 3 then [t] else []
  {
    NotBlank(t);
    TermsOfNonBlank(t, seps);
    SplitPlainAll(t, seps);
    KeepOne(t, seps);
    TrimOfTrimmed(t);
  }

  /** Two characters outside the Basic Multilingual Plane, such as `"\U{1F529}\U{1F529}"`,
      already have `length` four and are kept, and so is one of them beside a plain
      character, while two plain characters are dropped. */
  lemma {:induction false} AstralTermsKept(c: char, x: char, seps: Separators)
    requires c as int > 0xFFFF
    requires x as int <= 0xFFFF && x != ',' && x != '\n' && !IsWhitespace(x)
    ensures Terms([c, c], seps) == [[c, c]]
    ensures Terms([c, x], seps) == [[c, x]]
    ensures Terms([x, x], seps) == []
  {
    assert !IsWhitespace(c) && c != ',' && c != '\n';
    TwoCharPiece(c, c, seps);
    TwoCharPiece(c, x, seps);
    TwoCharPiece(x, x, seps);
  }

  /** A two-character box with neither character a separator or whitespace: kept when
      the two characters take three code units or more. */
  lemma {:induction false} TwoCharPiece(c: char, d: char, seps: Separators)
    requires c != ',' && c != '\n' && !IsWhitespace(c)
    requires d != ',' && d != '\n' && !IsWhitespace(d)
    ensures CodeUnits(c) + CodeUnits(d) >= 3 ==> Terms([c, d], seps) == [[c, d]]
    ensures CodeUnits(c) + CodeUnits(d) < 3 ==> Terms([c, d], seps) == []
  {
    var t := [c, d];
    assert t[1..] == [d] && [d][1..] == [];
    assert Utf16Length(t) == CodeUnits(c) + CodeUnits(d);
    assert ',' !in t && '\n' !in t;
    SinglePieceKept(t, seps);
  }

  lemma {:induction false} NotBlankAfter(a: string, rest: string)
    requires a != [] && !IsWhitespace(a[0])
    ensures Trim(a + rest) != []
  {
    assert (a + rest)[0] == a[0];
    NotBlank(a + rest);
  }

  lemma {:induction false} KeepFirstOnly(a: string, b: string, seps: Separators)
    requires WellFormedTerm(a, seps) && SeparatorFree(b, seps) && Utf16Length(b) < 3
    ensures KeepTerms([a, b], seps) == [a]
  {
    KeepTwo(a, b, seps);
    TrimOfTrimmed(a);
    TrimShortens(b);
  }

  lemma {:induction false} TermsOfNonBlank(s: string, seps: Separators)
    requires Trim(s) != []
    ensures Terms(s, seps) == KeepTerms(Split(s, seps), seps)
  {
  }

  lemma {:induction false} SplitTwoPieces(a: string, b: string, seps: Separators)
    requires SeparatorFree(a, seps) && '\n' !in a
    requires SeparatorFree(b, seps) && '\n' !in b
    ensures Split(a + ", " + b, seps) == [a, TrimStart(b)]
    ensures SeparatorFree(TrimStart(b), seps)
  {
    var x := ", " + b;
    ShortPieceAfterComma(b, seps);
    PlainBeforeEmptyPiece(a, x, TrimStart(b), seps);
    AppendAssoc(a, ", ", b);
  }

  lemma {:induction false} PlainBeforeEmptyPiece(a: string, x: string, t: string, seps: Separators)
    requires ',' !in a && '\n' !in a
    requires Split(x, seps) == [[], t]
    ensures Split(a + x, seps) == [a, t]
  {
    var q := Split(x, seps);
    SplitPlainPrefix(a, x, seps);
    assert q[0] == [] && q[1..] == [t];
    assert a + q[0] == a;
  }

  lemma {:induction false} ShortPieceAfterComma(b: string, seps: Separators)
    requires SeparatorFree(b, seps) && '\n' !in b
    ensures Split(", " + b, seps) == [[], TrimStart(b)]
    ensures SeparatorFree(TrimStart(b), seps)
  {
    var tb := TrimStart(b);
    TrimStartKeepsOut(b, ',');
    TrimStartKeepsOut(b, '\n');
    var sb := [' '] + b;
    assert ", " + b == "," + sb;
    TrimStartSkips(' ', b);
    SplitAtComma(sb, seps);
    SplitPlainAll(tb, seps);
  }

  /** Only the newline rule splits at a line feed: with commas alone, a term may span
      lines. */
  lemma {:induction false} NewlineSplitsOnlyInOneView(a: string, b: string)
    requires WellFormedTerm(a, CommaOrNewline) && WellFormedTerm(b, CommaOrNewline)
    ensures Terms(a + "\n" + b, CommaOrNewline) == [a, b]
    ensures Terms(a + "\n" + b, CommaOnly) == [a + "\n" + b]
  {
    NewlineSplits(a, b);
    NewlineKept(a, b);
  }

  lemma {:induction false} NewlineSplits(a: string, b: string)
    requires WellFormedTerm(a, CommaOrNewline) && WellFormedTerm(b, CommaOrNewline)
    ensures Terms(a + "\n" + b, CommaOrNewline) == [a, b]
  {
    var s := a + "\n" + b;
    assert s[0] == a[0];
    NotBlank(s);
    var x := "\n" + b;
    SplitAtNewline(b);
    SplitPlainAll(b, CommaOrNewline);
    assert Split(x, CommaOrNewline) == [[], b];
    SplitPlainPrefix(a, x, CommaOrNewline);
    assert a + x == s;
    assert a + [] == a;
    assert Split(s, CommaOrNewline) == [a, b];
    KeepTwo(a, b, CommaOrNewline);
    TrimOfTrimmed(a);
    TrimOfTrimmed(b);
  }

  lemma {:induction false} NewlineKept(a: string, b: string)
    requires WellFormedTerm(a, CommaOrNewline) && WellFormedTerm(b, CommaOrNewline)
    ensures Terms(a + "\n" + b, CommaOnly) == [a + "\n" + b]
  {
    var s := a + "\n" + b;
    assert s[0] == a[0] && s[|s| - 1] == b[|b| - 1];
    NotBlank(s);
    assert ',' !in s;
    SplitCommaFree(s);
    KeepStep([s], CommaOnly);
    assert [s][1..] == [];
    TrimOfTrimmed(s);
  }

  lemma {:induction false} SplitCommaFree(s: string)
    requires ',' !in s
    ensures Split(s, CommaOnly) == [s]
  {
    if s != [] {
      assert s[0] in s;
      SplitCommaFree(s[1..]);
      assert [s[0]] + s[1..] == s;
    }
  }

  // ---------------------------------------------------------------------------
  // Tagging

  /** `items.map(item => ({...item, sourceSearchTerm: term}))`. */
  function Tag(items: seq<Record>, term: string): (tagged: seq<Record>)
    ensures |tagged| == |items|
    ensures forall i :: 0 <= i < |items| ==>
      Get(tagged[i], "sourceSearchTerm") == Str(term)
      && forall k :: k != "sourceSearchTerm" ==> Get(tagged[i], k) == Get(items[i], k)
  {
    seq(|items|, i requires 0 <= i < |items| => items[i]["sourceSearchTerm" := Str(term)])
  }
}
