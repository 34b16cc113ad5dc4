/** CSV serialisation shared by the two search views (`csvEscape` and the row
    builders), together with a reader for the format they write: fields separated by
    commas, records ended by a line feed, a field wrapped in double quotes when it holds a
    comma, a quote or a line feed, and a quote inside such a field written twice. The
    reader is the partner the round-trip lemmas are stated against. */
module Csv {
  import opened Wrappers
  import opened Text
  import opened Js
  import opened Sequences

  /** The characters that force a field into quotes. */
  predicate NeedsQuoting(s: string) {
    ',' in s || '"' in s || '\n' in s
  }

  /** `s.replace(/"/g, '""')`. */
  function DoubleQuotes(s: string): (r: string)
  {
    if s == [] then []
    else if s[0] == '"' then "\"\"" + DoubleQuotes(s[1..])
    else [s[0]] + DoubleQuotes(s[1..])
  }

  /** `csvEscape` on a string: trim it, then quote it if it needs quoting. */
  function EscapeText(s: string): (r: string)
    ensures var t := Trim(s);
      && (NeedsQuoting(t) ==> r == "\"" + DoubleQuotes(t) + "\"")
      && (!NeedsQuoting(t) ==> r == t)
  {
    var t := Trim(s);
    if NeedsQuoting(t) then "\"" + DoubleQuotes(t) + "\"" else t
  }

  /** `csvEscape(value)`: `null` and `undefined` become the empty field. */
  function Escape(v: JsValue): (r: string)
    ensures v.Str? ==> r == EscapeText(v.s)
    ensures !v.Str? ==> r == []
  {
    match v
    case Undefined => []
    case Null => []
    case Str(s) => EscapeText(s)
  }

  function EscapeAll(cells: seq<string>): (r: seq<string>)
    ensures |r| == |cells|
    ensures cells != [] ==> r[0] == EscapeText(cells[0]) && r[1..] == EscapeAll(cells[1..])
  {
    if cells == [] then [] else [EscapeText(cells[0])] + EscapeAll(cells[1..])
  }

  /** One line of output: the escaped cells joined by commas, then a line feed. */
  function EncodeLine(cells: seq<string>): string {
    Join(EscapeAll(cells), ",") + "\n"
  }

  /** A whole file: its lines one after another. */
  function EncodeDocument(rows: seq<seq<string>>): string {
    if rows == [] then [] else EncodeLine(rows[0]) + EncodeDocument(rows[1..])
  }

  /** The first line of a file is that row's one-line file. */
  lemma {:induction false} EncodeDocumentCons(row: seq<string>, rows: seq<seq<string>>)
    ensures EncodeDocument([row] + rows) == EncodeDocument([row]) + EncodeDocument(rows)
  {
    var line := EncodeLine(row);
    assert ([row] + rows)[1..] == rows;
    assert EncodeDocument([row]) == line + EncodeDocument([]) by { assert [row][1..] == []; }
    assert line + [] == line;
  }

  /** The line written for a header row: its escaped cells joined by commas. */
  method HeaderLine(header: seq<string>) returns (line: string)
    ensures line == EncodeDocument([header])
  {
    line := Join(EscapeAll(header), ",") + "\n";
    assert [header][1..] == [];
  }

  lemma {:induction false} EncodeDocumentAppend(rows: seq<seq<string>>, row: seq<string>)
    ensures EncodeDocument(rows + [row]) == EncodeDocument(rows) + EncodeLine(row)
  {
    if rows == [] {
      assert [] + [row] == [row] && [row][1..] == [];
    } else {
      assert (rows + [row])[1..] == rows[1..] + [row];
      assert (rows + [row])[0] == rows[0];
      EncodeDocumentAppend(rows[1..], row);
      Reassociate(EncodeDocument(rows + [row]), EncodeLine(rows[0]), EncodeDocument(rows[1..] + [row]),
                  EncodeDocument(rows[1..]), EncodeLine(row));
    }
  }

  // ---------------------------------------------------------------------------
  // The reader

  /** A field read so far, and the input after it. */
  datatype Scan = Scan(value: string, rest: string)

  /** The body of a quoted field, after its opening quote: a doubled quote stands for
      one quote, a single quote closes the field. `None` when the field never closes. */
  function ParseQuoted(s: string): (m: Option<Scan>)
    ensures m.Some? ==> |m.value.rest| < |s|
  {
    if s == [] then None
    else if s[0] == '"' then
      if |s| >= 2 && s[1] == '"' then
        match ParseQuoted(s[2..])
        case None => None
        case Some(sc) => Some(Scan("\"" + sc.value, sc.rest))
      else Some(Scan([], s[1..]))
    else
      match ParseQuoted(s[1..])
      case None => None
      case Some(sc) => Some(Scan([s[0]] + sc.value, sc.rest))
  }

  /** An unquoted field: everything up to the next comma or line feed. */
  function ParseUnquoted(s: string): (sc: Scan)
    ensures |sc.rest| <= |s|
  {
    if s == [] || s[0] == ',' || s[0] == '\n' then Scan([], s)
    else
      var sc := ParseUnquoted(s[1..]);
      Scan([s[0]] + sc.value, sc.rest)
  }

  function ParseField(s: string): (m: Option<Scan>)
    ensures m.Some? ==> |m.value.rest| <= |s|
  {
    if s != [] && s[0] == '"' then ParseQuoted(s[1..]) else Some(ParseUnquoted(s))
  }

  /** The fields of one record and the input after its line feed. */
  function ParseFields(s: string): (m: Option<(seq<string>, string)>)
    ensures m.Some? && s != [] ==> |m.value.1| < |s|
    decreases |s|
  {
    match ParseField(s)
    case None => None
    case Some(f) =>
      if f.rest == [] then Some(([f.value], []))
      else if f.rest[0] == '\n' then Some(([f.value], f.rest[1..]))
      else if f.rest[0] == ',' then
        match ParseFields(f.rest[1..])
        case None => None
        case Some(p) => Some(([f.value] + p.0, p.1))
      else None
  }

  /** Every record of a file. */
  function ParseDocument(s: string): Option<seq<seq<string>>>
    decreases |s|
  {
    if s == [] then Some([])
    else
      match ParseFields(s)
      case None => None
      case Some(p) =>
        match ParseDocument(p.1)
        case None => None
        case Some(rows) => Some([p.0] + rows)
  }

  // ---------------------------------------------------------------------------
  // Round trips

  predicate EndsField(rest: string) {
    rest == [] || rest[0] == ',' || rest[0] == '\n'
  }

  function PrependValue(prefix: string, m: Option<Scan>): Option<Scan> {
    match m
    case None => None
    case Some(sc) => Some(Scan(prefix + sc.value, sc.rest))
  }

  lemma {:induction false} ParseQuotedStep(s: string)
    requires s != []
    ensures s[0] == '"' && |s| >= 2 && s[1] == '"' ==> ParseQuoted(s) == PrependValue("\"", ParseQuoted(s[2..]))
    ensures s[0] == '"' && !(|s| >= 2 && s[1] == '"') ==> ParseQuoted(s) == Some(Scan([], s[1..]))
    ensures s[0] != '"' ==> ParseQuoted(s) == PrependValue([s[0]], ParseQuoted(s[1..]))
  {
  }

  lemma {:induction false} ParseQuotedDoubled(t: string, rest: string)
    requires rest == [] || rest[0] != '"'
    ensures ParseQuoted(DoubleQuotes(t) + "\"" + rest) == Some(Scan(t, rest))
  {
    if t == [] {
      var s := DoubleQuotes(t) + "\"" + rest;
      assert s == "\"" + rest;
      ParseQuotedStep(s);
    } else {
      ParseQuotedDoubled(t[1..], rest);
      ParseQuotedOneMore(t, rest);
    }
  }

  /** The step of `ParseQuotedDoubled`: one more character in front of the field. */
  lemma {:induction false} ParseQuotedOneMore(t: string, rest: string)
    requires t != []
    requires ParseQuoted(DoubleQuotes(t[1..]) + "\"" + rest) == Some(Scan(t[1..], rest))
    ensures ParseQuoted(DoubleQuotes(t) + "\"" + rest) == Some(Scan(t, rest))
  {
    var tail := DoubleQuotes(t[1..]) + "\"" + rest;
    if t[0] == '"' {
      assert DoubleQuotes(t) == "\"\"" + DoubleQuotes(t[1..]);
      assert DoubleQuotes(t) + "\"" + rest == "\"\"" + tail;
      ParseQuotedAfterDoubled(tail, t[1..], rest);
      assert "\"" + t[1..] == t;
    } else {
      assert DoubleQuotes(t) == [t[0]] + DoubleQuotes(t[1..]);
      assert DoubleQuotes(t) + "\"" + rest == [t[0]] + tail;
      ParseQuotedAfterChar(t[0], tail, t[1..], rest);
      assert [t[0]] + t[1..] == t;
    }
  }

  lemma {:induction false} ParseQuotedAfterDoubled(tail: string, v: string, rest: string)
    requires ParseQuoted(tail) == Some(Scan(v, rest))
    ensures ParseQuoted("\"\"" + tail) == Some(Scan("\"" + v, rest))
  {
    var s := "\"\"" + tail;
    assert s[2..] == tail;
    ParseQuotedStep(s);
  }

  lemma {:induction false} ParseQuotedAfterChar(c: char, tail: string, v: string, rest: string)
    requires c != '"' && ParseQuoted(tail) == Some(Scan(v, rest))
    ensures ParseQuoted([c] + tail) == Some(Scan([c] + v, rest))
  {
    var s := [c] + tail;
    assert s[1..] == tail;
    ParseQuotedStep(s);
  }

  lemma {:induction false} ParseUnquotedPlain(t: string, rest: string)
    requires ',' !in t && '\n' !in t
    requires EndsField(rest)
    ensures ParseUnquoted(t + rest) == Scan(t, rest)
  {
    if t != [] {
      assert (t + rest)[1..] == t[1..] + rest;
      ParseUnquotedPlain(t[1..], rest);
      assert [t[0]] + t[1..] == t;
    }
  }

  lemma {:induction false} ParseFieldQuoted(x: string)
    ensures ParseField("\"" + x) == ParseQuoted(x)
  {
    assert ("\"" + x)[1..] == x;
  }

  lemma {:induction false} ParseFieldUnquoted(x: string)
    requires x == [] || x[0] != '"'
    ensures ParseField(x) == Some(ParseUnquoted(x))
  {
  }

  /** Reading back one escaped field gives the trimmed value. */
  lemma {:induction false} ParseFieldEscaped(s: string, rest: string)
    requires EndsField(rest)
    ensures ParseField(EscapeText(s) + rest) == Some(Scan(Trim(s), rest))
  {
    var t := Trim(s);
    if NeedsQuoting(t) {
      ParseQuotedField(t, rest);
    } else {
      ParsePlainField(t, rest);
    }
  }

  lemma {:induction false} ParseQuotedField(t: string, rest: string)
    requires EndsField(rest)
    ensures ParseField("\"" + DoubleQuotes(t) + "\"" + rest) == Some(Scan(t, rest))
  {
    assert "\"" + DoubleQuotes(t) + "\"" + rest == "\"" + (DoubleQuotes(t) + "\"" + rest);
    ParseFieldQuoted(DoubleQuotes(t) + "\"" + rest);
    ParseQuotedDoubled(t, rest);
  }

  lemma {:induction false} ParsePlainField(t: string, rest: string)
    requires EndsField(rest) && !NeedsQuoting(t)
    ensures ParseField(t + rest) == Some(Scan(t, rest))
  {
    ParseUnquotedPlain(t, rest);
    assert t != [] ==> (t + rest)[0] == t[0] && t[0] in t;
    ParseFieldUnquoted(t + rest);
  }

  lemma {:induction false} ParseFieldsAtLineEnd(s: string, value: string, more: string)
    requires ParseField(s) == Some(Scan(value, "\n" + more))
    ensures ParseFields(s) == Some(([value], more))
  {
    assert ("\n" + more)[1..] == more;
  }

  lemma {:induction false} ParseFieldsAtComma(s: string, value: string, tail: string)
    requires ParseField(s) == Some(Scan(value, "," + tail))
    ensures ParseFields(s) == match ParseFields(tail)
      case None => None
      case Some(p) => Some(([value] + p.0, p.1))
  {
    assert ("," + tail)[1..] == tail;
  }

  lemma {:induction false} LineSplitsAtFirstComma(es: seq<string>, more: string)
    requires |es| >= 2
    ensures Join(es, ",") + "\n" + more == es[0] + ("," + (Join(es[1..], ",") + "\n" + more))
  {
  }

  lemma {:induction false} LineOfOneCell(es: seq<string>, more: string)
    requires |es| == 1
    ensures Join(es, ",") + "\n" + more == es[0] + ("\n" + more)
  {
  }

  /** Reading back one encoded line gives its cells, trimmed. */
  lemma {:induction false} ParseFieldsEncoded(cells: seq<string>, more: string)
    requires cells != []
    ensures ParseFields(Join(EscapeAll(cells), ",") + "\n" + more) == Some((TrimAll(cells), more))
  {
    var line := Join(EscapeAll(cells), ",") + "\n" + more;
    if |cells| == 1 {
      LineOfOneCell(EscapeAll(cells), more);
      ParseFieldEscaped(cells[0], "\n" + more);
      ParseFieldsAtLineEnd(line, Trim(cells[0]), more);
      assert TrimAll(cells) == [Trim(cells[0])];
    } else {
      var tail := Join(EscapeAll(cells[1..]), ",") + "\n" + more;
      LineSplitsAtFirstComma(EscapeAll(cells), more);
      ParseFieldEscaped(cells[0], "," + tail);
      ParseFieldsAtComma(line, Trim(cells[0]), tail);
      ParseFieldsEncoded(cells[1..], more);
      assert [Trim(cells[0])] + TrimAll(cells[1..]) == TrimAll(cells);
    }
  }

  function TrimAll(cells: seq<string>): (r: seq<string>)
    ensures |r| == |cells|
    ensures forall i :: 0 <= i < |cells| ==> r[i] == Trim(cells[i])
  {
    if cells == [] then [] else [Trim(cells[0])] + TrimAll(cells[1..])
  }

  function TrimRows(rows: seq<seq<string>>): (r: seq<seq<string>>)
    ensures |r| == |rows|
    ensures forall i :: 0 <= i < |rows| ==> r[i] == TrimAll(rows[i])
  {
    if rows == [] then [] else [TrimAll(rows[0])] + TrimRows(rows[1..])
  }

  lemma {:induction false} ParseDocumentStep(s: string, fields: seq<string>, more: string)
    requires s != [] && ParseFields(s) == Some((fields, more))
    ensures ParseDocument(s) == match ParseDocument(more)
      case None => None
      case Some(rows) => Some([fields] + rows)
  {
  }

  /** Reading back a written file gives every row, in order, with each cell trimmed:
      `csvEscape` loses only the surrounding whitespace. */
  lemma {:induction false} ParseEncodedDocument(rows: seq<seq<string>>)
    requires forall i :: 0 <= i < |rows| ==> rows[i] != []
    ensures ParseDocument(EncodeDocument(rows)) == Some(TrimRows(rows))
  {
    if rows != [] {
      var tail := EncodeDocument(rows[1..]);
      var doc := Join(EscapeAll(rows[0]), ",") + "\n" + tail;
      assert EncodeDocument(rows) == doc;
      ParseFieldsEncoded(rows[0], tail);
      ParseDocumentStep(doc, TrimAll(rows[0]), tail);
      ParseEncodedDocument(rows[1..]);
    }
  }

  /** A document of a header and rows of the header's width reads back as that many
      records of that width. */
  lemma {:induction false} HeaderedDocumentReadsBack(header: seq<string>, rows: seq<seq<string>>)
    requires header != []
    requires forall i :: 0 <= i < |rows| ==> |rows[i]| == |header|
    ensures ParseDocument(EncodeDocument([header] + rows)) == Some(TrimRows([header] + rows))
    ensures |TrimRows([header] + rows)| == |rows| + 1
    ensures forall i :: 0 <= i < |rows| + 1 ==> |TrimRows([header] + rows)[i]| == |header|
  {
    var all := [header] + rows;
    assert forall i :: 0 <= i < |all| ==> |all[i]| == |header| && all[i] != [];
    ParseEncodedDocument(all);
  }

  lemma {:induction false} SameScan(e: string)
    ensures ParseField(e + []) == ParseField(e)
  {
    assert e + [] == e;
  }

  /** For a value that is already trimmed, reading back its escaped form recovers it
      exactly. */
  lemma {:induction false} EscapeRoundTrip(s: string)
    requires IsTrimmed(s)
    ensures ParseField(EscapeText(s)) == Some(Scan(s, []))
  {
    ParseFieldEscaped(s, []);
    TrimOfTrimmed(s);
    SameScan(EscapeText(s));
  }
}
