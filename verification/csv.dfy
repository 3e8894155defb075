/**
 * The CSV text produced by the export: every field wrapped in double
 * quotes with nothing escaped inside, fields joined by ',' and lines by
 * '\n'. Section 2, rule 7 of RFC 4180 asks for an embedded double quote to
 * be doubled; this serialiser does not, so the text reads back faithfully
 * only while no field contains one.
 */
module Csv {
  import opened Wrappers
  import Text

  function Quote(field: string): string {
    ['"'] + field + ['"']
  }

  /** `row.map(field => `"${field}"`)` */
  function QuoteAll(row: seq<string>): (r: seq<string>)
    ensures |r| == |row|
  {
    if |row| == 0 then [] else [Quote(row[0])] + QuoteAll(row[1..])
  }

  /** `Array.prototype.join(sep)`. */
  function Join(parts: seq<string>, sep: char): string {
    if |parts| == 0 then ""
    else if |parts| == 1 then parts[0]
    else parts[0] + [sep] + Join(parts[1..], sep)
  }

  function LinesOf(rows: seq<seq<string>>): (r: seq<string>)
    ensures |r| == |rows|
  {
    if |rows| == 0 then [] else [Join(QuoteAll(rows[0]), ',')] + LinesOf(rows[1..])
  }

  /** `rows.map(row => row.map(quote).join(',')).join('\n')` */
  function Document(rows: seq<seq<string>>): string {
    Join(LinesOf(rows), '\n')
  }

  /** The number of times `c` occurs in `s`. */
  function Occurrences(s: string, c: char): nat {
    if |s| == 0 then 0 else (if s[0] == c then 1 else 0) + Occurrences(s[1..], c)
  }

  lemma {:induction false} OccurrencesAppend(a: string, b: string, c: char)
    ensures Occurrences(a + b, c) == Occurrences(a, c) + Occurrences(b, c)
  {
    if |a| == 0 {
      assert a + b == b;
    } else {
      assert (a + b)[1..] == a[1..] + b;
      OccurrencesAppend(a[1..], b, c);
    }
  }

  /** `s.indexOf(c)` as an option: the first index of `c` in `s`, if any. */
  function IndexOf(s: string, c: char): (r: Option<nat>)
    ensures r.Some? ==> r.value < |s| && s[r.value] == c && c !in s[..r.value]
    ensures r.None? ==> c !in s
  {
    var k := Text.FirstIndex(s, c);
    if k < |s| then Some(k) else None
  }

  /**
   * A reader for text made only of quoted fields: each field runs from an
   * opening quote to the next quote, and is followed by ',' (next field),
   * '\n' (next line) or the end of the text.
   */
  function Parse(s: string): (r: Option<seq<seq<string>>>)
    ensures r.Some? ==> |r.value| > 0 && |r.value[0]| > 0
    decreases |s|, 1
  {
    if |s| == 0 || s[0] != '"' then None
    else match IndexOf(s[1..], '"')
      case None => None
      case Some(k) =>
        ParseAfterField(s[1..k + 1], s[k + 2..])
  }

  predicate NoQuotes(rows: seq<seq<string>>) {
    forall i, j :: 0 <= i < |rows| && 0 <= j < |rows[i]| ==> '"' !in rows[i][j]
  }

  predicate NoNewlines(rows: seq<seq<string>>) {
    forall i, j :: 0 <= i < |rows| && 0 <= j < |rows[i]| ==> '\n' !in rows[i][j]
  }

  predicate NoEmptyRow(rows: seq<seq<string>>) {
    forall i :: 0 <= i < |rows| ==> |rows[i]| > 0
  }

  /** The first occurrence is the one with no occurrence before it. */
  lemma IndexOfFirst(s: string, c: char, k: nat)
    requires k < |s| && s[k] == c && c !in s[..k]
    ensures IndexOf(s, c) == Some(k)
  {
  }

  /** The document is the first line, a newline, and the document of the remaining rows. */
  lemma DocumentCons(rows: seq<seq<string>>)
    requires |rows| > 0
    ensures |rows| == 1 ==> Document(rows) == Join(QuoteAll(rows[0]), ',')
    ensures |rows| > 1 ==> Document(rows) == Join(QuoteAll(rows[0]), ',') + ['\n'] + Document(rows[1..])
  {
    assert LinesOf(rows)[0] == Join(QuoteAll(rows[0]), ',');
    assert LinesOf(rows)[1..] == LinesOf(rows[1..]);
  }

  /** What the reader makes of the text that follows a field it has just read. */
  function ParseAfterField(field: string, rest: string): (r: Option<seq<seq<string>>>)
    ensures r.Some? ==> |r.value| > 0 && |r.value[0]| > 0
    decreases |rest|, 0
  {
    if |rest| == 0 then Some([[field]])
    else if rest[0] == ',' then
      match Parse(rest[1..])
      case None => None
      case Some(rows) => Some([[field] + rows[0]] + rows[1..])
    else if rest[0] == '\n' then
      match Parse(rest[1..])
      case None => None
      case Some(rows) => Some([[field]] + rows)
    else None
  }

  /** A field without quotes is read up to its closing quote. */
  lemma ParseQuoted(f: string, after: string)
    requires '"' !in f
    ensures Parse(Quote(f) + after) == ParseAfterField(f, after)
  {
    var s := Quote(f) + after;
    assert s[1..] == f + ['"'] + after;
    assert (f + ['"'] + after)[..|f|] == f;
    IndexOfFirst(s[1..], '"', |f|);
    assert s[1..|f| + 1] == f;
    assert s[|f| + 2..] == after;
  }

  /** The quoted line is the first quoted field, then ',' and the rest of the line. */
  lemma LineCons(row: seq<string>)
    requires |row| > 0
    ensures |row| == 1 ==> Join(QuoteAll(row), ',') == Quote(row[0])
    ensures |row| > 1 ==> Join(QuoteAll(row), ',') == Quote(row[0]) + [','] + Join(QuoteAll(row[1..]), ',')
  {
    assert QuoteAll(row)[0] == Quote(row[0]);
    assert QuoteAll(row)[1..] == QuoteAll(row[1..]);
  }

  function Line(row: seq<string>): string {
    Join(QuoteAll(row), ',')
  }

  /** A tail the reader accepts after a line: nothing, or a newline and more lines. */
  predicate GoodTail(tail: string) {
    |tail| == 0 || (tail[0] == '\n' && Parse(tail[1..]).Some?)
  }

  /** The rows read from a line holding `row` followed by a good tail. */
  function LineThen(row: seq<string>, tail: string): Option<seq<seq<string>>>
    requires GoodTail(tail)
  {
    if |tail| == 0 then Some([row]) else Some([row] + Parse(tail[1..]).value)
  }

  /** Reading one quoted line followed by `tail`. */
  lemma {:induction false} ParseLine(row: seq<string>, tail: string)
    requires |row| > 0
    requires forall j :: 0 <= j < |row| ==> '"' !in row[j]
    requires GoodTail(tail)
    ensures Parse(Line(row) + tail) == LineThen(row, tail)
  {
    LineCons(row);
    if |row| == 1 {
      ParseQuoted(row[0], tail);
      assert [row[0]] == row;
    } else {
      ParseLine(row[1..], tail);
      ParseLineStep(row[0], Line(row), Line(row[1..]), tail, LineThen(row[1..], tail).value);
      LineThenCons(row, tail);
    }
  }

  /** One more field in front of a line that reads back. */
  lemma ParseLineStep(f: string, line: string, rest: string, tail: string, r: seq<seq<string>>)
    requires '"' !in f
    requires line == Quote(f) + [','] + rest
    requires Parse(rest + tail) == Some(r)
    ensures Parse(line + tail) == Some([[f] + r[0]] + r[1..])
  {
    RegroupSepTail(Quote(f), ',', rest, tail);
    ParseFieldThenComma(f, rest + tail, r);
  }

  lemma RegroupSep(a: string, c: char, b: string)
    ensures a + [c] + b == a + ([c] + b)
  {
  }

  lemma RegroupSepTail(a: string, c: char, b: string, tail: string)
    ensures a + [c] + b + tail == a + ([c] + (b + tail))
  {
  }

  /** The rows expected after a line grow by the line's first field. */
  lemma LineThenCons(row: seq<string>, tail: string)
    requires |row| > 1 && GoodTail(tail)
    ensures var r := LineThen(row[1..], tail).value;
            LineThen(row, tail) == Some([[row[0]] + r[0]] + r[1..])
  {
    var more := if |tail| == 0 then [] else Parse(tail[1..]).value;
    assert LineThen(row, tail).value == [row] + more;
    assert LineThen(row[1..], tail).value == [row[1..]] + more;
    assert [row[0]] + row[1..] == row;
    ConsFirst(row[0], row[1..], more);
  }

  /** Putting a field in front of the first of several rows. */
  lemma ConsFirst(f: string, rest: seq<string>, more: seq<seq<string>>)
    ensures [[f] + rest] + more == [[f] + ([rest] + more)[0]] + ([rest] + more)[1..]
  {
    assert ([rest] + more)[1..] == more;
  }

  /** A quoted field, a comma, and text that reads back as `r`: the field joins r's first row. */
  lemma ParseFieldThenComma(f: string, more: string, r: seq<seq<string>>)
    requires '"' !in f
    requires Parse(more) == Some(r)
    ensures Parse(Quote(f) + ([','] + more)) == Some([[f] + r[0]] + r[1..])
  {
    ParseQuoted(f, [','] + more);
    assert ([','] + more)[1..] == more;
  }

  /** A quoted line, a newline, and text that reads back as `r`: the line's row comes first. */
  lemma ParseLineThenNewline(row: seq<string>, more: string, r: seq<seq<string>>)
    requires |row| > 0
    requires forall j :: 0 <= j < |row| ==> '"' !in row[j]
    requires Parse(more) == Some(r)
    ensures Parse(Line(row) + (['\n'] + more)) == Some([row] + r)
  {
    var tail := ['\n'] + more;
    assert tail[1..] == more;
    ParseLine(row, tail);
  }

  /**
   * The export reads back as the rows it was made from, as long as no field
   * contains a double quote.
   */
  lemma {:induction false} RoundTrip(rows: seq<seq<string>>)
    requires |rows| > 0 && NoEmptyRow(rows) && NoQuotes(rows)
    ensures Parse(Document(rows)) == Some(rows)
  {
    if |rows| == 1 {
      SingleLine(rows);
    } else {
      RoundTrip(rows[1..]);
      MoreLines(rows);
    }
  }

  /** A document of one line reads back as that line's row. */
  lemma SingleLine(rows: seq<seq<string>>)
    requires |rows| == 1 && NoEmptyRow(rows) && NoQuotes(rows)
    ensures Parse(Document(rows)) == Some(rows)
  {
    DocumentCons(rows);
    assert forall j :: 0 <= j < |rows[0]| ==> '"' !in rows[0][j];
    ParseLine(rows[0], []);
    assert Line(rows[0]) + [] == Line(rows[0]);
    assert [rows[0]] == rows;
  }

  /** The first line in front of remaining lines that read back. */
  lemma MoreLines(rows: seq<seq<string>>)
    requires |rows| > 1 && NoEmptyRow(rows) && NoQuotes(rows)
    requires Parse(Document(rows[1..])) == Some(rows[1..])
    ensures Parse(Document(rows)) == Some(rows)
  {
    DocumentCons(rows);
    assert forall j :: 0 <= j < |rows[0]| ==> '"' !in rows[0][j];
    RoundTripStep(rows[0], Document(rows), Line(rows[0]), Document(rows[1..]), rows[1..]);
    assert [rows[0]] + rows[1..] == rows;
  }

  /** One more line in front of a document that reads back. */
  lemma RoundTripStep(first: seq<string>, doc: string, line: string, rest: string, r: seq<seq<string>>)
    requires |first| > 0
    requires forall j :: 0 <= j < |first| ==> '"' !in first[j]
    requires line == Line(first)
    requires doc == line + ['\n'] + rest
    requires Parse(rest) == Some(r)
    ensures Parse(doc) == Some([first] + r)
  {
    RegroupSep(line, '\n', rest);
    ParseLineThenNewline(first, rest, r);
  }

  /**
   * A one-field document whose field holds a double quote that is not
   * followed by ',' or '\n' does not read back at all: the reader takes
   * that quote as the closing one.
   */
  lemma EmbeddedQuoteBreaksRoundTrip(a: string, b: string)
    requires '"' !in a
    requires |b| == 0 || (b[0] != ',' && b[0] != '\n')
    ensures Parse(Document([[a + ['"'] + b]])) == None
  {
    var f := a + ['"'] + b;
    DocumentCons([[f]]);
    LineCons([f]);
    assert Quote(f) == Quote(a) + (b + ['"']);
    ParseQuoted(a, b + ['"']);
  }

  /** A quoted line holds a newline only where one of its fields does. */
  lemma {:induction false} LineNewlines(row: seq<string>)
    requires forall j :: 0 <= j < |row| ==> '\n' !in row[j]
    ensures Occurrences(Join(QuoteAll(row), ','), '\n') == 0
  {
    if |row| > 0 {
      assert QuoteAll(row)[1..] == QuoteAll(row[1..]);
      OccurrencesAppend(['"'] + row[0], ['"'], '\n');
      OccurrencesAppend(['"'], row[0], '\n');
      NoOccurrence(row[0], '\n');
      if |row| > 1 {
        LineNewlines(row[1..]);
        OccurrencesAppend(Quote(row[0]) + [','], Join(QuoteAll(row[1..]), ','), '\n');
        OccurrencesAppend(Quote(row[0]), [','], '\n');
      }
    }
  }

  lemma {:induction false} NoOccurrence(s: string, c: char)
    requires c !in s
    ensures Occurrences(s, c) == 0
  {
    if |s| > 0 {
      assert s[0] != c;
      assert c !in s[1..];
      NoOccurrence(s[1..], c);
    }
  }

  /**
   * With no newline inside any field, the document has exactly one newline
   * between consecutive rows, so it has as many lines as rows.
   */
  lemma {:induction false} NewlineCount(rows: seq<seq<string>>)
    requires |rows| > 0 && NoNewlines(rows)
    ensures Occurrences(Document(rows), '\n') == |rows| - 1
  {
    LineNewlines(rows[0]);
    DocumentCons(rows);
    if |rows| > 1 {
      NewlineCount(rows[1..]);
      OccurrencesAppend(Join(QuoteAll(rows[0]), ',') + ['\n'], Document(rows[1..]), '\n');
      OccurrencesAppend(Join(QuoteAll(rows[0]), ','), ['\n'], '\n');
    }
  }
}
