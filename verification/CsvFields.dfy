/** Reading texts that anybody may have written: lines of fields, each with or without quotes, with lines
    that are empty or comments among them (the grammar of section 2 of RFC 4180). */
module CsvFields {
  import opened Csv
  import opened CsvRoundTrip

  /** A field, and whether it is written in quotes. */
  datatype Field = Field(text: string, quoted: bool)

  /** A line with at least one field, and whether it ends with CR LF. */
  datatype Line = Line(fields: seq<Field>, cr: bool)

  /** In quotes every text may be written, apart from line breaks if these are not allowed in quotes.
      Without quotes a field has no separator and no line break, and does not begin with the quote. */
  predicate IsField(p: Params, f: Field) {
    if f.quoted then p.quotedLinebreaks || (CR !in f.text && LF !in f.text)
    else p.separator !in f.text && CR !in f.text && LF !in f.text && (f.text == "" || f.text[0] != p.quoteChar)
  }

  ghost predicate AreFields(p: Params, fields: seq<Field>) {
    forall i :: 0 <= i < |fields| ==> IsField(p, fields[i])
  }

  ghost predicate AreLines(p: Params, lines: seq<Line>) {
    forall i :: 0 <= i < |lines| ==> lines[i].fields != [] && AreFields(p, lines[i].fields)
  }

  /** In quotes, every quote within the text is doubled. */
  function Written(p: Params, f: Field): string {
    if f.quoted then [p.quoteChar] + Escape(f.text, p.quoteChar) + [p.quoteChar] else f.text
  }

  function LineText(p: Params, fields: seq<Field>): string
    requires fields != []
  {
    if |fields| == 1 then Written(p, fields[0])
    else Written(p, fields[0]) + ([p.separator] + LineText(p, fields[1..]))
  }

  function LinesText(p: Params, lines: seq<Line>): string
    requires forall i :: 0 <= i < |lines| ==> lines[i].fields != []
  {
    if lines == [] then ""
    else LineText(p, lines[0].fields) + (LineBreak(lines[0].cr) + LinesText(p, lines[1..]))
  }

  /** What a field stands for: its text, unless quotes have no meaning. */
  function Value(p: Params, f: Field): string {
    if f.quoted && !p.autoQuote then Written(p, f) else f.text
  }

  function Values(p: Params, fields: seq<Field>): (r: Row)
    ensures |r| == |fields| && forall i :: 0 <= i < |r| ==> r[i] == Value(p, fields[i])
  {
    seq(|fields|, i requires 0 <= i < |fields| => Value(p, fields[i]))
  }

  const BLANK: seq<Field> := [Field("", false)]

  /** An empty line, or one whose first field begins with the prefix of comments, if these are skipped. */
  predicate IsSkipped(p: Params, fields: seq<Field>)
    requires fields != []
  {
    || (p.skipEmptyLines && fields == BLANK)
    || (p.skipCommentLines && Value(p, fields[0]) != "" && Value(p, fields[0])[0] == p.commentPrefix)
  }

  /** The rows that lines stand for. */
  function Rows(p: Params, lines: seq<Line>): Table
    requires forall i :: 0 <= i < |lines| ==> lines[i].fields != []
  {
    if lines == [] then []
    else (if IsSkipped(p, lines[0].fields) then [] else [Values(p, lines[0].fields)]) + Rows(p, lines[1..])
  }

  function CountCr(lines: seq<Line>): nat {
    if lines == [] then 0 else (if lines[0].cr then 1 else 0) + CountCr(lines[1..])
  }

  // ---------------------------------------------------------------------------------------
  // One field
  // ---------------------------------------------------------------------------------------

  lemma QuotedRead(p: Params, st: ParseState, c: string)
    requires Proper(p) && (p.quotedLinebreaks || (CR !in c && LF !in c)) && st.cell == "" && !st.quoted
    ensures var w := Written(p, Field(c, true)); Feed(p, st, w) == st.(cell := w)
  {
    var q := p.quoteChar;
    var inner := Escape(c, q);
    var st1 := Step(p, st, q);
    var st2 := st1.(cell := [q] + inner);
    assert InQuotes(p, st1) && st1.cell == [q];
    assert Step(p, st2, q) == st.(cell := [q] + inner + [q]);
    hide Step, Feed, Escape;
    FeedStep(p, st, q, inner);
    FeedEscaped(p, st1, c);
    FeedAppend(p, st, [q] + inner, [q]);
    FeedStep(p, st2, q, "");
    assert [q] + "" == [q];
    FeedNothing(p, Step(p, st2, q));
  }

  /** Taking quotes off a text in quotes undoes the doubling, whether the text needed quotes or not. */
  lemma QuotesTaken(p: Params, c: string)
    ensures Unquote(p, Written(p, Field(c, true))) == Value(p, Field(c, true))
  {
    var q := p.quoteChar;
    UnescapeEscape(c, q);
    Unwrap(q, Escape(c, q));
    hide Escape, Unescape;
  }

  lemma PlainRead(p: Params, st: ParseState, c: string)
    requires Proper(p) && IsField(p, Field(c, false)) && st.cell == "" && !st.quoted
    ensures Feed(p, st, c) == st.(cell := c) && Unquote(p, c) == c
  {
    hide Feed;
    FeedRaw(p, st, c);
    FeedRawFromOther(p, st, c);
  }

  lemma FieldRead(p: Params, st: ParseState, f: Field)
    requires Proper(p) && IsField(p, f) && st.cell == "" && !st.quoted
    ensures Feed(p, st, Written(p, f)) == st.(cell := Written(p, f)) && Unquote(p, Written(p, f)) == Value(p, f)
  {
    hide Feed, Unquote;
    if f.quoted {
      assert f == Field(f.text, true);
      QuotedRead(p, st, f.text);
      QuotesTaken(p, f.text);
    } else {
      assert f == Field(f.text, false);
      PlainRead(p, st, f.text);
    }
  }

  // ---------------------------------------------------------------------------------------
  // One line
  // ---------------------------------------------------------------------------------------

  lemma SeparatorRead(p: Params, st: ParseState)
    requires Proper(p) && !st.quoted
    ensures Step(p, st, p.separator) == st.(row := st.row + [Unquote(p, st.cell)], cell := "")
  {
  }

  lemma ValuesStep(p: Params, row: Row, fields: seq<Field>)
    requires |fields| > 1
    ensures var n := |fields| - 1;
      (row + [Value(p, fields[0])]) + Values(p, fields[1..])[..n - 1] == row + Values(p, fields)[..n]
  {
    hide Value;
  }

  lemma FirstFieldRead(p: Params, st: ParseState, f: Field, rest: string)
    requires Proper(p) && IsField(p, f) && st.cell == "" && !st.quoted
    ensures Feed(p, st, Written(p, f) + ([p.separator] + rest)) == Feed(p, st.(row := st.row + [Value(p, f)]), rest)
  {
    FieldRead(p, st, f);
    hide Feed, Unquote, Written, Value, Step, IsField;
    FeedAppend(p, st, Written(p, f), [p.separator] + rest);
    FeedStep(p, st.(cell := Written(p, f)), p.separator, rest);
    SeparatorRead(p, st.(cell := Written(p, f)));
  }

  /** Before its line break, a line is all its values but the last, and the last field as it is written. */
  lemma {:induction false} FieldsRead(p: Params, st: ParseState, fields: seq<Field>)
    requires Proper(p) && fields != [] && AreFields(p, fields) && st.cell == "" && !st.quoted
    ensures var n := |fields| - 1;
      Feed(p, st, LineText(p, fields)) == st.(row := st.row + Values(p, fields)[..n], cell := Written(p, fields[n]))
    decreases |fields|
  {
    hide Feed, Unquote, Written, Value, Step, IsField;
    var f := fields[0];
    assert IsField(p, f);
    if |fields| == 1 {
      FieldRead(p, st, f);
      assert st.row + Values(p, fields)[..0] == st.row;
    } else {
      FirstFieldRead(p, st, f, LineText(p, fields[1..]));
      FieldsRead(p, st.(row := st.row + [Value(p, f)]), fields[1..]);
      ValuesStep(p, st.row, fields);
    }
  }

  lemma BreakRead(p: Params, st: ParseState, cr: bool)
    requires Proper(p) && !st.quoted
    ensures var u := st.(cr := st.cr + (if cr then 1 else 0), lf := st.lf + 1);
      Feed(p, st, LineBreak(cr)) == if p.skipEmptyLines && st.row == [] && st.cell == "" then u else EndRow(p, u)
  {
    if cr {
      FeedStep(p, st, CR, [LF]);
      assert [CR] + [LF] == LineBreak(true);
      FeedStep(p, Step(p, st, CR), LF, "");
    } else {
      FeedStep(p, st, LF, "");
    }
    assert [LF] + "" == [LF];
  }

  /** A field whose text is empty is written as nothing only without quotes. */
  lemma BlankWritten(p: Params, fields: seq<Field>)
    requires fields != []
    ensures |fields| == 1 && Written(p, fields[0]) == "" <==> fields == BLANK
  {
    hide Escape;
  }

  lemma RowEnded(p: Params, st: ParseState, fields: seq<Field>, cr: nat, lf: nat)
    requires Proper(p) && fields != [] && AreFields(p, fields) && st == At(st.data, [], cr, lf)
    ensures var n := |fields| - 1;
      var u := st.(row := st.row + Values(p, fields)[..n], cell := Written(p, fields[n]));
      && (u.row == [] && u.cell == "" <==> fields == BLANK)
      && EndRow(p, u) ==
           (if p.skipCommentLines && Value(p, fields[0]) != "" && Value(p, fields[0])[0] == p.commentPrefix then st
            else st.(data := st.data + [Values(p, fields)]))
  {
    var n := |fields| - 1;
    FieldRead(p, st, fields[n]);
    BlankWritten(p, fields);
    hide Feed, Unquote, Written, Value;
    var row := Values(p, fields)[..n] + [Value(p, fields[n])];
    assert row == Values(p, fields);
    assert [] + Values(p, fields)[..n] == Values(p, fields)[..n];
  }

  lemma LineRead(p: Params, data: Table, cr: nat, lf: nat, line: Line)
    requires Proper(p) && line.fields != [] && AreFields(p, line.fields)
    ensures Feed(p, At(data, [], cr, lf), LineText(p, line.fields) + LineBreak(line.cr)) ==
      At(data + (if IsSkipped(p, line.fields) then [] else [Values(p, line.fields)]), [],
         cr + (if line.cr then 1 else 0), lf + 1)
  {
    hide Feed, EndRow, Written, Value, LineText;
    var st := At(data, [], cr, lf);
    var n := |line.fields| - 1;
    FieldsRead(p, st, line.fields);
    var u := st.(row := st.row + Values(p, line.fields)[..n], cell := Written(p, line.fields[n]));
    FeedAppend(p, st, LineText(p, line.fields), LineBreak(line.cr));
    BreakRead(p, u, line.cr);
    var cr', lf' := cr + (if line.cr then 1 else 0), lf + 1;
    RowEnded(p, At(data, [], cr', lf'), line.fields, cr', lf');
    assert data + [] == data;
  }

  // ---------------------------------------------------------------------------------------
  // All lines
  // ---------------------------------------------------------------------------------------

  lemma {:induction false} LinesRead(p: Params, data: Table, cr: nat, lf: nat, lines: seq<Line>)
    requires Proper(p) && AreLines(p, lines)
    ensures Feed(p, At(data, [], cr, lf), LinesText(p, lines)) ==
      At(data + Rows(p, lines), [], cr + CountCr(lines), lf + |lines|)
    decreases |lines|
  {
    hide Feed, LineText, IsSkipped, AreFields, IsField, LineBreak;
    if lines == [] {
      FeedNothing(p, At(data, [], cr, lf));
      assert data + [] == data;
    } else {
      var line, rest := lines[0], LinesText(p, lines[1..]);
      var first := if IsSkipped(p, line.fields) then [] else [Values(p, line.fields)];
      Assoc(LineText(p, line.fields), LineBreak(line.cr), rest);
      FeedAppend(p, At(data, [], cr, lf), LineText(p, line.fields) + LineBreak(line.cr), rest);
      LineRead(p, data, cr, lf, line);
      LinesRead(p, data + first, cr + (if line.cr then 1 else 0), lf + 1, lines[1..]);
      Assoc(data, first, Rows(p, lines[1..]));
    }
  }

  /** The text of a last line without a line break. */
  function LastText(p: Params, last: seq<Field>): string {
    if last == [] then "" else LineText(p, last)
  }

  function LastRows(p: Params, last: seq<Field>): Table {
    if last == [] || last == BLANK || IsSkipped(p, last) then [] else [Values(p, last)]
  }

  lemma LastRead(p: Params, data: Table, cr: nat, lf: nat, last: seq<Field>)
    requires Proper(p) && AreFields(p, last)
    ensures var st := Finish(p, Feed(p, At(data, [], cr, lf), LastText(p, last)));
      st.data == data + LastRows(p, last) && st.cr == cr && st.lf == lf
  {
    hide Feed, LineText, EndRow, Written, Value;
    var st := At(data, [], cr, lf);
    assert data + [] == data;
    if last == [] {
      FeedNothing(p, st);
    } else {
      FieldsRead(p, st, last);
      RowEnded(p, st, last, cr, lf);
    }
  }

  /** Any lines, and a last one without a line break or none: the reader gives the values of every line that
      is not skipped, in order, and tells CR LF from LF by whether at least half of the line breaks have a CR.
      A last line that is empty gives no row, even if empty lines are not skipped. */
  lemma AnyTextIsRead(p: Params, lines: seq<Line>, last: seq<Field>)
    requires Proper(p) && AreLines(p, lines) && AreFields(p, last)
    ensures Parsed(p, LinesText(p, lines) + LastText(p, last)) ==
      (Rows(p, lines) + LastRows(p, last), CountCr(lines) > |lines| / 2)
  {
    hide Feed, LastText, LastRows, LinesText, Rows, Finish, AreFields;
    LinesRead(p, [], 0, 0, lines);
    assert [] + Rows(p, lines) == Rows(p, lines);
    FeedAppend(p, START, LinesText(p, lines), LastText(p, last));
    LastRead(p, Rows(p, lines), CountCr(lines), |lines|, last);
  }

  /** Every cell text comes back from quotes, whether it needed them or not. */
  lemma QuotedCellIsRead(p: Params, c: string, cr: bool)
    requires Proper(p) && p.autoQuote && p.quotedLinebreaks && !p.skipCommentLines
    ensures Parsed(p, [p.quoteChar] + Escape(c, p.quoteChar) + [p.quoteChar]).0 == [[c]]
    ensures Parsed(p, ([p.quoteChar] + Escape(c, p.quoteChar) + [p.quoteChar]) + LineBreak(cr)).0 == [[c]]
  {
    hide Escape, Parsed;
    var f := [Field(c, true)];
    AnyTextIsRead(p, [], f);
    AnyTextIsRead(p, [Line(f, cr)], []);
    assert Values(p, f) == [c];
    var text := LineText(p, f);
    assert "" + text == text;
    assert [Line(f, cr)][1..] == [];
    Assoc(text, LineBreak(cr), "");
    assert LineBreak(cr) + "" == LineBreak(cr);
    assert (text + LineBreak(cr)) + "" == text + LineBreak(cr);
    assert [] + [[c]] == [[c]] && [[c]] + [] == [[c]];
  }
}
