/** When reading a written table gives back the table. */
module CsvRoundTrip {
  import opened Csv

  function Count(s: string, q: char): nat {
    if s == "" then 0 else Count(s[..|s| - 1], q) + if s[|s| - 1] == q then 1 else 0
  }

  predicate Odd(n: nat) {
    n % 2 == 1
  }

  /** The cell comes back unchanged, given whether it is the last of its row. A cell that is written in
      quotes needs quoted line breaks to be on if it has any. One that is written as it is must have
      no CR, unless quotes open before it; and if it starts with the quote, its quotes must not be
      taken for enclosing ones, nor keep the delimiter from being seen. */
  predicate CellSurvives(p: Params, c: string, last: bool) {
    var q := p.quoteChar;
    if NeedsQuotes(p, c) then p.quotedLinebreaks || (CR !in c && LF !in c)
    else if c == "" || c[0] != q then CR !in c
    else
      && (|c| == 1 || c[|c| - 1] != q)
      && (Odd(Count(c, q)) ==> last && !p.quotedLinebreaks)
      && ReturnsInQuotes(p, c)
  }

  /** Every CR comes where quotes are open, and quoted line breaks are on. */
  predicate ReturnsInQuotes(p: Params, c: string) {
    forall i :: 0 <= i < |c| && c[i] == CR ==> p.quotedLinebreaks && Odd(Count(c[..i], p.quoteChar))
  }

  predicate CellsSurvive(p: Params, row: Row) {
    forall j :: 0 <= j < |row| ==> CellSurvives(p, row[j], j == |row| - 1)
  }

  predicate RowsSurvive(p: Params, table: Table) {
    forall i :: 0 <= i < |table| ==> table[i] != [] && CellsSurvive(p, table[i])
  }

  predicate TableSurvives(p: Params, table: Table, hasCR: bool) {
    && (table == [] ==> !hasCR)
    && RowsSurvive(p, table)
  }

  // ---------------------------------------------------------------------------------------
  // Quoting
  // ---------------------------------------------------------------------------------------

  lemma {:induction false} UnescapeShortens(s: string, q: char)
    ensures |Unescape(s, q)| <= |s|
    ensures forall m :: m in Unescape(s, q) ==> m in s
    ensures forall m :: m in s && m != q ==> m in Unescape(s, q)
    decreases |s|
  {
    if s != "" {
      if MatchesAt(s, [q, q], 0) {
        UnescapeShortens(s[2..], q);
        assert s == [q, q] + s[2..] by { assert s[0..2] == [q, q]; }
      } else {
        UnescapeShortens(s[1..], q);
        assert s == [s[0]] + s[1..];
      }
    }
  }

  /** Removing quotes drops nothing but quotes, and removes at least two characters or none. */
  lemma UnquoteShortens(p: Params, s: string)
    ensures |Unquote(p, s)| <= |s|
    ensures |s| >= 2 && s[0] == p.quoteChar && s[|s| - 1] == p.quoteChar && p.autoQuote ==> |Unquote(p, s)| < |s|
    ensures forall m :: m in Unquote(p, s) ==> m in s
    ensures forall m :: m in s && m != p.quoteChar ==> m in Unquote(p, s)
  {
    if p.autoQuote && |s| >= 2 && s[0] == p.quoteChar && s[|s| - 1] == p.quoteChar {
      UnescapeShortens(s[1..|s| - 1], p.quoteChar);
      assert s == [s[0]] + s[1..|s| - 1] + [s[|s| - 1]];
    }
  }

  function EscapedChar(m: char, q: char): string {
    if m == q then [q, q] else [m]
  }

  lemma EscapeCons(c: string, q: char)
    requires c != ""
    ensures Escape(c, q) == EscapedChar(c[0], q) + Escape(c[1..], q)
  {
    if c[0] == q {
      assert MatchesAt(c, [q], 0);
    } else {
      assert !MatchesAt(c, [q], 0);
    }
  }

  /** Where the reader is inside quotes. */
  predicate InQuotes(p: Params, st: ParseState) {
    st.quoted && st.cell != "" && st.cell[0] == p.quoteChar
  }

  lemma QuotedSteps(p: Params, st: ParseState, c: char)
    requires Proper(p) && InQuotes(p, st)
    ensures Step(p, Step(p, st, p.quoteChar), p.quoteChar) == st.(cell := st.cell + [p.quoteChar, p.quoteChar])
    ensures c != p.quoteChar && (p.quotedLinebreaks || (c != CR && c != LF)) ==> Step(p, st, c) == Append(st, c)
  {
  }

  /** Inside quotes everything is taken literally, doubled quotes included. */
  lemma {:induction false} FeedEscaped(p: Params, st: ParseState, c: string)
    requires Proper(p) && InQuotes(p, st)
    requires p.quotedLinebreaks || (CR !in c && LF !in c)
    ensures Feed(p, st, Escape(c, p.quoteChar)) == st.(cell := st.cell + Escape(c, p.quoteChar))
    decreases |c|
  {
    if c == "" {
      assert st.cell + Escape(c, p.quoteChar) == st.cell;
    } else {
      FeedEscapedCons(p, st, c);
      var st1 := st.(cell := st.cell + EscapedChar(c[0], p.quoteChar));
      assert forall m :: m in c[1..] ==> m in c;
      hide Step, Escape, Feed, Proper;
      FeedEscaped(p, st1, c[1..]);
      EscapeCons(c, p.quoteChar);
      Assoc(st.cell, EscapedChar(c[0], p.quoteChar), Escape(c[1..], p.quoteChar));
    }
  }

  lemma FeedEscapedCons(p: Params, st: ParseState, c: string)
    requires Proper(p) && InQuotes(p, st) && c != ""
    requires p.quotedLinebreaks || (CR !in c && LF !in c)
    ensures Feed(p, st, Escape(c, p.quoteChar)) ==
            Feed(p, st.(cell := st.cell + EscapedChar(c[0], p.quoteChar)), Escape(c[1..], p.quoteChar))
    ensures InQuotes(p, st.(cell := st.cell + EscapedChar(c[0], p.quoteChar)))
  {
    EscapeCons(c, p.quoteChar);
    QuotedSteps(p, st, c[0]);
    assert c[0] in c;
    hide Step, Escape, Feed;
    var q, rest := p.quoteChar, Escape(c[1..], p.quoteChar);
    if c[0] == q {
      Assoc([q], [q], rest);
      assert [q] + [q] == [q, q];
      FeedStep(p, st, q, [q] + rest);
      FeedStep(p, Step(p, st, q), q, rest);
    } else {
      FeedStep(p, st, c[0], rest);
    }
  }

  lemma FeedStep(p: Params, st: ParseState, c: char, s: string)
    ensures Feed(p, st, [c] + s) == Feed(p, Step(p, st, c), s)
  {
    assert ([c] + s)[0] == c && ([c] + s)[1..] == s;
  }

  lemma Unwrap(q: char, inner: string)
    ensures ([q] + inner + [q])[1..|inner| + 1] == inner
  {
  }

  lemma FeedQuoted(p: Params, st: ParseState, c: string)
    requires KeepsData(p) && NeedsQuotes(p, c) && CellSurvives(p, c, true)
    requires st.cell == "" && !st.quoted
    ensures Feed(p, st, EncodeCell(p, c)) == st.(cell := EncodeCell(p, c))
    ensures Unquote(p, EncodeCell(p, c)) == c
  {
    var q := p.quoteChar;
    var inner := Escape(c, q);
    var st1 := Step(p, st, q);
    var st2 := st1.(cell := [q] + inner);
    assert InQuotes(p, st1) && st1.cell == [q];
    assert Step(p, st2, q) == st.(cell := [q] + inner + [q]);
    UnescapeEscape(c, q);
    Unwrap(q, inner);
    hide Step, Feed, Escape;
    FeedStep(p, st, q, inner);
    FeedEscaped(p, st1, c);
    FeedAppend(p, st, [q] + inner, [q]);
    FeedStep(p, st2, q, "");
    assert [q] + "" == [q];
    FeedNothing(p, Step(p, st2, q));
  }

  lemma FeedNothing(p: Params, st: ParseState)
    ensures Feed(p, st, "") == st
  {
  }

  // ---------------------------------------------------------------------------------------
  // A cell that is written as it is
  // ---------------------------------------------------------------------------------------

  /** Without separators and line feeds a cell stays one cell; each CR is kept, or dropped and counted. */
  ghost predicate RawResult(p: Params, st: ParseState, c: string, t: ParseState) {
    && t == st.(cell := t.cell, quoted := t.quoted, cr := t.cr)
    && t.cr + |t.cell| == st.cr + |c| && st.cr <= t.cr
    && (t.cr == st.cr ==> t.cell == c)
    && (c == "" ==> t == st)
    && (c != "" && c[0] == p.quoteChar ==>
      t.cell != "" && t.cell[0] == p.quoteChar && t.quoted == Odd(Count(c, p.quoteChar)))
  }

  lemma RawStep(p: Params, st: ParseState, c: string, t: ParseState, m: char)
    requires Proper(p) && m != p.separator && m != LF && st.cell == "" && !st.quoted
    requires RawResult(p, st, c, t)
    ensures RawResult(p, st, c + [m], Step(p, t, m))
  {
    assert (c + [m])[..|c|] == c;
  }

  lemma {:induction false} FeedRaw(p: Params, st: ParseState, c: string)
    requires Proper(p) && p.separator !in c && LF !in c
    requires st.cell == "" && !st.quoted
    ensures RawResult(p, st, c, Feed(p, st, c))
    decreases |c|
  {
    if c != "" {
      var k := |c| - 1;
      assert c == c[..k] + [c[k]] && c[..k + 1] == c;
      hide RawResult, Step;
      FeedRaw(p, st, c[..k]);
      FeedOne(p, st, c, k);
      RawStep(p, st, c[..k], Feed(p, st, c[..k]), c[k]);
    }
  }

  lemma ReturnsOneMore(p: Params, c: string)
    requires c != ""
    ensures var k := |c| - 1;
      ReturnsInQuotes(p, c) <==>
        ReturnsInQuotes(p, c[..k]) && (c[k] == CR ==> p.quotedLinebreaks && Odd(Count(c[..k], p.quoteChar)))
  {
    var k := |c| - 1;
    assert forall i :: 0 <= i < k ==> c[..k][..i] == c[..i] && c[..k][i] == c[i];
  }

  lemma {:induction false} FeedRawFromQuote(p: Params, st: ParseState, c: string)
    requires Proper(p) && p.separator !in c && LF !in c
    requires st.cell == "" && !st.quoted && c != "" && c[0] == p.quoteChar
    ensures Feed(p, st, c).cr == st.cr <==> ReturnsInQuotes(p, c)
    decreases |c|
  {
    var k := |c| - 1;
    assert c == c[..k] + [c[k]] && c[..k + 1] == c;
    FeedOne(p, st, c, k);
    ReturnsOneMore(p, c);
    if k > 0 {
      FeedRaw(p, st, c[..k]);
      FeedRawFromQuote(p, st, c[..k]);
      hide ReturnsInQuotes, Feed, Count;
    } else {
      assert Feed(p, st, c[..0]) == st;
    }
  }

  lemma {:induction false} FeedRawFromOther(p: Params, st: ParseState, c: string)
    requires Proper(p) && p.separator !in c && LF !in c
    requires st.cell == "" && !st.quoted && (c == "" || c[0] != p.quoteChar)
    ensures Feed(p, st, c).cr == st.cr <==> CR !in c
    ensures CR !in c ==> !Feed(p, st, c).quoted
    decreases |c|
  {
    if c != "" {
      var k := |c| - 1;
      assert c == c[..k] + [c[k]] && c[..k + 1] == c;
      FeedOne(p, st, c, k);
      FeedRaw(p, st, c[..k]);
      FeedRawFromOther(p, st, c[..k]);
      if k == 0 { assert c[..0] == "" && Feed(p, st, c[..0]) == st; }
      if CR !in c[..k] { assert Feed(p, st, c[..k]).cell == c[..k]; }
    }
  }

  /** For a cell written as it is, what surviving comes down to: nothing was dropped, its delimiter
      will be seen, and no enclosing quotes will be taken off. */
  lemma RawSurvival(p: Params, st: ParseState, c: string, last: bool)
    requires KeepsData(p) && !NeedsQuotes(p, c)
    requires st.cell == "" && !st.quoted
    ensures var t := Feed(p, st, c);
      && t == st.(cell := t.cell, quoted := t.quoted, cr := t.cr)
      && |t.cell| <= |c|
      && (CellSurvives(p, c, last) <==> t.cell == c && (t.quoted ==> last && !p.quotedLinebreaks) && Unquote(p, c) == c)
      && (t.cell == c ==> t.cr == st.cr)
      && (Unquote(p, c) == c || |Unquote(p, c)| < |c|)
  {
    var t := Feed(p, st, c);
    FeedRaw(p, st, c);
    UnquoteShortens(p, c);
    if c != "" && c[0] == p.quoteChar {
      FeedRawFromQuote(p, st, c);
    } else {
      FeedRawFromOther(p, st, c);
    }
  }

  // ---------------------------------------------------------------------------------------
  // Surviving cells, rows and tables
  // ---------------------------------------------------------------------------------------

  /** The state at the start of a cell. */
  function At(data: Table, row: Row, cr: nat, lf: nat): ParseState {
    ParseState(data, row, "", false, cr, lf)
  }

  lemma FeedBreak(p: Params, st: ParseState, hasCR: bool)
    requires KeepsData(p) && !(p.quotedLinebreaks && st.quoted)
    ensures Feed(p, st, LineBreak(hasCR)) ==
      At(st.data + [st.row + [Unquote(p, st.cell)]], [], st.cr + (if hasCR then 1 else 0), st.lf + 1)
  {
    if hasCR {
      FeedStep(p, st, CR, [LF]);
      assert [CR] + [LF] == LineBreak(true);
      FeedStep(p, Step(p, st, CR), LF, "");
    } else {
      FeedStep(p, st, LF, "");
    }
    assert [LF] + "" == [LF];
  }

  lemma CellRead(p: Params, st: ParseState, c: string, last: bool)
    requires KeepsData(p) && CellSurvives(p, c, last) && st.cell == "" && !st.quoted
    ensures var t := Feed(p, st, EncodeCell(p, c));
      && t == st.(cell := t.cell, quoted := t.quoted)
      && (t.quoted ==> last && !p.quotedLinebreaks)
      && Unquote(p, t.cell) == c
  {
    if NeedsQuotes(p, c) {
      FeedQuoted(p, st, c);
    } else {
      RawSurvival(p, st, c, last);
    }
  }

  lemma {:induction false} RowRead(p: Params, st: ParseState, row: Row, hasCR: bool)
    requires KeepsData(p) && row != [] && CellsSurvive(p, row) && st.cell == "" && !st.quoted
    ensures Feed(p, st, EncodeRow(p, row, hasCR)) ==
      At(st.data + [st.row + row], [], st.cr + (if hasCR then 1 else 0), st.lf + 1)
    decreases |row|
  {
    var last := |row| == 1;
    var cell, rest := EncodeCell(p, row[0]), EncodeRow(p, row[1..], hasCR);
    CellRead(p, st, row[0], last);
    var t := Feed(p, st, cell);
    if last {
      assert row[1..] == [];
      assert EncodeRow(p, row, hasCR) == cell + LineBreak(hasCR) by { assert cell + [] == cell; }
      FeedAppend(p, st, cell, LineBreak(hasCR));
      FeedBreak(p, t, hasCR);
      assert [row[0]] == row;
    } else {
      assert EncodeRow(p, row, hasCR) == cell + ([p.separator] + rest) by { Assoc(cell, [p.separator], rest); }
      FeedAppend(p, st, cell, [p.separator] + rest);
      FeedStep(p, t, p.separator, rest);
      var u := Step(p, t, p.separator);
      assert CellsSurvive(p, row[1..]) by {
        forall j | 0 <= j < |row[1..]| ensures CellSurvives(p, row[1..][j], j == |row[1..]| - 1) {
          assert CellSurvives(p, row[j + 1], j + 1 == |row| - 1);
        }
      }
      RowRead(p, u, row[1..], hasCR);
      assert st.row + [row[0]] + row[1..] == st.row + row;
    }
  }

  lemma {:induction false} TableRead(p: Params, data: Table, cr: nat, lf: nat, table: Table, hasCR: bool)
    requires KeepsData(p) && RowsSurvive(p, table)
    ensures Feed(p, At(data, [], cr, lf), EncodeTable(p, table, hasCR)) ==
      At(data + table, [], cr + (if hasCR then |table| else 0), lf + |table|)
    decreases |table|
  {
    if table == [] {
      assert data + table == data;
    } else {
      var st := At(data, [], cr, lf);
      TailTable(p, table);
      assert table == [table[0]] + table[1..];
      hide RowsSurvive, CellsSurvive, KeepsData, EncodeRow, Feed;
      FeedAppend(p, st, EncodeRow(p, table[0], hasCR), EncodeTable(p, table[1..], hasCR));
      RowRead(p, st, table[0], hasCR);
      assert [] + table[0] == table[0];
      TableRead(p, data + [table[0]], cr + (if hasCR then 1 else 0), lf + 1, table[1..], hasCR);
      Assoc(data, [table[0]], table[1..]);
    }
  }

  // ---------------------------------------------------------------------------------------
  // What the reader never takes back
  // ---------------------------------------------------------------------------------------

  /** The final table contains the rows recorded so far and, at the start of the next row, the cells of
      the row in progress. */
  ghost predicate Extends(final: Table, st: ParseState) {
    && st.data <= final
    && (st.row != [] || st.cell != "" ==>
      |st.data| < |final| && |st.row| < |final[|st.data|]| && st.row <= final[|st.data|])
  }

  ghost function Final(p: Params, st: ParseState, s: string): Table {
    Finish(p, Feed(p, st, s)).data
  }

  lemma {:induction false} FinalExtends(p: Params, st: ParseState, s: string)
    requires KeepsData(p)
    ensures Extends(Final(p, st, s), st)
    decreases |s|
  {
    if s != "" {
      FinalExtends(p, Step(p, st, s[0]), s[1..]);
      StepExtends(p, st, s[0], Final(p, st, s));
    }
  }

  lemma StepExtends(p: Params, st: ParseState, c: char, final: Table)
    requires KeepsData(p) && Extends(final, Step(p, st, c))
    ensures Extends(final, st)
  {
    var t := Step(p, st, c);
    if t.data != st.data {
      assert final[|st.data|] == t.data[|st.data|];
    }
  }

  /** The cell of the final table that the cell in progress becomes. */
  ghost predicate Becomes(final: Table, st: ParseState, m: char) {
    |st.data| < |final| && |st.row| < |final[|st.data|]| && m in final[|st.data|][|st.row|]
  }

  lemma {:induction false} MarkStays(p: Params, st: ParseState, s: string, m: char)
    requires KeepsData(p) && m != p.quoteChar && m in st.cell
    ensures Becomes(Final(p, st, s), st, m)
    decreases |s|
  {
    UnquoteShortens(p, st.cell);
    if s != "" {
      var t := Step(p, st, s[0]);
      var final := Final(p, st, s);
      FinalExtends(p, t, s[1..]);
      if t.cell == "" {
        if t.data != st.data {
          assert final[|st.data|] == t.data[|st.data|];
        } else {
          assert final[|st.data|][|st.row|] == t.row[|st.row|];
        }
      } else {
        MarkStays(p, t, s[1..], m);
      }
    }
  }

  /** With quoted line breaks off, no line break ever gets into a cell. */
  ghost predicate NoBreaks(st: ParseState) {
    && CR !in st.cell && LF !in st.cell
    && (forall j :: 0 <= j < |st.row| ==> CR !in st.row[j] && LF !in st.row[j])
    && (forall i, j :: 0 <= i < |st.data| && 0 <= j < |st.data[i]| ==> CR !in st.data[i][j] && LF !in st.data[i][j])
  }

  lemma StepNoBreaks(p: Params, st: ParseState, c: char)
    requires KeepsData(p) && !p.quotedLinebreaks && NoBreaks(st)
    ensures NoBreaks(Step(p, st, c))
    ensures NoBreaks(Finish(p, st))
  {
    UnquoteShortens(p, st.cell);
  }

  lemma {:induction false} FinalNoBreaks(p: Params, st: ParseState, s: string)
    requires KeepsData(p) && !p.quotedLinebreaks && NoBreaks(st)
    ensures NoBreaks(Finish(p, Feed(p, st, s)))
    decreases |s|
  {
    if s == "" {
      StepNoBreaks(p, st, CR);
    } else {
      StepNoBreaks(p, st, s[0]);
      FinalNoBreaks(p, Step(p, st, s[0]), s[1..]);
    }
  }

  // ---------------------------------------------------------------------------------------
  // Cells that do not survive
  // ---------------------------------------------------------------------------------------

  /** The final table has cell `c` in the place where the reader is. */
  ghost predicate Reads(final: Table, st: ParseState, c: string) {
    |st.data| < |final| && |st.row| < |final[|st.data|]| && final[|st.data|][|st.row|] == c
  }

  /** A cell whose delimiter is swallowed ends up with the delimiter in it. */
  lemma DelimiterSwallowed(p: Params, t: ParseState, c: string, last: bool, hasCR: bool, rest: string)
    requires KeepsData(p) && t.quoted && (!last || p.quotedLinebreaks)
    requires p.separator !in c && LF !in c
    ensures !Reads(Final(p, t, (if last then LineBreak(hasCR) else [p.separator]) + rest), t, c)
  {
    if !last {
      FeedStep(p, t, p.separator, rest);
      MarkStays(p, Step(p, t, p.separator), rest, p.separator);
    } else if hasCR {
      assert LineBreak(true) + rest == [CR] + ([LF] + rest);
      FeedStep(p, t, CR, [LF] + rest);
      var u := Step(p, t, CR);
      FeedStep(p, u, LF, rest);
      MarkStays(p, Step(p, u, LF), rest, LF);
    } else {
      FeedStep(p, t, LF, rest);
      MarkStays(p, Step(p, t, LF), rest, LF);
    }
  }

  /** Once its delimiter is seen, a cell is final. */
  lemma DelimiterSeen(p: Params, t: ParseState, last: bool, hasCR: bool, rest: string)
    requires KeepsData(p) && (t.quoted ==> last && !p.quotedLinebreaks)
    ensures Reads(Final(p, t, (if last then LineBreak(hasCR) else [p.separator]) + rest), t, Unquote(p, t.cell))
  {
    if last {
      FeedAppend(p, t, LineBreak(hasCR), rest);
      FeedBreak(p, t, hasCR);
      FinalExtends(p, Feed(p, t, LineBreak(hasCR)), rest);
    } else {
      FeedStep(p, t, p.separator, rest);
      FinalExtends(p, Step(p, t, p.separator), rest);
    }
  }

  lemma BadCell(p: Params, st: ParseState, c: string, last: bool, hasCR: bool, rest: string)
    requires KeepsData(p) && !CellSurvives(p, c, last) && st.cell == "" && !st.quoted
    requires p.quotedLinebreaks || (CR !in c && LF !in c)
    ensures !Reads(Final(p, st, EncodeCell(p, c) + ((if last then LineBreak(hasCR) else [p.separator]) + rest)), st, c)
  {
    assert !NeedsQuotes(p, c);
    var tail := (if last then LineBreak(hasCR) else [p.separator]) + rest;
    var t := Feed(p, st, c);
    FeedAppend(p, st, c, tail);
    RawSurvival(p, st, c, last);
    if t.quoted && (!last || p.quotedLinebreaks) {
      DelimiterSwallowed(p, t, c, last, hasCR, rest);
    } else {
      DelimiterSeen(p, t, last, hasCR, rest);
      UnquoteShortens(p, t.cell);
    }
  }

  lemma {:induction false} BadRow(p: Params, st: ParseState, row: Row, hasCR: bool, rest: string)
    requires KeepsData(p) && !CellsSurvive(p, row) && st.cell == "" && !st.quoted
    requires p.quotedLinebreaks || forall j :: 0 <= j < |row| ==> CR !in row[j] && LF !in row[j]
    ensures var final := Final(p, st, EncodeRow(p, row, hasCR) + rest);
      !(|st.data| < |final| && final[|st.data|] == st.row + row)
    decreases |row|
  {
    var last := |row| == 1;
    var cell, more := EncodeCell(p, row[0]), EncodeRow(p, row[1..], hasCR);
    var final := Final(p, st, EncodeRow(p, row, hasCR) + rest);
    if last {
      assert row[1..] == [] && more == LineBreak(hasCR);
      assert cell + [] == cell;
      Assoc(cell, LineBreak(hasCR), rest);
      BadCell(p, st, row[0], last, hasCR, rest);
    } else {
      Assoc(cell + [p.separator], more, rest);
      Assoc(cell, [p.separator], more + rest);
      if !CellSurvives(p, row[0], false) {
        BadCell(p, st, row[0], last, hasCR, more + rest);
        assert (st.row + row)[|st.row|] == row[0];
      } else {
        CellRead(p, st, row[0], false);
        var t := Feed(p, st, cell);
        FeedAppend(p, st, cell, [p.separator] + (more + rest));
        FeedStep(p, t, p.separator, more + rest);
        assert !CellsSurvive(p, row[1..]) by {
          var j :| 0 <= j < |row| && !CellSurvives(p, row[j], j == |row| - 1);
          assert !CellSurvives(p, row[1..][j - 1], j - 1 == |row[1..]| - 1);
        }
        BadRow(p, Step(p, t, p.separator), row[1..], hasCR, rest);
        assert st.row + [row[0]] + row[1..] == st.row + row;
      }
    }
  }

  lemma EmptyRowLost(p: Params, st: ParseState, hasCR: bool, rest: string)
    requires KeepsData(p) && st.row == [] && st.cell == "" && !st.quoted
    ensures var final := Final(p, st, EncodeRow(p, [], hasCR) + rest);
      !(|st.data| < |final| && final[|st.data|] == [])
  {
    FeedAppend(p, st, LineBreak(hasCR), rest);
    FeedBreak(p, st, hasCR);
    FinalExtends(p, Feed(p, st, LineBreak(hasCR)), rest);
  }

  predicate TableHasNoBreaks(table: Table) {
    forall i, j :: 0 <= i < |table| && 0 <= j < |table[i]| ==> CR !in table[i][j] && LF !in table[i][j]
  }

  lemma TailTable(p: Params, table: Table)
    requires table != []
    ensures RowsSurvive(p, table) <==> table[0] != [] && CellsSurvive(p, table[0]) && RowsSurvive(p, table[1..])
    ensures TableHasNoBreaks(table) ==> TableHasNoBreaks(table[1..])
    ensures TableHasNoBreaks(table) ==> forall j :: 0 <= j < |table[0]| ==> CR !in table[0][j] && LF !in table[0][j]
  {
    hide CellsSurvive;
    assert table == [table[0]] + table[1..];
  }

  lemma BadFirstRow(p: Params, st: ParseState, row: Row, hasCR: bool, rest: string, more: Table)
    requires KeepsData(p) && (row == [] || !CellsSurvive(p, row)) && st == At(st.data, [], st.cr, st.lf)
    requires p.quotedLinebreaks || forall j :: 0 <= j < |row| ==> CR !in row[j] && LF !in row[j]
    ensures Final(p, st, EncodeRow(p, row, hasCR) + rest) != st.data + ([row] + more)
  {
    assert (st.data + ([row] + more))[|st.data|] == row;
    assert [] + row == row;
    if row == [] {
      EmptyRowLost(p, st, hasCR, rest);
    } else {
      BadRow(p, st, row, hasCR, rest);
    }
  }

  lemma GoodFirstRow(p: Params, data: Table, cr: nat, lf: nat, row: Row, hasCR: bool, rest: string)
    requires KeepsData(p) && row != [] && CellsSurvive(p, row)
    ensures Final(p, At(data, [], cr, lf), EncodeRow(p, row, hasCR) + rest)
         == Final(p, At(data + [row], [], cr + (if hasCR then 1 else 0), lf + 1), rest)
  {
    hide KeepsData, CellsSurvive, EncodeRow, Feed, Finish;
    FeedAppend(p, At(data, [], cr, lf), EncodeRow(p, row, hasCR), rest);
    RowRead(p, At(data, [], cr, lf), row, hasCR);
    assert [] + row == row;
  }

  lemma {:induction false} BadTable(p: Params, data: Table, cr: nat, lf: nat, table: Table, hasCR: bool)
    requires KeepsData(p) && !RowsSurvive(p, table)
    requires p.quotedLinebreaks || TableHasNoBreaks(table)
    ensures Final(p, At(data, [], cr, lf), EncodeTable(p, table, hasCR)) != data + table
    decreases |table|
  {
    assert table != [];
    hide RowsSurvive, CellsSurvive, KeepsData, EncodeRow, Final, TableHasNoBreaks;
    var row, rest := table[0], EncodeTable(p, table[1..], hasCR);
    TailTable(p, table);
    assert table == [row] + table[1..];
    if row == [] || !CellsSurvive(p, row) {
      BadFirstRow(p, At(data, [], cr, lf), row, hasCR, rest, table[1..]);
    } else {
      GoodFirstRow(p, data, cr, lf, row, hasCR, rest);
      BadTable(p, data + [row], cr + (if hasCR then 1 else 0), lf + 1, table[1..], hasCR);
      Assoc(data, [row], table[1..]);
    }
  }

  // ---------------------------------------------------------------------------------------
  // The theorem
  // ---------------------------------------------------------------------------------------

  /** Reading what was written gives back the table and the choice of line break exactly when every row
      has a cell and every cell survives (and an empty table was to have plain line feeds). */
  lemma RoundTrip(p: Params, table: Table, hasCR: bool)
    requires KeepsData(p)
    ensures Parsed(p, EncodeTable(p, table, hasCR)) == (table, hasCR) <==> TableSurvives(p, table, hasCR)
  {
    var text := EncodeTable(p, table, hasCR);
    assert [] + table == table;
    if RowsSurvive(p, table) {
      TableRead(p, [], 0, 0, table, hasCR);
    } else if p.quotedLinebreaks || TableHasNoBreaks(table) {
      BadTable(p, [], 0, 0, table, hasCR);
    } else {
      FinalNoBreaks(p, START, text);
    }
  }

  /** The writer and then the reader, with any buffer size. */
  method WriteThenRead(p: Params, table: Table, hasCR: bool, bufLength: nat) returns (data: Table, cr: bool)
    requires KeepsData(p) && bufLength > 0
    ensures (data == table && cr == hasCR) <==> TableSurvives(p, table, hasCR)
  {
    var text := WriteCsv(p, table, hasCR);
    data, cr := ParseCsv(p, text, |text|, bufLength);
    assert text[..|text|] == text;
    RoundTrip(p, table, hasCR);
  }

  /** A simple sufficient condition: with quoted line breaks on, rows have cells, and no cell that is
      written as it is has a CR or starts with the quote. */
  lemma PlainTablesSurvive(p: Params, table: Table, hasCR: bool)
    requires KeepsData(p) && p.quotedLinebreaks && table != []
    requires forall i, j :: 0 <= i < |table| && 0 <= j < |table[i]| && !NeedsQuotes(p, table[i][j]) ==>
      CR !in table[i][j] && (table[i][j] == "" || table[i][j][0] != p.quoteChar)
    ensures Parsed(p, EncodeTable(p, table, hasCR)) == (table, hasCR) <==>
      forall i :: 0 <= i < |table| ==> table[i] != []
  {
    RoundTrip(p, table, hasCR);
  }

  /** The writer does not put quotes around a cell for having quotes in it, so this table is not read back. */
  lemma LoneQuoteLost(p: Params, hasCR: bool)
    requires KeepsData(p) && p.quotedLinebreaks && p.quoteChar != ' '
    ensures Parsed(p, EncodeTable(p, [[[p.quoteChar]]], hasCR)) != ([[[p.quoteChar]]], hasCR)
  {
    var c := [p.quoteChar];
    RoundTrip(p, [[c]], hasCR);
    if TableSurvives(p, [[c]], hasCR) {
      assert CellsSurvive(p, [[c]][0]);
      assert CellSurvives(p, [[c]][0][0], true);
      assert !NeedsQuotes(p, c);
      assert c[..0] == "";
      assert Count(c, p.quoteChar) == 1;
    }
  }
}
