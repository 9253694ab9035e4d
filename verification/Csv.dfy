/** The CSV reader and writer of `rapidcsv.hpp`: a character-driven state machine and a printer, with
    the exact condition under which reading undoes writing. */
module Csv {

  type Row = seq<string>
  type Table = seq<Row>

  datatype Params = Params(
    separator: char, quoteChar: char, quotedLinebreaks: bool, autoQuote: bool,
    skipEmptyLines: bool, skipCommentLines: bool, commentPrefix: char)

  const CR: char := '\r'
  const LF: char := '\n'

  /** The separator and the quote are told apart from each other and from the line breaks. */
  predicate Proper(p: Params) {
    p.separator != p.quoteChar && p.separator != CR && p.separator != LF && p.quoteChar != CR && p.quoteChar != LF
  }

  /** Settings that neither drop lines nor switch off quoting. */
  predicate KeepsData(p: Params) {
    Proper(p) && p.autoQuote && !p.skipEmptyLines && !p.skipCommentLines
  }

  // ---------------------------------------------------------------------------------------
  // Replacing inside strings
  // ---------------------------------------------------------------------------------------

  predicate MatchesAt(s: string, pattern: string, i: nat) {
    i + |pattern| <= |s| && s[i..i + |pattern|] == pattern
  }

  /** `s` with every occurrence of `pattern`, found left to right without overlap, replaced. */
  function Replaced(s: string, pattern: string, subst: string): string
    requires pattern != ""
    decreases |s|
  {
    if s == "" then ""
    else if MatchesAt(s, pattern, 0) then subst + Replaced(s[|pattern|..], pattern, subst)
    else [s[0]] + Replaced(s[1..], pattern, subst)
  }

  lemma {:induction false} NothingReplaced(s: string, pattern: string, subst: string, k: nat)
    requires pattern != "" && k <= |s|
    requires forall i :: 0 <= i < k ==> !MatchesAt(s, pattern, i)
    ensures Replaced(s, pattern, subst) == s[..k] + Replaced(s[k..], pattern, subst)
  {
    if k == 0 {
      assert s[0..] == s;
    } else {
      assert !MatchesAt(s, pattern, 0);
      assert s == [s[0]] + s[1..];
      NoMatchInSuffix(s, pattern, 1, k);
      NothingReplaced(s[1..], pattern, subst, k - 1);
      assert s[..k] == [s[0]] + s[1..][..k - 1];
      assert s[1..][k - 1..] == s[k..];
    }
  }

  /** The first match at or after `start`, or the length of the string when there is none. */
  method Find(s: string, pattern: string, start: nat) returns (pos: nat)
    requires start <= |s| && pattern != ""
    ensures start <= pos <= |s|
    ensures pos < |s| ==> MatchesAt(s, pattern, pos)
    ensures forall i :: start <= i < pos ==> !MatchesAt(s, pattern, i)
  {
    pos := start;
    while pos < |s| && !MatchesAt(s, pattern, pos)
      invariant start <= pos <= |s|
      invariant forall i :: start <= i < pos ==> !MatchesAt(s, pattern, i)
    {
      pos := pos + 1;
    }
  }

  method ReplaceString(original: string, pattern: string, subst: string) returns (s: string)
    requires pattern != ""
    ensures s == Replaced(original, pattern, subst)
  {
    s := original;
    var pos := Find(s, pattern, 0);
    ghost var done: nat := 0;
    while pos < |s|
      invariant done <= pos <= |s|
      invariant pos < |s| ==> MatchesAt(s, pattern, pos)
      invariant forall i :: done <= i < pos ==> !MatchesAt(s, pattern, i)
      invariant Replaced(original, pattern, subst) == s[..done] + Replaced(s[done..], pattern, subst)
      decreases |s| - pos
    {
      SkipTo(s, pattern, subst, done, pos);
      ghost var after := s[pos + |pattern|..];
      ghost var before := s[..pos];
      s := s[..pos] + subst + s[pos + |pattern|..];
      assert s[pos + |subst|..] == after;
      assert s[..pos + |subst|] == before + subst;
      done := pos + |subst|;
      pos := Find(s, pattern, pos + |subst|);
    }
    SkipTo(s, pattern, subst, done, |s|);
    assert s[..|s|] + "" == s;
  }

  lemma NoMatchInSuffix(s: string, pattern: string, done: nat, pos: nat)
    requires done <= pos <= |s|
    requires forall i :: done <= i < pos ==> !MatchesAt(s, pattern, i)
    ensures forall i :: 0 <= i < pos - done ==> !MatchesAt(s[done..], pattern, i)
  {
    forall i | 0 <= i < pos - done ensures !MatchesAt(s[done..], pattern, i) {
      assert !MatchesAt(s, pattern, done + i);
      if i + |pattern| <= |s[done..]| {
        assert s[done..][i..i + |pattern|] == s[done + i..done + i + |pattern|];
      }
    }
  }

  /** What is replaced after `done`, where nothing matches before `pos`. */
  lemma SkipPlain(s: string, pattern: string, subst: string, done: nat, pos: nat)
    requires pattern != "" && done <= pos <= |s|
    requires forall i :: done <= i < pos ==> !MatchesAt(s, pattern, i)
    ensures s[..done] + Replaced(s[done..], pattern, subst) == s[..pos] + Replaced(s[pos..], pattern, subst)
  {
    var rest := s[done..];
    NoMatchInSuffix(s, pattern, done, pos);
    NothingReplaced(rest, pattern, subst, pos - done);
    hide Replaced, MatchesAt;
    assert rest[pos - done..] == s[pos..];
    assert s[..pos] == s[..done] + rest[..pos - done];
    Assoc(s[..done], rest[..pos - done], Replaced(s[pos..], pattern, subst));
  }

  lemma SkipTo(s: string, pattern: string, subst: string, done: nat, pos: nat)
    requires pattern != "" && done <= pos <= |s|
    requires pos < |s| ==> MatchesAt(s, pattern, pos)
    requires forall i :: done <= i < pos ==> !MatchesAt(s, pattern, i)
    ensures s[..done] + Replaced(s[done..], pattern, subst) ==
            if pos < |s| then s[..pos] + subst + Replaced(s[pos + |pattern|..], pattern, subst) else s[..pos]
  {
    SkipPlain(s, pattern, subst, done, pos);
    if pos < |s| {
      MatchReplaced(s, pattern, subst, pos);
      hide Replaced, MatchesAt;
      Assoc(s[..pos], subst, Replaced(s[pos + |pattern|..], pattern, subst));
    } else {
      assert s[pos..] == "";
      EmptyReplaced(pattern, subst);
      hide Replaced, MatchesAt;
      assert s[..pos] + "" == s[..pos];
    }
  }

  lemma EmptyReplaced(pattern: string, subst: string)
    requires pattern != ""
    ensures Replaced("", pattern, subst) == ""
  {
  }

  lemma Assoc<T>(a: seq<T>, b: seq<T>, c: seq<T>)
    ensures (a + b) + c == a + (b + c)
  {
  }

  lemma MatchReplaced(s: string, pattern: string, subst: string, pos: nat)
    requires pattern != "" && pos < |s| && MatchesAt(s, pattern, pos)
    ensures Replaced(s[pos..], pattern, subst) == subst + Replaced(s[pos + |pattern|..], pattern, subst)
  {
    assert s[pos..][0..|pattern|] == s[pos..pos + |pattern|];
    assert s[pos..][|pattern|..] == s[pos + |pattern|..];
  }

  function Escape(c: string, q: char): string {
    Replaced(c, [q], [q, q])
  }

  function Unescape(c: string, q: char): string {
    Replaced(c, [q, q], [q])
  }

  lemma {:induction false} UnescapeEscape(c: string, q: char)
    ensures Unescape(Escape(c, q), q) == c
  {
    if c != "" {
      UnescapeEscape(c[1..], q);
      var rest := Escape(c[1..], q);
      if c[0] == q {
        assert MatchesAt(c, [q], 0);
        assert Escape(c, q) == [q, q] + rest;
        assert MatchesAt([q, q] + rest, [q, q], 0);
        assert ([q, q] + rest)[2..] == rest;
      } else {
        assert !MatchesAt(c, [q], 0);
        assert Escape(c, q) == [c[0]] + rest;
        assert !MatchesAt([c[0]] + rest, [q, q], 0) by { assert ([c[0]] + rest)[0] != q; }
        assert ([c[0]] + rest)[1..] == rest;
      }
    }
  }

  // ---------------------------------------------------------------------------------------
  // The writer
  // ---------------------------------------------------------------------------------------

  predicate NeedsQuotes(p: Params, c: string) {
    p.autoQuote && (p.separator in c || ' ' in c || LF in c)
  }

  function EncodeCell(p: Params, c: string): string {
    if NeedsQuotes(p, c) then [p.quoteChar] + Escape(c, p.quoteChar) + [p.quoteChar] else c
  }

  function LineBreak(hasCR: bool): string {
    if hasCR then [CR, LF] else [LF]
  }

  function EncodeRow(p: Params, row: Row, hasCR: bool): string {
    if row == [] then LineBreak(hasCR)
    else EncodeCell(p, row[0]) + (if |row| > 1 then [p.separator] else []) + EncodeRow(p, row[1..], hasCR)
  }

  function EncodeTable(p: Params, table: Table, hasCR: bool): string {
    if table == [] then "" else EncodeRow(p, table[0], hasCR) + EncodeTable(p, table[1..], hasCR)
  }

  function Delimiter(p: Params, row: Row, j: nat): string {
    if |row| > j + 1 then [p.separator] else []
  }

  method WriteCsv(p: Params, table: Table, hasCR: bool) returns (out: string)
    ensures out == EncodeTable(p, table, hasCR)
  {
    hide EncodeRow, EncodeTable, Replaced;
    out := "";
    TableEnds(p, table, hasCR);
    for i := 0 to |table|
      invariant out + EncodeTable(p, table[i..], hasCR) == EncodeTable(p, table, hasCR)
    {
      var row := table[i];
      ghost var before, line := out, "";
      RowEnds(p, row, hasCR);
      for j := 0 to |row|
        invariant out == before + line
        invariant line + EncodeRow(p, row[j..], hasCR) == EncodeRow(p, row, hasCR)
      {
        ghost var cell := EncodeCell(p, row[j]);
        if p.autoQuote && (p.separator in row[j] || ' ' in row[j] || LF in row[j]) {
          var str := ReplaceString(row[j], [p.quoteChar], [p.quoteChar, p.quoteChar]);
          out := out + ([p.quoteChar] + str + [p.quoteChar]);
        } else {
          out := out + row[j];
        }
        Assoc(before, line, cell);
        if |row| - j > 1 {
          out := out + [p.separator];
          Assoc(before, line + cell, [p.separator]);
        }
        RowSplits(p, row, hasCR, j, line);
        line := line + cell + Delimiter(p, row, j);
      }
      out := out + LineBreak(hasCR);
      Assoc(before, line, LineBreak(hasCR));
      TableSplits(p, table, hasCR, i, before);
    }
  }

  lemma TableEnds(p: Params, table: Table, hasCR: bool)
    ensures "" + EncodeTable(p, table[0..], hasCR) == EncodeTable(p, table, hasCR)
    ensures forall s: string :: s + EncodeTable(p, table[|table|..], hasCR) == s
  {
    assert table[0..] == table && table[|table|..] == [];
  }

  lemma RowEnds(p: Params, row: Row, hasCR: bool)
    ensures "" + EncodeRow(p, row[0..], hasCR) == EncodeRow(p, row, hasCR)
    ensures EncodeRow(p, row[|row|..], hasCR) == LineBreak(hasCR)
  {
    assert row[0..] == row && row[|row|..] == [];
  }

  lemma RowSplits(p: Params, row: Row, hasCR: bool, j: nat, line: string)
    requires j < |row|
    ensures line + EncodeRow(p, row[j..], hasCR) ==
      (line + EncodeCell(p, row[j]) + Delimiter(p, row, j)) + EncodeRow(p, row[j + 1..], hasCR)
  {
    assert row[j..][1..] == row[j + 1..];
    var cell, sep, rest := EncodeCell(p, row[j]), Delimiter(p, row, j), EncodeRow(p, row[j + 1..], hasCR);
    assert EncodeRow(p, row[j..], hasCR) == cell + sep + rest;
    hide EncodeRow, EncodeCell, Delimiter;
    Assoc(line + cell, sep, rest);
    Assoc(cell, sep, rest);
    Assoc(line, cell, sep + rest);
  }

  lemma TableSplits(p: Params, table: Table, hasCR: bool, i: nat, text: string)
    requires i < |table|
    ensures text + EncodeTable(p, table[i..], hasCR) ==
      (text + EncodeRow(p, table[i], hasCR)) + EncodeTable(p, table[i + 1..], hasCR)
  {
    assert table[i..][1..] == table[i + 1..];
  }

  // ---------------------------------------------------------------------------------------
  // The reader
  // ---------------------------------------------------------------------------------------

  function Unquote(p: Params, s: string): string {
    if p.autoQuote && |s| >= 2 && s[0] == p.quoteChar && s[|s| - 1] == p.quoteChar then
      Unescape(s[1..|s| - 1], p.quoteChar)
    else s
  }

  datatype ParseState = ParseState(data: Table, row: Row, cell: string, quoted: bool, cr: nat, lf: nat)

  predicate IsComment(p: Params, row: Row)
    requires row != []
  {
    p.skipCommentLines && row[0] != "" && row[0][0] == p.commentPrefix
  }

  /** The row in progress is complete, and recorded unless it is a comment. */
  function EndRow(p: Params, st: ParseState): ParseState {
    var row := st.row + [Unquote(p, st.cell)];
    st.(data := if IsComment(p, row) then st.data else st.data + [row], row := [], cell := "", quoted := false)
  }

  function Append(st: ParseState, c: char): ParseState {
    st.(cell := st.cell + [c])
  }

  function Step(p: Params, st: ParseState, c: char): ParseState {
    if c == p.quoteChar then
      Append(if st.cell == "" || st.cell[0] == p.quoteChar then st.(quoted := !st.quoted) else st, c)
    else if c == p.separator then
      if !st.quoted then st.(row := st.row + [Unquote(p, st.cell)], cell := "") else Append(st, c)
    else if c == CR then
      if p.quotedLinebreaks && st.quoted then Append(st, c) else st.(cr := st.cr + 1)
    else if c == LF then
      if p.quotedLinebreaks && st.quoted then Append(st, c)
      else if p.skipEmptyLines && st.row == [] && st.cell == "" then st.(lf := st.lf + 1)
      else EndRow(p, st.(lf := st.lf + 1))
    else Append(st, c)
  }

  function Feed(p: Params, st: ParseState, s: string): ParseState
    decreases |s|
  {
    if s == "" then st else Feed(p, Step(p, st, s[0]), s[1..])
  }

  function Finish(p: Params, st: ParseState): ParseState {
    if st.row == [] && st.cell == "" then st else EndRow(p, st)
  }

  const START := ParseState([], [], "", false, 0, 0)

  /** The table that the text stands for, and whether at least half of its line breaks have a CR. */
  function Parsed(p: Params, s: string): (Table, bool) {
    var st := Finish(p, Feed(p, START, s));
    (st.data, st.cr > st.lf / 2)
  }

  lemma {:induction false} FeedAppend(p: Params, st: ParseState, s: string, t: string)
    ensures Feed(p, st, s + t) == Feed(p, Feed(p, st, s), t)
    decreases |s|
  {
    if s == "" {
      assert s + t == t;
    } else {
      assert (s + t)[0] == s[0] && (s + t)[1..] == s[1..] + t;
      FeedAppend(p, Step(p, st, s[0]), s[1..], t);
    }
  }

  lemma FeedOne(p: Params, st: ParseState, s: string, i: nat)
    requires i < |s|
    ensures Feed(p, st, s[..i + 1]) == Step(p, Feed(p, st, s[..i]), s[i])
  {
    assert s[..i + 1] == s[..i] + [s[i]];
    FeedAppend(p, st, s[..i], [s[i]]);
    assert [s[i]][1..] == "";
  }

  function Min(a: int, b: int): int {
    if a < b then a else b
  }

  /** Reads a stream of which at most `fileLength` characters are wanted, `bufLength` at a time; the
      outcome does not depend on the size of the buffer. */
  method ParseCsv(p: Params, stream: string, fileLength: int, bufLength: nat) returns (data: Table, hasCR: bool)
    requires bufLength > 0
    ensures (data, hasCR) == Parsed(p, stream[..Min(if fileLength < 0 then 0 else fileLength, |stream|)])
  {
    data := [];
    var row: Row, cell, quoted, cr, lf := [], "", false, 0, 0;
    var left, at := fileLength, 0;
    ghost var wanted := Min(if fileLength < 0 then 0 else fileLength, |stream|);
    ghost var text := stream[..wanted];
    assert text[..0] == "";
    while left > 0
      invariant 0 <= at <= wanted && (at < wanted ==> left == fileLength - at)
      invariant left == (if fileLength < 0 then fileLength else fileLength - at)
      invariant ParseState(data, row, cell, quoted, cr, lf) == Feed(p, START, text[..at])
      decreases left
    {
      var toRead := Min(left, bufLength);
      var readLength := Min(toRead, |stream| - at);
      if readLength <= 0 {
        break;
      }
      var buffer := stream[at..at + readLength];
      for i := 0 to readLength
        invariant ParseState(data, row, cell, quoted, cr, lf) == Feed(p, START, text[..at + i])
      {
        FeedOne(p, START, text, at + i);
        assert text[at + i] == buffer[i];
        if buffer[i] == p.quoteChar {
          if cell == "" || cell[0] == p.quoteChar {
            quoted := !quoted;
          }
          cell := cell + [buffer[i]];
        } else if buffer[i] == p.separator {
          if !quoted {
            row := row + [Unquote(p, cell)];
            cell := "";
          } else {
            cell := cell + [buffer[i]];
          }
        } else if buffer[i] == CR {
          if p.quotedLinebreaks && quoted {
            cell := cell + [buffer[i]];
          } else {
            cr := cr + 1;
          }
        } else if buffer[i] == LF {
          if p.quotedLinebreaks && quoted {
            cell := cell + [buffer[i]];
          } else {
            lf := lf + 1;
            if p.skipEmptyLines && row == [] && cell == "" {
              // skip empty line
            } else {
              row := row + [Unquote(p, cell)];
              if p.skipCommentLines && row[0] != "" && row[0][0] == p.commentPrefix {
                // skip comment line
              } else {
                data := data + [row];
              }
              row, cell, quoted := [], "", false;
            }
          }
        } else {
          cell := cell + [buffer[i]];
        }
      }
      at := at + readLength;
      left := left - readLength;
    }
    assert at == wanted;
    assert text[..wanted] == text;

    if row == [] && cell == "" {
      // skip empty trailing line
    } else {
      row := row + [Unquote(p, cell)];
      if p.skipCommentLines && row[0] != "" && row[0][0] == p.commentPrefix {
        // skip comment line
      } else {
        data := data + [row];
      }
    }
    hasCR := cr > lf / 2;
  }
}
