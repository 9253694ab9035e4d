/** The HTTP side of a client connection: the request line and the rewriting of the header of a plain
    request, which may arrive in pieces. */
module HttpHeader {
  import opened Lists

  const CRLF: string := "\r\n"

  /** What is taken from libraries: the decoding of credentials, and numbers at the front of a string. */
  datatype Library = Library(decode: string -> string, number: string -> int)

  function Lower(c: char): char {
    if 'A' <= c <= 'Z' then c - 'A' + 'a' else c
  }

  /** `strncasecmp` over the length of the prefix. */
  predicate StartsWith(s: string, prefix: string) {
    |prefix| <= |s| && forall i :: 0 <= i < |prefix| ==> Lower(s[i]) == Lower(prefix[i])
  }

  /** Where the first CR LF begins. */
  function FindCrlf(s: string): (r: Option<nat>)
    ensures r.Some? ==> r.value + 2 <= |s|
  {
    if |s| < 2 then None
    else if s[0] == '\r' && s[1] == '\n' then Some(0)
    else
      var r := FindCrlf(s[1..]);
      if r.Some? then Some(r.value + 1) else None
  }

  // ---------------------------------------------------------------------------------------
  // Header lines
  // ---------------------------------------------------------------------------------------

  datatype LineKind = ProxyConnection | Connection | ProxyAuthorization | ContentLength | Other

  function KindOf(line: string): LineKind {
    if |line| > 18 && StartsWith(line, "Proxy-Connection: ") then ProxyConnection
    else if |line| > 12 && StartsWith(line, "Connection: ") then Connection
    else if |line| > 21 && StartsWith(line, "Proxy-Authorization: ") then ProxyAuthorization
    else if |line| > 16 && StartsWith(line, "Content-Length: ") then ContentLength
    else Other
  }

  datatype Header = Header(line: string, rebuilt: string, auth: string, contentLength: int)

  datatype LineResult = Taken(h: Header) | Refused | Overread

  /** A line that is complete in `h.line`; `end` is where its end was found in the piece that brought it.
      The length of the credentials is computed from `end`, in unsigned arithmetic, so that they are read
      beyond their end if the line began in an earlier piece and `end` is too small. */
  function ProcessLine(lib: Library, h: Header, end: nat): LineResult
    requires end <= |h.line|
  {
    match KindOf(h.line)
    case ProxyConnection => Taken(h)
    case Connection => Taken(h.(rebuilt := h.rebuilt + "Connection: close" + CRLF))
    case ProxyAuthorization =>
      if end < 21 then Overread
      else if end - 21 < 6 then (if StartsWith(h.line[21..], "Basic ") then Overread else Refused)
      else Taken(h.(auth := lib.decode(h.line[27..end])))
    case ContentLength => Taken(h.(contentLength := lib.number(h.line[16..]), rebuilt := h.rebuilt + h.line + CRLF))
    case Other => Taken(h.(rebuilt := h.rebuilt + h.line + CRLF))
  }

  datatype End = More | Finished | Killed | Undefined

  /** The bytes consumed of a piece, and how it ended. */
  datatype Fed = Fed(h: Header, consumed: nat, end: End)

  function Further(f: Fed, before: nat): Fed {
    if f.end.Killed? || f.end.Undefined? then f else f.(consumed := before + f.consumed)
  }

  /** `OnHttpNormalChallenge` for one piece. What is not a whole line yet is kept in `line`. */
  function Feed(lib: Library, h: Header, data: string): (r: Fed)
    ensures r.consumed <= |data|
    decreases |data|
  {
    match FindCrlf(data)
    case None => Fed(h.(line := h.line + data), |data|, More)
    case Some(end) =>
      if end == 0 && h.line == "" then Fed(h.(rebuilt := h.rebuilt + CRLF), 2, Finished)
      else
        var full := h.(line := h.line + data[..end]);
        match ProcessLine(lib, full, end)
        case Taken(next) => Further(Feed(lib, next.(line := ""), data[end + 2..]), end + 2)
        case Refused => Fed(full, 0, Killed)
        case Overread => Fed(full, 0, Undefined)
  }

  // ---------------------------------------------------------------------------------------
  // What becomes of a header
  // ---------------------------------------------------------------------------------------

  /** A line of a header: not empty, on one line, and with credentials long enough to be accepted. */
  predicate IsLine(line: string) {
    line != "" && FindCrlf(line).None? && (KindOf(line).ProxyAuthorization? ==> |line| >= 27)
  }

  ghost predicate AreLines(lines: seq<string>) {
    forall i :: 0 <= i < |lines| ==> IsLine(lines[i])
  }

  function Rewritten(line: string): string {
    match KindOf(line)
    case ProxyConnection => ""
    case ProxyAuthorization => ""
    case Connection => "Connection: close" + CRLF
    case _ => line + CRLF
  }

  function Text(lines: seq<string>): string {
    if lines == [] then "" else lines[0] + CRLF + Text(lines[1..])
  }

  function RewrittenText(lines: seq<string>): string {
    if lines == [] then "" else Rewritten(lines[0]) + RewrittenText(lines[1..])
  }

  function LineAuth(lib: Library, before: string, line: string): string {
    if KindOf(line).ProxyAuthorization? && |line| >= 27 then lib.decode(line[27..]) else before
  }

  function LineLength(lib: Library, before: int, line: string): int {
    if KindOf(line).ContentLength? then lib.number(line[16..]) else before
  }

  /** The credentials of the last line that has any. */
  function AuthOf(lib: Library, before: string, lines: seq<string>): string
    decreases |lines|
  {
    if lines == [] then before else AuthOf(lib, LineAuth(lib, before, lines[0]), lines[1..])
  }

  function LengthOf(lib: Library, before: int, lines: seq<string>): int
    decreases |lines|
  {
    if lines == [] then before else LengthOf(lib, LineLength(lib, before, lines[0]), lines[1..])
  }

  /** The first CR LF of a text is not before the end of what has none, unless it is made by the seam. */
  lemma {:induction false} FindAfter(a: string, b: string)
    requires FindCrlf(a).None? && (a == "" || a[|a| - 1] != '\r' || b == "" || b[0] != '\n')
    ensures FindCrlf(a + b) == if FindCrlf(b).None? then None else Some(|a| + FindCrlf(b).value)
    decreases |a|
  {
    if a == "" {
      assert a + b == b;
    } else {
      assert (a + b)[1..] == a[1..] + b;
      if |a| > 1 { assert !(a[0] == '\r' && a[1] == '\n'); }
      FindAfter(a[1..], b);
    }
  }

  lemma {:induction false} FindBefore(a: string, b: string)
    requires FindCrlf(a).Some?
    ensures FindCrlf(a + b) == FindCrlf(a)
    decreases |a|
  {
    if !(a[0] == '\r' && a[1] == '\n') {
      assert (a + b)[1..] == a[1..] + b;
      FindBefore(a[1..], b);
    }
  }

  lemma LineEnds(line: string, more: string)
    requires FindCrlf(line).None?
    ensures FindCrlf(line + CRLF + more) == Some(|line|)
    ensures (line + CRLF + more)[..|line|] == line && (line + CRLF + more)[|line| + 2..] == more
  {
    assert line + CRLF + more == line + (CRLF + more);
    assert FindCrlf(CRLF + more) == Some(0);
    FindAfter(line, CRLF + more);
  }

  lemma LineIsRewritten(lib: Library, h: Header)
    requires IsLine(h.line)
    ensures ProcessLine(lib, h, |h.line|) ==
      Taken(Header(h.line, h.rebuilt + Rewritten(h.line), LineAuth(lib, h.auth, h.line),
        LineLength(lib, h.contentLength, h.line)))
  {
    hide FindCrlf, StartsWith;
    var line := h.line;
    if |line| >= 27 { assert line[27..|line|] == line[27..]; }
    Associate(h.rebuilt, line, CRLF);
    Associate(h.rebuilt, "Connection: close", CRLF);
    assert h.rebuilt + "" == h.rebuilt;
  }

  /** The header state after whole lines. */
  function AfterLines(lib: Library, h: Header, lines: seq<string>): Header {
    Header("", h.rebuilt + RewrittenText(lines), AuthOf(lib, h.auth, lines), LengthOf(lib, h.contentLength, lines))
  }

  /** Whole lines are rewritten one by one, whatever follows them. */
  lemma {:induction false} LinesAreRewritten(lib: Library, h: Header, lines: seq<string>, more: string)
    requires h.line == "" && AreLines(lines)
    ensures Feed(lib, h, Text(lines) + more) == Further(Feed(lib, AfterLines(lib, h, lines), more), |Text(lines)|)
    decreases |lines|
  {
    hide KindOf, FindCrlf, ProcessLine, Rewritten, IsLine, Feed;
    if lines == [] {
      assert h.rebuilt + "" == h.rebuilt && Text(lines) + more == more;
      assert AfterLines(lib, h, lines) == h;
    } else {
      var line, rest := lines[0], Text(lines[1..]) + more;
      assert IsLine(line);
      LineFacts(line);
      assert Text(lines) + more == line + CRLF + rest;
      LineEnds(line, rest);
      LineIsRewritten(lib, h.(line := line));
      var next := Header("", h.rebuilt + Rewritten(line), LineAuth(lib, h.auth, line),
        LineLength(lib, h.contentLength, line));
      LineIsFed(lib, h, line, rest, next);
      LinesAreRewritten(lib, next, lines[1..], more);
      Associate(h.rebuilt, Rewritten(line), RewrittenText(lines[1..]));
      assert AfterLines(lib, next, lines[1..]) == AfterLines(lib, h, lines);
    }
  }

  /** A whole header, whatever follows it: its lines are rewritten one by one, the credentials and the
      content length are those of the last lines that give them, and exactly the header is consumed. */
  lemma HeaderIsRewritten(lib: Library, h: Header, lines: seq<string>, rest: string)
    requires h.line == "" && AreLines(lines)
    ensures var t := AfterLines(lib, h, lines);
      Feed(lib, h, Text(lines) + (CRLF + rest)) == Fed(t.(rebuilt := t.rebuilt + CRLF), |Text(lines)| + 2, Finished)
  {
    hide KindOf, ProcessLine, AfterLines;
    LinesAreRewritten(lib, h, lines, CRLF + rest);
    EmptyLineFirst(rest);
    hide FindCrlf;
    assert AfterLines(lib, h, lines).line == "" by { LineIsEmpty(lib, h, lines); }
  }

  lemma LineIsEmpty(lib: Library, h: Header, lines: seq<string>)
    ensures AfterLines(lib, h, lines).line == ""
  {
  }

  lemma LineIsFed(lib: Library, h: Header, line: string, more: string, next: Header)
    requires h.line == "" && line != "" && next.line == ""
    requires FindCrlf(line + CRLF + more) == Some(|line|)
    requires (line + CRLF + more)[..|line|] == line && (line + CRLF + more)[|line| + 2..] == more
    requires ProcessLine(lib, h.(line := line), |line|) == Taken(next.(line := line))
    ensures Feed(lib, h, line + CRLF + more) == Further(Feed(lib, next, more), |line| + 2)
  {
    hide FindCrlf, ProcessLine;
    var data := line + CRLF + more;
    assert h.line + data[..|line|] == line;
  }

  lemma EmptyLineFirst(rest: string)
    ensures FindCrlf(CRLF + rest) == Some(0)
  {
  }

  lemma LineFacts(line: string)
    requires IsLine(line)
    ensures line != "" && FindCrlf(line).None? && (KindOf(line).ProxyAuthorization? ==> |line| >= 27)
  {
  }

  lemma Associate(a: string, b: string, c: string)
    ensures a + (b + c) == (a + b) + c
  {
  }

  // ---------------------------------------------------------------------------------------
  // A header in pieces
  // ---------------------------------------------------------------------------------------

  /** A cut after the partial line `line` and before `more` that is not between CR and LF and not in, or
      just after, a line with credentials. */
  predicate CleanCut(line: string, more: string) {
    line == "" ||
    (&& (line[|line| - 1] != '\r' || more == "" || more[0] != '\n')
     && (FindCrlf(more).Some? ==> !KindOf(line + more[..FindCrlf(more).value]).ProxyAuthorization?))
  }

  lemma OtherLinesIgnoreEnd(lib: Library, h: Header, i: nat, j: nat)
    requires i <= |h.line| && j <= |h.line| && !KindOf(h.line).ProxyAuthorization?
    ensures ProcessLine(lib, h, i) == ProcessLine(lib, h, j)
  {
    hide KindOf;
  }

  /** A piece without a line end only adds to the line. */
  lemma CutInLine(lib: Library, h: Header, a: string, b: string)
    requires FindCrlf(a).None? && CleanCut(h.line + a, b)
    ensures Feed(lib, h, a + b) == Further(Feed(lib, h.(line := h.line + a), b), |a|)
  {
    hide ProcessLine, KindOf;
    if a == "" {
      assert a + b == b && h.line + a == h.line;
    } else {
      assert (h.line + a)[|h.line + a| - 1] == a[|a| - 1];
      FindAfter(a, b);
      if FindCrlf(b).None? {
        Associate(h.line, a, b);
        hide FindCrlf;
      } else {
        CutInEndedLine(lib, h, a, b, FindCrlf(b).value);
      }
    }
  }

  lemma CutInEndedLine(lib: Library, h: Header, a: string, b: string, end: nat)
    requires a != "" && FindCrlf(b) == Some(end) && FindCrlf(a + b) == Some(|a| + end)
    requires !KindOf(h.line + a + b[..end]).ProxyAuthorization?
    ensures Feed(lib, h, a + b) == Further(Feed(lib, h.(line := h.line + a), b), |a|)
  {
    hide ProcessLine, KindOf, FindCrlf;
    Associate(h.line, a, b[..end]);
    assert (a + b)[..|a| + end] == a + b[..end];
    assert (a + b)[|a| + end + 2..] == b[end + 2..];
    OtherLinesIgnoreEnd(lib, h.(line := h.line + a + b[..end]), |a| + end, end);
  }

  /** Going on with the next piece is going on with the whole. */
  lemma {:induction false} FeedTwice(lib: Library, h: Header, a: string, b: string)
    requires Feed(lib, h, a).end.More? ==> CleanCut(Feed(lib, h, a).h.line, b)
    ensures var f := Feed(lib, h, a);
      Feed(lib, h, a + b) == if f.end.More? then Further(Feed(lib, f.h, b), |a|) else f
    ensures Feed(lib, h, a).end.More? ==> Feed(lib, h, a).consumed == |a|
    decreases |a|
  {
    hide ProcessLine, KindOf, FindCrlf, CleanCut;
    if FindCrlf(a).None? {
      CutInLine(lib, h, a, b);
    } else {
      var end := FindCrlf(a).value;
      FindBefore(a, b);
      assert (a + b)[..end] == a[..end] && (a + b)[end + 2..] == a[end + 2..] + b;
      if !(end == 0 && h.line == "") {
        var full := h.(line := h.line + a[..end]);
        var p := ProcessLine(lib, full, end);
        if p.Taken? { FeedTwice(lib, p.h.(line := ""), a[end + 2..], b); }
      }
    }
  }

  function Joined(pieces: seq<string>): string {
    if pieces == [] then "" else pieces[0] + Joined(pieces[1..])
  }

  /** One call for each piece until the header ends. */
  function FeedAll(lib: Library, h: Header, pieces: seq<string>): Fed
    decreases |pieces|
  {
    if pieces == [] then Fed(h, 0, More) else
      var f := Feed(lib, h, pieces[0]);
      if f.end.More? then Further(FeedAll(lib, f.h, pieces[1..]), f.consumed) else f
  }

  /** The line that is open at the end of a text, after `line` was open at its beginning. */
  function OpenLine(line: string, text: string): string
    decreases |text|
  {
    match FindCrlf(text)
    case None => line + text
    case Some(end) => OpenLine("", text[end + 2..])
  }

  /** Every cut is clean; `done` is what came before the pieces. */
  ghost predicate CleanCuts(done: string, pieces: seq<string>)
    decreases |pieces|
  {
    pieces == [] ||
    (CleanCut(OpenLine("", done + pieces[0]), Joined(pieces[1..])) && CleanCuts(done + pieces[0], pieces[1..]))
  }

  lemma {:induction false} LineIsOpenLine(lib: Library, h: Header, a: string)
    requires Feed(lib, h, a).end.More?
    ensures Feed(lib, h, a).h.line == OpenLine(h.line, a)
    decreases |a|
  {
    hide ProcessLine, FindCrlf;
    if FindCrlf(a).Some? {
      var end := FindCrlf(a).value;
      if end == 0 && h.line == "" {
        assert false;
      } else {
        var p := ProcessLine(lib, h.(line := h.line + a[..end]), end);
        LineIsOpenLine(lib, p.h.(line := ""), a[end + 2..]);
      }
    }
  }

  lemma OpenLineExtended(line: string, a: string, b: string)
    requires FindCrlf(a).None? && a != "" && (a[|a| - 1] != '\r' || b == "" || b[0] != '\n')
    ensures OpenLine(line, a + b) == OpenLine(line + a, b)
  {
    hide FindCrlf;
    FindAfter(a, b);
    if FindCrlf(b).Some? {
      assert (a + b)[|a| + FindCrlf(b).value + 2..] == b[FindCrlf(b).value + 2..];
    } else {
      Associate(line, a, b);
    }
  }

  lemma {:induction false} OpenLineAppend(line: string, a: string, b: string)
    requires var l := OpenLine(line, a); l == "" || l[|l| - 1] != '\r' || b == "" || b[0] != '\n'
    ensures OpenLine(line, a + b) == OpenLine(OpenLine(line, a), b)
    decreases |a|
  {
    hide FindCrlf;
    if FindCrlf(a).Some? {
      var end := FindCrlf(a).value;
      FindBefore(a, b);
      assert (a + b)[end + 2..] == a[end + 2..] + b;
      OpenLineAppend("", a[end + 2..], b);
    } else if a == "" {
      assert a + b == b && line + a == line;
    } else {
      assert (line + a)[|line + a| - 1] == a[|a| - 1];
      OpenLineExtended(line, a, b);
    }
  }

  lemma {:induction false} PiecesFrom(lib: Library, h: Header, done: string, pieces: seq<string>)
    requires h.line == OpenLine("", done) && CleanCuts(done, pieces) && CleanCut(h.line, Joined(pieces))
    ensures FeedAll(lib, h, pieces) == Feed(lib, h, Joined(pieces))
    decreases |pieces|
  {
    hide CleanCut, ProcessLine, FindCrlf;
    if pieces == [] {
      NothingFed(lib, h);
    } else {
      var a, b := pieces[0], Joined(pieces[1..]);
      var f := Feed(lib, h, a);
      SeamFits(h.line, a, b);
      OpenLineAppend("", done, a);
      if f.end.More? {
        LineIsOpenLine(lib, h, a);
        FeedTwice(lib, h, a, b);
        PiecesFrom(lib, f.h, done + a, pieces[1..]);
      } else {
        FeedTwice(lib, h, a, b);
      }
    }
  }

  lemma NothingFed(lib: Library, h: Header)
    ensures Feed(lib, h, "") == Fed(h, 0, More)
  {
    assert FindCrlf("").None? && h.line + "" == h.line;
  }

  lemma SeamFits(line: string, a: string, b: string)
    requires CleanCut(line, a + b)
    ensures line == "" || line[|line| - 1] != '\r' || a == "" || a[0] != '\n'
  {
    hide KindOf, FindCrlf;
  }

  /** However a header is cut into pieces, as long as no cut is inside a CR LF or a line with credentials:
      the header is rebuilt in the same way, with the same credentials and the same content length, and
      ends at the same byte. */
  lemma PiecesDoNotMatter(lib: Library, h: Header, pieces: seq<string>)
    requires h.line == "" && CleanCuts("", pieces)
    ensures FeedAll(lib, h, pieces) == Feed(lib, h, Joined(pieces))
  {
    assert OpenLine("", "") == "" by { assert FindCrlf("").None?; }
    PiecesFrom(lib, h, "", pieces);
  }

  /** A cut inside a line with credentials, by how much of the line comes in the second piece: they are read
      beyond their end, or refused if they do not begin with `Basic `, or cut off. */
  lemma CutCredentials(lib: Library, h: Header, line: string, c: nat, rest: string)
    requires h.line == "" && IsLine(line) && KindOf(line).ProxyAuthorization?
    requires 0 < c <= |line|
    ensures var f := Feed(lib, h, line[..c]);
      var g := Feed(lib, f.h, line[c..] + CRLF + rest);
      && f == Fed(h.(line := line[..c]), c, More)
      && (if |line| - c < 21 then g.end.Undefined?
          else if |line| - c < 27 then (if StartsWith(line[21..], "Basic ") then g.end.Undefined? else g.end.Killed?)
          else g == Further(Feed(lib, h.(auth := lib.decode(line[27..|line| - c])), rest), |line| - c + 2))
  {
    hide KindOf, StartsWith, FindCrlf, ProcessLine;
    LineFacts(line);
    NoLineEndInside(line, c);
    LineEnds(line[c..], rest);
    assert h.line + line[..c] == line[..c] && line[..c] + line[c..] == line;
    LateCredentials(lib, h.(line := line), |line| - c);
  }

  lemma LateCredentials(lib: Library, h: Header, end: nat)
    requires KindOf(h.line).ProxyAuthorization? && |h.line| >= 27 && end < |h.line|
    ensures ProcessLine(lib, h, end) ==
      if end < 21 || (end < 27 && StartsWith(h.line[21..], "Basic ")) then Overread
      else if end < 27 then Refused else Taken(h.(auth := lib.decode(h.line[27..end])))
  {
    hide KindOf, StartsWith;
  }

  lemma {:induction false} NoLineEndInside(line: string, c: nat)
    requires FindCrlf(line).None? && c <= |line|
    ensures FindCrlf(line[..c]).None? && FindCrlf(line[c..]).None?
    decreases |line|
  {
    if c == 0 {
      assert line[0..] == line;
    } else {
      assert line[..c][1..] == line[1..][..c - 1] && line[c..] == line[1..][c - 1..];
      if |line| >= 2 { NoLineEndInside(line[1..], c - 1); } else { assert line[c..] == ""; }
    }
  }

  // ---------------------------------------------------------------------------------------
  // A cut between CR and LF
  // ---------------------------------------------------------------------------------------

  /** Lines, and a line that is cut after its CR. */
  function UpToReturn(lines: seq<string>, a: string): string {
    Text(lines) + (a + "\r")
  }

  /** The LF and what follows it. */
  function FromFeed(rest: string): string {
    "\n" + rest
  }

  /** Two calls, for the two sides of a cut. */
  function FeedCut(lib: Library, h: Header, a: string, b: string): Fed {
    var f := Feed(lib, h, a);
    if f.end.More? then Further(Feed(lib, f.h, b), f.consumed) else f
  }

  lemma CutIsTwoPieces(lib: Library, h: Header, a: string, b: string)
    ensures FeedCut(lib, h, a, b) == FeedAll(lib, h, [a, b])
  {
    hide Feed;
    var pieces := [a, b];
    assert pieces[1..] == [b] && pieces[1..][1..] == [];
    var f := Feed(lib, h, a);
    if f.end.More? {
      var g := Feed(lib, f.h, b);
      assert FeedAll(lib, g.h, pieces[1..][1..]) == Fed(g.h, 0, More);
      assert FeedAll(lib, f.h, pieces[1..]) == g;
    }
  }

  lemma SeamText(lines: seq<string>, a: string, b: string)
    ensures UpToReturn(lines, a) + FromFeed(b) == Text(lines) + (a + (CRLF + b))
  {
    assert (a + "\r") + ("\n" + b) == a + (CRLF + b);
    Associate(Text(lines), a + "\r", "\n" + b);
  }

  /** After a first piece that ends with the CR of a line end, the line stays open. */
  lemma OpenAtCut(lib: Library, h: Header, lines: seq<string>, a: string)
    requires h.line == "" && AreLines(lines) && FindCrlf(a).None?
    ensures Feed(lib, h, UpToReturn(lines, a)) ==
      Fed(AfterLines(lib, h, lines).(line := a + "\r"), |Text(lines)| + |a| + 1, More)
  {
    LinesAreRewritten(lib, h, lines, a + "\r");
    FindAfter(a, "\r");
    hide KindOf, FindCrlf, ProcessLine, AfterLines;
    LineIsEmpty(lib, h, lines);
    assert "" + (a + "\r") == a + "\r";
  }

  /** The second call goes on with the open line. */
  lemma CutGoesOn(lib: Library, h: Header, lines: seq<string>, a: string, b: string)
    requires h.line == "" && AreLines(lines) && FindCrlf(a).None?
    ensures FeedCut(lib, h, UpToReturn(lines, a), b) ==
      Further(Feed(lib, AfterLines(lib, h, lines).(line := a + "\r"), b), |Text(lines)| + |a| + 1)
  {
    hide Feed, AfterLines, UpToReturn, FindCrlf, Text, AreLines;
    OpenAtCut(lib, h, lines, a);
  }

  /** What becomes of the empty line that ends a header and of `rest` behind it, after a cut between its CR
      and its LF: one more line, or the beginning of one. */
  function EndOverlooked(lib: Library, t: Header, rest: string): Fed {
    match FindCrlf(FromFeed(rest))
    case None => Fed(t.(line := CRLF + rest), 1 + |rest|, More)
    case Some(end) =>
      var u := t.(line := "", rebuilt := t.rebuilt + "\r" + FromFeed(rest)[..end] + CRLF);
      Further(Feed(lib, u, FromFeed(rest)[end + 2..]), end + 2)
  }

  /** A cut inside the last CR LF, after any lines: the header does not end there. The empty line and
      whatever follows are taken for one more line, if a line end follows at all. */
  lemma CutLineEnd(lib: Library, h: Header, lines: seq<string>, rest: string)
    requires h.line == "" && AreLines(lines)
    ensures Feed(lib, h, UpToReturn(lines, "") + FromFeed(rest)).end.Finished?
    ensures FeedCut(lib, h, UpToReturn(lines, ""), FromFeed(rest)) ==
      Further(EndOverlooked(lib, AfterLines(lib, h, lines), rest), |Text(lines)| + 1)
  {
    hide Feed, AfterLines, UpToReturn, FromFeed, Text, FeedCut, EndOverlooked;
    EmptyHasNone();
    SeamText(lines, "", rest);
    assert "" + (CRLF + rest) == CRLF + rest;
    HeaderIsRewritten(lib, h, lines, rest);
    CutGoesOn(lib, h, lines, "", FromFeed(rest));
    assert "" + "\r" == "\r";
    LineOpensWithReturn(lib, AfterLines(lib, h, lines), rest);
  }

  lemma EmptyHasNone()
    ensures FindCrlf("").None?
  {
  }

  lemma LineOpensWithReturn(lib: Library, t: Header, rest: string)
    ensures Feed(lib, t.(line := "\r"), FromFeed(rest)) == EndOverlooked(lib, t, rest)
  {
    var data := FromFeed(rest);
    assert "\r" + data == CRLF + rest;
    match FindCrlf(data)
    case None =>
    case Some(end) =>
      var line := "\r" + data[..end];
      ReturnIsNoName(line);
      hide KindOf, FindCrlf;
      Associate(t.rebuilt, "\r", data[..end]);
  }

  lemma ReturnIsNoName(line: string)
    requires line != "" && line[0] == '\r'
    ensures KindOf(line).Other?
  {
    assert Lower(line[0]) == '\r';
    assert Lower("Proxy-Connection: "[0]) == 'p' && Lower("Connection: "[0]) == 'c';
    assert Lower("Proxy-Authorization: "[0]) == 'p' && Lower("Content-Length: "[0]) == 'c';
  }

  /** The kind of a line by its name alone, even if nothing follows the name. */
  function NameKind(line: string): LineKind {
    if StartsWith(line, "Proxy-Connection: ") then ProxyConnection
    else if StartsWith(line, "Connection: ") then Connection
    else if StartsWith(line, "Proxy-Authorization: ") then ProxyAuthorization
    else if StartsWith(line, "Content-Length: ") then ContentLength
    else Other
  }

  ghost predicate HasNoReturn(s: string) {
    forall i :: 0 <= i < |s| ==> Lower(s[i]) != '\r'
  }

  lemma PrefixBeforeReturn(a: string, b: string, prefix: string)
    requires HasNoReturn(prefix)
    ensures StartsWith(a + CRLF + b, prefix) <==> StartsWith(a, prefix)
    ensures StartsWith(a, prefix) ==> |a + CRLF + b| > |prefix|
  {
    var line := a + CRLF + b;
    assert forall i :: 0 <= i < |a| ==> line[i] == a[i];
    assert line[|a|] == '\r' && Lower('\r') == '\r';
    if |a| < |prefix| && |prefix| <= |line| {
      assert Lower(line[|a|]) != Lower(prefix[|a|]);
    }
  }

  /** Two lines taken for one are classified by the name of the first. */
  lemma JoinedKind(a: string, b: string)
    ensures KindOf(a + CRLF + b) == NameKind(a)
  {
    hide StartsWith;
    NoReturnInNames();
    PrefixBeforeReturn(a, b, "Proxy-Connection: ");
    PrefixBeforeReturn(a, b, "Connection: ");
    PrefixBeforeReturn(a, b, "Proxy-Authorization: ");
    PrefixBeforeReturn(a, b, "Content-Length: ");
  }

  lemma NoReturnInNames()
    ensures HasNoReturn("Proxy-Connection: ") && HasNoReturn("Connection: ")
    ensures HasNoReturn("Proxy-Authorization: ") && HasNoReturn("Content-Length: ")
  {
  }

  /** What becomes of a line whose end was found after `end` bytes of the last piece, and of what follows. */
  function GoOn(lib: Library, h: Header, end: nat, more: string): Fed
    requires end <= |h.line|
  {
    match ProcessLine(lib, h, end)
    case Taken(next) => Further(Feed(lib, next.(line := ""), more), end + 2)
    case Refused => Fed(h, 0, Killed)
    case Overread => Fed(h, 0, Undefined)
  }

  lemma SecondPiece(lib: Library, t: Header, a: string, b: string, more: string)
    requires FindCrlf(b).None?
    ensures Feed(lib, t.(line := a + "\r"), FromFeed(b + CRLF + more)) ==
      GoOn(lib, t.(line := a + CRLF + b), |b| + 1, more)
  {
    var second := FromFeed(b + CRLF + more);
    assert second == "\n" + b + CRLF + more;
    assert ("\n" + b)[1..] == b && FindCrlf("\n" + b).None?;
    LineEnds("\n" + b, more);
    hide KindOf, FindCrlf, ProcessLine, FromFeed;
    assert (a + "\r") + ("\n" + b) == a + CRLF + b;
  }

  /** A cut inside an inner CR LF, after any lines: the line before and the line after it are taken for one
      line, whose kind is that of the first. */
  lemma CutInnerLineEnd(lib: Library, h: Header, lines: seq<string>, a: string, b: string, more: string)
    requires h.line == "" && AreLines(lines) && FindCrlf(a).None? && FindCrlf(b).None?
    ensures FeedCut(lib, h, UpToReturn(lines, a), FromFeed(b + CRLF + more)) ==
      Further(GoOn(lib, AfterLines(lib, h, lines).(line := a + CRLF + b), |b| + 1, more), |Text(lines)| + |a| + 1)
    ensures KindOf(a + CRLF + b) == NameKind(a)
  {
    hide KindOf, FindCrlf, AfterLines, Feed, FeedCut, GoOn, NameKind, Text, UpToReturn, FromFeed;
    JoinedKind(a, b);
    CutGoesOn(lib, h, lines, a, FromFeed(b + CRLF + more));
    SecondPiece(lib, AfterLines(lib, h, lines), a, b, more);
  }

  /** So credentials in the second of two such lines are forwarded and not read. */
  lemma CutForwardsCredentials(lib: Library, h: Header, lines: seq<string>, a: string, b: string, more: string)
    requires h.line == "" && AreLines(lines) && FindCrlf(a).None? && FindCrlf(b).None? && NameKind(a).Other?
    ensures var t := AfterLines(lib, h, lines);
      FeedCut(lib, h, UpToReturn(lines, a), FromFeed(b + CRLF + more)) ==
        Further(Feed(lib, t.(rebuilt := t.rebuilt + (a + CRLF + b) + CRLF), more), |Text(lines)| + |a| + |b| + 4)
  {
    hide KindOf, FindCrlf, AfterLines, Feed, FeedCut, GoOn, NameKind, Text, UpToReturn, FromFeed;
    CutInnerLineEnd(lib, h, lines, a, b, more);
    LineIsEmpty(lib, h, lines);
    ForwardOn(lib, AfterLines(lib, h, lines), a, b, more);
  }

  lemma ForwardOn(lib: Library, t: Header, a: string, b: string, more: string)
    requires t.line == "" && KindOf(a + CRLF + b).Other?
    ensures GoOn(lib, t.(line := a + CRLF + b), |b| + 1, more) ==
      Further(Feed(lib, t.(rebuilt := t.rebuilt + (a + CRLF + b) + CRLF), more), |b| + 3)
  {
    hide KindOf, FindCrlf, Feed;
  }

  // ---------------------------------------------------------------------------------------
  // The header of a CONNECT request
  // ---------------------------------------------------------------------------------------

  datatype RawEnd = RawMore(consumed: nat) | RawAccepted(consumed: nat, auth: string) | RawDenied | RawKilled

  function RawFurther(r: RawEnd, before: nat): RawEnd {
    match r
    case RawMore(n) => RawMore(before + n)
    case RawAccepted(n, auth) => RawAccepted(before + n, auth)
    case _ => r
  }

  /** `OnHttpRawChallenge`; `auth` are the credentials found so far in this call. A line that is not whole
      is not consumed. */
  function RawFeed(lib: Library, auth: string, data: string): RawEnd
    decreases |data|
  {
    match FindCrlf(data)
    case None => RawMore(0)
    case Some(end) =>
      if end == 0 then (if auth == "" then RawDenied else RawAccepted(2, auth))
      else if KindOf(data[..end]).ProxyAuthorization? && end < 27 then RawKilled
      else RawFurther(RawFeed(lib, LineAuth(lib, auth, data[..end]), data[end + 2..]), end + 2)
  }

  lemma {:induction false} RawLines(lib: Library, auth: string, lines: seq<string>, rest: string)
    requires AreLines(lines)
    ensures RawFeed(lib, auth, Text(lines) + rest) ==
      RawFurther(RawFeed(lib, AuthOf(lib, auth, lines), rest), |Text(lines)|)
    decreases |lines|
  {
    hide KindOf, FindCrlf, LineAuth, IsLine;
    if lines == [] {
      assert Text(lines) + rest == rest;
    } else {
      var line, more := lines[0], Text(lines[1..]) + rest;
      assert IsLine(line);
      LineFacts(line);
      assert Text(lines) + rest == line + CRLF + more;
      LineEnds(line, more);
      RawLines(lib, LineAuth(lib, auth, line), lines[1..], rest);
    }
  }

  /** The credentials have to come in the call that brings the end of the header: an earlier call consumes
      its lines and forgets what was in them. A header that comes at once is accepted with its last
      credentials; after a cut only those of the lines that were not consumed count. */
  lemma RawForgetsCredentials(lib: Library, first: seq<string>, begun: string, second: seq<string>, rest: string)
    requires AreLines(first) && AreLines(second) && FindCrlf(begun).None?
    ensures RawFeed(lib, "", Text(first) + begun) == RawMore(|Text(first)|)
    ensures RawFeed(lib, "", Text(second) + (CRLF + rest)) ==
      (if AuthOf(lib, "", second) == "" then RawDenied else RawAccepted(|Text(second)| + 2, AuthOf(lib, "", second)))
  {
    hide KindOf, LineAuth, IsLine;
    RawLines(lib, "", first, begun);
    RawLines(lib, "", second, CRLF + rest);
    assert FindCrlf(CRLF + rest) == Some(0);
    hide FindCrlf;
  }

  /** The loop of `OnHttpNormalChallenge`, and what it does when the header is complete. */
  class NormalRequest {
    var line: string
    var rebuilt: string
    var auth: string
    var contentLength: int

    constructor (start: string)
      ensures View() == Header("", start, "", 0)
    {
      line, rebuilt, auth, contentLength := "", start, "", 0;
    }

    function View(): Header
      reads this
    {
      Header(line, rebuilt, auth, contentLength)
    }

    method ProcessHeaderLine(lib: Library, lineEnd: nat) returns (end: End)
      requires lineEnd <= |line|
      modifies this
      ensures match ProcessLine(lib, old(View()), lineEnd)
        case Taken(h) => end.More? && View() == h
        case Refused => end.Killed? && View() == old(View())
        case Overread => end.Undefined? && View() == old(View())
    {
      hide StartsWith;
      end := More;
      match KindOf(line)
      case ProxyConnection =>
      case Connection => rebuilt := rebuilt + "Connection: close" + CRLF;
      case ProxyAuthorization =>
        if lineEnd < 21 { return Undefined; }
        if lineEnd - 21 < 6 {
          if StartsWith(line[21..], "Basic ") { return Undefined; }
          return Killed;
        }
        auth := lib.decode(line[27..lineEnd]);
      case ContentLength =>
        contentLength := lib.number(line[16..]);
        rebuilt := rebuilt + line + CRLF;
      case Other => rebuilt := rebuilt + line + CRLF;
    }

    method OnHttpNormalChallenge(lib: Library, data: string) returns (consumed: nat, end: End)
      modifies this
      ensures Feed(lib, old(View()), data) == Fed(View(), consumed, end)
    {
      hide KindOf, FindCrlf, ProcessLine;
      var view := data;
      consumed, end := 0, More;
      while true
        invariant consumed + |view| == |data| && end.More?
        invariant Feed(lib, old(View()), data) == Further(Feed(lib, View(), view), consumed)
        decreases |view|
      {
        var lineEnd := FindCrlf(view);
        if lineEnd.None? {
          line := line + view;
          return |data|, More;
        }
        if lineEnd.value == 0 && line == "" {
          consumed := consumed + 2;
          break;
        }
        line := line + view[..lineEnd.value];
        consumed := consumed + lineEnd.value + 2;
        view := view[lineEnd.value + 2..];
        end := ProcessHeaderLine(lib, lineEnd.value);
        if !end.More? { return 0, end; }
        line := "";
      }
      rebuilt := rebuilt + CRLF;
      end := Finished;
    }
  }
}
