/** What becomes of a header line by its name, in whatever letters the name is written. */
module HttpNames {
  import opened Lists
  import opened HttpHeader

  /** The same letter in the other case. */
  predicate OtherCase(c: char, d: char) {
    ('A' <= c <= 'Z' && d == c - 'A' + 'a') || ('a' <= c <= 'z' && d == c - 'a' + 'A')
  }

  /** `name` is `word`, apart from the case of its letters. */
  predicate Spells(name: string, word: string) {
    |name| == |word| && forall i :: 0 <= i < |name| ==> name[i] == word[i] || OtherCase(name[i], word[i])
  }

  /** The line consists of such a name and something more. */
  predicate Names(line: string, word: string) {
    |line| > |word| && Spells(line[..|word|], word)
  }

  /** No CR is followed by LF. */
  ghost predicate OneLine(s: string) {
    forall i :: 0 <= i < |s| - 1 ==> !(s[i] == '\r' && s[i + 1] == '\n')
  }

  lemma {:induction false} NoEnd(s: string)
    requires OneLine(s)
    ensures FindCrlf(s).None?
    decreases |s|
  {
    if |s| >= 2 {
      assert !(s[0] == '\r' && s[1] == '\n');
      assert forall i :: 0 <= i < |s[1..]| ==> s[1..][i] == s[i + 1];
      NoEnd(s[1..]);
    }
  }

  lemma SameLetter(c: char, d: char)
    ensures Lower(c) == Lower(d) <==> c == d || OtherCase(c, d)
  {
  }

  lemma SpellsPrefix(line: string, word: string)
    ensures StartsWith(line, word) <==> |line| >= |word| && Spells(line[..|word|], word)
  {
    if |line| >= |word| {
      forall i | 0 <= i < |word|
        ensures Lower(line[i]) == Lower(word[i]) <==> line[i] == word[i] || OtherCase(line[i], word[i])
      {
        SameLetter(line[i], word[i]);
      }
      assert forall i :: 0 <= i < |word| ==> line[..|word|][i] == line[i];
    }
  }

  /** Two words that differ somewhere, in more than case, do not begin the same line. */
  lemma NotBoth(line: string, v: string, w: string, i: nat)
    requires i < |v| && i < |w| && Lower(v[i]) != Lower(w[i])
    ensures !(StartsWith(line, v) && StartsWith(line, w))
  {
  }

  const PROXY_CONNECTION := "Proxy-Connection: "
  const CONNECTION := "Connection: "
  const PROXY_AUTHORIZATION := "Proxy-Authorization: "
  const CONTENT_LENGTH := "Content-Length: "

  /** The kind of a line is that of the name it begins with. */
  lemma KindByName(line: string)
    ensures KindOf(line).ProxyConnection? <==> Names(line, PROXY_CONNECTION)
    ensures KindOf(line).Connection? <==> Names(line, CONNECTION)
    ensures KindOf(line).ProxyAuthorization? <==> Names(line, PROXY_AUTHORIZATION)
    ensures KindOf(line).ContentLength? <==> Names(line, CONTENT_LENGTH)
  {
    SpellsPrefix(line, PROXY_CONNECTION);
    SpellsPrefix(line, CONNECTION);
    SpellsPrefix(line, PROXY_AUTHORIZATION);
    SpellsPrefix(line, CONTENT_LENGTH);
    NotBoth(line, PROXY_CONNECTION, CONNECTION, 0);
    NotBoth(line, PROXY_CONNECTION, PROXY_AUTHORIZATION, 6);
    NotBoth(line, PROXY_CONNECTION, CONTENT_LENGTH, 0);
    NotBoth(line, CONNECTION, PROXY_AUTHORIZATION, 0);
    NotBoth(line, CONNECTION, CONTENT_LENGTH, 3);
    NotBoth(line, PROXY_AUTHORIZATION, CONTENT_LENGTH, 0);
    hide StartsWith, Spells;
  }

  lemma NamedKind(name: string, value: string, word: string)
    requires value != "" && Spells(name, word)
    ensures Names(name + value, word)
  {
    assert (name + value)[..|word|] == name;
  }

  /** One whole line, by its kind. */
  lemma LineIsHandled(lib: Library, h: Header, line: string, more: string)
    requires h.line == "" && line != "" && OneLine(line)
    requires KindOf(line).ProxyAuthorization? ==> |line| >= 27
    ensures Feed(lib, h, line + CRLF + more) ==
      Further(Feed(lib, Header("", h.rebuilt + Rewritten(line), LineAuth(lib, h.auth, line),
                               LineLength(lib, h.contentLength, line)), more), |line| + 2)
  {
    NoEnd(line);
    LineEnds(line, more);
    LineIsRewritten(lib, h.(line := line));
    hide KindOf, FindCrlf, ProcessLine, Rewritten, LineAuth, LineLength, Feed;
    LineIsFed(lib, h, line, more, Header("", h.rebuilt + Rewritten(line), LineAuth(lib, h.auth, line),
                                         LineLength(lib, h.contentLength, line)));
  }

  lemma ShortIsRefused(lib: Library, h: Header)
    requires KindOf(h.line).ProxyAuthorization? && 21 < |h.line| < 27
    ensures ProcessLine(lib, h, |h.line|) == Refused
  {
    hide KindOf;
  }

  lemma ShortCredentials(lib: Library, h: Header, line: string, more: string)
    requires h.line == "" && line != "" && OneLine(line) && KindOf(line).ProxyAuthorization? && |line| < 27
    ensures Feed(lib, h, line + CRLF + more) == Fed(h.(line := line), 0, Killed)
  {
    NoEnd(line);
    LineEnds(line, more);
    LongerThanName(line);
    ShortIsRefused(lib, h.(line := line));
    hide KindOf, FindCrlf, ProcessLine, OneLine;
    assert "" + line == line;
  }

  lemma LongerThanName(line: string)
    requires KindOf(line).ProxyAuthorization?
    ensures |line| > 21
  {
    hide StartsWith;
  }

  /** A whole line with one of the four names, in any letters, and a value: the two lines for the proxy are
      dropped, the connection is announced to close, credentials and length are read from the value. */
  lemma NamedLine(lib: Library, h: Header, name: string, value: string, more: string)
    requires h.line == "" && value != "" && OneLine(name + value)
    ensures var data := name + value + CRLF + more;
      var n := |name| + |value| + 2;
      && (Spells(name, "Proxy-Connection: ") ==> Feed(lib, h, data) == Further(Feed(lib, h, more), n))
      && (Spells(name, "Connection: ") ==>
            Feed(lib, h, data) == Further(Feed(lib, h.(rebuilt := h.rebuilt + "Connection: close\r\n"), more), n))
      && (Spells(name, "Proxy-Authorization: ") && |value| >= 6 ==>
            Feed(lib, h, data) == Further(Feed(lib, h.(auth := lib.decode(value[6..])), more), n))
      && (Spells(name, "Proxy-Authorization: ") && |value| < 6 ==>
            Feed(lib, h, data).end.Killed? && Feed(lib, h, data).h.auth == h.auth)
      && (Spells(name, "Content-Length: ") ==>
            Feed(lib, h, data) ==
              Further(Feed(lib, h.(rebuilt := h.rebuilt + (name + value + "\r\n"), contentLength := lib.number(value)),
                           more), n))
  {
    var line := name + value;
    KindByName(line);
    hide KindOf, Names, Spells, Feed, OneLine;
    assert "Connection: close" + CRLF == "Connection: close\r\n";
    assert h.rebuilt + "" == h.rebuilt;
    if Spells(name, PROXY_AUTHORIZATION) {
      NamedKind(name, value, PROXY_AUTHORIZATION);
      SpelledLength(name, PROXY_AUTHORIZATION);
      if |value| >= 6 {
        assert line[27..] == value[6..];
        LineIsHandled(lib, h, line, more);
      } else {
        ShortCredentials(lib, h, line, more);
      }
    }
    if Spells(name, PROXY_CONNECTION) {
      NamedKind(name, value, PROXY_CONNECTION);
      LineIsHandled(lib, h, line, more);
    }
    if Spells(name, CONNECTION) {
      NamedKind(name, value, CONNECTION);
      LineIsHandled(lib, h, line, more);
    }
    if Spells(name, CONTENT_LENGTH) {
      NamedKind(name, value, CONTENT_LENGTH);
      SpelledLength(name, CONTENT_LENGTH);
      assert line[16..] == value;
      LineIsHandled(lib, h, line, more);
    }
  }

  lemma SpelledLength(name: string, word: string)
    requires Spells(name, word)
    ensures |name| == |word|
  {
  }

  /** Any other line is kept as it is, and so is a line that ends after one of the four names. */
  lemma OtherLine(lib: Library, h: Header, line: string, more: string)
    requires h.line == "" && line != "" && OneLine(line)
    requires !Names(line, "Proxy-Connection: ") && !Names(line, "Connection: ")
    requires !Names(line, "Proxy-Authorization: ") && !Names(line, "Content-Length: ")
    ensures Feed(lib, h, line + CRLF + more) ==
      Further(Feed(lib, h.(rebuilt := h.rebuilt + (line + "\r\n")), more), |line| + 2)
  {
    KindByName(line);
    hide KindOf, Names, Feed, OneLine;
    LineIsHandled(lib, h, line, more);
  }

  /** A whole line of a CONNECT request: only credentials matter, under any spelling of their name. */
  lemma RawLine(lib: Library, auth: string, line: string, more: string)
    requires line != "" && OneLine(line)
    ensures var data := line + CRLF + more;
      && (!Names(line, "Proxy-Authorization: ") ==>
            RawFeed(lib, auth, data) == RawFurther(RawFeed(lib, auth, more), |line| + 2))
      && (Names(line, "Proxy-Authorization: ") && |line| >= 27 ==>
            RawFeed(lib, auth, data) == RawFurther(RawFeed(lib, lib.decode(line[27..]), more), |line| + 2))
      && (Names(line, "Proxy-Authorization: ") && |line| < 27 ==> RawFeed(lib, auth, data) == RawKilled)
  {
    NoEnd(line);
    LineEnds(line, more);
    KindByName(line);
    hide KindOf, Names, FindCrlf, OneLine;
  }
}
