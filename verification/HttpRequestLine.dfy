/** The first line of an HTTP request: the target of a CONNECT request, or the target and the rebuilt
    request line of a plain one. */
module HttpRequestLine {
  import opened Lists
  import opened HttpHeader
  import opened HttpNames

  const PORT_RANGE: int := 65536
  const DEFAULT_PORT: int := 80

  /** The first place from `start` on that holds one of two characters. */
  function IndexOf(s: string, c: char, d: char, start: nat): (r: Option<nat>)
    requires start <= |s|
    ensures r.Some? ==> start <= r.value < |s| && (s[r.value] == c || s[r.value] == d)
    ensures forall i :: start <= i < (if r.Some? then r.value else |s|) ==> s[i] != c && s[i] != d
    decreases |s| - start
  {
    if start == |s| then None
    else if s[start] == c || s[start] == d then Some(start)
    else IndexOf(s, c, d, start + 1)
  }

  lemma IndexOfIs(s: string, c: char, d: char, start: nat, i: nat)
    requires start <= i < |s| && (s[i] == c || s[i] == d)
    requires forall k :: start <= k < i ==> s[k] != c && s[k] != d
    ensures IndexOf(s, c, d, start) == Some(i)
  {
  }

  /** The loops that look for the end of the host. */
  method FindEnd(s: string, c: char, d: char, start: nat) returns (r: Option<nat>)
    requires start <= |s|
    ensures r == IndexOf(s, c, d, start)
  {
    var i := start;
    while i < |s|
      invariant start <= i <= |s| && IndexOf(s, c, d, start) == IndexOf(s, c, d, i)
    {
      if s[i] == c || s[i] == d { return Some(i); }
      i := i + 1;
    }
    r := None;
  }

  datatype Start = Bad | Raw(host: string, port: int) | Normal(host: string, port: int, rebuilt: string)

  function PortOf(lib: Library, text: string): int {
    lib.number(text) % PORT_RANGE
  }

  predicate IsConnect(line: string) {
    StartsWith(line, "CONNECT ")
  }

  function ConnectTarget(lib: Library, line: string): Start
    requires IsConnect(line)
  {
    var end := IndexOf(line, ':', ' ', 8);
    if end.None? || end.value == 8 then Bad
    else Raw(line[8..end.value], if line[end.value] == ':' then PortOf(lib, line[end.value + 1..]) else DEFAULT_PORT)
  }

  /** The target of a URL that begins at `url`: the host from `host` on, the path looked for from `from` on. */
  function PlainTarget(lib: Library, line: string, url: nat, host: nat, from: nat): Start
    requires url <= from <= |line|
  {
    var path := IndexOf(line, '/', '/', from);
    if path.None? then Bad else
      var rebuilt := line[..url] + line[path.value..] + CRLF;
      if host > path.value then Normal("", 0, rebuilt) else
        var end := IndexOf(line, ':', '/', host).value;
        Normal(line[host..end], if line[end] == ':' then PortOf(lib, line[end + 1..]) else DEFAULT_PORT, rebuilt)
  }

  /** `OnHttpChallenge` for a line without its line end. In a URL that begins with `https://` the host is
      looked for eight characters on, but the path only seven. */
  function Challenge(lib: Library, line: string): Start {
    if IsConnect(line) then ConnectTarget(lib, line) else
      var space := IndexOf(line, ' ', ' ', 0);
      if space.None? then Bad else
        var url := space.value + 1;
        if IndexOf(line, ' ', ' ', url).None? then Bad
        else if StartsWith(line[url..], "http://") then PlainTarget(lib, line, url, url + 7, url + 7)
        else if StartsWith(line[url..], "https://") then PlainTarget(lib, line, url, url + 8, url + 7)
        else PlainTarget(lib, line, url, url, url)
  }

  lemma Schemes(scheme: string, rest: string)
    ensures Spells(scheme, "http://") ==> StartsWith(scheme + rest, "http://")
    ensures Spells(scheme, "https://") ==>
      StartsWith(scheme + rest, "https://") && !StartsWith(scheme + rest, "http://")
  {
    var url := scheme + rest;
    SpellsPrefix(url, "http://");
    SpellsPrefix(url, "https://");
    if Spells(scheme, "http://") { assert url[..7] == scheme; }
    if Spells(scheme, "https://") {
      assert url[..8] == scheme;
      NotBoth(url, "http://", "https://", 4);
    }
    hide StartsWith;
  }

  ghost predicate Without(s: string, c: char) {
    forall i :: 0 <= i < |s| ==> s[i] != c
  }

  /** `CONNECT host:port version` and `CONNECT host version`, in any letters, give host and port. */
  lemma ConnectParses(lib: Library, word: string, host: string, sep: char, rest: string)
    requires Spells(word, "CONNECT ")
    requires host != "" && Without(host, ':') && Without(host, ' ') && (sep == ':' || sep == ' ')
    ensures Challenge(lib, word + host + [sep] + rest) == Raw(host, if sep == ':' then lib.number(rest) % 65536 else 80)
  {
    var line := word + host + [sep] + rest;
    SpellsPrefix(line, "CONNECT ");
    SpelledLength(word, "CONNECT ");
    assert line[..8] == word;
    var end := 8 + |host|;
    assert line[8..end] == host && line[end] == sep && line[end + 1..] == rest;
    forall k | 8 <= k < end ensures line[k] != ':' && line[k] != ' ' { assert line[k] == host[k - 8]; }
    IndexOfIs(line, ':', ' ', 8, end);
    hide StartsWith, Spells;
  }

  /** The parts of a plain request line: method, scheme, and what follows it. */
  lemma UrlStarts(verb: string, url: string)
    requires Without(verb, ' ')
    ensures var line := verb + " " + url;
      && IndexOf(line, ' ', ' ', 0) == Some(|verb|) && line[|verb| + 1..] == url && line[..|verb| + 1] == verb + " "
  {
    var line := verb + " " + url;
    forall k | 0 <= k < |verb| ensures line[k] != ' ' { assert line[k] == verb[k]; }
    IndexOfIs(line, ' ', ' ', 0, |verb|);
  }

  /** The URL begins with `http://`, or with no scheme that the code knows. */
  predicate IsPlain(scheme: string, rest: string) {
    || Spells(scheme, "http://")
    || (scheme == "" && (|rest| < 7 || !Spells(rest[..7], "http://")) && (|rest| < 8 || !Spells(rest[..8], "https://")))
  }

  lemma PlainUrl(lib: Library, verb: string, scheme: string, rest: string)
    requires Without(verb, ' ') && !Spells(verb, "CONNECT") && IsPlain(scheme, rest) && !Without(rest, ' ')
    ensures var line, u := verb + " " + (scheme + rest), |verb| + 1;
      && Challenge(lib, line) == PlainTarget(lib, line, u, u + |scheme|, u + |scheme|)
      && line[u..] == scheme + rest && line[..u] == verb + " "
  {
    if scheme == "" {
      SpellsPrefix(rest, "http://");
      SpellsPrefix(rest, "https://");
    } else {
      SpelledLength(scheme, "http://");
    }
    assert "" + rest == rest;
    hide StartsWith, IndexOf, PlainTarget, Without, Spells;
    var url := scheme + rest;
    var line := verb + " " + url;
    UrlStarts(verb, url);
    NotConnect(verb, url);
    Schemes(scheme, rest);
    assert url[|url| - |rest|..] == rest;
    SpaceBehind(line, url, |verb| + 1, rest);
  }

  function AfterHost(port: Option<string>, path: string): string {
    if port.Some? then ":" + port.value + path else path
  }

  lemma SpaceInside(host: string, port: Option<string>, path: string)
    requires !Without(path, ' ')
    ensures !Without(host + AfterHost(port, path), ' ')
  {
    var k :| 0 <= k < |path| && path[k] == ' ';
    var s := host + AfterHost(port, path);
    assert s[|s| - |path|..] == path;
    assert s[|s| - |path| + k] == path[k];
  }

  /** A plain request with an absolute `http` URL, or one without a scheme: the host, the port if there is one
      and 80 otherwise, and a request line that holds the path only. */
  lemma PlainIsRewritten(lib: Library, verb: string, scheme: string, host: string, port: Option<string>, path: string)
    requires Without(verb, ' ') && !Spells(verb, "CONNECT") && IsPlain(scheme, host + AfterHost(port, path))
    requires Without(host, ':') && Without(host, '/')
    requires port.Some? ==> Without(port.value, '/')
    requires |path| > 0 && path[0] == '/' && !Without(path, ' ')
    ensures Challenge(lib, verb + " " + (scheme + (host + AfterHost(port, path)))) ==
      Normal(host, if port.Some? then lib.number(port.value + path) % 65536 else 80, verb + " " + path + CRLF)
  {
    hide StartsWith, IndexOf, Without, Challenge, PlainTarget, AfterHost, IsPlain, Spells;
    var rest := host + AfterHost(port, path);
    var line := verb + " " + (scheme + rest);
    SpaceInside(host, port, path);
    PlainUrl(lib, verb, scheme, rest);
    UrlParts(line, |verb| + 1, scheme, host, port, path);
    TargetParts(lib, line, |verb| + 1, |verb| + 1 + |scheme|, |host|, |line| - |path|);
  }

  lemma TargetParts(lib: Library, line: string, u: nat, h: nat, n: nat, p: nat)
    requires u <= h && h + n <= p < |line| && line[p] == '/'
      && (line[h + n] == ':' || (line[h + n] == '/' && h + n == p))
    requires (forall k :: h <= k < p ==> line[k] != '/')
      && (forall k :: h <= k < h + n ==> line[k] != ':' && line[k] != '/')
    ensures PlainTarget(lib, line, u, h, h) ==
      Normal(line[h..h + n], if line[h + n] == ':' then PortOf(lib, line[h + n + 1..]) else DEFAULT_PORT,
             line[..u] + line[p..] + CRLF)
  {
    hide PortOf;
    IndexOfIs(line, '/', '/', h, p);
    IndexOfIs(line, ':', '/', h, h + n);
    hide IndexOf;
  }

  lemma ConnectWord(verb: string, rest: string)
    requires Without(verb, ' ')
    ensures IsConnect(verb + " " + rest) ==> Spells(verb, "CONNECT")
  {
    var line := verb + " " + rest;
    SpellsPrefix(line, "CONNECT ");
    if IsConnect(line) {
      assert line[7] == ' ' by { assert !OtherCase(line[..8][7], ' '); }
      assert forall i :: 0 <= i < 7 ==> line[..8][i] != ' ' && line[i] == line[..8][i];
      assert line[|verb|] == ' ' && forall i :: 0 <= i < |verb| ==> line[i] == verb[i];
      assert |verb| == 7;
    }
  }

  lemma NotConnect(verb: string, rest: string)
    requires !Spells(verb, "CONNECT") && Without(verb, ' ')
    ensures !IsConnect(verb + " " + rest)
  {
    ConnectWord(verb, rest);
    hide StartsWith, Spells, Without;
  }

  lemma SpaceBehind(line: string, url: string, u: nat, path: string)
    requires u <= |line| && line[u..] == url && |path| <= |url| && url[|url| - |path|..] == path && !Without(path, ' ')
    ensures IndexOf(line, ' ', ' ', u).Some?
  {
    var k :| 0 <= k < |path| && path[k] == ' ';
    assert line[u..][|url| - |path| + k] == url[|url| - |path|..][k];
    assert line[u + |url| - |path| + k] == ' ';
  }

  lemma UrlParts(line: string, u: nat, scheme: string, host: string, port: Option<string>, path: string)
    requires u <= |line| && line[u..] == scheme + (host + AfterHost(port, path))
    requires Without(host, ':') && Without(host, '/') && (port.Some? ==> Without(port.value, '/'))
    requires |path| > 0 && path[0] == '/'
    ensures var h, e, p := u + |scheme|, u + |scheme| + |host|, |line| - |path|;
      && h <= e <= p < |line| && line[h..e] == host && line[e] == (if port.Some? then ':' else '/') && line[p] == '/'
      && (forall k :: h <= k < p ==> line[k] != '/') && (forall k :: h <= k < e ==> line[k] != ':' && line[k] != '/')
      && (port.Some? ==> line[e + 1..] == port.value + path)
      && (port.None? ==> e == p) && line[p..] == path
  {
    var after := AfterHost(port, path);
    var n := |scheme|;
    var h, e, p := u + n, u + n + |host|, |line| - |path|;
    assert line[e..] == after by { assert line[u..][n + |host|..] == after; }
    assert line[h..e] == host by { assert line[u..][n..n + |host|] == host; }
    forall k | h <= k < e ensures line[k] != ':' && line[k] != '/' { assert line[k] == line[h..e][k - h]; }
    if port.Some? {
      assert after[1..] == port.value + path;
      forall k | e < k < p ensures line[k] != '/' { assert line[e..][k - e] == port.value[k - e - 1]; }
    }
    assert line[e..][|after| - |path|] == path[0];
    assert line[e..][0] == after[0];
  }

  /** In a URL that begins with `https://` the second slash of the scheme is taken for the path: no host
      is found, for any URL. */
  lemma SecureLosesHost(lib: Library, verb: string, scheme: string, rest: string)
    requires Without(verb, ' ') && !Spells(verb, "CONNECT") && Spells(scheme, "https://") && !Without(rest, ' ')
    ensures Challenge(lib, verb + " " + (scheme + rest)) == Normal("", 0, verb + " /" + rest + CRLF)
  {
    SecondSlash(scheme);
    hide StartsWith, IndexOf, Without, Spells;
    var url := scheme + rest;
    var line := verb + " " + url;
    UrlStarts(verb, url);
    NotConnect(verb, url);
    Schemes(scheme, rest);
    var u := |verb| + 1;
    assert url[|url| - |rest|..] == rest;
    SpaceBehind(line, url, u, rest);
    SlashOfScheme(line, u, scheme, rest);
    assert verb + " " + ("/" + rest) == verb + " /" + rest;
  }

  lemma SecondSlash(scheme: string)
    requires Spells(scheme, "https://")
    ensures |scheme| == 8 && scheme[7] == '/'
  {
    assert !OtherCase(scheme[7], "https://"[7]);
  }

  lemma SlashOfScheme(line: string, u: nat, scheme: string, rest: string)
    requires u <= |line| && line[u..] == scheme + rest && |scheme| == 8 && scheme[7] == '/'
    ensures IndexOf(line, '/', '/', u + 7) == Some(u + 7) && line[u + 7..] == "/" + rest
  {
    assert line[u..][7] == '/';
    assert line[u..][7..] == "/" + rest;
    IndexOfIs(line, '/', '/', u + 7, u + 7);
  }

  // ---------------------------------------------------------------------------------------
  // Ports
  // ---------------------------------------------------------------------------------------

  predicate IsDigit(c: char) {
    '0' <= c <= '9'
  }

  function DigitValue(c: char): nat
    requires IsDigit(c)
  {
    c as int - '0' as int
  }

  predicate AreDigits(s: string) {
    s != "" && forall i :: 0 <= i < |s| ==> IsDigit(s[i])
  }

  /** The number that decimal digits stand for. */
  function Decimal(digits: string): nat
    requires forall i :: 0 <= i < |digits| ==> IsDigit(digits[i])
  {
    if digits == "" then 0 else
      var n := |digits| - 1;
      10 * Decimal(digits[..n]) + DigitValue(digits[n])
  }

  /** Numbers of 31 bits are read up to the first character that is no digit. */
  ghost predicate ReadsDecimals(lib: Library) {
    forall digits, rest :: AreDigits(digits) && Decimal(digits) < 0x8000_0000 && (rest == "" || !IsDigit(rest[0])) ==>
      lib.number(digits + rest) == Decimal(digits)
  }

  lemma NumberRead(lib: Library, digits: string, rest: string)
    requires ReadsDecimals(lib) && AreDigits(digits) && Decimal(digits) < 65536
    requires rest == "" || !IsDigit(rest[0])
    ensures lib.number(digits + rest) % 65536 == Decimal(digits)
  {
    hide Decimal;
  }

  /** The port of a target in decimal digits, up to 65535, in a CONNECT line. */
  lemma ConnectPort(lib: Library, word: string, host: string, digits: string, rest: string)
    requires ReadsDecimals(lib) && AreDigits(digits) && Decimal(digits) < 65536
    requires Spells(word, "CONNECT ") && host != "" && Without(host, ':') && Without(host, ' ')
    requires rest == "" || rest[0] == ' '
    ensures Challenge(lib, word + host + ":" + (digits + rest)) == Raw(host, Decimal(digits))
  {
    hide Challenge, Spells, Without, Decimal, AreDigits, ReadsDecimals;
    NumberRead(lib, digits, rest);
    ConnectParses(lib, word, host, ':', digits + rest);
  }

  lemma NoSlash(digits: string)
    requires AreDigits(digits)
    ensures Without(digits, '/')
  {
  }

  /** The port of a target in decimal digits, up to 65535, in an absolute URL. */
  lemma PlainPort(lib: Library, verb: string, scheme: string, host: string, digits: string, path: string)
    requires ReadsDecimals(lib) && AreDigits(digits) && Decimal(digits) < 65536
    requires Without(verb, ' ') && !Spells(verb, "CONNECT") && Spells(scheme, "http://")
    requires Without(host, ':') && Without(host, '/') && |path| > 0 && path[0] == '/' && !Without(path, ' ')
    ensures Challenge(lib, verb + " " + (scheme + (host + (":" + digits + path)))) ==
      Normal(host, Decimal(digits), verb + " " + path + CRLF)
  {
    hide Challenge, Spells, Without, Decimal, AreDigits, ReadsDecimals;
    assert AfterHost(Some(digits), path) == ":" + digits + path;
    hide AfterHost;
    NumberRead(lib, digits, path);
    NoSlash(digits);
    PlainIsRewritten(lib, verb, scheme, host, Some(digits), path);
  }
}
