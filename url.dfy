/** The parts of Python 3.12's `urllib.parse` that `normalize_url` and `get_page_base`
    rely on (`urlsplit`, `urlparse`, `urlunsplit`, `urljoin`, `quote`), and those two
    functions themselves. */
module Url {
  import opened Basics
  import opened Text

  // ---------------------------------------------------------------------------
  // Character classes

  /** The characters `urlsplit` strips from the front of a URL (C0 controls and space). */
  predicate IsC0OrSpace(c: char) { c <= ' ' }

  /** The characters `urlsplit` deletes everywhere in a URL. */
  predicate IsUnsafeUrlChar(c: char) { c == '\t' || c == '\r' || c == '\n' }

  predicate IsKeptUrlChar(c: char) { !IsUnsafeUrlChar(c) }

  /** `urllib.parse.scheme_chars`. */
  predicate IsSchemeChar(c: char) { IsAsciiAlnum(c) || c == '+' || c == '-' || c == '.' }

  /** A scheme character as it is after `urlsplit` has lower-cased it. */
  predicate IsLowerSchemeChar(c: char) { IsSchemeChar(c) && !IsAsciiUpper(c) }

  /** Where the network location ends: the first `/`, `?` or `#`. */
  predicate IsNetlocEnd(c: char) { c == '/' || c == '?' || c == '#' }

  predicate IsNetlocChar(c: char) { !IsNetlocEnd(c) }

  // ---------------------------------------------------------------------------
  // Searching and splitting strings

  /** Python's `s.find(c, start)`, with `|s|` for "not found". */
  function FindChar(s: string, c: char, start: nat): (i: nat)
    requires start <= |s|
    ensures start <= i <= |s|
    ensures i < |s| ==> s[i] == c
    ensures forall j :: start <= j < i ==> s[j] != c
    decreases |s| - start
  {
    if start == |s| || s[start] == c then start else FindChar(s, c, start + 1)
  }

  /** The first position at or after `start` holding `/`, `?` or `#`, or `|s|`. */
  function FindNetlocEnd(s: string, start: nat): (i: nat)
    requires start <= |s|
    ensures start <= i <= |s|
    ensures i < |s| ==> IsNetlocEnd(s[i])
    ensures forall j :: start <= j < i ==> !IsNetlocEnd(s[j])
    decreases |s| - start
  {
    if start == |s| || IsNetlocEnd(s[start]) then start else FindNetlocEnd(s, start + 1)
  }

  /** Python's `s.rfind(c)`: the last position of `c`, or -1. */
  function LastIndex(s: string, c: char): (i: int)
    ensures -1 <= i < |s|
    ensures i >= 0 ==> s[i] == c
    ensures forall j :: i < j < |s| ==> s[j] != c
    decreases |s|
  {
    if s == [] then -1 else if s[|s| - 1] == c then |s| - 1 else LastIndex(s[..|s| - 1], c)
  }

  /** Python's `s.split(c)`: always at least one piece, none containing `c`. */
  function SplitOn(s: string, c: char): (r: seq<string>)
    ensures |r| >= 1
    ensures forall k :: 0 <= k < |r| ==> c !in r[k]
    decreases |s|
  {
    var i := FindChar(s, c, 0);
    if i == |s| then [s] else [s[..i]] + SplitOn(s[i + 1..], c)
  }

  /** Python's `c.join(parts)`. */
  function JoinWith(parts: seq<string>, c: char): string
    decreases |parts|
  {
    if |parts| == 0 then "" else if |parts| == 1 then parts[0]
    else parts[0] + [c] + JoinWith(parts[1..], c)
  }

  /** Splitting on `c` and joining with `c` gives the string back. */
  lemma {:induction false} JoinSplitOn(s: string, c: char)
    ensures JoinWith(SplitOn(s, c), c) == s
    decreases |s|
  {
    var i := FindChar(s, c, 0);
    if i < |s| {
      var rest := SplitOn(s[i + 1..], c);
      var parts := [s[..i]] + rest;
      assert SplitOn(s, c) == parts;
      JoinSplitOn(s[i + 1..], c);
      assert parts[0] == s[..i] && parts[1..] == rest;
      assert JoinWith(parts, c) == s[..i] + [c] + JoinWith(rest, c);
      assert s == s[..i] + [c] + s[i + 1..];
    }
  }

  // ---------------------------------------------------------------------------
  // urlsplit / urlparse / urlunsplit

  datatype SplitResult = SplitResult(scheme: string, netloc: string, path: string, query: string, fragment: string)

  datatype ParseResult = ParseResult(scheme: string, netloc: string, path: string, params: string, query: string, fragment: string)

  /** No component of a split URL holds a tab, CR or LF. */
  predicate CleanParts(p: SplitResult) {
    All(p.scheme, IsKeptUrlChar) && All(p.netloc, IsKeptUrlChar) && All(p.path, IsKeptUrlChar) &&
    All(p.query, IsKeptUrlChar) && All(p.fragment, IsKeptUrlChar)
  }

  /** `url` begins with a scheme `urlsplit` accepts: an ASCII letter, then scheme
      characters, then a `:`. */
  predicate HasScheme(url: string) {
    var i := FindChar(url, ':', 0);
    0 < i < |url| && IsAsciiLetter(url[0]) && All(url[..i], IsSchemeChar)
  }

  /** `s` cut at its first `c` (everything when there is none), without the `c`. */
  function CutAt(s: string, c: char): (r: (string, string))
    ensures c !in r.0
    ensures All(s, IsKeptUrlChar) ==> All(r.0, IsKeptUrlChar) && All(r.1, IsKeptUrlChar)
    ensures '#' !in s ==> '#' !in r.0 && '#' !in r.1
  {
    var i := FindChar(s, c, 0);
    var before := s[..i];
    var after := if i < |s| then s[i + 1..] else "";
    assert forall j :: 0 <= j < |before| ==> before[j] == s[j];
    assert forall j :: 0 <= j < |after| ==> after[j] == s[i + 1 + j];
    (before, after)
  }

  /** The URL as `urlsplit` reads it: C0 controls and spaces stripped from the front,
      tabs, CR and LF deleted. */
  function Cleaned(url: string): (r: string)
    ensures All(r, IsKeptUrlChar)
  {
    Filter(TrimLeft(url, IsC0OrSpace), IsKeptUrlChar)
  }

  /** The scheme `urlsplit` finds (lower-cased) or the default, and what follows it. */
  function SchemeAndRest(u: string, defaultScheme: string): (r: (string, string))
    requires All(u, IsKeptUrlChar)
    ensures All(r.0, IsKeptUrlChar) && All(r.1, IsKeptUrlChar)
    ensures HasScheme(u) ==> All(r.0, IsLowerSchemeChar) && |r.0| >= 1 && IsAsciiLower(r.0[0])
  {
    var i := FindChar(u, ':', 0);
    if HasScheme(u) then
      SliceAll(u, i + 1, |u|, IsKeptUrlChar);
      var scheme := Lower(u[..i]);
      assert forall j :: 0 <= j < i ==> scheme[j] == LowerChar(u[j]) && IsSchemeChar(u[..i][j]) && u[j] != '\t' && u[j] != '\r' && u[j] != '\n';
      (scheme, u[i + 1..])
    else
      (Filter(Trim(defaultScheme, IsC0OrSpace), IsKeptUrlChar), u)
  }

  /** The network location after a leading `//`, up to the first `/`, `?` or `#`, and
      what follows it. */
  function NetlocAndRest(rest: string): (r: (string, string))
    requires All(rest, IsKeptUrlChar)
    ensures All(r.0, IsKeptUrlChar) && All(r.1, IsKeptUrlChar)
    ensures All(r.0, IsNetlocChar)
  {
    if |rest| >= 2 && rest[0] == '/' && rest[1] == '/' then
      var d := FindNetlocEnd(rest, 2);
      SliceAll(rest, d, |rest|, IsKeptUrlChar);
      SliceAll(rest, 2, d, IsKeptUrlChar);
      assert forall j :: 0 <= j < d - 2 ==> rest[2..d][j] == rest[2 + j];
      (rest[2..d], rest[d..])
    else ("", rest)
  }

  /** `urlsplit(url, scheme)` with fragments allowed. */
  function SplitWith(url: string, defaultScheme: string): (r: SplitResult)
    ensures CleanParts(r)
    ensures All(r.netloc, IsNetlocChar)
    ensures '#' !in r.path && '?' !in r.path && '#' !in r.query
    ensures HasScheme(Cleaned(url)) ==> All(r.scheme, IsLowerSchemeChar) && |r.scheme| >= 1 && IsAsciiLower(r.scheme[0])
  {
    var sr := SchemeAndRest(Cleaned(url), defaultScheme);
    var nr := NetlocAndRest(sr.1);
    var fr := CutAt(nr.1, '#');
    var qr := CutAt(fr.0, '?');
    SplitResult(sr.0, nr.0, qr.0, qr.1, fr.1)
  }

  /** `urlsplit(url)`: no default scheme. */
  function Split(url: string): (r: SplitResult)
    ensures CleanParts(r)
    ensures All(r.scheme, IsLowerSchemeChar)
    ensures r.scheme != [] ==> IsAsciiLower(r.scheme[0])
    ensures All(r.netloc, IsNetlocChar)
    ensures '#' !in r.path && '?' !in r.path && '#' !in r.query
  {
    assert Trim("", IsC0OrSpace) == "";
    SplitWith(url, "")
  }

  const UsesRelative: set<string> := {"", "ftp", "http", "gopher", "nntp", "imap", "wais", "file", "https",
    "shttp", "mms", "prospero", "rtsp", "rtsps", "rtspu", "sftp", "svn", "svn+ssh", "ws", "wss"}

  const UsesNetloc: set<string> := {"", "ftp", "http", "gopher", "nntp", "telnet", "imap", "wais", "file",
    "mms", "https", "shttp", "snews", "prospero", "rtsp", "rtsps", "rtspu", "rsync", "svn", "svn+ssh",
    "sftp", "nfs", "git", "git+ssh", "ws", "wss", "itms-services"}

  const UsesParams: set<string> := {"", "ftp", "hdl", "prospero", "http", "imap", "https", "shttp",
    "rtsp", "rtsps", "rtspu", "sip", "sips", "mms", "sftp", "tel"}

  /** `_splitparams`: `;params` cut from the last path segment. */
  function SplitParams(path: string): (r: (string, string))
    requires ';' in path
  {
    if '/' in path then
      var k := LastIndex(path, '/');
      var i := FindChar(path, ';', k);
      if i == |path| then (path, "") else (path[..i], path[i + 1..])
    else
      var i := FindChar(path, ';', 0);
      (path[..i], path[i + 1..])
  }

  /** `urlparse(url, scheme)`: `urlsplit` and then `;params` when the scheme uses them. */
  function Parse(url: string, defaultScheme: string): ParseResult {
    var p := SplitWith(url, defaultScheme);
    if p.scheme in UsesParams && ';' in p.path then
      var pp := SplitParams(p.path);
      ParseResult(p.scheme, p.netloc, pp.0, pp.1, p.query, p.fragment)
    else ParseResult(p.scheme, p.netloc, p.path, "", p.query, p.fragment)
  }

  /** `urlunsplit` as Python 3.12 writes it. */
  function Unsplit(scheme: string, netloc: string, path: string, query: string, fragment: string): string {
    var u1 :=
      if netloc != "" then "//" + netloc + (if path != "" && path[0] != '/' then "/" + path else path)
      else if StartsWith(path, "//") then "//" + path
      else if scheme != "" && scheme in UsesNetloc && (path == "" || path[0] == '/') then "//" + path
      else path;
    var u2 := if scheme != "" then scheme + ":" + u1 else u1;
    var u3 := if query != "" then u2 + "?" + query else u2;
    if fragment != "" then u3 + "#" + fragment else u3
  }

  /** `urlunparse`. */
  function Unparse(p: ParseResult): string {
    Unsplit(p.scheme, p.netloc, if p.params != "" then p.path + ";" + p.params else p.path, p.query, p.fragment)
  }

  // ---------------------------------------------------------------------------
  // urljoin

  /** The `..` / `.` resolution loop of `urljoin`, over the segments still to visit. */
  function Resolve(acc: seq<string>, segments: seq<string>): seq<string>
    decreases |segments|
  {
    if segments == [] then acc
    else
      var s := segments[0];
      var next := if s == ".." then (if acc == [] then [] else acc[..|acc| - 1])
                  else if s == "." then acc
                  else acc + [s];
      Resolve(next, segments[1..])
  }

  /** `filter(None, parts)`: the non-empty strings of `parts`, in order. */
  function NonEmpty(parts: seq<string>): (r: seq<string>)
    ensures forall k :: 0 <= k < |r| ==> r[k] != ""
    decreases |parts|
  {
    if parts == [] then [] else (if parts[0] != "" then [parts[0]] else []) + NonEmpty(parts[1..])
  }

  /** The segments `urljoin` resolves: those of an absolute path as they are, or the
      directory of the base path followed by the reference, with empty inner segments
      dropped. */
  function MergeSegments(basePath: string, path: string): (r: seq<string>)
    ensures |r| >= 1
  {
    var baseParts0 := SplitOn(basePath, '/');
    var baseParts := if baseParts0[|baseParts0| - 1] != "" then baseParts0[..|baseParts0| - 1] else baseParts0;
    if StartsWith(path, "/") then SplitOn(path, '/')
    else
      var all := baseParts + SplitOn(path, '/');
      if |all| >= 2 then [all[0]] + NonEmpty(all[1..|all| - 1]) + [all[|all| - 1]] else all
  }

  /** `urljoin(base, url)`. */
  function Join(base: string, url: string): string {
    if base == "" then url
    else if url == "" then base
    else
      var b := Parse(base, "");
      var u := Parse(url, b.scheme);
      if u.scheme != b.scheme || u.scheme !in UsesRelative then url
      else if u.scheme in UsesNetloc && u.netloc != "" then Unparse(u)
      else
        var netloc := if u.scheme in UsesNetloc then b.netloc else u.netloc;
        if u.path == "" && u.params == "" then
          Unparse(ParseResult(u.scheme, netloc, b.path, b.params, if u.query == "" then b.query else u.query, u.fragment))
        else
          var segments := MergeSegments(b.path, u.path);
          var last := segments[|segments| - 1];
          var resolved := Resolve([], segments) + (if last == "." || last == ".." then [""] else []);
          var joined := JoinWith(resolved, '/');
          Unparse(ParseResult(u.scheme, netloc, if joined == "" then "/" else joined, u.params, u.query, u.fragment))
  }

  // ---------------------------------------------------------------------------
  // quote

  /** `urllib.parse._ALWAYS_SAFE`: ASCII letters, digits and `_.-~`. */
  predicate IsAlwaysSafe(c: char) { IsAsciiAlnum(c) || c == '_' || c == '.' || c == '-' || c == '~' }

  /** A character `quote(…, safe)` copies unchanged. */
  predicate IsSafeIn(c: char, safe: string) { c < '\U{80}' && (IsAlwaysSafe(c) || c in safe) }

  /** The extra safe characters `normalize_url` passes for the path and the query. */
  const PathSafe: string := "/%()_-.,~"
  const QuerySafe: string := "=&%"

  /** The UTF-8 encoding of one character. */
  function Utf8(c: char): (r: seq<nat>)
    ensures 1 <= |r| <= 4
    ensures forall k :: 0 <= k < |r| ==> r[k] < 256
    ensures |r| == 1 <==> c < '\U{80}'
    ensures c < '\U{80}' ==> r[0] == c as nat
  {
    var n := c as nat;
    if n < 0x80 then [n]
    else if n < 0x800 then [0xC0 + n / 64, 0x80 + n % 64]
    else if n < 0x10000 then [0xE0 + n / 4096, 0x80 + (n / 64) % 64, 0x80 + n % 64]
    else [0xF0 + n / 262144, 0x80 + (n / 4096) % 64, 0x80 + (n / 64) % 64, 0x80 + n % 64]
  }

  function HexDigit(d: nat): (c: char)
    requires d < 16
    ensures IsDigit(c) || ('A' <= c <= 'F')
  {
    if d < 10 then DigitChar(d) else ('A' as int + d - 10) as char
  }

  /** `%XX` with upper-case hexadecimal digits for each byte. */
  function Escape(bytes: seq<nat>): (r: string)
    requires forall k :: 0 <= k < |bytes| ==> bytes[k] < 256
    ensures |r| == 3 * |bytes|
    ensures forall k :: 0 <= k < |r| ==> r[k] == '%' || IsAlwaysSafe(r[k])
    decreases |bytes|
  {
    if bytes == [] then []
    else ['%', HexDigit(bytes[0] / 16), HexDigit(bytes[0] % 16)] + Escape(bytes[1..])
  }

  function QuoteChar(c: char, safe: string): (r: string)
    ensures |r| >= 1
    ensures forall k :: 0 <= k < |r| ==> r[k] == '%' || IsSafeIn(r[k], safe)
  {
    if IsSafeIn(c, safe) then [c] else Escape(Utf8(c))
  }

  /** `quote(s, safe)`: every character outside the safe set becomes the `%XX` escapes
      of its UTF-8 bytes. */
  function Quote(s: string, safe: string): (r: string)
    ensures forall k :: 0 <= k < |r| ==> r[k] == '%' || IsSafeIn(r[k], safe)
    ensures |r| >= |s|
    ensures r == [] <==> s == []
    decreases |s|
  {
    if s == [] then [] else QuoteChar(s[0], safe) + Quote(s[1..], safe)
  }

  /** A string made of safe characters is left unchanged. */
  lemma {:induction false} QuoteKeepsSafe(s: string, safe: string)
    requires forall k :: 0 <= k < |s| ==> IsSafeIn(s[k], safe)
    ensures Quote(s, safe) == s
    decreases |s|
  {
    if s != [] {
      QuoteKeepsSafe(s[1..], safe);
    }
  }

  /** With `%` among the safe characters, quoting twice equals quoting once. */
  lemma QuoteIdempotent(s: string, safe: string)
    requires '%' in safe
    ensures Quote(Quote(s, safe), safe) == Quote(s, safe)
  {
    QuoteKeepsSafe(Quote(s, safe), safe);
  }

  /** Quoting distributes over concatenation. */
  lemma {:induction false} QuoteAppend(a: string, b: string, safe: string)
    ensures Quote(a + b, safe) == Quote(a, safe) + Quote(b, safe)
    decreases |a|
  {
    if a == [] {
      assert a + b == b;
    } else {
      assert (a + b)[0] == a[0] && (a + b)[1..] == a[1..] + b;
      QuoteAppend(a[1..], b, safe);
    }
  }

  // ---------------------------------------------------------------------------
  // normalize_url / get_page_base

  /** The URL `normalize_url` splits (run.py:113-117, scraper.py:81-85): stripped,
      `https:` put in front of `//`, and a `/`-prefixed reference joined with the page base. */
  function Absolutized(url: string, pageBase: string): string {
    var u1 := Strip(url);
    var u2 := if StartsWith(u1, "//") then "https:" + u1 else u1;
    if StartsWith(u2, "/") then Join(pageBase, u2) else u2
  }

  /** A character no string that satisfies `p` throughout contains. */
  lemma NotInAll(s: string, p: char -> bool, c: char)
    requires All(s, p) && !p(c)
    ensures c !in s
  {
  }

  /** `quote` produces only safe characters and `%`. */
  lemma NotInQuote(s: string, safe: string, c: char)
    requires c != '%' && !IsSafeIn(c, safe)
    ensures c !in Quote(s, safe)
  {
  }

  /** The last step of `normalize_url`: scheme, `://`, network location, the quoted
      path, and `?` with the quoted query when that is not empty. */
  function Encode(p: SplitResult): (r: string)
    requires All(p.scheme, IsLowerSchemeChar)
    requires All(p.netloc, IsNetlocChar)
    ensures |r| >= 3
    ensures '#' !in r
    ensures '?' in r <==> p.query != ""
  {
    var path := Quote(p.path, PathSafe);
    var query := Quote(p.query, QuerySafe);
    var head := p.scheme + "://" + p.netloc + path;
    NotInAll(p.scheme, IsLowerSchemeChar, '#');
    NotInAll(p.scheme, IsLowerSchemeChar, '?');
    NotInAll(p.netloc, IsNetlocChar, '#');
    NotInAll(p.netloc, IsNetlocChar, '?');
    NotInQuote(p.path, PathSafe, '#');
    NotInQuote(p.path, PathSafe, '?');
    NotInQuote(p.query, QuerySafe, '#');
    assert '#' !in head && '?' !in head;
    if query != "" then head + "?" + query else head
  }

  /** `normalize_url` (run.py:110-121, scraper.py:78-90). */
  function NormalizeUrl(url: string, pageBase: string): (r: string)
    ensures url == "" ==> r == ""
    ensures url != "" ==> |r| >= 3
    ensures '#' !in r
    ensures url != "" ==> ('?' in r <==> Split(Absolutized(url, pageBase)).query != "")
  {
    if url == "" then "" else Encode(Split(Absolutized(url, pageBase)))
  }

  /** `get_page_base` (run.py:124-126, scraper.py:93-95): scheme and network location. */
  function PageBase(url: string): string {
    Split(url).scheme + "://" + Split(url).netloc
  }

  // ---------------------------------------------------------------------------
  // Properties of normalize_url and get_page_base

  lemma LowerKeepsLower(s: string)
    requires All(s, IsLowerSchemeChar)
    ensures Lower(s) == s
  {
  }

  /** A URL that starts with a visible character and has no tab, CR or LF is read as is. */
  lemma CleanedKeeps(t: string)
    requires t != [] && !IsC0OrSpace(t[0]) && All(t, IsKeptUrlChar)
    ensures Cleaned(t) == t
  {
    assert LeadingCount(t, IsC0OrSpace) == 0;
    FilterKeepsAll(t, IsKeptUrlChar);
  }

  lemma FindNetlocEndAtEnd(s: string, start: nat)
    requires start <= |s| && All(s[start..], IsNetlocChar)
    ensures FindNetlocEnd(s, start) == |s|
    decreases |s| - start
  {
    if start < |s| {
      assert s[start..][0] == s[start];
      assert s[start + 1..] == s[start..][1..];
      FindNetlocEndAtEnd(s, start + 1);
    }
  }

  lemma FindCharAfter(s: string, c: char, k: nat)
    requires k < |s| && s[k] == c && c !in s[..k]
    ensures FindChar(s, c, 0) == k
  {
  }

  /** How `urlsplit` reads a cleaned URL that starts with a well-formed scheme. */
  lemma SchemeOf(u: string, scheme: string, rest: string, defaultScheme: string)
    requires u == scheme + ":" + rest && All(u, IsKeptUrlChar)
    requires scheme != [] && IsAsciiLower(scheme[0]) && All(scheme, IsLowerSchemeChar)
    ensures SchemeAndRest(u, defaultScheme) == (scheme, rest)
  {
    NotInAll(scheme, IsLowerSchemeChar, ':');
    assert u[..|scheme|] == scheme;
    FindCharAfter(u, ':', |scheme|);
    assert HasScheme(u) by {
      assert forall j :: 0 <= j < |scheme| ==> IsSchemeChar(u[..|scheme|][j]);
    }
    LowerKeepsLower(scheme);
    assert u[|scheme| + 1..] == rest;
  }

  /** How `urlsplit` reads what follows `//`. */
  lemma NetlocOf(rest: string, netloc: string, tail: string)
    requires rest == "//" + netloc + tail && All(rest, IsKeptUrlChar)
    requires All(netloc, IsNetlocChar) && (tail == [] || IsNetlocEnd(tail[0]))
    ensures NetlocAndRest(rest) == (netloc, tail)
  {
    var d := FindNetlocEnd(rest, 2);
    assert forall j :: 2 <= j < 2 + |netloc| ==> rest[j] == netloc[j - 2];
    assert d == 2 + |netloc| by {
      if tail != [] {
        assert rest[2 + |netloc|] == tail[0];
      }
    }
    assert rest[2..d] == netloc && rest[d..] == tail;
  }

  lemma BaseClean(scheme: string, netloc: string)
    requires All(scheme, IsKeptUrlChar) && All(netloc, IsKeptUrlChar)
    ensures All(scheme + "://" + netloc, IsKeptUrlChar)
  {
    var t := scheme + "://" + netloc;
    forall j | 0 <= j < |t| ensures IsKeptUrlChar(t[j]) {
      if j < |scheme| { assert t[j] == scheme[j]; }
      else if j >= |scheme| + 3 { assert t[j] == netloc[j - |scheme| - 3]; }
    }
  }

  /** What `urlsplit` makes of a cleaned URL, given its scheme and network location. */
  lemma SplitFromParts(url: string, scheme: string, rest: string, netloc: string, tail: string)
    requires SchemeAndRest(Cleaned(url), "") == (scheme, rest)
    requires All(rest, IsKeptUrlChar) && NetlocAndRest(rest) == (netloc, tail)
    ensures Split(url).scheme == scheme && Split(url).netloc == netloc
    ensures tail == "" ==> Split(url) == SplitResult(scheme, netloc, "", "", "")
  {
    assert Trim("", IsC0OrSpace) == "";
  }

  /** `scheme://netloc` splits into that scheme and network location. */
  lemma BaseSplit(scheme: string, netloc: string)
    requires scheme != [] && IsAsciiLower(scheme[0]) && All(scheme, IsLowerSchemeChar)
    requires All(scheme, IsKeptUrlChar) && All(netloc, IsKeptUrlChar) && All(netloc, IsNetlocChar)
    ensures Split(scheme + "://" + netloc) == SplitResult(scheme, netloc, "", "", "")
  {
    var t := scheme + "://" + netloc;
    var rest := "//" + netloc + "";
    assert t == scheme + ":" + rest;
    BaseClean(scheme, netloc);
    CleanedKeeps(t);
    SchemeOf(t, scheme, rest, "");
    SliceAll(t, |scheme| + 1, |t|, IsKeptUrlChar);
    assert t[|scheme| + 1..] == rest;
    NetlocOf(rest, netloc, "");
    SplitFromParts(t, scheme, rest, netloc, "");
  }

  /** Splitting the page base gives the page's scheme and network location back, so
      those are what `urljoin` sees. */
  lemma PageBaseSplit(url: string)
    requires Split(url).scheme != ""
    ensures Split(PageBase(url)) == SplitResult(Split(url).scheme, Split(url).netloc, "", "", "")
  {
    var p := Split(url);
    BaseSplit(p.scheme, p.netloc);
  }

  /** `https:` put in front of `//...` is read as the `https` scheme. */
  lemma HttpsSplit(u1: string)
    requires StartsWith(u1, "//")
    ensures Split("https:" + u1).scheme == "https"
  {
    var rest := "//" + Filter(u1[2..], IsKeptUrlChar);
    HttpsCleaned(u1);
    SchemeOf(Cleaned("https:" + u1), "https", rest, "");
    SplitFromParts("https:" + u1, "https", rest, NetlocAndRest(rest).0, NetlocAndRest(rest).1);
  }

  /** Cleaning `https:` + `//...` leaves the prefix as it is. */
  lemma HttpsCleaned(u1: string)
    requires StartsWith(u1, "//")
    ensures Cleaned("https:" + u1) == "https" + ":" + ("//" + Filter(u1[2..], IsKeptUrlChar))
  {
    var u2 := "https:" + u1;
    assert u1 == "//" + u1[2..];
    assert u2 == "https:" + ("//" + u1[2..]);
    FilterAppend("https:", u1, IsKeptUrlChar);
    FilterAppend("//", u1[2..], IsKeptUrlChar);
    FilterKeepsAll("https:", IsKeptUrlChar);
    FilterKeepsAll("//", IsKeptUrlChar);
    assert LeadingCount(u2, IsC0OrSpace) == 0;
  }

  lemma EncodeStart(p: SplitResult)
    requires All(p.scheme, IsLowerSchemeChar) && All(p.netloc, IsNetlocChar)
    ensures StartsWith(Encode(p), p.scheme + "://" + p.netloc)
  {
  }

  lemma AbsolutizedProtocolRelative(url: string, pageBase: string)
    requires StartsWith(Strip(url), "//")
    ensures Absolutized(url, pageBase) == "https:" + Strip(url)
  {
    assert !StartsWith("https:" + Strip(url), "/");
  }

  /** A protocol-relative reference (`//host/...`) comes out with the `https` scheme. */
  lemma HttpsPrefix(s: string, scheme: string, netloc: string)
    requires scheme == "https" && StartsWith(s, scheme + "://" + netloc)
    ensures StartsWith(s, "https://")
  {
    assert s[..8] == (scheme + "://" + netloc)[..8];
  }

  /** A proof step, not a specification: `NormalizeUrl`'s body unfolded for a `//` reference.
      `NormalizeProtocolRelative` and `NormalizeProtocolRelativeParts` state what it gives. */
  lemma NormalizeIsEncode(url: string, pageBase: string)
    requires StartsWith(Strip(url), "//")
    ensures NormalizeUrl(url, pageBase) == Encode(Split("https:" + Strip(url)))
  {
    assert |url| >= 2;
    AbsolutizedProtocolRelative(url, pageBase);
  }

  // ---------------------------------------------------------------------------
  // Reading a URL back from its parts

  /** What follows the path of a URL: `?query` when there is a query, then `#fragment`
      when there is a fragment. */
  function Tail(query: Option<string>, fragment: Option<string>): string {
    Marked('?', query) + Marked('#', fragment)
  }

  /** An optional part with the character that introduces it, or nothing. */
  function Marked(c: char, part: Option<string>): string {
    if part.Some? then [c] + part.value else ""
  }

  /** Cutting at the introducing character recovers the optional part. */
  lemma CutMarked(x: string, c: char, part: Option<string>)
    requires c !in x
    ensures CutAt(x + Marked(c, part), c) == (x, OrEmpty(part))
  {
    if part.Some? {
      assert x + Marked(c, part) == x + [c] + part.value;
      CutAtFound(x, c, part.value);
    } else {
      assert x + Marked(c, part) == x;
      CutAtAbsent(x, c);
    }
  }

  /** The component `urlsplit` reports for an optional part: its text, or `""`. */
  function OrEmpty(o: Option<string>): string {
    if o.Some? then o.value else ""
  }

  lemma CutAtFound(x: string, c: char, y: string)
    requires c !in x
    ensures CutAt(x + [c] + y, c) == (x, y)
  {
    var s := x + [c] + y;
    assert s[|x|] == c && s[..|x|] == x && s[|x| + 1..] == y;
    FindCharAfter(s, c, |x|);
  }

  lemma CutAtAbsent(x: string, c: char)
    requires c !in x
    ensures CutAt(x, c) == (x, "")
  {
    assert FindChar(x, c, 0) == |x|;
    assert x[..|x|] == x;
  }

  /** `urlsplit` takes apart a URL written as `scheme://netloc path ?query #fragment`
      into exactly those pieces, for pieces that hold none of the separators that end
      them. */
  lemma SplitRoundTrip(scheme: string, netloc: string, path: string,
                       query: Option<string>, fragment: Option<string>)
    requires scheme != [] && IsAsciiLower(scheme[0]) && All(scheme, IsLowerSchemeChar)
    requires All(netloc, IsNetlocChar)
    requires path == "" || path[0] == '/'
    requires '?' !in path && '#' !in path
    requires query.Some? ==> '#' !in query.value
    requires All(scheme + "://" + netloc + path + Tail(query, fragment), IsKeptUrlChar)
    ensures Split(scheme + "://" + netloc + path + Tail(query, fragment))
         == SplitResult(scheme, netloc, path, OrEmpty(query), OrEmpty(fragment))
  {
    var beforeHash := path + Marked('?', query);
    var tail := beforeHash + Marked('#', fragment);
    assert scheme + "://" + netloc + path + Tail(query, fragment) == scheme + "://" + netloc + tail;
    assert tail == [] || IsNetlocEnd(tail[0]);
    SplitOfTail(scheme, netloc, tail);
    assert '#' !in beforeHash;
    CutMarked(beforeHash, '#', fragment);
    CutMarked(path, '?', query);
  }

  /** `urlsplit` of `scheme://netloc` followed by a tail that starts a path, a query or a
      fragment: the tail is cut at its first `#`, then at its first `?`. */
  lemma SplitOfTail(scheme: string, netloc: string, tail: string)
    requires scheme != [] && IsAsciiLower(scheme[0]) && All(scheme, IsLowerSchemeChar)
    requires All(netloc, IsNetlocChar)
    requires tail == [] || IsNetlocEnd(tail[0])
    requires All(scheme + "://" + netloc + tail, IsKeptUrlChar)
    ensures var fr := CutAt(tail, '#'); var qr := CutAt(fr.0, '?');
      Split(scheme + "://" + netloc + tail) == SplitResult(scheme, netloc, qr.0, qr.1, fr.1)
  {
    var rest := "//" + netloc + tail;
    var u := scheme + "://" + netloc + tail;
    assert u == scheme + ":" + rest;
    CleanedKeeps(u);
    SchemeOf(u, scheme, rest, "");
    SliceAll(u, |scheme| + 1, |u|, IsKeptUrlChar);
    assert u[|scheme| + 1..] == rest;
    NetlocOf(rest, netloc, tail);
    assert Trim("", IsC0OrSpace) == "";
  }

  lemma NormalizeProtocolRelative(url: string, pageBase: string)
    requires StartsWith(Strip(url), "//")
    ensures StartsWith(NormalizeUrl(url, pageBase), "https://")
  {
    var p := Split("https:" + Strip(url));
    NormalizeIsEncode(url, pageBase);
    HttpsSplit(Strip(url));
    EncodeStart(p);
    HttpsPrefix(Encode(p), p.scheme, p.netloc);
  }
  // ---------------------------------------------------------------------------
  // normalize_url from the parts of its input

  /** A protocol-relative reference `//host path ?query #fragment` comes out as
      `https://host`, the quoted path and, when the query is not empty, `?` and the quoted
      query; the fragment is dropped. */
  lemma NormalizeProtocolRelativeParts(url: string, pageBase: string, host: string, path: string,
                                       query: Option<string>, fragment: Option<string>)
    requires Strip(url) == "//" + host + path + Tail(query, fragment)
    requires All(host, IsNetlocChar)
    requires path == "" || path[0] == '/'
    requires '?' !in path && '#' !in path
    requires query.Some? ==> '#' !in query.value
    requires All(Strip(url), IsKeptUrlChar)
    ensures NormalizeUrl(url, pageBase) ==
      "https://" + host + Quote(path, PathSafe) +
      (if OrEmpty(query) != "" then "?" + Quote(OrEmpty(query), QuerySafe) else "")
  {
    NormalizeIsEncode(url, pageBase);
    EncodeHttps(Strip(url), host, path, query, fragment);
  }

  /** `https:` put in front of `//host path ?query #fragment` is encoded part by part. */
  lemma EncodeHttps(u: string, host: string, path: string, query: Option<string>, fragment: Option<string>)
    requires u == "//" + host + path + Tail(query, fragment)
    requires All(host, IsNetlocChar)
    requires path == "" || path[0] == '/'
    requires '?' !in path && '#' !in path
    requires query.Some? ==> '#' !in query.value
    requires All(u, IsKeptUrlChar)
    ensures Encode(Split("https:" + u)) ==
      "https://" + host + Quote(path, PathSafe) +
      (if OrEmpty(query) != "" then "?" + Quote(OrEmpty(query), QuerySafe) else "")
  {
    var tail := Tail(query, fragment);
    HttpsJoin(host, path, tail);
    HttpsSchemeClean();
    PrefixClean("https:", u);
    EncodeRoundTrip("https", host, path, query, fragment);
    HttpsLiteral();
  }

  /** `https:` followed by `//host path tail` is `https`, `://` and the parts. */
  lemma HttpsJoin(host: string, path: string, tail: string)
    ensures "https:" + ("//" + host + path + tail) == "https" + "://" + host + path + tail
  {
    assert "https:" + "//" == "https" + "://";
  }

  lemma HttpsSchemeClean()
    ensures All("https:", IsKeptUrlChar)
    ensures "https" != [] && IsAsciiLower("https"[0]) && All("https", IsLowerSchemeChar)
  {
  }

  lemma HttpsLiteral()
    ensures "https" + "://" == "https://"
  {
  }

  /** `normalize_url`'s encoding of `scheme://netloc path ?query #fragment`: the quoted
      path and, when the query is not empty, `?` and the quoted query. */
  lemma EncodeRoundTrip(scheme: string, netloc: string, path: string,
                        query: Option<string>, fragment: Option<string>)
    requires scheme != [] && IsAsciiLower(scheme[0]) && All(scheme, IsLowerSchemeChar)
    requires All(netloc, IsNetlocChar)
    requires path == "" || path[0] == '/'
    requires '?' !in path && '#' !in path
    requires query.Some? ==> '#' !in query.value
    requires All(scheme + "://" + netloc + path + Tail(query, fragment), IsKeptUrlChar)
    ensures Encode(Split(scheme + "://" + netloc + path + Tail(query, fragment))) ==
      scheme + "://" + netloc + Quote(path, PathSafe) +
      (if OrEmpty(query) != "" then "?" + Quote(OrEmpty(query), QuerySafe) else "")
  {
    SplitRoundTrip(scheme, netloc, path, query, fragment);
    EncodeParts(SplitResult(scheme, netloc, path, OrEmpty(query), OrEmpty(fragment)));
  }

  /** `Encode` written out: `scheme://netloc`, the quoted path, and `?` with the quoted
      query when the query is not empty. */
  lemma EncodeParts(p: SplitResult)
    requires All(p.scheme, IsLowerSchemeChar) && All(p.netloc, IsNetlocChar)
    ensures Encode(p) == p.scheme + "://" + p.netloc + Quote(p.path, PathSafe) +
      (if p.query != "" then "?" + Quote(p.query, QuerySafe) else "")
  {
  }

  /** `Resolve` leaves a path without `.` and `..` segments as it is. */
  lemma {:induction false} ResolvePlain(acc: seq<string>, segments: seq<string>)
    requires forall k :: 0 <= k < |segments| ==> segments[k] != "." && segments[k] != ".."
    ensures Resolve(acc, segments) == acc + segments
    decreases |segments|
  {
    if segments != [] {
      ResolvePlain(acc + [segments[0]], segments[1..]);
      assert acc + [segments[0]] + segments[1..] == acc + segments;
    }
  }

  /** Every scheme `urljoin` resolves relative references for also has a network location. */
  lemma RelativeUsesNetloc(scheme: string)
    requires scheme in UsesRelative
    ensures scheme in UsesNetloc
  {
  }

  /** `urlsplit` reads a root-relative path, with the page's scheme as default, as a path
      and nothing else. */
  lemma ParseRootRelative(u: string, scheme: string)
    requires StartsWith(u, "/") && !StartsWith(u, "//")
    requires '?' !in u && '#' !in u && ';' !in u && All(u, IsKeptUrlChar)
    requires scheme != [] && IsAsciiLower(scheme[0]) && All(scheme, IsLowerSchemeChar)
    ensures Parse(u, scheme) == ParseResult(scheme, "", u, "", "", "")
  {
    CleanedKeeps(u);
    assert !HasScheme(u);
    assert !IsC0OrSpace(scheme[|scheme| - 1]);
    TrimKept(scheme, IsC0OrSpace);
    assert All(scheme, IsKeptUrlChar);
    FilterKeepsAll(scheme, IsKeptUrlChar);
    assert SchemeAndRest(u, scheme) == (scheme, u);
    assert NetlocAndRest(u) == ("", u);
    CutAtAbsent(u, '#');
    CutAtAbsent(u, '?');
  }

  /** `urljoin(scheme://netloc, u)` for a root-relative `u` without dot segments is the
      page's scheme and network location followed by `u`. */
  lemma JoinRootRelative(scheme: string, netloc: string, u: string)
    requires scheme != [] && IsAsciiLower(scheme[0]) && All(scheme, IsLowerSchemeChar)
    requires scheme in UsesRelative
    requires All(netloc, IsNetlocChar) && All(netloc, IsKeptUrlChar)
    requires StartsWith(u, "/") && !StartsWith(u, "//")
    requires '?' !in u && '#' !in u && ';' !in u && All(u, IsKeptUrlChar)
    requires forall k :: 0 <= k < |SplitOn(u, '/')| ==> SplitOn(u, '/')[k] != "." && SplitOn(u, '/')[k] != ".."
    ensures Join(scheme + "://" + netloc, u) == scheme + "://" + netloc + u
  {
    var base := scheme + "://" + netloc;
    assert All(scheme, IsKeptUrlChar);
    BaseSplit(scheme, netloc);
    var b := Parse(base, "");
    assert b == ParseResult(scheme, netloc, "", "", "", "");
    ParseRootRelative(u, scheme);
    RelativeUsesNetloc(scheme);
    ResolvedRooted(u);
    JoinParsed(base, u, b, Parse(u, b.scheme));
    UnsplitRooted(scheme, netloc, u);
  }

  /** The segments of a root-relative path without dot segments resolve to the path. */
  lemma ResolvedRooted(u: string)
    requires StartsWith(u, "/")
    requires forall k :: 0 <= k < |SplitOn(u, '/')| ==> SplitOn(u, '/')[k] != "." && SplitOn(u, '/')[k] != ".."
    ensures var segments := MergeSegments("", u);
      var last := segments[|segments| - 1];
      last != "." && last != ".." && JoinWith(Resolve([], segments), '/') == u
  {
    var segments := SplitOn(u, '/');
    assert MergeSegments("", u) == segments;
    ResolvePlain([], segments);
    assert [] + segments == segments;
    JoinSplitOn(u, '/');
  }

  /** `urljoin` of a base with no path and a reference that is only a path from the root,
      in the same scheme that uses a network location: the base's network location and
      the resolved path. */
  lemma JoinParsed(base: string, u: string, b: ParseResult, pu: ParseResult)
    requires base != "" && u != ""
    requires b == Parse(base, "") && pu == Parse(u, b.scheme)
    requires b.path == "" && pu.scheme == b.scheme && pu.scheme in UsesRelative && pu.scheme in UsesNetloc
    requires pu.netloc == "" && pu.path == u && pu.params == "" && pu.query == "" && pu.fragment == ""
    requires var segments := MergeSegments("", u);
      var last := segments[|segments| - 1];
      last != "." && last != ".." && JoinWith(Resolve([], segments), '/') == u
    ensures Join(base, u) == Unparse(ParseResult(b.scheme, b.netloc, u, "", "", ""))
  {
    assert !(pu.scheme != b.scheme || pu.scheme !in UsesRelative);
    assert !(pu.scheme in UsesNetloc && pu.netloc != "");
    assert !(pu.path == "" && pu.params == "");
    var segments := MergeSegments(b.path, pu.path);
    var last := segments[|segments| - 1];
    var resolved := Resolve([], segments) + (if last == "." || last == ".." then [""] else []);
    assert resolved == Resolve([], segments);
    var joined := JoinWith(resolved, '/');
    assert joined == u != "";
  }

  /** `urlunsplit` of a scheme that uses a network location and a path from the root. */
  lemma UnsplitRooted(scheme: string, netloc: string, u: string)
    requires scheme != "" && scheme in UsesNetloc
    requires StartsWith(u, "/") && !StartsWith(u, "//")
    ensures Unsplit(scheme, netloc, u, "", "") == scheme + "://" + netloc + u
  {
    var u1 := "//" + netloc + u;
    assert u != [] && u[0] == '/';
    if netloc == "" {
      assert u1 == "//" + u;
    }
    assert Unsplit(scheme, netloc, u, "", "") == scheme + ":" + u1;
    ColonSlashes(scheme, netloc, u);
  }

  lemma ColonSlashes(scheme: string, netloc: string, u: string)
    ensures scheme + ":" + ("//" + netloc + u) == scheme + "://" + netloc + u
  {
    assert ":" + "//" == "://";
  }

  /** A root-relative reference without a query, a fragment, `;params` or dot segments is
      resolved against the page base: the page's scheme and network location, then the
      quoted path. */
  lemma NormalizeRootRelative(url: string, page: string)
    requires Split(page).scheme in UsesRelative && Split(page).scheme != ""
    requires StartsWith(Strip(url), "/") && !StartsWith(Strip(url), "//")
    requires '?' !in Strip(url) && '#' !in Strip(url) && ';' !in Strip(url)
    requires All(Strip(url), IsKeptUrlChar)
    requires forall k :: 0 <= k < |SplitOn(Strip(url), '/')| ==>
      SplitOn(Strip(url), '/')[k] != "." && SplitOn(Strip(url), '/')[k] != ".."
    ensures NormalizeUrl(url, PageBase(page)) ==
      Split(page).scheme + "://" + Split(page).netloc + Quote(Strip(url), PathSafe)
  {
    var u := Strip(url);
    assert url != "";
    assert u[..1] == "/";
    assert !StartsWith(u, "//");
    assert Absolutized(url, PageBase(page)) == Join(PageBase(page), u);
    EncodeRootRelative(u, page);
  }

  /** The root-relative case of `normalize_url` after stripping. */
  lemma EncodeRootRelative(u: string, page: string)
    requires Split(page).scheme in UsesRelative && Split(page).scheme != ""
    requires StartsWith(u, "/") && !StartsWith(u, "//")
    requires '?' !in u && '#' !in u && ';' !in u
    requires All(u, IsKeptUrlChar)
    requires forall k :: 0 <= k < |SplitOn(u, '/')| ==> SplitOn(u, '/')[k] != "." && SplitOn(u, '/')[k] != ".."
    ensures Encode(Split(Join(PageBase(page), u))) ==
      Split(page).scheme + "://" + Split(page).netloc + Quote(u, PathSafe)
  {
    var p := Split(page);
    JoinRootRelative(p.scheme, p.netloc, u);
    assert PageBase(page) == p.scheme + "://" + p.netloc;
    StartsWithHead(u, '/');
    EncodeRooted(p.scheme, p.netloc, u);
  }

  /** `scheme://netloc` followed by a path from the root is encoded as the quoted path. */
  lemma EncodeRooted(scheme: string, netloc: string, u: string)
    requires scheme != [] && IsAsciiLower(scheme[0]) && All(scheme, IsLowerSchemeChar)
    requires All(netloc, IsNetlocChar) && All(netloc, IsKeptUrlChar)
    requires u != [] && u[0] == '/' && '?' !in u && '#' !in u && All(u, IsKeptUrlChar)
    ensures Encode(Split(scheme + "://" + netloc + u)) == scheme + "://" + netloc + Quote(u, PathSafe)
  {
    SplitRooted(scheme, netloc, u);
    EncodeParts(SplitResult(scheme, netloc, u, "", ""));
  }

  lemma SplitRooted(scheme: string, netloc: string, u: string)
    requires scheme != [] && IsAsciiLower(scheme[0]) && All(scheme, IsLowerSchemeChar)
    requires All(netloc, IsNetlocChar) && All(netloc, IsKeptUrlChar)
    requires u != [] && u[0] == '/' && '?' !in u && '#' !in u && All(u, IsKeptUrlChar)
    ensures Split(scheme + "://" + netloc + u) == SplitResult(scheme, netloc, u, "", "")
  {
    LowerSchemeClean(scheme);
    BaseClean(scheme, netloc);
    PrefixClean(scheme + "://" + netloc, u);
    SplitOfTail(scheme, netloc, u);
    CutAtAbsent(u, '#');
    CutAtAbsent(u, '?');
  }

  lemma LowerSchemeClean(scheme: string)
    requires All(scheme, IsLowerSchemeChar)
    ensures All(scheme, IsKeptUrlChar)
  {
    forall i | 0 <= i < |scheme| ensures IsKeptUrlChar(scheme[i]) {
      assert IsLowerSchemeChar(scheme[i]);
    }
  }

  lemma StartsWithHead(s: string, c: char)
    requires StartsWith(s, [c])
    ensures s != [] && s[0] == c
  {
    assert s[..1][0] == s[0];
  }

  /** Two strings without tab, CR or LF make one. */
  lemma PrefixClean(a: string, b: string)
    requires All(a, IsKeptUrlChar) && All(b, IsKeptUrlChar)
    ensures All(a + b, IsKeptUrlChar)
  {
    forall j | 0 <= j < |a + b| ensures IsKeptUrlChar((a + b)[j]) {
      if j >= |a| { assert (a + b)[j] == b[j - |a|]; }
    }
  }

  // ---------------------------------------------------------------------------
  // Normalizing a normalized URL

  /** A URL `normalize_url` wrote with a scheme and a path from the root comes back
      unchanged when normalized again. */
  lemma NormalizeEncoded(p: SplitResult, pageBase: string)
    requires p.scheme != [] && IsAsciiLower(p.scheme[0]) && All(p.scheme, IsLowerSchemeChar)
    requires All(p.netloc, IsNetlocChar) && All(p.netloc, IsKeptUrlChar)
    requires p.path == "" || p.path[0] == '/'
    requires p.netloc == "" || p.path != "" || p.query != "" || !IsSpace(p.netloc[|p.netloc| - 1])
    ensures NormalizeUrl(Encode(p), pageBase) == Encode(p)
  {
    var q := SplitResult(p.scheme, p.netloc, Quote(p.path, PathSafe), Quote(p.query, QuerySafe), "");
    SplitEncoded(p);
    NormalizeSchemed(Encode(p), pageBase);
    EncodeParts(p);
    EncodeParts(q);
    QuoteIdempotent(p.path, PathSafe);
    QuoteIdempotent(p.query, QuerySafe);
  }

  /** A URL `normalize_url` wrote with a scheme and a path from the root is its own strip
      and splits into its scheme, its network location and its quoted path and query. */
  lemma SplitEncoded(p: SplitResult)
    requires p.scheme != [] && IsAsciiLower(p.scheme[0]) && All(p.scheme, IsLowerSchemeChar)
    requires All(p.netloc, IsNetlocChar) && All(p.netloc, IsKeptUrlChar)
    requires p.path == "" || p.path[0] == '/'
    requires p.netloc == "" || p.path != "" || p.query != "" || !IsSpace(p.netloc[|p.netloc| - 1])
    ensures Encode(p) != "" && Strip(Encode(p)) == Encode(p) && Encode(p)[0] != '/'
    ensures Split(Encode(p)) == SplitResult(p.scheme, p.netloc, Quote(p.path, PathSafe), Quote(p.query, QuerySafe), "")
  {
    EncodeParts(p);
    QuotedPath(p.path);
    QuotedQuery(p.query);
    SplitQueried(p.scheme, p.netloc, Quote(p.path, PathSafe), Quote(p.query, QuerySafe));
  }

  /** `SplitWritten` with the query given as a string that is empty when there is none. */
  lemma SplitQueried(scheme: string, netloc: string, path: string, query: string)
    requires scheme != [] && IsAsciiLower(scheme[0]) && All(scheme, IsLowerSchemeChar)
    requires All(netloc, IsNetlocChar) && All(netloc, IsKeptUrlChar)
    requires path == "" || path[0] == '/'
    requires '?' !in path && '#' !in path && All(path, IsKeptUrlChar)
    requires forall k :: 0 <= k < |path| ==> !IsSpace(path[k])
    requires '#' !in query && All(query, IsKeptUrlChar) && (query != "" ==> !IsSpace(query[|query| - 1]))
    requires netloc == "" || path != "" || query != "" || !IsSpace(netloc[|netloc| - 1])
    ensures var r := scheme + "://" + netloc + path + (if query != "" then "?" + query else "");
      r != "" && Strip(r) == r && r[0] != '/' && Split(r) == SplitResult(scheme, netloc, path, query, "")
  {
    var opt := if query != "" then Some(query) else None;
    assert Tail(opt, None) == (if query != "" then "?" + query else "");
    SplitWritten(scheme, netloc, path, opt);
  }

  /** `scheme://netloc`, a visible path from the root and an optional visible query are
      their own strip and split back into those pieces. */
  lemma SplitWritten(scheme: string, netloc: string, path: string, query: Option<string>)
    requires scheme != [] && IsAsciiLower(scheme[0]) && All(scheme, IsLowerSchemeChar)
    requires All(netloc, IsNetlocChar) && All(netloc, IsKeptUrlChar)
    requires path == "" || path[0] == '/'
    requires '?' !in path && '#' !in path && All(path, IsKeptUrlChar)
    requires forall k :: 0 <= k < |path| ==> !IsSpace(path[k])
    requires query.Some? ==> query.value != "" && '#' !in query.value && All(query.value, IsKeptUrlChar) &&
                             !IsSpace(query.value[|query.value| - 1])
    requires netloc == "" || path != "" || query.Some? || !IsSpace(netloc[|netloc| - 1])
    ensures var r := scheme + "://" + netloc + path + Tail(query, None);
      r != "" && Strip(r) == r && r[0] != '/' && Split(r) == SplitResult(scheme, netloc, path, OrEmpty(query), "")
  {
    var tail := Tail(query, None);
    if query.Some? {
      var q := query.value;
      assert tail == "?" + q;
      assert tail[|tail| - 1] == q[|q| - 1];
      PrefixClean("?", q);
    } else {
      assert tail == "";
    }
    EncodedStripped(scheme, netloc, path, tail);
    EncodedClean(scheme, netloc, path, tail);
    SplitRoundTrip(scheme, netloc, path, query, None);
  }

  /** A quoted path holds no `?`, `#`, blank, tab or line break, and a path from the root
      stays one. */
  lemma QuotedPath(path: string)
    ensures var qp := Quote(path, PathSafe);
      '?' !in qp && '#' !in qp && All(qp, IsKeptUrlChar) && (forall k :: 0 <= k < |qp| ==> !IsSpace(qp[k])) &&
      ((path == "" || path[0] == '/') ==> qp == "" || qp[0] == '/')
  {
    PathSafeVisible();
    QuoteVisible(path, PathSafe);
    NotInQuote(path, PathSafe, '?');
    NotInQuote(path, PathSafe, '#');
    if path != "" && path[0] == '/' {
      QuoteRooted(path);
    }
  }

  /** A quoted query holds no `#`, blank, tab or line break. */
  lemma QuotedQuery(query: string)
    ensures var qq := Quote(query, QuerySafe);
      '#' !in qq && All(qq, IsKeptUrlChar) && (qq != "" ==> !IsSpace(qq[|qq| - 1]))
  {
    QuerySafeVisible();
    QuoteVisible(query, QuerySafe);
    NotInQuote(query, QuerySafe, '#');
  }

  lemma PathSafeVisible()
    ensures forall c :: c in PathSafe ==> IsKeptUrlChar(c) && !IsSpace(c)
  {
  }

  lemma QuerySafeVisible()
    ensures forall c :: c in QuerySafe ==> IsKeptUrlChar(c) && !IsSpace(c)
  {
  }

  /** A stripped URL that does not start with `/` is split and encoded as it is. */
  lemma NormalizeSchemed(r: string, pageBase: string)
    requires r != "" && Strip(r) == r && r[0] != '/'
    ensures NormalizeUrl(r, pageBase) == Encode(Split(r))
  {
    assert !StartsWith(r, "//") && !StartsWith(r, "/");
    assert Absolutized(r, pageBase) == r;
  }

  /** `Encode` with the query written as an optional part. */
  lemma EncodedAsTail(p: SplitResult, query: Option<string>)
    requires All(p.scheme, IsLowerSchemeChar) && All(p.netloc, IsNetlocChar)
    requires query == if p.query != "" then Some(Quote(p.query, QuerySafe)) else None
    ensures Encode(p) == p.scheme + "://" + p.netloc + Quote(p.path, PathSafe) + Tail(query, None)
    ensures (OrEmpty(query) != "") == (p.query != "")
  {
    EncodeParts(p);
  }

  /** `quote` with a safe set free of blanks, tabs and line breaks writes none of them. */
  lemma QuoteVisible(s: string, safe: string)
    requires forall c :: c in safe ==> IsKeptUrlChar(c) && !IsSpace(c)
    ensures All(Quote(s, safe), IsKeptUrlChar)
    ensures forall k :: 0 <= k < |Quote(s, safe)| ==> !IsSpace(Quote(s, safe)[k])
  {
    var r := Quote(s, safe);
    forall k | 0 <= k < |r|
      ensures IsKeptUrlChar(r[k]) && !IsSpace(r[k])
    {
      var c := r[k];
      if c != '%' {
        assert IsSafeIn(c, safe);
        if !(c in safe) {
          assert IsAlwaysSafe(c);
        }
      }
    }
  }

  /** A quoted path from the root still starts with `/`. */
  lemma QuoteRooted(path: string)
    requires path == "" || path[0] == '/'
    ensures Quote(path, PathSafe) == "" || Quote(path, PathSafe)[0] == '/'
  {
    if path != "" {
      assert QuoteChar('/', PathSafe) == "/";
    }
  }

  /** `scheme://netloc` followed by visible quoted text is its own strip. */
  lemma EncodedStripped(scheme: string, netloc: string, path: string, tail: string)
    requires scheme != [] && IsAsciiLower(scheme[0])
    requires forall k :: 0 <= k < |path| ==> !IsSpace(path[k])
    requires tail == "" || !IsSpace(tail[|tail| - 1])
    requires netloc == "" || path != "" || tail != "" || !IsSpace(netloc[|netloc| - 1])
    ensures Strip(scheme + "://" + netloc + path + tail) == scheme + "://" + netloc + path + tail
  {
    var r := scheme + "://" + netloc + path + tail;
    assert r[0] == scheme[0];
    if tail != "" {
      assert r[|r| - 1] == tail[|tail| - 1];
    } else if path != "" {
      assert r[|r| - 1] == path[|path| - 1];
    } else if netloc != "" {
      assert r[|r| - 1] == netloc[|netloc| - 1];
    } else {
      assert r[|r| - 1] == '/';
    }
    TrimKept(r, IsSpace);
  }

  /** The pieces of an encoded URL hold no tab, CR or LF. */
  lemma EncodedClean(scheme: string, netloc: string, path: string, tail: string)
    requires All(scheme, IsLowerSchemeChar) && All(netloc, IsKeptUrlChar)
    requires All(path, IsKeptUrlChar) && All(tail, IsKeptUrlChar)
    ensures All(scheme + "://" + netloc + path + tail, IsKeptUrlChar)
  {
    LowerSchemeClean(scheme);
    PrefixClean(scheme, "://");
    PrefixClean(scheme + "://", netloc);
    PrefixClean(scheme + "://" + netloc, path);
    PrefixClean(scheme + "://" + netloc + path, tail);
  }

  /** `normalize_url` is idempotent on a URL whose absolutized form has a scheme and a path
      from the root (and whose network location does not end in a blank that only a dropped
      fragment kept). */
  lemma NormalizeIdempotent(url: string, pageBase: string, pageBase': string)
    requires url != ""
    requires Split(Absolutized(url, pageBase)).scheme != ""
    requires Split(Absolutized(url, pageBase)).path == "" || Split(Absolutized(url, pageBase)).path[0] == '/'
    requires var p := Split(Absolutized(url, pageBase));
      p.netloc == "" || p.path != "" || p.query != "" || !IsSpace(p.netloc[|p.netloc| - 1])
    ensures NormalizeUrl(NormalizeUrl(url, pageBase), pageBase') == NormalizeUrl(url, pageBase)
  {
    var p := Split(Absolutized(url, pageBase));
    assert NormalizeUrl(url, pageBase) == Encode(p);
    NormalizeEncoded(p, pageBase');
  }

  /** The output of a protocol-relative reference normalizes to itself. */
  lemma NormalizeProtocolRelativeIdempotent(url: string, pageBase: string, pageBase': string, host: string,
                                            path: string, query: Option<string>, fragment: Option<string>)
    requires Strip(url) == "//" + host + path + Tail(query, fragment)
    requires All(host, IsNetlocChar)
    requires path == "" || path[0] == '/'
    requires '?' !in path && '#' !in path
    requires query.Some? ==> '#' !in query.value
    requires All(Strip(url), IsKeptUrlChar)
    requires host == "" || path != "" || OrEmpty(query) != "" || !IsSpace(host[|host| - 1])
    ensures NormalizeUrl(NormalizeUrl(url, pageBase), pageBase') == NormalizeUrl(url, pageBase)
  {
    var p := SplitResult("https", host, path, OrEmpty(query), "");
    NormalizeProtocolRelativeParts(url, pageBase, host, path, query, fragment);
    InfixClean("//", host, path, Tail(query, fragment));
    HttpsEncoded(p);
    NormalizeEncoded(p, pageBase');
  }

  /** What lies between two strings in a string without tab, CR or LF has none either. */
  lemma InfixClean(a: string, b: string, c: string, d: string)
    requires All(a + b + c + d, IsKeptUrlChar)
    ensures All(b, IsKeptUrlChar)
  {
    forall k | 0 <= k < |b| ensures IsKeptUrlChar(b[k]) {
      assert b[k] == (a + b + c + d)[|a| + k];
    }
  }

  /** The https form `NormalizeProtocolRelativeParts` states is `Encode` of its parts. */
  lemma HttpsEncoded(p: SplitResult)
    requires p.scheme == "https" && All(p.netloc, IsNetlocChar)
    ensures p.scheme != [] && IsAsciiLower(p.scheme[0]) && All(p.scheme, IsLowerSchemeChar)
    ensures Encode(p) == "https://" + p.netloc + Quote(p.path, PathSafe) +
      (if p.query != "" then "?" + Quote(p.query, QuerySafe) else "")
  {
    HttpsSchemeClean();
    EncodeParts(p);
    HttpsLiteral();
  }

  /** The output of a root-relative reference normalizes to itself. */
  lemma NormalizeRootRelativeIdempotent(url: string, page: string, pageBase': string)
    requires Split(page).scheme in UsesRelative && Split(page).scheme != ""
    requires StartsWith(Strip(url), "/") && !StartsWith(Strip(url), "//")
    requires '?' !in Strip(url) && '#' !in Strip(url) && ';' !in Strip(url)
    requires All(Strip(url), IsKeptUrlChar)
    requires forall k :: 0 <= k < |SplitOn(Strip(url), '/')| ==>
      SplitOn(Strip(url), '/')[k] != "." && SplitOn(Strip(url), '/')[k] != ".."
    ensures NormalizeUrl(NormalizeUrl(url, PageBase(page)), pageBase') == NormalizeUrl(url, PageBase(page))
  {
    var b := Split(page);
    var u := Strip(url);
    var p := SplitResult(b.scheme, b.netloc, u, "", "");
    NormalizeRootRelative(url, page);
    StartsWithHead(u, '/');
    EncodeParts(p);
    NormalizeEncoded(p, pageBase');
  }

  /** `normalize_url` is not idempotent on a relative `src` such as `a.jpg`: it becomes
      `://a.jpg`, which has no scheme and comes back as `://%3A//a.jpg`. */
  lemma NormalizeRelativeNotIdempotent(u: string, pageBase: string)
    requires u != [] && u[0] != '/'
    requires forall k :: 0 <= k < |u| ==> IsSafeIn(u[k], PathSafe)
    ensures NormalizeUrl(u, pageBase) == "://" + u
    ensures NormalizeUrl("://" + u, pageBase) == "://%3A//" + u
    ensures NormalizeUrl(NormalizeUrl(u, pageBase), pageBase) != NormalizeUrl(u, pageBase)
  {
    NormalizeRelativeOnce(u, pageBase);
    NormalizeRelativeTwice(u, pageBase);
    assert |"://" + u| != |"://%3A//" + u|;
  }

  /** The `src` `a.jpg` normalizes to `://a.jpg`, and that to `://%3A//a.jpg`. */
  lemma NormalizeRelativeExample(pageBase: string)
    ensures NormalizeUrl(NormalizeUrl("a.jpg", pageBase), pageBase) == "://%3A//" + "a.jpg" != "://" + "a.jpg"
  {
    var u := "a.jpg";
    assert forall k :: 0 <= k < |u| ==> IsSafeIn(u[k], PathSafe);
    NormalizeRelativeNotIdempotent(u, pageBase);
  }

  /** The characters `quote` keeps in a path are visible and none of `:`, `?` and `#`. */
  lemma PathSafeChars()
    ensures forall c :: IsSafeIn(c, PathSafe) ==>
      IsKeptUrlChar(c) && !IsSpace(c) && !IsC0OrSpace(c) && c != ':' && c != '?' && c != '#'
  {
  }

  lemma NormalizeRelativeOnce(u: string, pageBase: string)
    requires u != [] && u[0] != '/'
    requires forall k :: 0 <= k < |u| ==> IsSafeIn(u[k], PathSafe)
    ensures NormalizeUrl(u, pageBase) == "://" + u
  {
    PathSafeChars();
    NormalizeSchemeless(u, pageBase);
    QuoteKeepsSafe(u, PathSafe);
  }

  lemma NormalizeRelativeTwice(u: string, pageBase: string)
    requires u != [] && u[0] != '/'
    requires forall k :: 0 <= k < |u| ==> IsSafeIn(u[k], PathSafe)
    ensures NormalizeUrl("://" + u, pageBase) == "://%3A//" + u
  {
    var v := "://" + u;
    PathSafeChars();
    assert v[1..] == "//" + u;
    assert v[|v| - 1] == u[|u| - 1];
    assert All(v, IsKeptUrlChar) by {
      forall k | 0 <= k < |v| ensures IsKeptUrlChar(v[k]) {
        if k >= 3 { assert v[k] == u[k - 3]; }
      }
    }
    NormalizeSchemeless(v, pageBase);
    ColonQuoted(u);
  }

  /** `quote` writes the leading `:` of `://u` as `%3A` and keeps the rest. */
  lemma ColonQuoted(u: string)
    requires forall k :: 0 <= k < |u| ==> IsSafeIn(u[k], PathSafe)
    ensures "://" + Quote("://" + u, PathSafe) == "://%3A//" + u
  {
    SlashesSafe(u);
    QuoteKeepsSafe("//" + u, PathSafe);
    ColonEscaped();
    ColonSplit(u);
    QuoteCons(':', "//" + u, PathSafe);
    ColonJoined(u);
  }

  lemma SlashesSafe(u: string)
    requires forall k :: 0 <= k < |u| ==> IsSafeIn(u[k], PathSafe)
    ensures forall k :: 0 <= k < |"//" + u| ==> IsSafeIn(("//" + u)[k], PathSafe)
  {
    var w := "//" + u;
    forall k | 0 <= k < |w| ensures IsSafeIn(w[k], PathSafe) {
      if k >= 2 { assert w[k] == u[k - 2]; }
    }
  }

  lemma ColonSplit(u: string)
    ensures "://" + u == [':'] + ("//" + u)
  {
  }

  /** `quote` works character by character from the front. */
  lemma QuoteCons(c: char, w: string, safe: string)
    ensures Quote([c] + w, safe) == QuoteChar(c, safe) + Quote(w, safe)
  {
    assert ([c] + w)[1..] == w;
  }

  lemma ColonJoined(u: string)
    ensures "://" + ("%3A" + ("//" + u)) == "://%3A//" + u
  {
  }

  lemma ColonEscaped()
    ensures QuoteChar(':', PathSafe) == "%3A"
  {
    assert ':' !in PathSafe;
    assert Utf8(':') == [0x3A];
    assert HexDigit(3) == '3' && HexDigit(10) == 'A';
  }

  /** A stripped URL without a scheme, `//`, `/`, `?` or `#` is encoded as `://` and its
      quoted path. */
  lemma NormalizeSchemeless(u: string, pageBase: string)
    requires u != [] && !IsSpace(u[0]) && !IsSpace(u[|u| - 1]) && !IsC0OrSpace(u[0]) && u[0] != '/'
    requires All(u, IsKeptUrlChar) && ':' !in u[1..] && '?' !in u && '#' !in u
    ensures NormalizeUrl(u, pageBase) == "://" + Quote(u, PathSafe)
  {
    TrimKept(u, IsSpace);
    assert Strip(u) == u;
    NormalizeSchemed(u, pageBase);
    SplitSchemeless(u);
    EncodeBarePath(u);
  }

  /** A bare path is encoded as `://` and the quoted path. */
  lemma EncodeBarePath(u: string)
    ensures Encode(SplitResult("", "", u, "", "")) == "://" + Quote(u, PathSafe)
  {
    EncodeParts(SplitResult("", "", u, "", ""));
  }

  /** `urlsplit` reads a URL without a scheme, `//`, `?` or `#` as a bare path. */
  lemma SplitSchemeless(u: string)
    requires u != [] && !IsC0OrSpace(u[0]) && u[0] != '/'
    requires All(u, IsKeptUrlChar) && ':' !in u[1..] && '?' !in u && '#' !in u
    ensures Split(u) == SplitResult("", "", u, "", "")
  {
    CleanedKeeps(u);
    assert !HasScheme(u) by {
      if u[0] != ':' {
        assert ':' !in u;
      }
    }
    assert Trim("", IsC0OrSpace) == "";
    assert SchemeAndRest(u, "") == ("", u);
    assert NetlocAndRest(u) == ("", u);
  }
}
