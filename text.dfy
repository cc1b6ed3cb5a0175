/** Text helpers shared by the scraper and the uploader: whitespace normalisation
    (`safe_text`), file-system-safe base names (`sanitize_filename`) and CMS slugs
    (`slugify`). */
module Text {
  import opened Basics

  /** Python's `str.isspace()`, which is also what `\s` and `str.strip()` use on
      `str` values: the complete list of whitespace code points. */
  predicate IsSpace(c: char) {
    c == ' ' || ('\t' <= c <= '\r') || ('\U{1c}' <= c <= '\U{1f}') || c == '\U{85}' ||
    c == '\U{a0}' || c == '\U{1680}' || ('\U{2000}' <= c <= '\U{200a}') ||
    c == '\U{2028}' || c == '\U{2029}' || c == '\U{202f}' || c == '\U{205f}' || c == '\U{3000}'
  }

  /** Every character of `s` satisfies `p`. */
  predicate All(s: string, p: char -> bool) {
    forall i :: 0 <= i < |s| ==> p(s[i])
  }

  /** No two neighbouring characters of `s` both satisfy `p`. */
  predicate NoTwoAdjacent(s: string, p: char -> bool) {
    forall i :: 0 <= i < |s| - 1 ==> !(p(s[i]) && p(s[i + 1]))
  }

  /** How many characters at the front of `s` satisfy `drop`. */
  function LeadingCount(s: string, drop: char -> bool): (n: nat)
    ensures n <= |s|
    ensures forall i :: 0 <= i < n ==> drop(s[i])
    ensures n == |s| || !drop(s[n])
    decreases |s|
  {
    if s != [] && drop(s[0]) then 1 + LeadingCount(s[1..], drop) else 0
  }

  /** How many characters at the back of `s` satisfy `drop`. */
  function TrailingCount(s: string, drop: char -> bool): (n: nat)
    ensures n <= |s|
    ensures forall i :: |s| - n <= i < |s| ==> drop(s[i])
    ensures n == |s| || !drop(s[|s| - n - 1])
    decreases |s|
  {
    if s != [] && drop(s[|s| - 1]) then 1 + TrailingCount(s[..|s| - 1], drop) else 0
  }

  /** Python's `s.lstrip(chars)` for the set of characters `drop` accepts. */
  function TrimLeft(s: string, drop: char -> bool): (r: string)
    ensures r == [] || !drop(r[0])
    ensures forall i :: 0 <= i < |s| - |r| ==> drop(s[i])
  {
    s[LeadingCount(s, drop)..]
  }

  /** Python's `s.rstrip(chars)` for the set of characters `drop` accepts. */
  function TrimRight(s: string, drop: char -> bool): (r: string)
    ensures r == [] || !drop(r[|r| - 1])
    ensures forall i :: |r| <= i < |s| ==> drop(s[i])
  {
    s[..|s| - TrailingCount(s, drop)]
  }

  /** Python's `s.strip(chars)`: what is left is the piece of `s` that starts after the
      characters at the front that `drop` accepts. */
  function Trim(s: string, drop: char -> bool): (r: string)
    ensures r == [] || (!drop(r[0]) && !drop(r[|r| - 1]))
    ensures var k := LeadingCount(s, drop); k + |r| <= |s| && r == s[k..k + |r|]
    ensures var k := LeadingCount(s, drop);
      (forall i :: 0 <= i < k ==> drop(s[i])) && (forall i :: k + |r| <= i < |s| ==> drop(s[i]))
  {
    var t := TrimLeft(s, drop);
    var k := LeadingCount(s, drop);
    var r := TrimRight(t, drop);
    assert forall i :: k + |r| <= i < |s| ==> drop(s[i]) by {
      forall i | k + |r| <= i < |s| ensures drop(s[i]) {
        assert s[i] == t[i - k];
      }
    }
    r
  }

  /** The predicate that accepts exactly what `p` rejects. */
  function Not(p: char -> bool): char -> bool {
    c => !p(c)
  }

  /** Stripping removes only characters `drop` accepts: the others survive, in order. */
  lemma TrimKeepsOthers(s: string, drop: char -> bool)
    ensures Filter(Trim(s, drop), Not(drop)) == Filter(s, Not(drop))
  {
    var r := Trim(s, drop);
    var k := LeadingCount(s, drop);
    FilterSlice(s, k, k + |r|, Not(drop));
  }

  /** Python's `s.strip()` with no argument. */
  function Strip(s: string): string {
    Trim(s, IsSpace)
  }

  /** A string that starts and ends with a kept character is its own trim. */
  lemma TrimKept(s: string, drop: char -> bool)
    requires s != [] && !drop(s[0]) && !drop(s[|s| - 1])
    ensures Trim(s, drop) == s
  {
    assert LeadingCount(s, drop) == 0;
    assert TrimLeft(s, drop) == s;
    assert TrailingCount(s, drop) == 0;
  }

  /** Whitespace put in front of a stripped, non-empty string is stripped off again. */
  lemma StripAfterSpace(pre: string, s: string)
    requires All(pre, IsSpace) && s != [] && Strip(s) == s
    ensures Strip(pre + s) == s
  {
    assert !IsSpace(s[0]) && !IsSpace(s[|s| - 1]);
    var t := pre + s;
    assert t[|pre|] == s[0];
    assert LeadingCount(t, IsSpace) == |pre|;
    assert TrimLeft(t, IsSpace) == s;
    TrimKept(s, IsSpace);
    assert TrimLeft(s, IsSpace) == s;
  }

  /** Stripping twice is stripping once. */
  lemma StripIdempotent(s: string)
    ensures Strip(Strip(s)) == Strip(s)
  {
    var r := Strip(s);
    if r != [] {
      TrimKept(r, IsSpace);
    }
  }

  /** Python's `s[:n]`. */
  function Take(s: string, n: nat): (r: string)
    ensures |r| <= n && |r| <= |s| && r == s[..|r|]
    ensures |s| <= n ==> r == s
    ensures n <= |s| ==> |r| == n
  {
    if |s| <= n then s else s[..n]
  }

  lemma SliceAll(s: string, lo: int, hi: int, p: char -> bool)
    requires 0 <= lo <= hi <= |s| && All(s, p)
    ensures All(s[lo..hi], p)
  {
    assert forall i :: 0 <= i < hi - lo ==> s[lo..hi][i] == s[lo + i];
  }

  lemma SliceNoTwoAdjacent(s: string, lo: int, hi: int, p: char -> bool)
    requires 0 <= lo <= hi <= |s| && NoTwoAdjacent(s, p)
    ensures NoTwoAdjacent(s[lo..hi], p)
  {
    assert forall i :: 0 <= i < hi - lo ==> s[lo..hi][i] == s[lo + i];
  }

  /** Keeps the characters `keep` accepts, in order. */
  function Filter(s: string, keep: char -> bool): (r: string)
    ensures All(r, keep)
    ensures |r| <= |s|
    decreases |s|
  {
    if s == [] then [] else (if keep(s[0]) then [s[0]] else []) + Filter(s[1..], keep)
  }

  /** Filtering a string none of whose characters is kept gives the empty string. */
  lemma {:induction false} FilterNone(s: string, keep: char -> bool)
    requires forall i :: 0 <= i < |s| ==> !keep(s[i])
    ensures Filter(s, keep) == []
    decreases |s|
  {
    if s != [] {
      FilterNone(s[1..], keep);
    }
  }

  /** Cutting off ends that hold no kept character does not change the filtered string. */
  lemma FilterSlice(s: string, lo: int, hi: int, keep: char -> bool)
    requires 0 <= lo <= hi <= |s|
    requires forall i :: 0 <= i < lo ==> !keep(s[i])
    requires forall i :: hi <= i < |s| ==> !keep(s[i])
    ensures Filter(s[lo..hi], keep) == Filter(s, keep)
  {
    var a, b, c := s[..lo], s[lo..hi], s[hi..];
    SliceThree(s, lo, hi);
    forall i | 0 <= i < |a| ensures !keep(a[i]) {
      assert a[i] == s[i];
    }
    forall i | 0 <= i < |c| ensures !keep(c[i]) {
      assert c[i] == s[hi + i];
    }
    calc {
      Filter(s, keep);
      Filter(a + b + c, keep);
      { FilterAppend(a + b, c, keep); FilterAppend(a, b, keep); }
      Filter(a, keep) + Filter(b, keep) + Filter(c, keep);
      { FilterNone(a, keep); FilterNone(c, keep); }
      [] + Filter(b, keep) + [];
      { EmptyEnds(Filter(b, keep)); }
      Filter(b, keep);
    }
  }

  lemma SliceThree(s: string, lo: int, hi: int)
    requires 0 <= lo <= hi <= |s|
    ensures s == s[..lo] + s[lo..hi] + s[hi..]
  {
  }

  lemma EmptyEnds(x: string)
    ensures [] + x + [] == x
  {
  }

  /** Filtering by a stricter predicate after a looser one is filtering by the stricter one. */
  lemma {:induction false} FilterFilter(s: string, p: char -> bool, q: char -> bool)
    requires forall c :: q(c) ==> p(c)
    ensures Filter(Filter(s, p), q) == Filter(s, q)
    decreases |s|
  {
    if s != [] {
      var head := if p(s[0]) then [s[0]] else [];
      FilterAppend(head, Filter(s[1..], p), q);
      FilterFilter(s[1..], p, q);
      if p(s[0]) {
        assert Filter(head, q) == if q(s[0]) then [s[0]] else [];
      }
    }
  }

  /** `s.replace(a, b)` leaves the filtered string alone when neither `a` nor `b` is kept. */
  lemma {:induction false} FilterReplaceDropped(s: string, a: char, b: char, keep: char -> bool)
    requires !keep(a) && !keep(b)
    ensures Filter(ReplaceChar(s, a, b), keep) == Filter(s, keep)
    decreases |s|
  {
    if s != [] {
      ReplaceTail(s, a, b);
      FilterReplaceDropped(s[1..], a, b, keep);
    }
  }

  /** `s.replace(a, b)` commutes with a filter that keeps both `a` and `b`. */
  lemma {:induction false} FilterReplaceKept(s: string, a: char, b: char, keep: char -> bool)
    requires keep(a) && keep(b)
    ensures ReplaceChar(Filter(s, keep), a, b) == Filter(ReplaceChar(s, a, b), keep)
    decreases |s|
  {
    if s != [] {
      ReplaceTail(s, a, b);
      FilterReplaceKept(s[1..], a, b, keep);
      var head := if keep(s[0]) then [s[0]] else [];
      ReplaceAppend(head, Filter(s[1..], keep), a, b);
    }
  }

  lemma ReplaceTail(s: string, a: char, b: char)
    requires s != []
    ensures ReplaceChar(s, a, b) == [if s[0] == a then b else s[0]] + ReplaceChar(s[1..], a, b)
  {
  }

  lemma ReplaceAppend(x: string, y: string, a: char, b: char)
    ensures ReplaceChar(x + y, a, b) == ReplaceChar(x, a, b) + ReplaceChar(y, a, b)
  {
  }

  /** Whatever holds of every character of `s` holds of every character `Filter` keeps. */
  lemma {:induction false} FilterAll(s: string, keep: char -> bool, p: char -> bool)
    requires All(s, p)
    ensures All(Filter(s, keep), p)
    decreases |s|
  {
    if s != [] {
      SliceAll(s, 1, |s|, p);
      FilterAll(s[1..], keep, p);
    }
  }

  lemma {:induction false} FilterKeepsAll(s: string, keep: char -> bool)
    requires All(s, keep)
    ensures Filter(s, keep) == s
    decreases |s|
  {
    if s != [] {
      SliceAll(s, 1, |s|, keep);
      FilterKeepsAll(s[1..], keep);
    }
  }

  /** Filtering distributes over concatenation. */
  lemma {:induction false} FilterAppend(a: string, b: string, keep: char -> bool)
    ensures Filter(a + b, keep) == Filter(a, keep) + Filter(b, keep)
    decreases |a|
  {
    if a == [] {
      assert a + b == b;
    } else {
      var head := if keep(a[0]) then [a[0]] else [];
      assert (a + b)[0] == a[0] && (a + b)[1..] == a[1..] + b;
      FilterAppend(a[1..], b, keep);
      calc {
        Filter(a + b, keep);
        head + Filter(a[1..] + b, keep);
        head + (Filter(a[1..], keep) + Filter(b, keep));
        (head + Filter(a[1..], keep)) + Filter(b, keep);
        Filter(a, keep) + Filter(b, keep);
      }
    }
  }

  /** `re.sub(r"<sep>+", rep, s)`: every maximal run of characters that `sep` accepts
      is replaced by the single character `rep`. */
  function CollapseRuns(s: string, sep: char -> bool, rep: char): (r: string)
    requires sep(rep)
    ensures forall i :: 0 <= i < |r| ==> r[i] == rep || !sep(r[i])
    ensures NoTwoAdjacent(r, sep)
    ensures s != [] && !sep(s[0]) ==> r != [] && r[0] == s[0]
    ensures Filter(r, Not(sep)) == Filter(s, Not(sep))
    ensures |r| <= |s|
    decreases |s|
  {
    if s == [] then []
    else if sep(s[0]) then
      var rest := CollapseRuns(TrimLeft(s[1..], sep), sep, rep);
      CollapseSepStep(s, sep, rep, rest);
      [rep] + rest
    else
      var rest := CollapseRuns(s[1..], sep, rep);
      CollapseKeepStep(s, sep, rest);
      [s[0]] + rest
  }

  /** A run of separators replaced by `rep` loses no other character. */
  lemma CollapseSepStep(s: string, sep: char -> bool, rep: char, rest: string)
    requires s != [] && sep(s[0]) && sep(rep)
    requires Filter(rest, Not(sep)) == Filter(TrimLeft(s[1..], sep), Not(sep))
    ensures Filter([rep] + rest, Not(sep)) == Filter(s, Not(sep))
  {
    TrimLeftFilter(s[1..], sep);
    assert ([rep] + rest)[1..] == rest;
  }

  /** Dropping leading separators loses no other character. */
  lemma TrimLeftFilter(x: string, sep: char -> bool)
    ensures Filter(TrimLeft(x, sep), Not(sep)) == Filter(x, Not(sep))
  {
    var k := LeadingCount(x, sep);
    forall i | 0 <= i < k ensures !Not(sep)(x[i]) {
      assert sep(x[i]);
    }
    FilterSlice(x, k, |x|, Not(sep));
    assert TrimLeft(x, sep) == x[k..|x|];
  }

  /** A character that is no separator is kept in front. */
  lemma CollapseKeepStep(s: string, sep: char -> bool, rest: string)
    requires s != [] && !sep(s[0])
    requires Filter(rest, Not(sep)) == Filter(s[1..], Not(sep))
    ensures Filter([s[0]] + rest, Not(sep)) == Filter(s, Not(sep))
  {
    assert ([s[0]] + rest)[1..] == rest;
  }

  /** Whatever holds of `rep` and of every character of `s` holds of every character
      of the collapsed string. */
  lemma {:induction false} CollapseAll(s: string, sep: char -> bool, rep: char, p: char -> bool)
    requires sep(rep) && p(rep) && All(s, p)
    ensures All(CollapseRuns(s, sep, rep), p)
    decreases |s|
  {
    if s != [] {
      SliceAll(s, 1, |s|, p);
      if sep(s[0]) {
        var t := TrimLeft(s[1..], sep);
        SliceAll(s[1..], |s| - 1 - |t|, |s| - 1, p);
        CollapseAll(t, sep, rep, p);
      } else {
        CollapseAll(s[1..], sep, rep, p);
      }
    }
  }

  /** A character that is a plain space or no whitespace at all. */
  predicate IsPlainOrNonSpace(c: char) { c == ' ' || !IsSpace(c) }

  /** A string in the form `safe_text` produces: whitespace only as single plain spaces. */
  predicate Collapsed(s: string) {
    All(s, IsPlainOrNonSpace) && NoTwoAdjacent(s, IsSpace)
  }

  /** `s.replace(a, b)` for single characters `a` and `b`. */
  function ReplaceChar(s: string, a: char, b: char): (r: string)
    ensures |r| == |s|
    ensures forall i :: 0 <= i < |s| ==> r[i] == if s[i] == a then b else s[i]
  {
    seq(|s|, i requires 0 <= i < |s| => if s[i] == a then b else s[i])
  }

  lemma StripCollapsed(c: string)
    requires Collapsed(c)
    ensures Collapsed(Strip(c))
  {
    var k := LeadingCount(c, IsSpace);
    SliceAll(c, k, k + |Strip(c)|, IsPlainOrNonSpace);
    SliceNoTwoAdjacent(c, k, k + |Strip(c)|, IsSpace);
  }

  /** `safe_text` (run.py:98-101, scraper.py:72-75): non-breaking spaces become spaces,
      whitespace runs collapse to one space and the ends are stripped. */
  function SafeText(s: string): (r: string)
    ensures r == [] || (!IsSpace(r[0]) && !IsSpace(r[|r| - 1]))
    ensures Collapsed(r)
    ensures forall i :: 0 <= i < |r| ==> r[i] != '\U{a0}' && r[i] != '\n'
    ensures Filter(r, Not(IsSpace)) == Filter(s, Not(IsSpace))
  {
    var c := CollapseRuns(ReplaceChar(s, '\U{a0}', ' '), IsSpace, ' ');
    assert All(c, IsPlainOrNonSpace);
    StripCollapsed(c);
    FilterReplaceDropped(s, '\U{a0}', ' ', Not(IsSpace));
    TrimKeepsOthers(c, IsSpace);
    Strip(c)
  }

  lemma {:induction false} CollapseKeepsCollapsed(s: string)
    requires Collapsed(s)
    ensures CollapseRuns(s, IsSpace, ' ') == s
    decreases |s|
  {
    if s != [] {
      var t := s[1..];
      SliceAll(s, 1, |s|, IsPlainOrNonSpace);
      SliceNoTwoAdjacent(s, 1, |s|, IsSpace);
      CollapseKeepsCollapsed(t);
      if IsSpace(s[0]) {
        assert t == [] || !IsSpace(t[0]);
        assert TrimLeft(t, IsSpace) == t;
      }
    }
  }

  /** Applying `safe_text` twice equals applying it once. */
  lemma SafeTextIdempotent(s: string)
    ensures SafeText(SafeText(s)) == SafeText(s)
  {
    var r := SafeText(s);
    assert ReplaceChar(r, '\U{a0}', ' ') == r;
    CollapseKeepsCollapsed(r);
    assert TrimLeft(r, IsSpace) == r;
    assert TrimRight(r, IsSpace) == r;
  }

  // ---------------------------------------------------------------------------
  // sanitize_filename

  /** The characters `sanitize_filename` deletes: `<>:"/\\|?*`. */
  predicate IsForbiddenInName(c: char) {
    c == '<' || c == '>' || c == ':' || c == '"' || c == '/' || c == '\\' || c == '|' || c == '?' || c == '*'
  }

  predicate IsAllowedInName(c: char) { !IsForbiddenInName(c) }

  /** The characters of `strip('. ')`. */
  predicate IsDotOrSpace(c: char) { c == '.' || c == ' ' }

  /** What `sanitize_filename` guarantees of each character it returns. */
  predicate IsNameChar(c: char) { !IsForbiddenInName(c) && c != ' ' }

  /** The characters that `sanitize_filename` deletes outright or strips from the ends
      once spaces have become underscores. */
  predicate Vanishes(c: char) {
    IsForbiddenInName(c) || c == '.'
  }

  /** The characters `sanitize_filename` never removes once spaces have become
      underscores: neither forbidden, nor a dot, nor a space. */
  predicate IsSolid(c: char) { !Vanishes(c) && c != ' ' }

  /** `sanitize_filename` (run.py:104-107): forbidden characters deleted, spaces to
      underscores, dots and spaces stripped from both ends, at most 200 characters,
      `"story"` when nothing is left. The solid characters of the input, with spaces read
      as underscores, are those of the name, in order, unless the name was cut. */
  function SanitizeFilename(name: string): (r: string)
    ensures 1 <= |r| <= 200
    ensures All(r, IsNameChar)
    ensures r[0] != '.'
    ensures var solid := Filter(ReplaceChar(name, ' ', '_'), IsSolid);
      (solid == [] ==> r == "story") &&
      (solid != [] && |r| < 200 ==> Filter(r, IsSolid) == solid)
  {
    var trimmed := SanitizedStem(name);
    if trimmed != [] then Take(trimmed, 200) else "story"
  }

  /** `sanitize_filename` before the length cut and the fallback: forbidden characters
      deleted, spaces to underscores, dots and spaces stripped from both ends. */
  function SanitizedStem(name: string): (r: string)
    ensures All(r, IsNameChar)
    ensures r == [] || r[0] != '.'
    ensures Filter(r, IsSolid) == Filter(ReplaceChar(name, ' ', '_'), IsSolid)
    ensures r == [] <==> Filter(r, IsSolid) == []
  {
    StemShape(name);
    StemSolid(name);
    Trim(ReplaceChar(Filter(name, IsAllowedInName), ' ', '_'), IsDotOrSpace)
  }

  /** The stripped name has only name characters and, when not empty, starts with a
      solid one. */
  lemma StemShape(name: string)
    ensures var r := Trim(ReplaceChar(Filter(name, IsAllowedInName), ' ', '_'), IsDotOrSpace);
      All(r, IsNameChar) && (r == [] || IsSolid(r[0])) && (r == [] <==> Filter(r, IsSolid) == [])
  {
    var under := ReplaceChar(Filter(name, IsAllowedInName), ' ', '_');
    UnderNameChars(name);
    TrimmedNameShape(under);
  }

  lemma UnderNameChars(name: string)
    ensures All(ReplaceChar(Filter(name, IsAllowedInName), ' ', '_'), IsNameChar)
  {
  }

  lemma TrimmedNameShape(under: string)
    requires All(under, IsNameChar)
    ensures var r := Trim(under, IsDotOrSpace);
      All(r, IsNameChar) && (r == [] || IsSolid(r[0])) && (r == [] <==> Filter(r, IsSolid) == [])
  {
    var trimmed := Trim(under, IsDotOrSpace);
    var k := LeadingCount(under, IsDotOrSpace);
    SliceAll(under, k, k + |trimmed|, IsNameChar);
    if trimmed != [] {
      assert IsSolid(trimmed[0]);
      FilterHead(trimmed, IsSolid);
    }
  }

  /** A string whose first character is kept filters to a non-empty string. */
  lemma FilterHead(s: string, keep: char -> bool)
    requires s != [] && keep(s[0])
    ensures Filter(s, keep) != []
  {
  }

  /** Deleting forbidden characters, turning spaces into underscores and stripping dots
      and spaces keeps every solid character, in order. */
  lemma StemSolid(name: string)
    ensures var under := ReplaceChar(Filter(name, IsAllowedInName), ' ', '_');
      Filter(Trim(under, IsDotOrSpace), IsSolid) == Filter(ReplaceChar(name, ' ', '_'), IsSolid)
  {
    var under := ReplaceChar(Filter(name, IsAllowedInName), ' ', '_');
    var trimmed := Trim(under, IsDotOrSpace);
    var k := LeadingCount(under, IsDotOrSpace);
    assert forall i :: 0 <= i < k ==> !IsSolid(under[i]);
    assert forall i :: k + |trimmed| <= i < |under| ==> !IsSolid(under[i]);
    var hi := k + |trimmed|;
    FilterSlice(under, k, hi, IsSolid);
    assert trimmed == under[k..hi];
    assert Filter(trimmed, IsSolid) == Filter(under, IsSolid);
    var spaced := ReplaceChar(name, ' ', '_');
    FilterReplaceKept(name, ' ', '_', IsAllowedInName);
    assert under == Filter(spaced, IsAllowedInName);
    assert forall c :: IsSolid(c) ==> IsAllowedInName(c);
    FilterFilter(spaced, IsAllowedInName, IsSolid);
    calc {
      Filter(trimmed, IsSolid);
      Filter(under, IsSolid);
      Filter(Filter(spaced, IsAllowedInName), IsSolid);
      Filter(spaced, IsSolid);
    }
  }

  /** A name that is already safe (no forbidden character, no space, no dot at either
      end, at most 200 characters) is kept unchanged. */
  lemma SanitizeKeepsSafeName(name: string)
    requires 1 <= |name| <= 200
    requires All(name, IsNameChar)
    requires name[0] != '.' && name[|name| - 1] != '.'
    ensures SanitizeFilename(name) == name
  {
    FilterKeepsAll(name, IsAllowedInName);
    assert ReplaceChar(name, ' ', '_') == name;
    assert TrimLeft(name, IsDotOrSpace) == name;
    assert TrimRight(name, IsDotOrSpace) == name;
  }

  // ---------------------------------------------------------------------------
  // slugify

  /** ASCII `\w`. */
  predicate IsWordChar(c: char) { IsAsciiAlnum(c) || c == '_' }

  /** What `re.sub(r"[^\w\s-]", "", s)` keeps. */
  predicate IsSlugKept(c: char) { IsWordChar(c) || IsSpace(c) || c == '-' }

  /** The separators `slugify` merges into one `-`: `[\s_-]`. */
  predicate IsSlugSep(c: char) { IsSpace(c) || c == '_' || c == '-' }

  predicate IsDash(c: char) { c == '-' }

  predicate IsNotUpper(c: char) { !IsAsciiUpper(c) }

  /** The characters a slug is made of: lower-case letters, digits and `-`. */
  predicate IsSlugChar(c: char) { IsAsciiLower(c) || IsDigit(c) || c == '-' }

  /** What every character is between filtering and the final strip. */
  predicate IsSlugCharOrSep(c: char) { IsSlugChar(c) || IsSlugSep(c) }

  /** The first two steps of `slugify`: stripped and lower-cased, then reduced to
      `[\w\s-]`. */
  function SlugKept(s: string): (r: string)
    ensures All(r, IsSlugCharOrSep)
  {
    var stripped := Strip(s);
    var lowered := Lower(stripped);
    assert All(lowered, IsNotUpper) by {
      forall i | 0 <= i < |lowered| ensures IsNotUpper(lowered[i]) {
        assert lowered[i] == LowerChar(stripped[i]);
      }
    }
    var kept := Filter(lowered, IsSlugKept);
    FilterAll(lowered, IsSlugKept, IsNotUpper);
    assert All(kept, IsSlugCharOrSep) by {
      forall i | 0 <= i < |kept| ensures IsSlugCharOrSep(kept[i]) {
        assert IsSlugKept(kept[i]) && IsNotUpper(kept[i]);
      }
    }
    kept
  }

  /** The third step of `slugify`: every run of `[\s_-]` becomes one `-`. */
  function SlugDashed(s: string): (r: string)
    ensures All(r, IsSlugChar) && NoTwoAdjacent(r, IsDash)
  {
    var kept := SlugKept(s);
    var dashed := CollapseRuns(kept, IsSlugSep, '-');
    CollapseAll(kept, IsSlugSep, '-', IsSlugCharOrSep);
    assert All(dashed, IsSlugChar) by {
      forall i | 0 <= i < |dashed| ensures IsSlugChar(dashed[i]) {
        assert IsSlugCharOrSep(dashed[i]);
        assert dashed[i] == '-' || !IsSlugSep(dashed[i]);
      }
    }
    assert NoTwoAdjacent(dashed, IsDash) by {
      forall i | 0 <= i < |dashed| - 1 ensures !(IsDash(dashed[i]) && IsDash(dashed[i + 1])) {
        assert !(IsSlugSep(dashed[i]) && IsSlugSep(dashed[i + 1]));
      }
    }
    dashed
  }

  /** The part of `slugify` before the empty-result fallback: the dashed string with
      `-` stripped from both ends. */
  function SlugCore(s: string): (r: string)
    ensures All(r, IsSlugChar) && NoTwoAdjacent(r, IsDash)
    ensures r == [] || (r[0] != '-' && r[|r| - 1] != '-')
    ensures |r| <= |s|
    ensures Filter(r, IsAsciiAlnum) == Filter(Lower(s), IsAsciiAlnum)
  {
    var dashed := SlugDashed(s);
    var r := Trim(dashed, IsDash);
    TrimShape(dashed);
    SlugCoreAlnum(s);
    assert All(r, IsSlugChar) && NoTwoAdjacent(r, IsDash);
    r
  }

  /** Stripping whitespace before lower-casing loses no letter or digit. */
  lemma LowerStripAlnum(s: string)
    ensures Filter(Lower(Strip(s)), IsAsciiAlnum) == Filter(Lower(s), IsAsciiAlnum)
    ensures |Strip(s)| <= |s|
  {
    var k := LeadingCount(s, IsSpace);
    var t := Strip(s);
    var hi := k + |t|;
    var low := Lower(s);
    assert t == s[k..hi];
    LowerSlice(s, k, hi);
    forall i | 0 <= i < k ensures !IsAsciiAlnum(low[i]) {
      SpaceNotAlnum(s[i]);
    }
    forall i | hi <= i < |low| ensures !IsAsciiAlnum(low[i]) {
      SpaceNotAlnum(s[i]);
    }
    FilterSlice(low, k, hi, IsAsciiAlnum);
  }

  lemma LowerSlice(s: string, lo: int, hi: int)
    requires 0 <= lo <= hi <= |s|
    ensures Lower(s[lo..hi]) == Lower(s)[lo..hi]
  {
  }

  lemma SpaceNotAlnum(c: char)
    requires IsSpace(c)
    ensures !IsAsciiAlnum(LowerChar(c))
  {
  }

  /** The steps of `slugify` before the fallback delete, merge and strip only characters
      that are neither letters nor digits; those survive, in order. */
  lemma SlugCoreAlnum(s: string)
    ensures var r := Trim(SlugDashed(s), IsDash);
      |r| <= |s| && Filter(r, IsAsciiAlnum) == Filter(Lower(s), IsAsciiAlnum)
  {
    var dashed := SlugDashed(s);
    SlugDashedAlnum(s);
    TrimDashAlnum(dashed);
  }

  /** Stripping `-` keeps every letter and digit. */
  lemma TrimDashAlnum(dashed: string)
    ensures Filter(Trim(dashed, IsDash), IsAsciiAlnum) == Filter(dashed, IsAsciiAlnum)
  {
    var r := Trim(dashed, IsDash);
    TrimKeepsOthers(dashed, IsDash);
    forall c | IsAsciiAlnum(c) ensures Not(IsDash)(c) {
      assert !IsDash(c);
    }
    FilterFilter(r, Not(IsDash), IsAsciiAlnum);
    FilterFilter(dashed, Not(IsDash), IsAsciiAlnum);
  }

  /** Deleting the characters outside `[\w\s-]` keeps every letter and digit. */
  lemma SlugKeptAlnum(s: string)
    ensures |SlugKept(s)| <= |s|
    ensures Filter(SlugKept(s), IsAsciiAlnum) == Filter(Lower(s), IsAsciiAlnum)
  {
    var lowered := Lower(Strip(s));
    LowerStripAlnum(s);
    assert SlugKept(s) == Filter(lowered, IsSlugKept);
    assert forall c :: IsAsciiAlnum(c) ==> IsSlugKept(c);
    FilterFilter(lowered, IsSlugKept, IsAsciiAlnum);
  }

  /** Merging separator runs into `-` keeps every letter and digit. */
  lemma SlugDashedAlnum(s: string)
    ensures |SlugDashed(s)| <= |s|
    ensures Filter(SlugDashed(s), IsAsciiAlnum) == Filter(Lower(s), IsAsciiAlnum)
  {
    var kept := SlugKept(s);
    SlugKeptAlnum(s);
    var dashed := SlugDashed(s);
    assert dashed == CollapseRuns(kept, IsSlugSep, '-');
    AlnumNotSlugSep();
    FilterFilter(dashed, Not(IsSlugSep), IsAsciiAlnum);
    FilterFilter(kept, Not(IsSlugSep), IsAsciiAlnum);
  }

  lemma AlnumNotSlugSep()
    ensures forall c :: IsAsciiAlnum(c) ==> Not(IsSlugSep)(c)
  {
    forall c | IsAsciiAlnum(c) ensures Not(IsSlugSep)(c) {
      assert !IsSpace(c);
      assert !IsSlugSep(c);
    }
  }

  /** Stripping `-` from both ends of slug characters leaves a slug without `-` at its ends. */
  lemma TrimShape(dashed: string)
    requires All(dashed, IsSlugChar) && NoTwoAdjacent(dashed, IsDash)
    ensures var r := Trim(dashed, IsDash);
      All(r, IsSlugChar) && NoTwoAdjacent(r, IsDash) && (r == [] || (r[0] != '-' && r[|r| - 1] != '-'))
  {
    var r := Trim(dashed, IsDash);
    var k := LeadingCount(dashed, IsDash);
    SliceAll(dashed, k, k + |r|, IsSlugChar);
    SliceNoTwoAdjacent(dashed, k, k + |r|, IsDash);
  }

  /** The fallback `story-<now>` is itself a well-formed slug. */
  lemma FallbackShape(now: nat)
    ensures All("story-" + NatToString(now), IsSlugChar)
    ensures NoTwoAdjacent("story-" + NatToString(now), IsDash)
    ensures ("story-" + NatToString(now))[0] != '-'
  {
    var f := "story-" + NatToString(now);
    assert forall i :: 6 <= i < |f| ==> f[i] == NatToString(now)[i - 6];
  }

  /** A cut of a well-formed slug with trailing `-` removed is a well-formed slug. */
  lemma CutShape(full: string, maxLen: nat)
    requires All(full, IsSlugChar) && NoTwoAdjacent(full, IsDash)
    requires full == [] || full[0] != '-'
    ensures var r := TrimRight(Take(full, maxLen), IsDash);
      All(r, IsSlugChar) && NoTwoAdjacent(r, IsDash) && (r == [] || (r[0] != '-' && r[|r| - 1] != '-'))
  {
    var r := TrimRight(Take(full, maxLen), IsDash);
    assert r == full[0..|r|];
    SliceAll(full, 0, |r|, IsSlugChar);
    SliceNoTwoAdjacent(full, 0, |r|, IsDash);
  }

  /** The slug before the length cut: the core or, when that is empty, `story-<now>`. */
  function SlugBase(s: string, now: nat): (r: string)
    ensures All(r, IsSlugChar) && NoTwoAdjacent(r, IsDash)
    ensures r != [] && r[0] != '-'
  {
    FallbackShape(now);
    if SlugCore(s) == [] then "story-" + NatToString(now) else SlugCore(s)
  }

  /** `slugify` (uploader.py:64-71, run.py:129-135) for a title made of ASCII characters;
      `now` is `int(time.time())`, used when nothing is left of the title. */
  function Slugify(s: string, maxLen: nat, now: nat): (r: string)
    requires IsAscii(s)
    ensures |r| <= maxLen
    ensures All(r, IsSlugChar)
    ensures r == [] || (r[0] != '-' && r[|r| - 1] != '-')
    ensures NoTwoAdjacent(r, IsDash)
    ensures maxLen >= 1 ==> r != []
    ensures |s| <= maxLen && Filter(Lower(s), IsAsciiAlnum) != [] ==>
      Filter(r, IsAsciiAlnum) == Filter(Lower(s), IsAsciiAlnum)
  {
    var full := SlugBase(s, now);
    CutShape(full, maxLen);
    CutNonEmpty(full, maxLen);
    SlugUncut(s, maxLen, now);
    TrimRight(Take(full, maxLen), IsDash)
  }

  /** A title that has a letter or digit and fits in `maxLen` gives its core slug uncut. */
  lemma SlugUncut(s: string, maxLen: nat, now: nat)
    ensures |s| <= maxLen && Filter(Lower(s), IsAsciiAlnum) != [] ==>
      TrimRight(Take(SlugBase(s, now), maxLen), IsDash) == SlugCore(s)
  {
    if |s| <= maxLen && Filter(Lower(s), IsAsciiAlnum) != [] {
      var core := SlugCore(s);
      assert core != [];
      assert SlugBase(s, now) == core;
      assert Take(core, maxLen) == core;
      TrimRightKept(core, IsDash);
    }
  }

  /** A string that ends with a kept character is its own right strip. */
  lemma TrimRightKept(s: string, drop: char -> bool)
    requires s != [] && !drop(s[|s| - 1])
    ensures TrimRight(s, drop) == s
  {
    assert TrailingCount(s, drop) == 0;
  }

  /** A cut to at least one character of a slug that does not start with `-` keeps
      something after the trailing `-` are removed. */
  lemma CutNonEmpty(full: string, maxLen: nat)
    requires full != [] && full[0] != '-'
    ensures maxLen >= 1 ==> TrimRight(Take(full, maxLen), IsDash) != []
  {
    if maxLen >= 1 {
      var t := Take(full, maxLen);
      assert t[0] == full[0];
      var n := TrailingCount(t, IsDash);
    }
  }

  lemma SlugKeptWithoutAlnum(s: string)
    requires All(s, IsNotAlnum)
    ensures All(SlugKept(s), IsSlugSep)
  {
    var stripped := Strip(s);
    var k0 := LeadingCount(s, IsSpace);
    SliceAll(s, k0, k0 + |stripped|, IsNotAlnum);
    var lowered := Lower(stripped);
    assert All(lowered, IsNotAlnum) by {
      forall i | 0 <= i < |lowered| ensures IsNotAlnum(lowered[i]) {
        assert lowered[i] == LowerChar(stripped[i]);
      }
    }
    FilterAll(lowered, IsSlugKept, IsNotAlnum);
  }

  lemma SlugCoreWithoutAlnum(s: string)
    requires All(s, IsNotAlnum)
    ensures SlugCore(s) == []
  {
    var kept := SlugKept(s);
    SlugKeptWithoutAlnum(s);
    var dashed := SlugDashed(s);
    CollapseAll(kept, IsSlugSep, '-', IsSlugSep);
    assert All(dashed, IsDash);
    var r := Trim(dashed, IsDash);
    var k := LeadingCount(dashed, IsDash);
    SliceAll(dashed, k, k + |r|, IsDash);
    assert r == [];
  }

  /** A title with no letter or digit falls back to `story-<now>` (cut to `maxLen`). */
  lemma SlugifyFallback(s: string, maxLen: nat, now: nat)
    requires IsAscii(s) && All(s, IsNotAlnum)
    ensures Slugify(s, maxLen, now) == TrimRight(Take("story-" + NatToString(now), maxLen), IsDash)
    ensures maxLen >= 6 + |NatToString(now)| ==> Slugify(s, maxLen, now) == "story-" + NatToString(now)
  {
    SlugCoreWithoutAlnum(s);
    assert SlugBase(s, now) == "story-" + NatToString(now);
    if maxLen >= 6 + |NatToString(now)| {
      FallbackUncut(now, maxLen);
    }
  }

  /** The fallback slug is short enough to survive a cut to `maxLen` unchanged. */
  lemma FallbackUncut(now: nat, maxLen: nat)
    requires maxLen >= 6 + |NatToString(now)|
    ensures TrimRight(Take("story-" + NatToString(now), maxLen), IsDash) == "story-" + NatToString(now)
  {
    var fallback := "story-" + NatToString(now);
    assert fallback[|fallback| - 1] == NatToString(now)[|NatToString(now)| - 1];
    assert TrimRight(fallback, IsDash) == fallback;
  }

  predicate IsNotAlnum(c: char) { !IsAsciiAlnum(c) }

  // ---------------------------------------------------------------------------
  // Paragraph lists

  /** Python's `"\n\n".join(ps)`. */
  function JoinBlank(ps: seq<string>): string
    decreases |ps|
  {
    if ps == [] then "" else if |ps| == 1 then ps[0] else ps[0] + "\n\n" + JoinBlank(ps[1..])
  }

  /** Python's `s.split("\n\n")`: pieces between non-overlapping separators found from the left. */
  function SplitBlank(s: string): (r: seq<string>)
    ensures |r| >= 1
    decreases |s|
  {
    if |s| < 2 then [s]
    else if s[0] == '\n' && s[1] == '\n' then [""] + SplitBlank(s[2..])
    else
      var rest := SplitBlank(s[1..]);
      [[s[0]] + rest[0]] + rest[1..]
  }

  lemma {:induction false} SplitBlankPlain(a: string)
    requires '\n' !in a
    ensures SplitBlank(a) == [a]
    decreases |a|
  {
    if |a| >= 2 {
      assert a[0] in a;
      assert forall c :: c in a[1..] ==> c in a;
      SplitBlankPlain(a[1..]);
      assert [a[0]] + a[1..] == a;
    }
  }

  lemma {:induction false} SplitBlankAfter(a: string, rest: string)
    requires '\n' !in a
    ensures SplitBlank(a + "\n\n" + rest) == [a] + SplitBlank(rest)
    decreases |a|
  {
    var s := a + "\n\n" + rest;
    if a == [] {
      assert s == "\n\n" + rest;
      assert s[2..] == rest;
    } else {
      assert a[0] in a;
      assert forall c :: c in a[1..] ==> c in a;
      assert s[1..] == a[1..] + "\n\n" + rest;
      SplitBlankAfter(a[1..], rest);
      assert [a[0]] + a[1..] == a;
    }
  }

  /** Splitting the joined paragraphs on blank lines gives them back, provided there is at
      least one and none holds a newline. */
  lemma {:induction false} SplitJoinBlank(ps: seq<string>)
    requires |ps| >= 1
    requires forall i :: 0 <= i < |ps| ==> '\n' !in ps[i]
    ensures SplitBlank(JoinBlank(ps)) == ps
    decreases |ps|
  {
    if |ps| == 1 {
      SplitBlankPlain(ps[0]);
    } else {
      SplitJoinBlank(ps[1..]);
      SplitBlankAfter(ps[0], JoinBlank(ps[1..]));
      assert [ps[0]] + ps[1..] == ps;
    }
  }
}
