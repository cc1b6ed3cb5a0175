/** The links file and the de-duplication of the URL list given on the command line. */
module Links {
  import opened Basics
  import opened Text

  /** No value occurs twice in `xs`. */
  predicate Distinct(xs: seq<string>) {
    forall i, j :: 0 <= i < j < |xs| ==> xs[i] != xs[j]
  }

  /** Order-preserving de-duplication: each value is kept at its first occurrence, as a
      left-to-right pass with a set of values already seen keeps it. */
  function Dedup(xs: seq<string>): (r: seq<string>)
    ensures Distinct(r)
    ensures forall x :: x in r <==> x in xs
    ensures |r| <= |xs|
    decreases |xs|
  {
    if xs == [] then []
    else
      var front, last := xs[..|xs| - 1], xs[|xs| - 1];
      assert xs == front + [last];
      var d := Dedup(front);
      if last in d then d else d + [last]
  }

  /** Index of the first occurrence of `x` in `xs`. */
  function FirstIndex(xs: seq<string>, x: string): (i: nat)
    requires x in xs
    ensures i < |xs| && xs[i] == x
    ensures forall k :: 0 <= k < i ==> xs[k] != x
  {
    if xs[0] == x then 0 else 1 + FirstIndex(xs[1..], x)
  }

  lemma FirstIndexInFront(front: seq<string>, last: string, y: string)
    requires y in front
    ensures FirstIndex(front + [last], y) == FirstIndex(front, y)
  {
    var xs := front + [last];
    var i, j := FirstIndex(xs, y), FirstIndex(front, y);
    assert xs[j] == y;
    assert i <= j;
    assert front[i] == y;
  }

  /** One more value either is already among the kept ones or is appended. */
  lemma DedupSnoc(xs: seq<string>, x: string)
    ensures Dedup(xs + [x]) == if x in Dedup(xs) then Dedup(xs) else Dedup(xs) + [x]
  {
    assert (xs + [x])[..|xs|] == xs;
  }

  /** De-duplication keeps values in the order of their first occurrences in the input. */
  lemma {:induction false} DedupFirstOrder(xs: seq<string>)
    ensures var d := Dedup(xs);
      forall i, j :: 0 <= i < j < |d| ==> FirstIndex(xs, d[i]) < FirstIndex(xs, d[j])
    decreases |xs|
  {
    if xs != [] {
      var front, last := xs[..|xs| - 1], xs[|xs| - 1];
      assert xs == front + [last];
      DedupFirstOrder(front);
      var d0 := Dedup(front);
      var d := Dedup(xs);
      DedupSnoc(front, last);
      assert d == d0 || (last !in front && d == d0 + [last]);
      forall i, j | 0 <= i < j < |d|
        ensures FirstIndex(xs, d[i]) < FirstIndex(xs, d[j])
      {
        assert i < |d0| && d[i] == d0[i] && d0[i] in front;
        FirstIndexInFront(front, last, d[i]);
        if j < |d0| {
          assert d[j] == d0[j] && d0[j] in front;
          assert FirstIndex(front, d0[i]) < FirstIndex(front, d0[j]);
          FirstIndexInFront(front, last, d[j]);
        } else {
          assert d[j] == last && last !in front;
          assert FirstIndex(xs, d[j]) == |front|;
        }
      }
    }
  }

  /** A list without repeats is its own de-duplication. */
  lemma {:induction false} DedupDistinct(xs: seq<string>)
    requires Distinct(xs)
    ensures Dedup(xs) == xs
    decreases |xs|
  {
    if xs != [] {
      var front, last := xs[..|xs| - 1], xs[|xs| - 1];
      assert xs == front + [last];
      assert Distinct(front);
      DedupDistinct(front);
      assert last !in front;
    }
  }

  /** De-duplicating twice is de-duplicating once. */
  lemma DedupIdempotent(xs: seq<string>)
    ensures Dedup(Dedup(xs)) == Dedup(xs)
  {
    DedupDistinct(Dedup(xs));
  }

  // ---------------------------------------------------------------------------
  // read_links_file

  /** Every line stripped (Python's `[u.strip() for u in xs]`). */
  function StripAll(xs: seq<string>): (r: seq<string>)
    ensures |r| == |xs|
    ensures forall i :: 0 <= i < |xs| ==> r[i] == Strip(xs[i])
  {
    seq(|xs|, i requires 0 <= i < |xs| => Strip(xs[i]))
  }

  lemma StripAllSnoc(xs: seq<string>, x: string)
    ensures StripAll(xs + [x]) == StripAll(xs) + [Strip(x)]
  {
  }

  /** A stripped line is kept when it is non-empty and is not a `#` comment. */
  predicate IsLink(line: string) {
    line != [] && line[0] != '#'
  }

  /** The stripped lines of the file that are links, in file order. */
  function KeptLines(lines: seq<string>): (r: seq<string>)
    ensures |r| <= |lines|
    ensures forall i :: 0 <= i < |r| ==> IsLink(r[i])
    decreases |lines|
  {
    if lines == [] then []
    else
      var k := KeptLines(lines[..|lines| - 1]);
      var t := Strip(lines[|lines| - 1]);
      if IsLink(t) then k + [t] else k
  }

  lemma KeptLinesSnoc(front: seq<string>, line: string)
    ensures var t := Strip(line);
      KeptLines(front + [line]) == if IsLink(t) then KeptLines(front) + [t] else KeptLines(front)
  {
    assert (front + [line])[..|front|] == front;
  }

  /** One more line of the file: kept, stripped, when it is a link. */
  lemma KeptLinesStep(lines: seq<string>, i: nat)
    requires i < |lines|
    ensures var t := Strip(lines[i]);
      KeptLines(lines[..i + 1]) == if IsLink(t) then KeptLines(lines[..i]) + [t] else KeptLines(lines[..i])
  {
    assert lines[..i + 1] == lines[..i] + [lines[i]];
    KeptLinesSnoc(lines[..i], lines[i]);
  }

  /** Every kept line is some input line stripped. */
  lemma {:induction false} KeptLinesSound(lines: seq<string>)
    ensures forall i :: 0 <= i < |KeptLines(lines)| ==> KeptLines(lines)[i] in StripAll(lines)
    decreases |lines|
  {
    if lines != [] {
      var front, last := lines[..|lines| - 1], lines[|lines| - 1];
      assert lines == front + [last];
      KeptLinesSound(front);
      KeptLinesSnoc(front, last);
      StripAllSnoc(front, last);
    } else {
      assert |KeptLines(lines)| == 0;
    }
  }

  /** Every input line that is a link once stripped is kept. */
  lemma {:induction false} KeptLinesComplete(lines: seq<string>)
    ensures forall j :: 0 <= j < |lines| && IsLink(StripAll(lines)[j]) ==> StripAll(lines)[j] in KeptLines(lines)
    decreases |lines|
  {
    if lines != [] {
      var front, last := lines[..|lines| - 1], lines[|lines| - 1];
      assert lines == front + [last];
      KeptLinesComplete(front);
      KeptLinesSnoc(front, last);
      StripAllSnoc(front, last);
    }
  }

  /** `read_links_file` (run.py:138-149, scraper.py:250-269), given whether the file exists
      and its lines; `None` stands for the `FileNotFoundError` it raises. */
  method ReadLinksFile(fileExists: bool, lines: seq<string>) returns (r: Option<seq<string>>)
    ensures !fileExists ==> r == None
    ensures fileExists ==> r == Some(Dedup(KeptLines(lines)))
  {
    if !fileExists {
      return None;
    }
    var urls: seq<string> := [];
    var i := 0;
    while i < |lines|
      invariant 0 <= i <= |lines|
      invariant urls == KeptLines(lines[..i])
    {
      KeptLinesStep(lines, i);
      var line := Strip(lines[i]);
      if line != [] && line[0] != '#' {
        urls := urls + [line];
      }
      i := i + 1;
    }
    assert lines[..|lines|] == lines;
    var out := DedupLoop(urls);
    return Some(out);
  }

  /** One more value for the de-duplication: appended when not already kept. */
  lemma DedupStep(urls: seq<string>, i: nat)
    requires i < |urls|
    ensures Dedup(urls[..i + 1]) == if urls[i] in Dedup(urls[..i]) then Dedup(urls[..i]) else Dedup(urls[..i]) + [urls[i]]
  {
    assert urls[..i + 1] == urls[..i] + [urls[i]];
    DedupSnoc(urls[..i], urls[i]);
  }

  /** The `seen`-set loop shared by the de-duplications. */
  method DedupLoop(urls: seq<string>) returns (out: seq<string>)
    ensures out == Dedup(urls)
  {
    var seen: set<string> := {};
    out := [];
    var i := 0;
    while i < |urls|
      invariant 0 <= i <= |urls|
      invariant out == Dedup(urls[..i])
      invariant forall x {:trigger x in seen} :: x in seen <==> x in out
    {
      DedupStep(urls, i);
      var u := urls[i];
      if u !in seen {
        seen := seen + {u};
        out := out + [u];
      }
      i := i + 1;
    }
    assert urls[..|urls|] == urls;
  }

  /** A read links list has no repeats, no blank or comment line, and only stripped lines of
      the file, each in the order of its first occurrence. */
  lemma ReadLinksProperties(lines: seq<string>)
    ensures var r := Dedup(KeptLines(lines));
      Distinct(r) &&
      (forall i :: 0 <= i < |r| ==> IsLink(r[i]) && r[i] in StripAll(lines)) &&
      (forall j :: 0 <= j < |lines| && IsLink(StripAll(lines)[j]) ==> StripAll(lines)[j] in r)
  {
    KeptLinesSound(lines);
    KeptLinesComplete(lines);
    var k := KeptLines(lines);
    var r := Dedup(k);
    forall i | 0 <= i < |r|
      ensures IsLink(r[i]) && r[i] in StripAll(lines)
    {
      assert r[i] in k;
    }
  }

  // ---------------------------------------------------------------------------
  // URL lists in main

  /** Python's truthiness filter `if u` on strings. */
  function NonEmpty(xs: seq<string>): (r: seq<string>)
    ensures forall i :: 0 <= i < |r| ==> r[i] != []
    ensures forall x :: x in r <==> x in xs && x != []
    decreases |xs|
  {
    if xs == [] then []
    else
      var front, last := xs[..|xs| - 1], xs[|xs| - 1];
      assert xs == front + [last];
      if last == [] then NonEmpty(front) else NonEmpty(front) + [last]
  }

  lemma NonEmptySnoc(xs: seq<string>, x: string)
    ensures NonEmpty(xs + [x]) == if x == [] then NonEmpty(xs) else NonEmpty(xs) + [x]
  {
    assert (xs + [x])[..|xs|] == xs;
  }

  /** run.py:594-595: non-empty URLs are de-duplicated as given and stripped afterwards. */
  function DedupThenStrip(urls: seq<string>): seq<string> {
    StripAll(Dedup(NonEmpty(urls)))
  }

  /** scraper.py:294-301: URLs are stripped first, then empty ones dropped and the rest
      de-duplicated. */
  function StripThenDedup(urls: seq<string>): seq<string> {
    Dedup(NonEmpty(StripAll(urls)))
  }

  method RunMainUrls(urls: seq<string>) returns (out: seq<string>)
    ensures out == DedupThenStrip(urls)
  {
    var seen: set<string> := {};
    var kept: seq<string> := [];
    out := [];
    var i := 0;
    while i < |urls|
      invariant 0 <= i <= |urls|
      invariant kept == Dedup(NonEmpty(urls[..i]))
      invariant out == StripAll(kept)
      invariant forall x :: x in seen <==> x in kept
    {
      DedupNonEmptyStep(urls, i);
      var u := urls[i];
      ghost var next := Dedup(NonEmpty(urls[..i + 1]));
      if u != [] && u !in seen {
        assert next == kept + [u];
        seen := seen + {u};
        StripAllSnoc(kept, u);
        kept := kept + [u];
        out := out + [Strip(u)];
      } else {
        assert next == kept;
      }
      i := i + 1;
    }
    assert urls[..|urls|] == urls;
  }

  /** One more URL for run.py's cleaning: appended, as given, when it is not empty and not
      already kept. */
  lemma DedupNonEmptyStep(urls: seq<string>, i: nat)
    requires i < |urls|
    ensures var d := Dedup(NonEmpty(urls[..i]));
      var u := urls[i];
      Dedup(NonEmpty(urls[..i + 1])) == if u != [] && u !in d then d + [u] else d
  {
    assert urls[..i + 1] == urls[..i] + [urls[i]];
    NonEmptySnoc(urls[..i], urls[i]);
    DedupSnoc(NonEmpty(urls[..i]), urls[i]);
  }

  method ScraperMainUrls(urls: seq<string>) returns (out: seq<string>)
    ensures out == StripThenDedup(urls)
  {
    var seen: set<string> := {};
    out := [];
    var i := 0;
    while i < |urls|
      invariant 0 <= i <= |urls|
      invariant out == StripThenDedup(urls[..i])
      invariant forall x :: x in seen <==> x in out
    {
      StripThenDedupSnoc(urls, i);
      var u := Strip(urls[i]);
      if u != [] && u !in seen {
        seen := seen + {u};
        out := out + [u];
      }
      i := i + 1;
    }
    assert urls[..|urls|] == urls;
  }

  /** One more URL for scraper.py's cleaning: its stripped form is appended when it is not
      empty and not already kept. */
  lemma StripThenDedupSnoc(urls: seq<string>, i: nat)
    requires i < |urls|
    ensures var d := StripThenDedup(urls[..i]);
      var u := Strip(urls[i]);
      StripThenDedup(urls[..i + 1]) == if u != [] && u !in d then d + [u] else d
  {
    assert urls[..i + 1] == urls[..i] + [urls[i]];
    StripAllSnoc(urls[..i], urls[i]);
    NonEmptySnoc(StripAll(urls[..i]), Strip(urls[i]));
    DedupSnoc(NonEmpty(StripAll(urls[..i])), Strip(urls[i]));
  }

  /** The scraper's list has no repeats and no empty URL, and holds exactly the non-empty
      stripped inputs. */
  lemma StripThenDedupClean(urls: seq<string>)
    ensures var r := StripThenDedup(urls);
      Distinct(r) && (forall i :: 0 <= i < |r| ==> r[i] != []) &&
      (forall j :: 0 <= j < |urls| && Strip(urls[j]) != [] ==> Strip(urls[j]) in r)
  {
    var s := StripAll(urls);
    var r := Dedup(NonEmpty(s));
    forall j | 0 <= j < |urls| && Strip(urls[j]) != []
      ensures Strip(urls[j]) in r
    {
      assert s[j] in s;
    }
    forall i | 0 <= i < |r|
      ensures r[i] != []
    {
      assert r[i] in NonEmpty(s);
    }
  }

  /** run.py's order (de-duplicate, then strip) lets two spellings of one URL through; a
      space in front is enough. */
  lemma DedupThenStripRepeats(u: string)
    requires u != "" && Strip(u) == u
    ensures DedupThenStrip([u, " " + u]) == [u, u]
  {
    var xs := [u, " " + u];
    KeptAsIs(u, xs);
    StripSpaced(u);
    var r := StripAll(xs);
    assert |r| == 2 && r[0] == Strip(u) && r[1] == Strip(" " + u);
    assert r == [u, u];
  }

  /** Neither filter changes `[u, " " + u]`. */
  lemma KeptAsIs(u: string, xs: seq<string>)
    requires u != "" && xs == [u, " " + u]
    ensures Dedup(NonEmpty(xs)) == xs
  {
    assert xs[..1] == [u] && [u][..0] == [];
    assert NonEmpty([u]) == [u];
    assert NonEmpty(xs) == xs;
    assert Dedup([u]) == [u];
    assert u != " " + u by { assert |u| != |" " + u|; }
    assert Dedup(xs) == xs;
  }

  /** A space in front of a stripped string is stripped away again. */
  lemma StripSpaced(u: string)
    requires u != "" && Strip(u) == u
    ensures Strip(" " + u) == u
  {
    var s := " " + u;
    assert !IsSpace(u[0]);
    assert s[1..] == u;
    assert LeadingCount(u, IsSpace) == 0;
    assert LeadingCount(s, IsSpace) == 1;
    assert TrimLeft(s, IsSpace) == u;
    assert TrimLeft(u, IsSpace) == u;
  }
}
