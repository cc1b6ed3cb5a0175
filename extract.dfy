/** The heuristic field extractors of the scrapers, over the abstract document of module
    Dom: each is an ordered chain of first-match lookups with filters. */
module Extract {
  import opened Basics
  import opened Text
  import opened Url
  import opened Dom

  // ---------------------------------------------------------------------------
  // Title and description

  /** `extract_title` (run.py:168-176, scraper.py:114-127): the first `h1`'s text, else the
      first `og:title` meta's content, else the first `title`'s text, else "Untitled". An
      `h1` is taken even when its text is empty. */
  function ExtractTitle(doc: seq<Node>): (r: string)
    ensures var all := Elements(doc);
      forall i :: FirstMatch(all, IsH1, i) ==> r == SafeText(TextOf(all[i]))
    ensures var all := Elements(doc);
      NoMatch(all, IsH1) ==>
        forall i :: FirstMatch(all, IsOgTitle, i) ==> r == SafeText(AttrOr(all[i], "content", ""))
    ensures var all := Elements(doc);
      NoMatch(all, IsH1) && NoMatch(all, IsOgTitle) ==>
        forall i :: FirstMatch(all, IsTitleTag, i) ==> r == SafeText(TextOf(all[i]))
    ensures var all := Elements(doc);
      NoMatch(all, IsH1) && NoMatch(all, IsOgTitle) && NoMatch(all, IsTitleTag) ==> r == "Untitled"
  {
    var all := Elements(doc);
    match Find(all, IsH1)
    case Some(h1) => SafeText(TextOf(h1))
    case None =>
      match Find(all, IsOgTitle)
      case Some(og) => SafeText(AttrOr(og, "content", ""))
      case None =>
        match Find(all, IsTitleTag)
        case Some(tt) => SafeText(TextOf(tt))
        case None => "Untitled"
  }

  /** An `h1` without text gives an empty title rather than falling back. */
  lemma EmptyHeadingTitle()
    ensures ExtractTitle([Element("h1", map[], [], [])]) == ""
  {
    var all := Elements([Element("h1", map[], [], [])]);
    assert all == [Elem("h1", map[], [], [], [])];
    assert FirstMatch(all, IsH1, 0);
    assert TextOf(all[0]) == "";
    assert SafeText("") == "" by {
      assert CollapseRuns(ReplaceChar("", '\U{a0}', ' '), IsSpace, ' ') == "";
    }
  }

  /** `extract_description` (run.py:179-184, scraper.py:130-139): the content of the first
      `og:description` meta when there is one, even an empty one; else that of the first
      `name=description` meta; else "". */
  function ExtractDescription(doc: seq<Node>): (r: string)
    ensures var all := Elements(doc);
      forall i :: FirstMatch(all, IsOgDescription, i) ==> r == SafeText(AttrOr(all[i], "content", ""))
    ensures var all := Elements(doc);
      NoMatch(all, IsOgDescription) ==>
        forall i :: FirstMatch(all, IsNamedDescription, i) ==> r == SafeText(AttrOr(all[i], "content", ""))
    ensures var all := Elements(doc);
      NoMatch(all, IsOgDescription) && NoMatch(all, IsNamedDescription) ==> r == ""
  {
    var all := Elements(doc);
    match Find(all, IsOgDescription)
    case Some(og) => SafeText(AttrOr(og, "content", ""))
    case None =>
      match Find(all, IsNamedDescription)
      case Some(m) => SafeText(AttrOr(m, "content", ""))
      case None => ""
  }

  // ---------------------------------------------------------------------------
  // Search scopes

  /** The elements inside the first `div` of class `ContentMain`, else inside the first of
      class `MainContentZone`, else the whole document (a found tag is always truthy). */
  function MainScope(doc: seq<Node>): (r: seq<Elem>)
    ensures var all := Elements(doc);
      forall i :: FirstMatch(all, IsContentMain, i) ==> r == Descendants(all[i])
    ensures var all := Elements(doc);
      NoMatch(all, IsContentMain) ==>
        forall i :: FirstMatch(all, IsMainContentZone, i) ==> r == Descendants(all[i])
    ensures var all := Elements(doc);
      NoMatch(all, IsContentMain) && NoMatch(all, IsMainContentZone) ==> r == all
  {
    var all := Elements(doc);
    match Find(all, IsContentMain)
    case Some(d) => Descendants(d)
    case None =>
      match Find(all, IsMainContentZone)
      case Some(d) => Descendants(d)
      case None => all
  }

  /** The body-text scope adds the first `div` with a class mentioning "content" as a third
      choice before the whole document (run.py:204-207, scraper.py:173-182). */
  function BodyScope(doc: seq<Node>): (r: seq<Elem>)
    ensures var all := Elements(doc);
      (!NoMatch(all, IsContentMain) || !NoMatch(all, IsMainContentZone)) ==> r == MainScope(doc)
    ensures var all := Elements(doc);
      NoMatch(all, IsContentMain) && NoMatch(all, IsMainContentZone) ==>
        (forall i :: FirstMatch(all, IsContentDiv, i) ==> r == Descendants(all[i])) &&
        (NoMatch(all, IsContentDiv) ==> r == all)
  {
    var all := Elements(doc);
    if Find(all, IsContentMain).Some? || Find(all, IsMainContentZone).Some? then MainScope(doc)
    else
      match Find(all, IsContentDiv)
      case Some(d) => Descendants(d)
      case None => all
  }

  // ---------------------------------------------------------------------------
  // Hero image

  const SkipTerms: seq<string> := ["facebook.com/tr", "google-analytics", "pixel", "doubleclick", "logo",
    "icon", "avatar", "_layouts", "spcommon", "siteassets"]

  const ImageExts: seq<string> := [".png", ".jpg", ".jpeg", ".gif", ".webp"]

  /** The lowercased source mentions a tracking or site-chrome term. */
  predicate IsSkipped(src: string) {
    exists k :: 0 <= k < |SkipTerms| && Contains(Lower(src), SkipTerms[k])
  }

  /** The lowercased source ends with an accepted image extension. */
  predicate HasImageExt(src: string) {
    exists k :: 0 <= k < |ImageExts| && EndsWith(Lower(src), ImageExts[k])
  }

  predicate IsAcceptedImg(e: Elem) {
    var src := AttrOr(e, "src", "");
    src != "" && !IsSkipped(src) && HasImageExt(src)
  }

  /** The loop of `extract_hero_image` over the candidate images: the first accepted one
      whose normalized URL is non-empty. */
  function HeroFrom(imgs: seq<Elem>, pageBase: string): (r: Option<string>)
    ensures forall i :: FirstMatch(imgs, IsAcceptedImg, i) ==>
      r == Some(NormalizeUrl(AttrOr(imgs[i], "src", ""), pageBase))
    ensures NoMatch(imgs, IsAcceptedImg) ==> r == None
    decreases |imgs|
  {
    if imgs == [] then None
    else
      var src := AttrOr(imgs[0], "src", "");
      if src == "" || IsSkipped(src) || !HasImageExt(src) then
        FirstMatchTail(imgs, IsAcceptedImg);
        HeroFrom(imgs[1..], pageBase)
      else
        // the `if url:` test always passes: a non-empty source never normalizes to ""
        var url := NormalizeUrl(src, pageBase);
        assert FirstMatch(imgs, IsAcceptedImg, 0);
        if url != "" then Some(url) else assert false; None
  }

  /** `extract_hero_image` (run.py:187-200, scraper.py:142-168): among the `img` elements
      with a `src` in the main scope, the normalized source of the first one that is not
      skipped and has an image extension; `None` when none qualifies. */
  function ExtractHeroImage(doc: seq<Node>, pageBase: string): (r: Option<string>)
    ensures var imgs := FindAll(MainScope(doc), IsImgWithSrc);
      forall i :: FirstMatch(imgs, IsAcceptedImg, i) ==>
        r == Some(NormalizeUrl(AttrOr(imgs[i], "src", ""), pageBase))
    ensures NoMatch(FindAll(MainScope(doc), IsImgWithSrc), IsAcceptedImg) ==> r == None
    ensures r.Some? ==> |r.value| >= 3 && '#' !in r.value
  {
    var imgs := FindAll(MainScope(doc), IsImgWithSrc);
    var r := HeroFrom(imgs, pageBase);
    assert r.Some? ==> exists i :: FirstMatch(imgs, IsAcceptedImg, i) by {
      if r.Some? {
        var i := FindIndex(imgs, IsAcceptedImg);
        assert i < |imgs|;
      }
    }
    r
  }

  // ---------------------------------------------------------------------------
  // Body text

  /** The cleaned text of a block. */
  function BlockText(e: Elem): string {
    SafeText(TextOf(e))
  }

  function Texts(es: seq<Elem>): (r: seq<string>)
    ensures |r| == |es|
    ensures forall i :: 0 <= i < |es| ==> r[i] == BlockText(es[i])
  {
    seq(|es|, i requires 0 <= i < |es| => BlockText(es[i]))
  }

  lemma TextsSnoc(es: seq<Elem>, e: Elem)
    ensures Texts(es + [e]) == Texts(es) + [BlockText(e)]
  {
  }

  /** run.py keeps a `p` or `em` block unless it is an `em` inside some `p`, and only when its
      cleaned text has at least 3 characters. */
  predicate IsKeptRunBlock(e: Elem) {
    var t := BlockText(e);
    !(e.tag == "em" && HasAncestor(e, "p")) && t != "" && |Strip(t)| >= 3
  }

  /** scraper.py keeps a `p` block whose cleaned text is longer than 20 characters. */
  predicate IsKeptScraperBlock(e: Elem) {
    var t := BlockText(e);
    t != "" && |t| > 20
  }

  /** The paragraph loop of both extractors: the cleaned text of each kept block, in order. */
  method KeepParagraphs(blocks: seq<Elem>, keep: Elem -> bool) returns (paragraphs: seq<string>)
    ensures paragraphs == Texts(FindAll(blocks, keep))
  {
    paragraphs := [];
    var i := 0;
    while i < |blocks|
      invariant 0 <= i <= |blocks|
      invariant paragraphs == Texts(FindAll(blocks[..i], keep))
    {
      assert blocks[..i + 1] == blocks[..i] + [blocks[i]];
      FindAllSnoc(blocks[..i], blocks[i], keep);
      TextsSnoc(FindAll(blocks[..i], keep), blocks[i]);
      if keep(blocks[i]) {
        paragraphs := paragraphs + [BlockText(blocks[i])];
      }
      i := i + 1;
    }
    assert blocks[..|blocks|] == blocks;
  }

  /** The paragraphs run.py's `extract_body_text` keeps. */
  function RunParagraphs(doc: seq<Node>): seq<string> {
    Texts(FindAll(FindAll(BodyScope(doc), IsPOrEm), IsKeptRunBlock))
  }

  /** The paragraphs scraper.py's `extract_body_text` keeps. */
  function ScraperParagraphs(doc: seq<Node>): seq<string> {
    Texts(FindAll(FindAll(BodyScope(doc), IsP), IsKeptScraperBlock))
  }

  /** `extract_body_text` as in run.py:203-215. */
  method ExtractBodyTextRun(doc: seq<Node>) returns (body: string)
    ensures body == JoinBlank(RunParagraphs(doc))
  {
    var blocks := FindAll(BodyScope(doc), IsPOrEm);
    var paragraphs := KeepParagraphs(blocks, IsKeptRunBlock);
    body := JoinBlank(paragraphs);
  }

  /** `extract_body_text` as in scraper.py:171-191. */
  method ExtractBodyTextScraper(doc: seq<Node>) returns (body: string)
    ensures body == JoinBlank(ScraperParagraphs(doc))
  {
    var ps := FindAll(BodyScope(doc), IsP);
    var paragraphs := KeepParagraphs(ps, IsKeptScraperBlock);
    body := JoinBlank(paragraphs);
  }

  /** Every run.py paragraph comes from a `p` or a free `em` of the scope, in document order,
      has at least 3 characters and no newline, so the body splits back into them. */
  lemma RunParagraphsShape(doc: seq<Node>)
    ensures var kept := FindAll(FindAll(BodyScope(doc), IsPOrEm), IsKeptRunBlock);
      forall i :: 0 <= i < |kept| ==>
        IsPOrEm(kept[i]) && !(kept[i].tag == "em" && HasAncestor(kept[i], "p")) && kept[i] in BodyScope(doc)
    ensures var ps := RunParagraphs(doc);
      (forall i :: 0 <= i < |ps| ==> |ps[i]| >= 3 && '\n' !in ps[i]) &&
      (ps != [] ==> SplitBlank(JoinBlank(ps)) == ps) &&
      (ps == [] ==> JoinBlank(ps) == "")
  {
    var blocks := FindAll(BodyScope(doc), IsPOrEm);
    var kept := FindAll(blocks, IsKeptRunBlock);
    var ps := RunParagraphs(doc);
    forall i | 0 <= i < |kept|
      ensures IsPOrEm(kept[i]) && kept[i] in BodyScope(doc)
    {
      assert kept[i] in blocks;
    }
    forall i | 0 <= i < |ps|
      ensures |ps[i]| >= 3 && '\n' !in ps[i]
    {
      var t := BlockText(kept[i]);
      assert |Strip(t)| <= |t|;
    }
    if ps != [] {
      SplitJoinBlank(ps);
    }
  }

  /** Every scraper.py paragraph comes from a `p` of the scope, in document order, is longer
      than 20 characters and has no newline, so the body splits back into them. */
  lemma ScraperParagraphsShape(doc: seq<Node>)
    ensures var kept := FindAll(FindAll(BodyScope(doc), IsP), IsKeptScraperBlock);
      forall i :: 0 <= i < |kept| ==> IsP(kept[i]) && kept[i] in BodyScope(doc)
    ensures var ps := ScraperParagraphs(doc);
      (forall i :: 0 <= i < |ps| ==> |ps[i]| > 20 && '\n' !in ps[i]) &&
      (ps != [] ==> SplitBlank(JoinBlank(ps)) == ps)
  {
    var kept := FindAll(FindAll(BodyScope(doc), IsP), IsKeptScraperBlock);
    forall i | 0 <= i < |kept|
      ensures IsP(kept[i]) && kept[i] in BodyScope(doc)
    {
      assert kept[i] in FindAll(BodyScope(doc), IsP);
    }
    var ps := ScraperParagraphs(doc);
    assert ps == Texts(kept);
    forall i | 0 <= i < |ps|
      ensures |ps[i]| > 20 && '\n' !in ps[i]
    {
      assert ps[i] == BlockText(kept[i]) && IsKeptScraperBlock(kept[i]);
    }
    if ps != [] {
      SplitJoinBlank(ps);
    }
  }

  // ---------------------------------------------------------------------------
  // Date

  /** `s[i..i+10]` matches `\d{4}-\d{2}-\d{2}` (ASCII digits). */
  predicate IsDateAt(s: string, i: int) {
    0 <= i && i + 10 <= |s| &&
    IsDigit(s[i]) && IsDigit(s[i + 1]) && IsDigit(s[i + 2]) && IsDigit(s[i + 3]) && s[i + 4] == '-' &&
    IsDigit(s[i + 5]) && IsDigit(s[i + 6]) && s[i + 7] == '-' && IsDigit(s[i + 8]) && IsDigit(s[i + 9])
  }

  /** The first position at or after `from` where a date starts, or -1. */
  function DateIndex(s: string, from: nat): (j: int)
    ensures j == -1 || (from <= j && IsDateAt(s, j))
    ensures forall k :: from <= k && (j == -1 || k < j) ==> !IsDateAt(s, k)
    decreases |s| - from
  {
    if from + 10 > |s| then -1
    else if IsDateAt(s, from) then from
    else DateIndex(s, from + 1)
  }

  /** `re.search(r"(\d{4}-\d{2}-\d{2})", s)`'s group: the leftmost date in `s`. */
  function FindDate(s: string): (r: Option<string>)
    ensures r.None? <==> forall k :: !IsDateAt(s, k)
    ensures forall i :: IsDateAt(s, i) && (forall k :: 0 <= k < i ==> !IsDateAt(s, k)) ==>
      r == Some(s[i..i + 10])
    ensures r.Some? ==> |r.value| == 10 && IsDateAt(r.value, 0)
  {
    var j := DateIndex(s, 0);
    if j == -1 then None else Some(s[j..j + 10])
  }

  /** The text a date box is searched in. */
  function BoxText(e: Elem): string {
    SafeText(TextOf(e))
  }

  predicate HasDateText(e: Elem) {
    FindDate(BoxText(e)).Some?
  }

  /** The first step of `extract_date`: the date in the first `article:published_time`
      meta's content, when that content is non-empty and holds one. */
  function MetaDate(doc: seq<Node>): (r: Option<string>)
    ensures var all := Elements(doc);
      forall i :: FirstMatch(all, IsPublishedTime, i) ==> r == FindDate(AttrOr(all[i], "content", ""))
    ensures NoMatch(Elements(doc), IsPublishedTime) ==> r == None
  {
    var all := Elements(doc);
    match Find(all, IsPublishedTime)
    case Some(pub) =>
      var content := AttrOr(pub, "content", "");
      if content != "" then FindDate(content)
      else
        assert forall k :: !IsDateAt(content, k);
        None
    case None => None
  }

  /** `extract_date` (run.py:218-228, scraper.py:194-212): the meta date, else the date in
      the first `span` or `div` with a date-like class whose text holds one, else `None`. */
  function ExtractDate(doc: seq<Node>): (r: Option<string>)
    ensures MetaDate(doc).Some? ==> r == MetaDate(doc)
    ensures var boxes := FindAll(Elements(doc), IsDateBox);
      MetaDate(doc).None? ==>
        (forall j :: FirstMatch(boxes, HasDateText, j) ==> r == FindDate(BoxText(boxes[j]))) &&
        (NoMatch(boxes, HasDateText) ==> r == None)
    ensures r.Some? ==> |r.value| == 10 && IsDateAt(r.value, 0)
  {
    var m := MetaDate(doc);
    if m.Some? then m
    else
      var boxes := FindAll(Elements(doc), IsDateBox);
      match Find(boxes, HasDateText)
      case Some(el) => FindDate(BoxText(el))
      case None => None
  }

  // ---------------------------------------------------------------------------
  // parse_story_html

  datatype Story = Story(sourceUrl: string, title: string, date: Option<string>, description: string,
                         bodyText: string, heroImage: Option<string>)

  /** `parse_story_html` as in run.py:231-241, over the parsed document. */
  method ParseStoryRun(doc: seq<Node>, pageUrl: string) returns (s: Story)
    ensures s == Story(pageUrl, ExtractTitle(doc), ExtractDate(doc), ExtractDescription(doc),
                       JoinBlank(RunParagraphs(doc)), ExtractHeroImage(doc, PageBase(pageUrl)))
  {
    var base := PageBase(pageUrl);
    var body := ExtractBodyTextRun(doc);
    s := Story(pageUrl, ExtractTitle(doc), ExtractDate(doc), ExtractDescription(doc), body,
               ExtractHeroImage(doc, base));
  }

  /** `parse_story_html` as in scraper.py:215-232, with the scraper's body-text rule. */
  method ParseStoryScraper(doc: seq<Node>, pageUrl: string) returns (s: Story)
    ensures s == Story(pageUrl, ExtractTitle(doc), ExtractDate(doc), ExtractDescription(doc),
                       JoinBlank(ScraperParagraphs(doc)), ExtractHeroImage(doc, PageBase(pageUrl)))
  {
    var pageBase := PageBase(pageUrl);
    var title := ExtractTitle(doc);
    var description := ExtractDescription(doc);
    var bodyText := ExtractBodyTextScraper(doc);
    var heroImage := ExtractHeroImage(doc, pageBase);
    var date := ExtractDate(doc);
    s := Story(pageUrl, title, date, description, bodyText, heroImage);
  }
}
