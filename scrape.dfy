/** The scraping loops: the collision-avoiding file naming, `download_image`, run.py's
    `run_scrape` and scraper.py's `main`. Page and image fetches are inputs:
    `fetch(k)` is what fetching the `k`-th URL (from 0) gives, `image(k)` what downloading
    that page's hero image gives. A directory is the set of file names in it. */
module Scrape {
  import opened Basics
  import opened Text
  import opened Url
  import opened Dom
  import opened Extract
  import opened Media
  import opened Links

  // ---------------------------------------------------------------------------
  // Collision-avoiding names

  /** The `n`-th name the loops try: `base+ext`, then `base_1+ext`, `base_2+ext`, ... */
  function Candidate(base: string, n: nat, ext: string): string {
    if n == 0 then base + ext else base + "_" + NatToString(n) + ext
  }

  lemma {:induction false} CandidateInjective(base: string, ext: string, a: nat, b: nat)
    requires Candidate(base, a, ext) == Candidate(base, b, ext)
    ensures a == b
  {
    if a != 0 && b != 0 {
      var da, db := NatToString(a), NatToString(b);
      var x, y := base + "_" + da + ext, base + "_" + db + ext;
      assert |da| == |db|;
      assert x[|base| + 1..|base| + 1 + |da|] == da;
      assert y[|base| + 1..|base| + 1 + |db|] == db;
      NatToStringInjective(a, b);
    }
  }

  /** When the first `c` candidates all exist, there are at least `c` existing names. */
  lemma {:induction false} TriedBound(existing: set<string>, base: string, ext: string, c: nat)
    requires forall k :: 0 <= k < c ==> Candidate(base, k, ext) in existing
    ensures c <= |existing|
    decreases c
  {
    if c > 0 {
      var last := Candidate(base, c - 1, ext);
      var rest := existing - {last};
      forall k | 0 <= k < c - 1
        ensures Candidate(base, k, ext) in rest
      {
        if Candidate(base, k, ext) == last {
          CandidateInjective(base, ext, k, c - 1);
        }
      }
      TriedBound(rest, base, ext, c - 1);
    }
  }

  /** `name` is the first candidate that is not an existing name. */
  ghost predicate IsFirstFree(existing: set<string>, base: string, ext: string, name: string) {
    name !in existing &&
    exists c: nat :: name == Candidate(base, c, ext) && forall k :: 0 <= k < c ==> Candidate(base, k, ext) in existing
  }

  /** The `while fp.exists()` loops (run.py:264-268, run.py:313-317): they end for every
      finite directory and pick the first free candidate. */
  method PickFreeName(existing: set<string>, base: string, ext: string) returns (name: string)
    ensures IsFirstFree(existing, base, ext, name)
  {
    name := base + ext;
    var c := 1;
    while name in existing
      invariant 1 <= c
      invariant name == Candidate(base, c - 1, ext)
      invariant forall k :: 0 <= k < c - 1 ==> Candidate(base, k, ext) in existing
      decreases |existing| - (c - 1)
    {
      TriedBound(existing, base, ext, c);
      name := base + "_" + NatToString(c) + ext;
      c := c + 1;
    }
  }

  // ---------------------------------------------------------------------------
  // download_image

  /** What requesting an image gives: its Content-Type header ("" when missing), or any
      failure (HTTP error, network error, failed write), which `download_image` swallows. */
  datatype ImageFetch = ImageOk(contentType: string) | ImageFailed

  /** The path of a saved image relative to the run folder. */
  const ImagesDir: string := "output/images/"

  /** `download_image` (run.py:254-272): saves under the first free name with the
      extension `ImageExt` chooses and returns its path relative to the run folder; `None`
      on any failure. */
  method DownloadImage(fetch: ImageFetch, imageUrl: string, images: set<string>, base: string)
    returns (saved: Option<string>, images': set<string>)
    ensures fetch.ImageFailed? ==> saved == None && images' == images
    ensures fetch.ImageOk? ==> exists name ::
      IsFirstFree(images, base, ImageExt(fetch.contentType, imageUrl), name) &&
      saved == Some(ImagesDir + name) && images' == images + {name}
  {
    match fetch
    case ImageFailed =>
      saved, images' := None, images;
    case ImageOk(ct) =>
      var ext := ChooseImageExt(ct, imageUrl);
      var name := PickFreeName(images, base, ext);
      saved, images' := Some(ImagesDir + name), images + {name};
  }

  // ---------------------------------------------------------------------------
  // run_scrape

  /** What fetching a page gives: the parsed page, an HTTP error status, a network error
      (`Timeout`, `ConnectionError`, `SSLError` or a subclass, by class name) or any other
      exception. */
  datatype FetchOutcome =
    | Fetched(doc: seq<Node>)
    | HttpFailure(status: int)
    | NetworkFailure(typeName: string)
    | OtherFailure(typeName: string, msg: string)

  /** An entry of the summary's `errors` list. */
  datatype ErrorEntry =
    | HttpErrorEntry(url: string, code: Option<int>)
    | NetworkErrorEntry(url: string, typeName: string)
    | OtherErrorEntry(url: string, typeName: string, msg: string)

  /** The saved JSON record. */
  datatype Record = Record(sourceUrl: string, title: string, date: Option<string>, description: string,
                           bodyText: string, heroImage: Option<string>)

  datatype Summary = Summary(total: nat, success: nat, failed: nat, errors: seq<ErrorEntry>)

  /** The error entry run.py records for a failed fetch. The response of an HTTP error is
      falsy (its status is at least 400), so its code is always recorded as `None`. */
  function RunErrorEntry(url: string, outcome: FetchOutcome): (e: ErrorEntry)
    requires !outcome.Fetched?
    ensures e.url == url
    ensures outcome.HttpFailure? ==> e == HttpErrorEntry(url, None)
    ensures outcome.NetworkFailure? ==> e == NetworkErrorEntry(url, outcome.typeName)
    ensures outcome.OtherFailure? ==> e == OtherErrorEntry(url, outcome.typeName, outcome.msg)
  {
    match outcome
    case HttpFailure(_) => HttpErrorEntry(url, None)
    case NetworkFailure(t) => NetworkErrorEntry(url, t)
    case OtherFailure(t, m) => OtherErrorEntry(url, t, m)
  }

  /** The error entries for the first `n` URLs, in URL order. */
  function RunErrors(urls: seq<string>, fetch: nat -> FetchOutcome, n: nat): (r: seq<ErrorEntry>)
    requires n <= |urls|
    ensures |r| <= n
    decreases n
  {
    if n == 0 then []
    else
      var before := RunErrors(urls, fetch, n - 1);
      if fetch(n - 1).Fetched? then before else before + [RunErrorEntry(urls[n - 1], fetch(n - 1))]
  }

  /** The indexes among the first `n` whose page was fetched, in order. */
  function Fetches(fetch: nat -> FetchOutcome, n: nat): (r: seq<nat>)
    ensures |r| <= n
    ensures forall j :: 0 <= j < |r| ==> r[j] < n && fetch(r[j]).Fetched?
    ensures forall j, j' :: 0 <= j < j' < |r| ==> r[j] < r[j']
    decreases n
  {
    if n == 0 then []
    else if fetch(n - 1).Fetched? then Fetches(fetch, n - 1) + [n - 1]
    else Fetches(fetch, n - 1)
  }

  /** Every URL is either fetched or has exactly one error entry. */
  lemma {:induction false} FetchesAndErrors(urls: seq<string>, fetch: nat -> FetchOutcome, n: nat)
    requires n <= |urls|
    ensures |Fetches(fetch, n)| + |RunErrors(urls, fetch, n)| == n
    decreases n
  {
    if n > 0 {
      FetchesAndErrors(urls, fetch, n - 1);
    }
  }

  /** The HTTP error code run.py records is never known. */
  lemma {:induction false} RunHttpCodesUnknown(urls: seq<string>, fetch: nat -> FetchOutcome, n: nat)
    requires n <= |urls|
    ensures forall e :: e in RunErrors(urls, fetch, n) && e.HttpErrorEntry? ==> e.code == None
    decreases n
  {
    if n > 0 {
      RunHttpCodesUnknown(urls, fetch, n - 1);
    }
  }

  /** The record written for a story: its fields, with `hero_image` replaced by the local
      path when the download gave one (run.py:319-328). */
  function MakeRecord(s: Story, localImage: Option<string>): (r: Record)
    ensures r.sourceUrl == s.sourceUrl && r.title == s.title && r.date == s.date &&
      r.description == s.description && r.bodyText == s.bodyText
    ensures localImage.Some? && localImage.value != "" ==> r.heroImage == localImage
    ensures !(localImage.Some? && localImage.value != "") ==> r.heroImage == s.heroImage
  {
    Record(s.sourceUrl, s.title, s.date, s.description, s.bodyText,
           if localImage.Some? && localImage.value != "" then localImage else s.heroImage)
  }

  /** What saving a story does to its hero image, the image folder going from `images` to
      `images'`: a non-empty hero URL whose download succeeds is replaced by the path of
      the copy, saved under the first free `<safe title><ext>` name; otherwise the hero
      image is kept and no image is saved. */
  ghost predicate HeroSaved(hero: Option<string>, safeTitle: string, image: ImageFetch, images: set<string>,
                            recHero: Option<string>, images': set<string>) {
    if hero.Some? && hero.value != "" && image.ImageOk? then
      exists n :: IsFirstFree(images, safeTitle, ImageExt(image.contentType, hero.value), n) &&
                  recHero == Some(ImagesDir + n) && images' == images + {n}
    else recHero == hero && images' == images
  }

  /** `rec` holds what was parsed from the page `doc` at `url`, its hero image saved with
      the image fetch `image` while the image folder went from `images` to `images'`. */
  ghost predicate SavedFrom(rec: Record, url: string, doc: seq<Node>, image: ImageFetch, images: set<string>,
                            images': set<string>) {
    rec.sourceUrl == url && rec.title == ExtractTitle(doc) && rec.date == ExtractDate(doc) &&
    rec.description == ExtractDescription(doc) && rec.bodyText == JoinBlank(RunParagraphs(doc)) &&
    HeroSaved(ExtractHeroImage(doc, PageBase(url)), SanitizeFilename(ExtractTitle(doc)), image, images,
              rec.heroImage, images')
  }

  /** The body of the loop of `run_scrape` for one fetched page (run.py:305-336). */
  method SavePage(doc: seq<Node>, url: string, image: ImageFetch, outputs: set<string>, images: set<string>)
    returns (name: string, rec: Record, images': set<string>)
    ensures IsFirstFree(outputs, SanitizeFilename(ExtractTitle(doc)), ".json", name)
    ensures SavedFrom(rec, url, doc, image, images, images')
  {
    var story := ParseStoryRun(doc, url);
    name, rec, images' := StoreStory(story, image, outputs, images);
  }

  /** Saving a parsed story: its hero image first, then the JSON file (run.py:307-336). */
  method StoreStory(story: Story, image: ImageFetch, outputs: set<string>, images: set<string>)
    returns (name: string, rec: Record, images': set<string>)
    ensures IsFirstFree(outputs, SanitizeFilename(story.title), ".json", name)
    ensures rec.sourceUrl == story.sourceUrl && rec.title == story.title && rec.date == story.date &&
      rec.description == story.description && rec.bodyText == story.bodyText
    ensures HeroSaved(story.heroImage, SanitizeFilename(story.title), image, images, rec.heroImage, images')
  {
    var safeTitle := SanitizeFilename(story.title);
    var localImage: Option<string> := None;
    images' := images;
    if story.heroImage.Some? && story.heroImage.value != "" {
      localImage, images' := DownloadImage(image, story.heroImage.value, images, safeTitle);
    }
    name := PickFreeName(outputs, safeTitle, ".json");
    rec := MakeRecord(story, localImage);
  }

  /** The variables of `run_scrape`: the JSON files written so far (names and records), the
      summary, and the names in the output and image folders. */
  datatype ScrapeState = ScrapeState(jsonPaths: seq<string>, written: map<string, Record>, summary: Summary,
                                     outputs: set<string>, images: set<string>)

  /** What a page saves: its record, from the page at a URL, with the image fetch and the
      image folder before and after. */
  type Saving = (Record, string, seq<Node>, ImageFetch, set<string>, set<string>) -> bool

  /** The output folder before the `j`-th saved page: the names it had at the start and the
      first `j` names saved. */
  function OutputsBefore(outputs0: set<string>, paths: seq<string>, j: nat): set<string>
    requires j <= |paths|
  {
    outputs0 + set x | x in paths[..j]
  }

  /** The base of a page's JSON file name: its sanitized title (run.py:311). */
  function TitleBase(doc: seq<Node>): string {
    SanitizeFilename(ExtractTitle(doc))
  }

  /** The base names `base` gives the pages fetched among the first `n` URLs, in order. */
  function JsonBases(fetch: nat -> FetchOutcome, n: nat, base: seq<Node> -> string): (r: seq<string>)
    ensures |r| == |Fetches(fetch, n)|
    decreases n
  {
    if n == 0 then []
    else if fetch(n - 1).Fetched? then JsonBases(fetch, n - 1, base) + [base(fetch(n - 1).doc)]
    else JsonBases(fetch, n - 1, base)
  }

  /** The `j`-th base name is that of the `j`-th fetched page. */
  lemma {:induction false} JsonBasesAt(fetch: nat -> FetchOutcome, n: nat, base: seq<Node> -> string, j: nat)
    requires j < |Fetches(fetch, n)|
    ensures JsonBases(fetch, n, base)[j] == base(fetch(Fetches(fetch, n)[j]).doc)
    decreases n
  {
    if n > 0 && j < |Fetches(fetch, n - 1)| {
      JsonBasesAt(fetch, n - 1, base, j);
    }
  }

  /** Each name of `paths` is the first free `<bases[j]>.json` of the output folder as it was
      before it was saved. */
  ghost predicate FirstFreeNames(outputs0: set<string>, paths: seq<string>, bases: seq<string>) {
    |paths| == |bases| &&
    forall j :: 0 <= j < |paths| ==> IsFirstFree(OutputsBefore(outputs0, paths, j), bases[j], ".json", paths[j])
  }

  lemma FirstFreeSnoc(outputs0: set<string>, paths: seq<string>, bases: seq<string>, name: string, base: string)
    requires FirstFreeNames(outputs0, paths, bases)
    requires IsFirstFree(OutputsBefore(outputs0, paths, |paths|), base, ".json", name)
    ensures FirstFreeNames(outputs0, paths + [name], bases + [base])
  {
    var ps', bs' := paths + [name], bases + [base];
    forall j | 0 <= j < |ps'|
      ensures IsFirstFree(OutputsBefore(outputs0, ps', j), bs'[j], ".json", ps'[j])
    {
      assert ps'[..j] == paths[..j] by { assert ps'[..|paths|] == paths; }
    }
  }

  /** The names saved for the fetched pages are the first free `<safe title>.json` names. */
  lemma FirstFreeTitles(fetch: nat -> FetchOutcome, outputs0: set<string>, n: nat, paths: seq<string>)
    requires FirstFreeNames(outputs0, paths, JsonBases(fetch, n, TitleBase))
    ensures forall j :: 0 <= j < |paths| ==>
      var k := Fetches(fetch, n)[j];
      IsFirstFree(OutputsBefore(outputs0, paths, j), SanitizeFilename(ExtractTitle(fetch(k).doc)), ".json", paths[j])
  {
    forall j | 0 <= j < |paths|
      ensures JsonBases(fetch, n, TitleBase)[j] == TitleBase(fetch(Fetches(fetch, n)[j]).doc)
    {
      JsonBasesAt(fetch, n, TitleBase, j);
    }
  }

  /** What holds after the first `n` URLs, `saved` saying which record a fetched page gives;
      `folders[j]` is the image folder before the `j`-th saved page, and its last entry the
      image folder now. */
  ghost predicate Progress(urls: seq<string>, fetch: nat -> FetchOutcome, image: nat -> ImageFetch,
                           outputs0: set<string>, n: nat, st: ScrapeState, folders: seq<set<string>>,
                           saved: Saving, base: seq<Node> -> string) {
    var fs := Fetches(fetch, n);
    n <= |urls| && |folders| == |st.jsonPaths| + 1 && folders[|st.jsonPaths|] == st.images &&
    st.summary.total == |urls| && st.summary.success + st.summary.failed == n &&
    |st.summary.errors| == st.summary.failed && |st.jsonPaths| == st.summary.success &&
    st.summary.errors == RunErrors(urls, fetch, n) && |st.jsonPaths| == |fs| &&
    st.outputs == OutputsBefore(outputs0, st.jsonPaths, |st.jsonPaths|) &&
    (forall j :: 0 <= j < |st.jsonPaths| ==> st.jsonPaths[j] in st.written) &&
    FirstFreeNames(outputs0, st.jsonPaths, JsonBases(fetch, n, base)) &&
    (forall j :: 0 <= j < |st.jsonPaths| ==>
       saved(st.written[st.jsonPaths[j]], urls[fs[j]], fetch(fs[j]).doc, image(fs[j]), folders[j], folders[j + 1]))
  }

  /** One turn of the loop of `run_scrape` (run.py:284-336). */
  method ScrapeOne(urls: seq<string>, fetch: nat -> FetchOutcome, image: nat -> ImageFetch,
                   outputs0: set<string>, i: nat, st: ScrapeState, ghost folders: seq<set<string>>)
    returns (st': ScrapeState, ghost folders': seq<set<string>>)
    requires i < |urls| && Progress(urls, fetch, image, outputs0, i, st, folders, SavedFrom, TitleBase)
    ensures Progress(urls, fetch, image, outputs0, i + 1, st', folders', SavedFrom, TitleBase)
    ensures |folders| <= |folders'| && folders'[..|folders|] == folders
  {
    var url := urls[i];
    var summary := st.summary;
    folders' := folders;
    match fetch(i)
    case Fetched(doc) =>
      var name, rec, images' := SavePage(doc, url, image(i), st.outputs, st.images);
      st' := ScrapeState(st.jsonPaths + [name], st.written[name := rec],
                         summary.(success := summary.success + 1), st.outputs + {name}, images');
      folders' := folders + [images'];
      SavedStep(urls, fetch, image, outputs0, i, st, folders, name, rec, st', SavedFrom, TitleBase);
    case HttpFailure(_) =>
      st' := st.(summary := summary.(failed := summary.failed + 1,
                                     errors := summary.errors + [HttpErrorEntry(url, None)]));
      FailedStep(urls, fetch, image, outputs0, i, st, folders, st', SavedFrom, TitleBase);
    case NetworkFailure(t) =>
      st' := st.(summary := summary.(failed := summary.failed + 1,
                                     errors := summary.errors + [NetworkErrorEntry(url, t)]));
      FailedStep(urls, fetch, image, outputs0, i, st, folders, st', SavedFrom, TitleBase);
    case OtherFailure(t, m) =>
      st' := st.(summary := summary.(failed := summary.failed + 1,
                                     errors := summary.errors + [OtherErrorEntry(url, t, m)]));
      FailedStep(urls, fetch, image, outputs0, i, st, folders, st', SavedFrom, TitleBase);
  }

  lemma FailedStep(urls: seq<string>, fetch: nat -> FetchOutcome, image: nat -> ImageFetch, outputs0: set<string>,
                   i: nat, st: ScrapeState, folders: seq<set<string>>, st': ScrapeState, saved: Saving,
                   base: seq<Node> -> string)
    requires i < |urls| && Progress(urls, fetch, image, outputs0, i, st, folders, saved, base) && !fetch(i).Fetched?
    requires st' == st.(summary := st.summary.(failed := st.summary.failed + 1,
                                               errors := st.summary.errors + [RunErrorEntry(urls[i], fetch(i))]))
    ensures Progress(urls, fetch, image, outputs0, i + 1, st', folders, saved, base)
  {
    assert Fetches(fetch, i + 1) == Fetches(fetch, i);
    assert JsonBases(fetch, i + 1, base) == JsonBases(fetch, i, base);
  }

  lemma SavedStep(urls: seq<string>, fetch: nat -> FetchOutcome, image: nat -> ImageFetch, outputs0: set<string>,
                  i: nat, st: ScrapeState, folders: seq<set<string>>, name: string, rec: Record, st': ScrapeState,
                  saved: Saving, base: seq<Node> -> string)
    requires i < |urls| && Progress(urls, fetch, image, outputs0, i, st, folders, saved, base) && fetch(i).Fetched?
    requires IsFirstFree(st.outputs, base(fetch(i).doc), ".json", name)
    requires saved(rec, urls[i], fetch(i).doc, image(i), st.images, st'.images)
    requires st'.jsonPaths == st.jsonPaths + [name] && st'.written == st.written[name := rec]
    requires st'.summary == st.summary.(success := st.summary.success + 1) && st'.outputs == st.outputs + {name}
    ensures Progress(urls, fetch, image, outputs0, i + 1, st', folders + [st'.images], saved, base)
  {
    var folders' := folders + [st'.images];
    var fs, fs' := Fetches(fetch, i), Fetches(fetch, i + 1);
    assert fs' == fs + [i];
    assert RunErrors(urls, fetch, i + 1) == RunErrors(urls, fetch, i);
    var ps, ps' := st.jsonPaths, st'.jsonPaths;
    OutputsSnoc(outputs0, ps, st.written, name, rec);
    SavedSnoc(urls, fetch, image, saved, st.written, ps, fs, folders, name, rec, i, st'.images);
    FirstFreeSnoc(outputs0, ps, JsonBases(fetch, i, base), name, base(fetch(i).doc));
  }

  /** A page saved under a new name keeps what the earlier pages saved. */
  lemma SavedSnoc(urls: seq<string>, fetch: nat -> FetchOutcome, image: nat -> ImageFetch, saved: Saving,
                  written: map<string, Record>, ps: seq<string>, fs: seq<nat>, folders: seq<set<string>>,
                  name: string, rec: Record, k: nat, images': set<string>)
    requires |ps| == |fs| && |folders| == |ps| + 1 && k < |urls| && fetch(k).Fetched? && name !in ps
    requires forall j :: 0 <= j < |fs| ==> fs[j] < |urls| && fetch(fs[j]).Fetched?
    requires forall j :: 0 <= j < |ps| ==> ps[j] in written
    requires forall j :: 0 <= j < |ps| ==>
      saved(written[ps[j]], urls[fs[j]], fetch(fs[j]).doc, image(fs[j]), folders[j], folders[j + 1])
    requires saved(rec, urls[k], fetch(k).doc, image(k), folders[|ps|], images')
    ensures forall j :: 0 <= j < |ps| + 1 ==>
      var ps', fs', folders' := ps + [name], fs + [k], folders + [images'];
      saved(written[name := rec][ps'[j]], urls[fs'[j]], fetch(fs'[j]).doc, image(fs'[j]), folders'[j], folders'[j + 1])
  {
    var ps', fs', folders' := ps + [name], fs + [k], folders + [images'];
    forall j | 0 <= j < |ps'|
      ensures saved(written[name := rec][ps'[j]], urls[fs'[j]], fetch(fs'[j]).doc, image(fs'[j]), folders'[j],
                    folders'[j + 1])
    {
      if j < |ps| {
        assert ps'[j] == ps[j] && fs'[j] == fs[j] && ps[j] != name;
        assert folders'[j] == folders[j] && folders'[j + 1] == folders[j + 1];
      }
    }
  }

  /** Saving a new name keeps the output folder's bookkeeping. */
  lemma OutputsSnoc(outputs0: set<string>, ps: seq<string>, written: map<string, Record>, name: string, rec: Record)
    requires forall j :: 0 <= j < |ps| ==> ps[j] in written
    ensures forall x :: x in ps ==> x in OutputsBefore(outputs0, ps, |ps|)
    ensures OutputsBefore(outputs0, ps + [name], |ps| + 1) == OutputsBefore(outputs0, ps, |ps|) + {name}
    ensures forall j :: 0 <= j < |ps| + 1 ==> (ps + [name])[j] in written[name := rec]
  {
    var ps' := ps + [name];
    assert ps[..|ps|] == ps && ps'[..|ps'|] == ps';
    forall x
      ensures x in ps' <==> x in ps || x == name
    {
      if x in ps' && x != name {
        var j :| 0 <= j < |ps'| && ps'[j] == x;
        assert ps'[j] == ps[j];
      }
    }
    forall j | 0 <= j < |ps'|
      ensures ps'[j] in written[name := rec]
    {
      if j < |ps| {
        assert ps'[j] == ps[j];
      }
    }
  }

  /** The first free names are new and pairwise distinct: each was missing from a folder that
      held the initial names and every earlier one. */
  lemma FirstFreeFresh(outputs0: set<string>, paths: seq<string>, bases: seq<string>)
    requires FirstFreeNames(outputs0, paths, bases)
    ensures forall j :: 0 <= j < |paths| ==> paths[j] !in outputs0
    ensures forall j, j' :: 0 <= j < j' < |paths| ==> paths[j] != paths[j']
  {
    forall j, j' | 0 <= j < j' < |paths|
      ensures paths[j] != paths[j']
    {
      assert paths[j] in paths[..j'];
      assert paths[j] in OutputsBefore(outputs0, paths, j');
    }
  }

  /** `run_scrape` (run.py:275-340): every URL is fetched in turn; a failure adds one to
      `failed`, appends one error entry and moves on; a success saves one JSON file under the
      first free `<safe title>.json` name of the output folder as it then was. `written` maps the saved names to their records;
      `folders[j]` is the image folder before the `j`-th saved page. */
  method RunScrape(urls: seq<string>, fetch: nat -> FetchOutcome, image: nat -> ImageFetch,
                   outputs0: set<string>, images0: set<string>)
    returns (jsonPaths: seq<string>, written: map<string, Record>, summary: Summary, ghost folders: seq<set<string>>)
    ensures summary.total == |urls|
    ensures summary.success + summary.failed == |urls|
    ensures |summary.errors| == summary.failed
    ensures |jsonPaths| == summary.success
    ensures summary.errors == RunErrors(urls, fetch, |urls|)
    ensures |jsonPaths| == |Fetches(fetch, |urls|)|
    ensures forall j :: 0 <= j < |jsonPaths| ==> jsonPaths[j] !in outputs0 && jsonPaths[j] in written
    ensures forall j, j' :: 0 <= j < j' < |jsonPaths| ==> jsonPaths[j] != jsonPaths[j']
    ensures |folders| == |jsonPaths| + 1 && folders[0] == images0
    ensures forall j :: 0 <= j < |jsonPaths| ==>
      var k := Fetches(fetch, |urls|)[j];
      SavedFrom(written[jsonPaths[j]], urls[k], fetch(k).doc, image(k), folders[j], folders[j + 1])
    ensures forall j :: 0 <= j < |jsonPaths| ==>
      var k := Fetches(fetch, |urls|)[j];
      IsFirstFree(OutputsBefore(outputs0, jsonPaths, j), SanitizeFilename(ExtractTitle(fetch(k).doc)), ".json",
                  jsonPaths[j])
  {
    var st := ScrapeState([], map[], Summary(|urls|, 0, 0, []), outputs0, images0);
    folders := [images0];
    var i := 0;
    while i < |urls|
      invariant 0 <= i <= |urls|
      invariant Progress(urls, fetch, image, outputs0, i, st, folders, SavedFrom, TitleBase)
      invariant folders != [] && folders[0] == images0
    {
      ghost var before := folders;
      st, folders := ScrapeOne(urls, fetch, image, outputs0, i, st, folders);
      assert folders[0] == before[..|before|][0];
      i := i + 1;
    }
    jsonPaths, written, summary := st.jsonPaths, st.written, st.summary;
    FirstFreeTitles(fetch, outputs0, |urls|, jsonPaths);
    FirstFreeFresh(outputs0, jsonPaths, JsonBases(fetch, |urls|, TitleBase));
  }

  // ---------------------------------------------------------------------------
  // The loop of scraper.py's main

  /** An entry of scraper.py's `saved_files` list. */
  datatype SavedFile = SavedFile(url: string, filename: string, title: string)

  datatype ScraperSummary = ScraperSummary(total: nat, success: nat, failed: nat, errors: seq<ErrorEntry>,
                                           savedFiles: seq<SavedFile>)

  /** The error entry scraper.py records: unlike run.py, it keeps the HTTP status. */
  function ScraperErrorEntry(url: string, outcome: FetchOutcome): (e: ErrorEntry)
    requires !outcome.Fetched?
    ensures e.url == url
    ensures outcome.HttpFailure? ==> e == HttpErrorEntry(url, Some(outcome.status))
    ensures outcome.NetworkFailure? ==> e == NetworkErrorEntry(url, outcome.typeName)
    ensures outcome.OtherFailure? ==> e == OtherErrorEntry(url, outcome.typeName, outcome.msg)
  {
    match outcome
    case HttpFailure(code) => HttpErrorEntry(url, Some(code))
    case NetworkFailure(t) => NetworkErrorEntry(url, t)
    case OtherFailure(t, m) => OtherErrorEntry(url, t, m)
  }

  function ScraperErrors(urls: seq<string>, fetch: nat -> FetchOutcome, n: nat): (r: seq<ErrorEntry>)
    requires n <= |urls|
    ensures |r| <= n
    decreases n
  {
    if n == 0 then []
    else
      var before := ScraperErrors(urls, fetch, n - 1);
      if fetch(n - 1).Fetched? then before else before + [ScraperErrorEntry(urls[n - 1], fetch(n - 1))]
  }

  /** The file the `idx`-th URL (from 1) is saved to, whether or not it exists already. */
  function StoryFileName(idx: nat): string {
    "story_" + NatToString(idx) + ".json"
  }

  /** The record scraper.py writes for a page fetched from `url`. */
  function ScraperRecord(url: string, doc: seq<Node>): Record {
    Record(url, ExtractTitle(doc), ExtractDate(doc), ExtractDescription(doc),
           JoinBlank(ScraperParagraphs(doc)), ExtractHeroImage(doc, PageBase(url)))
  }

  /** The scraper's summary and files after the first `n` URLs, for a page-to-record
      function `page` (the loop instantiates it with `ScraperRecord`). */
  ghost predicate ScraperProgress(urls: seq<string>, fetch: nat -> FetchOutcome, n: nat, sm: ScraperSummary,
                                  files: map<string, Record>, page: (string, seq<Node>) -> Record) {
    var fs := Fetches(fetch, n);
    n <= |urls| && sm.total == |urls| && sm.success + sm.failed == n && |sm.errors| == sm.failed &&
    |sm.savedFiles| == sm.success && sm.errors == ScraperErrors(urls, fetch, n) && |sm.savedFiles| == |fs| &&
    (forall j :: 0 <= j < |fs| ==>
      var k := fs[j];
      k < |urls| && fetch(k).Fetched? &&
      sm.savedFiles[j] == SavedFile(urls[k], StoryFileName(k + 1), page(urls[k], fetch(k).doc).title) &&
      sm.savedFiles[j].filename in files && files[sm.savedFiles[j].filename] == page(urls[k], fetch(k).doc))
  }

  /** The page loop of scraper.py's `main` (scraper.py:310-373), starting from the files
      `files0` already in the output folder: the `idx`-th URL's page overwrites
      `story_{idx}.json`, and the summary keeps the HTTP status of a failed fetch. */
  method ScraperLoop(urls: seq<string>, fetch: nat -> FetchOutcome, files0: map<string, Record>)
    returns (summary: ScraperSummary, files: map<string, Record>)
    ensures summary.total == |urls|
    ensures summary.success + summary.failed == |urls|
    ensures |summary.errors| == summary.failed
    ensures summary.errors == ScraperErrors(urls, fetch, |urls|)
    ensures |summary.savedFiles| == summary.success == |Fetches(fetch, |urls|)|
    ensures forall j :: 0 <= j < |summary.savedFiles| ==>
      var k := Fetches(fetch, |urls|)[j];
      k < |urls| && fetch(k).Fetched? &&
      summary.savedFiles[j] == SavedFile(urls[k], StoryFileName(k + 1), ScraperRecord(urls[k], fetch(k).doc).title) &&
      summary.savedFiles[j].filename in files &&
      files[summary.savedFiles[j].filename] == ScraperRecord(urls[k], fetch(k).doc)
  {
    summary, files := ScraperPages(urls, fetch, files0);
    ScraperProgressEnds(urls, fetch, summary, files);
  }

  /** The page loop itself, stated by the progress it keeps. */
  method ScraperPages(urls: seq<string>, fetch: nat -> FetchOutcome, files0: map<string, Record>)
    returns (summary: ScraperSummary, files: map<string, Record>)
    ensures ScraperProgress(urls, fetch, |urls|, summary, files, ScraperRecord)
  {
    summary := ScraperSummary(|urls|, 0, 0, [], []);
    files := files0;
    ScraperProgressStarts(urls, fetch, files0);
    var i := 0;
    while i < |urls|
      invariant 0 <= i <= |urls|
      invariant ScraperProgress(urls, fetch, i, summary, files, ScraperRecord)
    {
      summary, files := ScraperOne(urls, fetch, i, summary, files);
      i := i + 1;
    }
  }

  lemma ScraperProgressStarts(urls: seq<string>, fetch: nat -> FetchOutcome, files0: map<string, Record>)
    ensures ScraperProgress(urls, fetch, 0, ScraperSummary(|urls|, 0, 0, [], []), files0, ScraperRecord)
  {
  }

  lemma ScraperProgressEnds(urls: seq<string>, fetch: nat -> FetchOutcome, summary: ScraperSummary,
                            files: map<string, Record>)
    requires ScraperProgress(urls, fetch, |urls|, summary, files, ScraperRecord)
    ensures summary.total == |urls|
    ensures summary.success + summary.failed == |urls|
    ensures |summary.errors| == summary.failed
    ensures summary.errors == ScraperErrors(urls, fetch, |urls|)
    ensures |summary.savedFiles| == summary.success == |Fetches(fetch, |urls|)|
    ensures forall j :: 0 <= j < |summary.savedFiles| ==>
      var k := Fetches(fetch, |urls|)[j];
      k < |urls| && fetch(k).Fetched? &&
      summary.savedFiles[j] == SavedFile(urls[k], StoryFileName(k + 1), ScraperRecord(urls[k], fetch(k).doc).title) &&
      summary.savedFiles[j].filename in files &&
      files[summary.savedFiles[j].filename] == ScraperRecord(urls[k], fetch(k).doc)
  {
  }

  /** scraper.py's `main` after its arguments are read (scraper.py:294-373): `links` are
      the links file's URLs followed by the `--link` ones; with none left after cleaning it
      returns without a summary. */
  method ScraperMain(links: seq<string>, fetch: nat -> FetchOutcome, files0: map<string, Record>)
    returns (summary: Option<ScraperSummary>, files: map<string, Record>)
    ensures StripThenDedup(links) == [] <==> summary.None?
    ensures summary.None? ==> files == files0
    ensures summary.Some? ==> summary.value.total == |StripThenDedup(links)| &&
                              summary.value.success + summary.value.failed == summary.value.total &&
                              summary.value.errors == ScraperErrors(StripThenDedup(links), fetch, summary.value.total)
  {
    var urls := ScraperMainUrls(links);
    if urls == [] {
      return None, files0;
    }
    var sm;
    sm, files := ScraperLoop(urls, fetch, files0);
    summary := Some(sm);
  }

  /** One iteration of scraper.py's page loop: the `i`-th URL. */
  method ScraperOne(urls: seq<string>, fetch: nat -> FetchOutcome, i: nat, summary: ScraperSummary,
                    files: map<string, Record>)
    returns (summary': ScraperSummary, files': map<string, Record>)
    requires i < |urls| && ScraperProgress(urls, fetch, i, summary, files, ScraperRecord)
    ensures ScraperProgress(urls, fetch, i + 1, summary', files', ScraperRecord)
  {
    var url := urls[i];
    var idx := i + 1;
    match fetch(i) {
    case Fetched(doc) =>
      var story := ParseStoryScraper(doc, url);
      var rec := Record(story.sourceUrl, story.title, story.date, story.description, story.bodyText, story.heroImage);
      var name := StoryFileName(idx);
      summary' := summary.(success := summary.success + 1,
                               savedFiles := summary.savedFiles + [SavedFile(url, name, story.title)]);
      ScraperSavedStep(urls, fetch, i, summary, files, rec, ScraperRecord);
      files' := files[name := rec];
    case HttpFailure(code) =>
      summary' := summary.(failed := summary.failed + 1, errors := summary.errors + [HttpErrorEntry(url, Some(code))]);
      ScraperFailedStep(urls, fetch, i, summary, files, summary', ScraperRecord);
      files' := files;
    case NetworkFailure(t) =>
      summary' := summary.(failed := summary.failed + 1, errors := summary.errors + [NetworkErrorEntry(url, t)]);
      ScraperFailedStep(urls, fetch, i, summary, files, summary', ScraperRecord);
      files' := files;
    case OtherFailure(t, m) =>
      summary' := summary.(failed := summary.failed + 1, errors := summary.errors + [OtherErrorEntry(url, t, m)]);
      ScraperFailedStep(urls, fetch, i, summary, files, summary', ScraperRecord);
      files' := files;
    }
  }

  lemma ScraperFailedStep(urls: seq<string>, fetch: nat -> FetchOutcome, i: nat, sm: ScraperSummary,
                          files: map<string, Record>, sm': ScraperSummary, page: (string, seq<Node>) -> Record)
    requires i < |urls| && ScraperProgress(urls, fetch, i, sm, files, page) && !fetch(i).Fetched?
    requires sm' == sm.(failed := sm.failed + 1, errors := sm.errors + [ScraperErrorEntry(urls[i], fetch(i))])
    ensures ScraperProgress(urls, fetch, i + 1, sm', files, page)
  {
    assert Fetches(fetch, i + 1) == Fetches(fetch, i);
  }

  /** Saving the `i`-th page keeps every earlier entry: earlier files have other numbers. */
  lemma ScraperSavedStep(urls: seq<string>, fetch: nat -> FetchOutcome, i: nat, sm: ScraperSummary,
                         files: map<string, Record>, rec: Record, page: (string, seq<Node>) -> Record)
    requires i < |urls| && ScraperProgress(urls, fetch, i, sm, files, page) && fetch(i).Fetched?
    requires rec == page(urls[i], fetch(i).doc)
    ensures ScraperProgress(urls, fetch, i + 1,
                            sm.(success := sm.success + 1,
                                savedFiles := sm.savedFiles + [SavedFile(urls[i], StoryFileName(i + 1), rec.title)]),
                            files[StoryFileName(i + 1) := rec], page)
  {
    var fs := Fetches(fetch, i);
    assert Fetches(fetch, i + 1) == fs + [i];
    forall j | 0 <= j < |fs|
      ensures StoryFileName(fs[j] + 1) != StoryFileName(i + 1)
    {
      if StoryFileName(fs[j] + 1) == StoryFileName(i + 1) {
        FileNumber(fs[j] + 1, i + 1);
      }
    }
  }

  /** Different indices give different story files. */
  lemma FileNumber(a: nat, b: nat)
    requires StoryFileName(a) == StoryFileName(b)
    ensures a == b
  {
    var sa, sb := NatToString(a), NatToString(b);
    assert StoryFileName(a) == "story_" + sa + ".json";
    assert sa == StoryFileName(a)[6..|StoryFileName(a)| - 5];
    assert sb == StoryFileName(b)[6..|StoryFileName(b)| - 5];
    NatToStringInjective(a, b);
  }
}
