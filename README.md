# AKU success stories: scraper and Storyblok uploader, modelled in Dafny

The repository scrapes "success story" pages of the AKU site: it fetches each page, pulls
out a title, a description, a date, a hero image and the body text, and saves one JSON
record per page. It then uploads the records to the Storyblok CMS as stories. The
upload makes sure a content folder path exists, uploads the hero image as an asset, and
creates the story under a slug that does not clash with an existing one. The code lives
in three near-duplicate scripts:

- `run.py` scrapes and uploads (`run_scrape`, `run_upload`);
- `scraper.py` only scrapes, into `story_<n>.json` files;
- `uploader.py` uploads one JSON file.

The model covers the deterministic logic under the HTTP, HTML and filesystem calls.
The modules follow the scripts' own sections.

- `Basics` (basics.dfy): optional values, substring tests, ASCII case mapping, and
  decimal rendering of integers.
- `Text` (text.dfy): `str.strip`, `safe_text`, `sanitize_filename`, `slugify`, and
  splitting on blank lines.
- `Url` (url.dfy): the subset of `urlsplit`, `urljoin` and `quote` that `normalize_url`
  uses; `normalize_url`; `get_page_base`.
- `Links` (links.dfy): `read_links_file` and the URL de-duplications in both `main`s.
- `Media` (media.dfy): `download_image`'s extension choice, `_ext_from_mime`, the
  suffix-to-MIME fallback, and `Path.name` / `Path.suffix`.
- `Dom` (dom.dfy): an abstract parsed document (a tree of elements with tag, attributes,
  classes and text). It has BeautifulSoup's `find` (the first match in document order)
  and `find_all` (all matches in document order).
- `Extract` (extract.dfy): the `extract_*` heuristics and both `parse_story_html`s.
- `Scrape` (scrape.dfy): the collision-avoiding name loops, `download_image`,
  `run_scrape`'s bookkeeping, and scraper.py's page loop.
- `Cms` (cms.dfy): the `StoryblokClient`:
  - `_req` with its bounded retries and linear back-off;
  - the paginated `list_folders`;
  - the folder-path walk of `ensure_content_folder_by_path`;
  - the request bodies of `create_story`, `create_signed_asset` and
    `upload_asset_from_bytes`.
- `Upload` (upload.dfy):
  - `upload_image_to_storyblok` and its network-only retry;
  - `create_storyblok_story` and its three-candidate slug negotiation;
  - the reading of a record and the combination of its description;
  - the hero-path lookup;
  - `run_upload`'s loop over the JSON files.

The network is an oracle of answers: call `m` of the run gets answer `answers(m)`. An
answer is a status, a body and a decoded JSON, or a raised exception. The methods thread
the call counter through and record what they send and how long they sleep as events.
The properties are therefore about call counts, the order of requests, and termination.

The client's fields (`token`, `space_id`, `base`, the session) are set once in its
constructor and never reassigned. The model therefore passes `spaceId` as a parameter
rather than wrapping the client in a class. The loops that update state (the retry
loops, the paging, the folder walk, the name loops, the file loops) are `method`s with
`while` loops. Each such method is proved equal to a recursive specification function,
and lemmas about that function state what the scripts promise. The loops that only
filter a list of elements (`for img in ...` of `extract_hero_image`, `for el in ...` of
the body text) are recursive functions over the element list.

Where run.py and uploader.py (or scraper.py) differ, the model keeps both behaviours:

- a `Script` parameter (`RunScript` or `UploaderScript`), or
- two members.

The quirks are reproduced as written.

- run.py never retries a slug conflict: a `requests` response is falsy when its status
  is 400 or more.
- run.py records the code of an HTTP page error as `None`, for the same reason.
- `_req` retries every error, a 422 included.
- An `<h1>` without text gives an empty title.
- An image extension that occurs in the URL overrides the Content-Type's.
- run.py's `main` de-duplicates its URLs before stripping them.
- `normalize_url` is not idempotent in two cases:
  - a relative `src` without a leading `/`: `a.jpg` becomes `://a.jpg`, which has no
    scheme, and normalizing that gives `://%3A//a.jpg`;
  - a network location that ends in a blank kept only by a fragment: `//a #f` becomes
    `https://a ` (the fragment is dropped), and normalizing that strips it to `https://a`.

## Model

| member | source | states |
|---|---|---|
| Text.Trim | run.py:100 | `str.strip(chars)`: the result is the slice of the input between its leading and its trailing run of stripped characters (every character outside the slice is a stripped one), and it neither starts nor ends with a stripped character |
| Text.StripIdempotent | run.py:99-100 | stripping twice equals stripping once |
| Text.SafeText | run.py:98-101 | `safe_text` output has no whitespace at either end, contains no `\xa0` and no newline, and has whitespace only as single plain spaces, never two in a row; its non-whitespace characters are exactly those of the input, in order (same code at scraper.py:72-75) |
| Text.SafeTextIdempotent | scraper.py:72-75 | applying `safe_text` twice equals applying it once |
| Text.SanitizeFilename | run.py:104-107 | the name has 1 to 200 characters, none of them `<>:"/\|?*` or a space, and it does not start with a dot; an input whose characters are all deleted ones or dots gives `"story"`; a name not cut at 200 keeps every other character of the input (spaces as `_`), in order |
| Text.SanitizeKeepsSafeName | run.py:104-107 | a name that is already safe (allowed characters only, no dot at either end, at most 200 characters) is returned unchanged |
| Text.SlugCore | uploader.py:65-67 | after the `[^\w\s-]` deletion and the `[\s_-]+` replacement, the stripped slug has only lowercase letters, digits and `-`, no `--`, and no `-` at either end |
| Text.Slugify | uploader.py:64-71 | a slug of an ASCII title has at most `max_len` characters, only lowercase letters, digits and `-`, no `-` at either end and no `--`; it is never empty when `max_len >= 1`; a title that fits and has a letter or digit keeps all its letters and digits, lowercased, in order (same code at run.py:129-135) |
| Text.SlugifyFallback | uploader.py:68-71 | a title with no letter or digit becomes `story-<now>` cut to `max_len`, and exactly `story-<now>` when that fits |
| Text.CollapseRuns | run.py:100 | `re.sub(r"\s+", " ", s)`: every character left is the replacement or not whitespace, no two neighbours are both whitespace, the non-whitespace characters are exactly the input's, in order, and the result is no longer than the input |
| Text.SplitJoinBlank | run.py:215 | blocks without a newline, joined by `"\n\n"`, split back on `"\n\n"` into the same blocks |
| Url.Quote | run.py:119-120 | every character of `quote(s, safe)` is `%` or a safe character; the result is empty only for the empty input |
| Url.QuoteKeepsSafe | run.py:119-120 | a string made only of safe characters is left unchanged |
| Url.QuoteIdempotent | scraper.py:87-88 | with `%` in the safe set, as in both calls of `normalize_url`, percent-encoding twice equals encoding once |
| Url.QuoteAppend | run.py:119-120 | quoting distributes over concatenation |
| Url.SplitWith | run.py:118 | the `urlsplit` subset: the network location stops before the first `/`, `?` or `#`; the path holds no `?` or `#` and the query no `#`; a scheme that is found is lowercase and starts with a letter |
| Url.Split | run.py:118 | without a default scheme, the scheme is lowercase letters, digits and `+-.`, starting with a letter when present |
| Url.SplitRoundTrip | run.py:118 | `scheme://netloc` followed by a path from the root, an optional `?query` and an optional `#fragment` splits back into exactly those parts |
| Url.Encode | run.py:121 | `scheme://netloc path`, with `?query` added exactly when the encoded query is not empty; the fragment is dropped |
| Url.NormalizeUrl | run.py:110-121 | `normalize_url`: `""` gives `""`; otherwise the result has no `#`, and holds `?` exactly when the query of the absolutized URL is not empty (same code at scraper.py:78-90) |
| Url.NormalizeProtocolRelative | run.py:113-115 | a reference that starts with `//` after stripping comes out with the `https://` scheme |
| Url.NormalizeProtocolRelativeParts | run.py:113-121 | `//host/path?query#fragment` becomes `https://host` followed by the percent-encoded path and, when the query is not empty, `?` and the percent-encoded query; the fragment is dropped |
| Url.NormalizeRootRelative | run.py:116-121 | a root-relative path (no `//`, `?`, `#`, `;`, `.` or `..` segment) on an http-like page becomes the page's `scheme://netloc` followed by the percent-encoded path |
| Url.NormalizeEncoded | run.py:110-121 | a URL already written as `scheme://netloc` with a path from the root, the quoted path and the quoted query is returned unchanged by `normalize_url` |
| Url.SplitEncoded | run.py:111-118 | such a URL is its own strip, does not start with `/`, and `urlsplit` gives back its scheme, network location, quoted path and quoted query |
| Url.NormalizeIdempotent | run.py:110-121 | normalizing the output of `normalize_url` again changes nothing, whenever the absolutized input has a scheme, a path that is empty or from the root, and a network location that does not end in a blank when the path and the query are empty |
| Url.NormalizeProtocolRelativeIdempotent | run.py:110-121 | the output for a protocol-relative `//host/path?query` normalizes to itself |
| Url.NormalizeRootRelativeIdempotent | run.py:110-121 | the output for a root-relative path normalizes to itself |
| Url.NormalizeRelativeNotIdempotent | run.py:110-121 | a relative name of path-safe characters not starting with `/` becomes `://` + name, and normalizing that gives `://%3A//` + name, which differs |
| Url.NormalizeRelativeExample | run.py:110-121 | `a.jpg` normalizes to `://a.jpg`, and normalizing that gives `://%3A//a.jpg` |
| Url.PageBaseSplit | run.py:124-126 | the page base `scheme://netloc` splits back into the page's scheme and network location, which is what `urljoin` then uses for a root-relative reference |
| Url.JoinSplitOn | run.py:118 | splitting on a character and joining with it returns the string |
| Links.Dedup | run.py:148-149 | the kept URLs have no repeat and are exactly the values of the input |
| Links.DedupFirstOrder | scraper.py:262-269 | the kept URLs are in the order of their first occurrences in the input |
| Links.DedupIdempotent | scraper.py:262-269 | de-duplicating twice equals de-duplicating once |
| Links.DedupDistinct | scraper.py:262-269 | a list without repeats is its own de-duplication |
| Links.DedupLoop | scraper.py:262-269 | the `seen`-set loop computes the order-preserving de-duplication |
| Links.KeptLinesSound | run.py:144-147 | every kept line is a stripped line of the file |
| Links.KeptLinesComplete | run.py:144-147 | every stripped line that is non-empty and not a `#` comment is kept |
| Links.ReadLinksFile | run.py:138-149 | a missing file raises; otherwise the result is the de-duplicated list of the file's stripped link lines (same code at scraper.py:250-269) |
| Links.ReadLinksProperties | scraper.py:250-269 | the list has no repeat, no empty line and no `#` line; each element is a stripped line of the file, and every such link line appears |
| Links.StripThenDedupClean | scraper.py:294-301 | scraper.py's URLs have no repeat and no empty one, and every non-empty stripped input appears |
| Links.ScraperMainUrls | scraper.py:294-301 | the loop strips each URL, drops the empty ones and de-duplicates the rest |
| Links.RunMainUrls | run.py:594-595 | run.py de-duplicates the raw URLs and strips them afterwards |
| Links.DedupThenStripRepeats | run.py:595 | run.py's order lets `u` and `" " + u` both through as `u`, so its list can hold a repeat |
| Media.ContentTypeExt | run.py:259 | the Content-Type suggests `.png` when it contains png; else `.webp` when it contains webp; else `.gif` when it contains gif; else `.jpg` |
| Media.ImageExt | run.py:258-263 | the first of `.png .jpg .jpeg .gif .webp` found in the lowercased URL wins; without one, the Content-Type's choice stands |
| Media.ChooseImageExt | run.py:258-263 | the loop over the URL extensions computes `ImageExt` |
| Media.ExtFromMime | uploader.py:150-161 | `_ext_from_mime`: png gives `.png`; else jpeg or jpg gives `.jpg`; else gif gives `.gif`; else webp gives `.webp`; the result is `""` exactly when the lowercased type names none of them (same code at run.py:385-396) |
| Media.ResolveMime | uploader.py:266-280 | a guessed type is kept when it starts with `image/`; otherwise the lowercased suffix decides; the result is always an `image/` type |
| Media.ExtFromFallbackMime | uploader.py:268-280 | the fallback type maps back to the extension it came from, with `.jpeg` and unknown suffixes becoming `.jpg` |
| Media.PathName | uploader.py:284 | `Path.name` has no `/`, ends the path, and is either the whole path or preceded by a `/`: what follows the last `/` |
| Media.Suffix | uploader.py:270 | `Path.suffix` is empty or a dot, not the whole name, with no other dot, ending the name; when the last dot of the name is neither its first nor its last character, the suffix is the name from that dot |
| Dom.Find | run.py:169 | `find` is `None` exactly when no element matches, and otherwise the first element that matches in document order |
| Dom.FindAll | run.py:192 | `find_all` holds exactly the matching elements of the document |
| Dom.FindAllSnoc | run.py:192 | `find_all` of a document grown by one element is the old result followed by that element when it matches, so results come in document order |
| Dom.FindIsFirstOfFindAll | run.py:169 | `find` gives the first result of `find_all` |
| Extract.ExtractTitle | scraper.py:114-127 | the text of the first `h1`; else the content of the first `og:title` meta; else the text of the first `title`; `"Untitled"` only when all three are absent (same code at run.py:168-176) |
| Extract.EmptyHeadingTitle | run.py:169-171 | an `h1` without text gives the empty title, not a fallback |
| Extract.ExtractDescription | scraper.py:130-139 | the content of the first `og:description` meta, even an empty one; else that of the first `name=description` meta; else `""` (same code at run.py:179-184) |
| Extract.MainScope | scraper.py:144-146 | the search scope is the first `ContentMain` div, else the first `MainContentZone` div, else the whole document |
| Extract.BodyScope | scraper.py:173-182 | the body scope adds the first div whose class mentions "content" as a third choice before the whole document |
| Extract.ExtractHeroImage | scraper.py:142-168 | the normalized `src` of the first `img` in scope whose lowercased `src` has no skip term and ends with an allowed extension; `None` when none qualifies; a result has no `#` (same code at run.py:187-200) |
| Extract.KeepParagraphs | run.py:208-214 | the loop keeps the cleaned text of each accepted block, in document order |
| Extract.ExtractBodyTextRun | run.py:203-215 | run.py's body text is its kept paragraphs joined by `"\n\n"` |
| Extract.RunParagraphsShape | run.py:203-215 | run.py keeps `p` blocks and `em` blocks without a `p` ancestor, in document order; each kept text has at least 3 characters and no newline, so the body splits back into them |
| Extract.ExtractBodyTextScraper | scraper.py:171-191 | scraper.py's body text is its kept paragraphs joined by `"\n\n"` |
| Extract.ScraperParagraphsShape | scraper.py:171-191 | scraper.py keeps only `p` blocks, in document order; each kept text is longer than 20 characters and has no newline, so the body splits back into them |
| Extract.FindDate | scraper.py:200-201 | `re.search(r"\d{4}-\d{2}-\d{2}")`: `None` exactly when no date occurs; otherwise the leftmost date, 10 characters long |
| Extract.MetaDate | scraper.py:196-202 | the date in the content of the first `article:published_time` meta |
| Extract.ExtractDate | scraper.py:194-212 | the meta date; else the date in the first `span` or `div` with a date-like class whose text holds one; else `None`; a result is always a 10-character date (same code at run.py:218-228) |
| Extract.ParseStoryRun | run.py:231-241 | the story holds the page URL and the run.py extractors' results, the hero image normalized against the page base |
| Extract.ParseStoryScraper | scraper.py:215-232 | likewise, with scraper.py's body-text rule |
| Scrape.CandidateInjective | run.py:264-268 | the names `base`, `base_1`, `base_2`, ... are all different |
| Scrape.TriedBound | run.py:264-268 | if the first `c` candidates all exist, at least `c` names exist; so the loop ends for a finite directory |
| Scrape.PickFreeName | run.py:264-268 | the collision loop ends and returns the first candidate that does not exist (same loop at run.py:313-317) |
| Scrape.DownloadImage | run.py:254-273 | a failed download is `None` and saves nothing; otherwise the image is saved under the first free `<base><ext>` name, `ext` being `ImageExt` of the Content-Type and the URL, and its path under `output/images/` is returned |
| Scrape.RunErrorEntry | run.py:284-303 | one error entry per failed fetch: its URL and the exception's kind; an HTTP error's code is always `None` |
| Scrape.RunHttpCodesUnknown | run.py:288-289 | no HTTP error entry of run.py carries a code |
| Scrape.FetchesAndErrors | run.py:283-303 | every URL is either fetched or gets exactly one error entry |
| Scrape.MakeRecord | run.py:319-328 | the record copies the story's fields; `hero_image` is the local path when the download gave one, else the story's remote URL or null |
| Scrape.StoreStory | run.py:307-336 | the JSON is saved under the first free `<sanitized title>.json` name; the record copies the story; a non-empty hero URL whose download succeeds becomes the path of the copy, saved under the first free `<sanitized title><ext>` image name; otherwise the hero image is kept and no image is saved |
| Scrape.SavePage | run.py:305-336 | a fetched page is parsed and saved: the JSON under the first free `<sanitized title>.json` name, the record holding the page's extracted fields and its hero image saved as in `StoreStory` |
| Scrape.ScrapeOne | run.py:283-336 | one turn of the page loop keeps the loop invariant: the counters, the errors, each saved name being the first free `<sanitized title>.json` of the output folder as it was before that page, and each record with its image folder before and after |
| Scrape.FirstFreeFresh | run.py:313-317 | names picked one after another as first free names are all new and pairwise distinct |
| Scrape.RunScrape | run.py:275-340 | `total == len(urls)`, `success + failed == total`, `len(errors) == failed`, `len(json_paths) == success`; the errors are the failed URLs' entries in order; the `j`-th saved name is the first free `<sanitized title>.json` of the `j`-th fetched page in the output folder holding the initial names and the `j` earlier ones, so it is new and distinct; its record holds its page's extracted fields, with the hero image saved into the image folder as it then was, under the first free name |
| Scrape.ScraperErrorEntry | scraper.py:323-339 | scraper.py's error entry keeps the HTTP status |
| Scrape.ScraperLoop | scraper.py:310-373 | page `idx` overwrites `story_{idx}.json`; the counters add up as in run.py; `saved_files` lists each fetched page's URL, file name and title, in order |
| Scrape.ScraperMain | scraper.py:294-373 | with no URL left after cleaning there is no summary and no file; otherwise the summary counts the cleaned URLs |
| Scrape.FileNumber | scraper.py:345 | different indices give different `story_<n>.json` names |
| Cms.Get | uploader.py:169 | `d.get(key, default)` succeeds exactly on a dict and gives the value or the default |
| Cms.AttemptResult | uploader.py:113-122 | an attempt succeeds exactly when the status is below 400 and the body decodes; 400 and above is an `HTTPError` with the response; a network exception stays a network error |
| Cms.RetriedFromProperties | uploader.py:108-129 | at most `retries` calls; every call but the last failed; the result is the last call's, so the first success or the last error; a sleep of 1.2·k seconds follows failed attempt k, except the last |
| Cms.RetriedProperties | uploader.py:108-129 | `_req` as a whole: with no attempt, no call and a `None` result; otherwise 1 to `retries` calls and an error only after all of them failed (same code at run.py:355-369) |
| Cms.Req | uploader.py:108-129 | the attempt loop computes the retry specification |
| Cms.ReadPage | uploader.py:169-173 | a page gives its items and asks for the next page exactly when `page*100 < total` and the page is not empty |
| Cms.ListFolders | uploader.py:163-175 | the page loop computes the paginated listing (at most `maxPages` pages) (same code at run.py:398-407) |
| Cms.ListFromMore | uploader.py:168-174 | a listing that goes on is the page's items followed by the rest of the listing, so the items come in page order |
| Cms.ListFromLast | uploader.py:172-173 | a listing that stops at a page made only that page's calls |
| Cms.ListPagesInOrder | uploader.py:166-174 | the listing requests pages 1, 2, 3, ... in order |
| Cms.ListUsedBound | uploader.py:166-174 | at most `retries` calls per page |
| Cms.ListCapHarmless | uploader.py:172-173 | once the listing stops by itself, a larger page cap changes nothing |
| Cms.FolderMatches | uploader.py:187 | a folder matches exactly when it is a dict with a truthy `is_folder`, the same `name` and the current parent as `int(parent_id or 0)` |
| Cms.FindFolder | uploader.py:185-189 | the search gives the first listed folder that matches, or the first test that raises |
| Cms.CreatedFolder | uploader.py:204-205 | the created folder is `created["story"]` or `created`, and the new parent is `int` of its id |
| Cms.EnsureContentFolderByPath | uploader.py:177-207 | computes the folder specification: the root for an empty path, else the listing followed by the walk (same code at run.py:409-424) |
| Cms.WalkPath | uploader.py:183-207 | the walk loop computes the walk specification |
| Cms.WalkGrowsList | uploader.py:184-206 | the walk only appends, at most one folder per level; a walk that adds no folder made no call |
| Cms.WalkUsedBound | uploader.py:184-206 | at most `retries` calls per level |
| Cms.WalkResultIsListed | uploader.py:184-207 | the id returned is that of a folder in the final list |
| Cms.WalkLast | uploader.py:184-207 | the walk over a path is the walk over all its names but the last, followed by the last level: the id returned is that of the first folder listed under the parent reached so far with the last name, or of the folder created there |
| Cms.EnsurePathProperties | uploader.py:177-207 | an empty path returns 0 with no call; otherwise the listing comes first, the listed folders stay at the front, at most `retries` calls per page and per level, only folder creations are posted, and the result is a listed folder's id: the last level's, found or created under the parent the levels before it reached |
| Cms.FolderCreatorOfCreates | uploader.py:194-205 | a missing level is created by one `_req` POST of `name`, `slugify(name)`, `is_folder` and the current parent |
| Cms.StoryRequest | uploader.py:209-220 | `create_story` POSTs `/spaces/<id>/stories` with `publish=1` exactly when publishing, and the body `story={name, slug, parent_id, content}` |
| Cms.SignedAssetRequest | uploader.py:131-136 | `create_signed_asset` POSTs `/spaces/<id>/assets` with the file name, and `asset_folder_id` only when it is truthy |
| Cms.PostResult | uploader.py:147 | `raise_for_status` fails exactly on the statuses 400 to 599 and on a raised exception |
| Cms.UploadBytes | uploader.py:138-147 | the file is posted (one call) exactly when the signed payload has a truthy `post_url` and truthy `fields`; otherwise no call and an error |
| Upload.ImageFile | uploader.py:244-258 | an empty path is no image; a relative path that does not exist is looked up in the script directory; a path that still does not exist is no image |
| Upload.ImageTarget | uploader.py:267-285 | the MIME type is an `image/` type, the guess when it is one; the file name is `Path.name`, else `image-<now><ext>` |
| Upload.AssetId | uploader.py:290 | a truthy top-level `id` is the id; otherwise the `id` of a truthy `asset` dict (`None` without one), a truthy `asset` that is not a dict raises; so the id is truthy exactly when the top-level `id` or the `asset` dict's `id` is |
| Upload.AssetKey | uploader.py:297-300 | the key is the truthy `key` of the payload's `fields`; otherwise the attempt fails |
| Upload.AssetObject | uploader.py:301-306 | `{filename: "https://a.storyblok.com/" + key, fieldtype: "asset"}`, with `id` exactly when the asset id is truthy |
| Upload.Attempted | uploader.py:288-309 | a successful attempt gives an asset object after posting the file with its name and type, and it costs at most one call more than the signed request |
| Upload.AttemptScriptsAgree | run.py:448-458 | run.py reads the asset id later than uploader.py, and the two attempts are the same whenever reading the id does not raise |
| Upload.UploadOutcomes | uploader.py:311-323 | between 1 and `max_retries` attempts; every one but the last failed with a network error; a network error on the last means every attempt was used |
| Upload.UploadAssetIsLast | uploader.py:261-323 | an asset is returned exactly when the last attempt succeeded, and it is that attempt's asset object; another error returns `None` at once |
| Upload.UploadNetworkDown | uploader.py:311-323 | with the network down, every attempt is made and the result is `None` |
| Upload.UploadImageProperties | uploader.py:226-323 | no path, or no file, is `None` with no call; otherwise at most `max_retries` attempts, retried only after network errors, and a result is an asset object |
| Upload.UploadLoop | uploader.py:261-323 | the attempt loop computes the retry specification (same code at run.py:439-466) |
| Upload.UploadImageToStoryblok | uploader.py:226-323 | the upload is the file lookup followed by the attempt loop |
| Upload.CandidatesDistinct | uploader.py:348-353 | the three candidates `base`, `base-<rnd>` and `base-<now>` all extend the base slug, and they are different as long as the draw differs from the clock |
| Upload.NextCandidate | uploader.py:379-386 | the next slug is tried only after a 422 whose lowercased body contains "already taken" or "slug"; run.py also needs a truthy response, which a 422 never is (run.py:483-485) |
| Upload.CreatedStory | uploader.py:370 | the created story is `result["story"]` when truthy, else `result`, and it must be a dict |
| Upload.StoryTried | uploader.py:367-396 | the candidates are tried in order, one `create_story` each, at most three; run.py never gets past the first |
| Upload.StoryMovedOn | uploader.py:379-386 | every slug tried before the last gave an error the script moves on after |
| Upload.StoryEnds | uploader.py:369-378 | a story is returned only when the last slug tried succeeded, and it is what that call gave |
| Upload.StoryExhausted | uploader.py:395-396 | when the last slug tried also gave a conflict, every candidate was tried and the result is `None` |
| Upload.StoryAllTaken | uploader.py:367-396 | when every slug is taken, uploader.py tries all three and run.py only the first; both give `None` |
| Upload.StorySameContent | uploader.py:356-369 | every candidate is sent with the same title, content and parent |
| Upload.StoryUsedBound | uploader.py:367-396 | at most `retries` calls per candidate tried, since `_req` retries a 422 too |
| Upload.CreateStoryblokStory | uploader.py:326-396 | computes the candidate specification over the slug of the title (same code at run.py:469-491) |
| Upload.TryCandidates | uploader.py:367-396 | the candidate loop computes the candidate specification |
| Upload.ContentFields | uploader.py:356-363 | the content is component `success_story`, the title and the description, with `image` exactly when the asset is truthy |
| Upload.Combined | uploader.py:463-469 | the description, the body text, or both with one blank line between them |
| Upload.CombineDescription | uploader.py:463-469 | the reassignment computes that combination |
| Upload.FinalDescriptionsAgree | run.py:529 | on stripped fields, run.py's `f"{desc}\n\n{body}".strip()` equals uploader.py's combination |
| Upload.RunRecord | run.py:523-530 | a blank stripped title skips the record before any other field is read |
| Upload.RunRecordReady | run.py:523-529 | a record ready to upload has its stripped title and the combination of its stripped description and body text |
| Upload.RunRecordHero | run.py:530-532 | a ready record has its hero image exactly when that is truthy, and it is then a string |
| Upload.RunRecordUnusable | run.py:523-532 | reading raises exactly on data that is not a dict, or on a field that is truthy but not a string, read before the title check |
| Upload.UploaderRecord | uploader.py:453-460 | uploader.py reads and strips every field, the hero image included, before it checks the title |
| Upload.UploaderRecordReady | uploader.py:453-469 | a ready record has its stripped title, the combined description and its stripped hero image |
| Upload.FirstExisting | run.py:530-538 | the first of `json_dir/hero` and `json_dir/../hero` that exists, else `hero` as it is |
| Upload.HeroLookupsAgree | uploader.py:483-492 | uploader.py's lookup gives the same path as run.py's |
| Upload.SkipsSilently | run.py:518-526 | an unreadable file or a blank title is skipped with no call, and only such a file is skipped |
| Upload.ReadyStepUploads | run.py:530-541 | without a hero image the step is the story creation alone, with no image and no upload call; with one, the upload's calls and events come first, and the story gets the asset the upload gave |
| Upload.UploadFile | run.py:518-545 | one file of `run_upload` computes the step specification |
| Upload.RunHandlesInOrder | run.py:517-545 | the files are handled in order, one each, until one raises; only a raise ends the loop early |
| Upload.RunUploadSkips | run.py:517-526 | exactly the unreadable and blank-titled files are reported skipped, and when every file is one of those no call is made |
| Upload.RunUpload | run.py:517-545 | the loop over JSON files whose titles are ASCII computes the specification of the files handled in order |

## Left out

- HTTP transport (`requests`, `Session`, `raise_for_status`, the multipart body): the
  oracle `answers` gives each call's outcome; headers, timeouts and the 2000-character
  cut of the error text are not modelled.
- HTML tokenising and parsing by BeautifulSoup: the extractors work on an abstract tree
  that is already parsed. `get_text` is the node's text as given, and a `class_`
  function matcher is "some class satisfies the predicate".
- `fetch_html` is part of the oracle: a page is fetched, or it fails with an HTTP
  status, a network error or another exception.
- Filesystem: existence is a set of names or a predicate (`present`, `readable`).
  Writing, `mkdir`, `relative_to`, `read_bytes` and `Path.resolve` are left out, and
  `str(Path(a) / b)` is a plain join.
- JSON decoding is a given `Json` value (or `None` when a file cannot be read).
  `json.dumps` is left out; a saved record is a datatype.
- `mimetypes.guess_type` is a parameter: a foreign lookup table.
- `time.time()` and `random.randint` are parameters (`now`, `rnd`). Sleeps are logged
  in tenths of a second: `Slept(12 * attempt)` for `_req`'s 1.2·attempt and
  `Slept(15 * attempt)` for the image upload's 1.5·attempt.
- Text.Slugify: `\w` and `lower` are ASCII-only, so the title must be ASCII. The
  upload loop (Upload.RunUpload, Upload.UploadFile) therefore requires every file's
  title to be ASCII; non-ASCII titles are not modelled.
- `\d` in Extract.FindDate and `lower` in Basics.Lower are ASCII-only. Python's are
  Unicode-aware, so the date search, the hero image's skip-term test and the 422 body
  test differ from the scripts on some non-ASCII input (other decimal digits, the
  Kelvin sign `\u212a` that lowercases to `k`).
- Url.NormalizeUrl: the percent-encoding of non-ASCII characters is modelled by UTF-8,
  but `urlsplit`'s Unicode netloc checks, IPv6 bracket checks and `;params` are not,
  because the scripts' URLs do not use them. `urljoin` is modelled in general (`Join`),
  but its results are stated only for root-relative references
  (Url.NormalizeRootRelative); other relative references are covered by the
  definition alone.
- Url.SplitWith: the contract does not state how a URL is cut into parts in general;
  Url.SplitRoundTrip states it for a URL built from a scheme, a network location, a
  path from the root, a query and a fragment.
- Text.SafeText, Text.CollapseRuns: the contracts state which characters are kept and
  that spaces come singly, not where each single space falls between the kept
  characters.
- Text.SanitizeFilename: for a name cut at 200 characters, the contract does not state
  that the kept characters are a prefix of the input's.
- Media.PathName: `Path(p).name` ignores a trailing `/` (`Path("a/b/").name` is `b`);
  the model gives `""` for such a path, which the uploader then replaces by
  `image-<now><ext>`.
- Cms.PageItems: a truthy dict under `"stories"` is a `TypeError` in the model, while
  Python's `out.extend` adds its keys in insertion order; a decoded `Json` object is an
  unordered map. A string is iterated character by character, as in Python.
- Cms.IntOf: `int()` reads a string only when it is plain decimal digits; a sign or
  surrounding whitespace raises in the model.
- Cms.ListFolders: `while True` may never end if the server keeps reporting more
  items, so the loop takes a page cap `maxPages`. Cms.ListCapHarmless shows the cap
  changes nothing once the listing stops by itself.
- Upload.AssetObject: `str(key)` of a list or dict key is rendered by a simple `StrOf`,
  not Python's full `repr`.
- `run_upload`'s call of `ensure_content_folder_by_path` is not composed with the file
  loop: Upload.RunUpload takes the content folder id `parentId` as a parameter. The two
  are proved separately (Cms.EnsureContentFolderByPath).
- uploader.py's `main` is modelled only for the record reading, the description
  combination and the hero lookup. Its environment checks, `argparse`, the
  upload-then-create sequence and `sys.exit` calls are left out.
- run.py's `main` is modelled only for the URL de-duplication. The switches between
  scrape-only and upload-only, `glob` and the exit paths are left out.
- Writing `links_used.txt` and `summary.json`, logging, `.env` loading, `setup_run_dirs`,
  `safe_run_folder_name`, `setup_logging` and `make_uid` are left out: glue without
  decisions.
- The `Posted` upload to the signed address is one call of the oracle, even though the
  script sends it without `_req` and without retries.
