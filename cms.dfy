/** The Storyblok management-API client shared by run.py and uploader.py: JSON values,
    the transport, the retrying request `_req`, the paginated folder listing, the
    folder-path walk and the story and signed-asset requests.

    The transport is an oracle: `answers(k)` is what the `k`-th call to the network (from
    0) gives, and every operation takes the index `n` of its first call and reports how many
    calls it `used`, so operations compose by threading `n`. Every operation also reports the
    `events` it caused: the requests it sent and the sleeps between them, in order. */
module Cms {
  import opened Basics
  import opened Text

  // ---------------------------------------------------------------------------
  // JSON values and Python's view of them

  datatype Json = JNull | JBool(b: bool) | JInt(i: int) | JStr(s: string) | JList(items: seq<Json>)
                | JObj(fields: map<string, Json>)

  /** Python's truth value of a decoded JSON value. */
  predicate Truthy(j: Json) {
    match j
    case JNull => false
    case JBool(b) => b
    case JInt(i) => i != 0
    case JStr(s) => s != ""
    case JList(xs) => xs != []
    case JObj(m) => m != map[]
  }

  /** Python's `a or b`. */
  function Or(a: Json, b: Json): Json {
    if Truthy(a) then a else b
  }

  /** Why an operation failed: what it raised. `NetworkError` stands for requests'
      `SSLError`, `Timeout` and `ConnectionError` (and their subclasses). */
  datatype Failure = HttpError(status: int, text: string) | NetworkError(typeName: string)
                   | OtherError(typeName: string)

  datatype Result<T> = Ok(value: T) | Err(failure: Failure)

  /** `d.get(key, default)`; an `AttributeError` when `d` is not a dict. */
  function Get(d: Json, key: string, default: Json): (r: Result<Json>)
    ensures r.Ok? <==> d.JObj?
    ensures d.JObj? && key in d.fields ==> r == Ok(d.fields[key])
    ensures d.JObj? && key !in d.fields ==> r == Ok(default)
  {
    if !d.JObj? then Err(OtherError("AttributeError"))
    else if key in d.fields then Ok(d.fields[key])
    else Ok(default)
  }

  /** `d[key]`. */
  function Index(d: Json, key: string): Result<Json> {
    if !d.JObj? then Err(OtherError("TypeError"))
    else if key in d.fields then Ok(d.fields[key])
    else Err(OtherError("KeyError"))
  }

  /** The value of a string of decimal digits. */
  function DecimalValue(s: string): nat
    requires All(s, IsDigit)
  {
    if s == [] then 0 else 10 * DecimalValue(s[..|s| - 1]) + (s[|s| - 1] as int - '0' as int)
  }

  /** Python's `int(x)` on a decoded JSON value (a string is read only when it is made of
      decimal digits). */
  function IntOf(j: Json): (r: Result<int>)
    ensures j.JInt? ==> r == Ok(j.i)
    ensures j.JNull? || j.JList? || j.JObj? ==> r.Err?
  {
    match j
    case JInt(i) => Ok(i)
    case JBool(b) => Ok(if b then 1 else 0)
    case JStr(s) => if s != [] && All(s, IsDigit) then Ok(DecimalValue(s)) else Err(OtherError("ValueError"))
    case _ => Err(OtherError("TypeError"))
  }

  // ---------------------------------------------------------------------------
  // The transport and the requests sent through it

  /** What one network call gives: a response (its status, its text and, when the text is
      JSON, the decoded value) or a raised exception. */
  datatype Outcome = Answered(status: int, text: string, body: Option<Json>)
                   | Raised(network: bool, typeName: string)

  /** The endpoints of the management API the client uses. */
  datatype ApiPath = StoriesPath(spaceId: int) | AssetsPath(spaceId: int)

  /** The query parameters the client sends: `list_folders`' page of folders, or
      `create_story`'s `publish=1`. */
  datatype Query = NoQuery | FolderPage(page: nat) | PublishQuery

  /** The story content of `create_storyblok_story`: component `CONTENT_TYPE`, the title,
      the description and, when there is one, the image asset. */
  datatype Content = Content(title: string, description: string, image: Option<Json>)

  /** The JSON bodies the client sends. */
  datatype Body = NoBody
                | FolderBody(name: string, slug: string, parentId: int)
                | StoryBody(name: string, slug: string, parentId: int, content: Content)
                | AssetBody(filename: string, assetFolderId: Option<int>)

  /** A call to the management API: verb, endpoint, query parameters and JSON body. */
  datatype Request = Request(verb: string, path: ApiPath, query: Query, body: Body)

  /** The observable steps of an operation. Sleeps are in tenths of a second. */
  datatype Event = Sent(req: Request) | Slept(tenths: nat) | Posted(postUrl: Json, filename: string, mime: string)

  /** Differences between the two copies of the upload functions. */
  datatype Script = RunScript | UploaderScript

  const ApiBase := "https://mapi.storyblok.com/v1"

  /** The URL `_req` calls for an endpoint, `f"{self.base}{path}"`. */
  function Url(path: ApiPath): (u: string)
    ensures StartsWith(u, ApiBase + "/spaces/")
  {
    match path
    case StoriesPath(id) => ApiBase + "/spaces/" + IntToString(id) + "/stories"
    case AssetsPath(id) => ApiBase + "/spaces/" + IntToString(id) + "/assets"
  }

  const ContentType := "success_story"

  /** The `params` dict of a query. */
  function QueryJson(q: Query): Option<Json> {
    match q
    case NoQuery => None
    case FolderPage(page) => Some(JObj(map["folder_only" := JInt(1), "per_page" := JInt(100), "page" := JInt(page)]))
    case PublishQuery => Some(JObj(map["publish" := JInt(1)]))
  }

  /** The content dict: the image key only for a truthy image (uploader.py:356-363). */
  function ContentJson(c: Content): Json {
    var base := map["component" := JStr(ContentType), "title" := JStr(c.title), "description" := JStr(c.description)];
    if c.image.Some? && Truthy(c.image.value) then JObj(base["image" := c.image.value]) else JObj(base)
  }

  /** The `json_body` dict of a body. Every body the client builds is a non-empty dict, so
      uploader.py's `is not None` test and run.py's truth test (uploader.py:118, run.py:360)
      send the same data. */
  function BodyJson(b: Body): Option<Json> {
    match b
    case NoBody => None
    case FolderBody(name, slug, parentId) =>
      Some(JObj(map["story" := JObj(map["name" := JStr(name), "slug" := JStr(slug), "is_folder" := JBool(true),
                                        "parent_id" := JInt(parentId),
                                        "content" := JObj(map["component" := JStr("folder")])])]))
    case StoryBody(name, slug, parentId, content) =>
      Some(JObj(map["story" := JObj(map["name" := JStr(name), "slug" := JStr(slug), "parent_id" := JInt(parentId),
                                        "content" := ContentJson(content)])]))
    case AssetBody(filename, folder) =>
      var body := map["filename" := JStr(filename)];
      Some(JObj(if folder.Some? && folder.value != 0 then body["asset_folder_id" := JInt(folder.value)] else body))
  }

  /** One attempt of `_req`: a status of 400 or more raises an `HTTPError` that keeps the
      response, and a success returns the decoded JSON. */
  function AttemptResult(o: Outcome): (r: Result<Json>)
    ensures r.Ok? <==> o.Answered? && o.status < 400 && o.body.Some?
    ensures o.Answered? && o.status >= 400 ==> r == Err(HttpError(o.status, o.text))
    ensures o.Raised? ==> r.Err? && (r.failure.NetworkError? <==> o.network)
  {
    match o
    case Raised(network, t) => Err(if network then NetworkError(t) else OtherError(t))
    case Answered(status, text, body) =>
      if status >= 400 then Err(HttpError(status, text))
      else if body.None? then Err(OtherError("JSONDecodeError"))
      else Ok(body.value)
  }

  /** What an operation on the transport did. */
  datatype Exchange<T> = Exchange(result: Result<T>, used: nat, events: seq<Event>)

  /** `_req` from attempt `attempt` on, its first call being `answers(n)`. */
  function RetriedFrom(answers: nat -> Outcome, n: nat, req: Request, attempt: nat, retries: nat): Exchange<Json>
    requires 1 <= attempt
    decreases retries + 1 - attempt
  {
    if attempt > retries then Exchange(Ok(JNull), 0, [])
    else
      var r := AttemptResult(answers(n));
      if r.Ok? || attempt == retries then Exchange(r, 1, [Sent(req)])
      else
        var rest := RetriedFrom(answers, n + 1, req, attempt + 1, retries);
        Exchange(rest.result, rest.used + 1, [Sent(req), Slept(12 * attempt)] + rest.events)
  }

  /** `StoryblokClient._req` (uploader.py:108-129, run.py:355-369) with `retries` attempts.
      With no attempt at all the Python function falls off its loop and returns `None`. */
  function Retried(answers: nat -> Outcome, n: nat, req: Request, retries: nat): Exchange<Json> {
    RetriedFrom(answers, n, req, 1, retries)
  }

  /** The retry discipline of `_req`: at most `retries` calls; every call but the last one
      failed; the result is what the last call gave (the first success, or the last error
      once all `retries` attempts failed); the sleeps of 1.2, 2.4, 3.6, ... seconds come
      between the attempts. */
  lemma {:induction false} RetriedFromProperties(answers: nat -> Outcome, n: nat, req: Request, attempt: nat, retries: nat)
    requires 1 <= attempt <= retries
    ensures var x := RetriedFrom(answers, n, req, attempt, retries);
      1 <= x.used <= retries + 1 - attempt &&
      (forall m :: n <= m < n + x.used - 1 ==> AttemptResult(answers(m)).Err?) &&
      x.result == AttemptResult(answers(n + x.used - 1)) &&
      (x.result.Err? ==> x.used == retries + 1 - attempt) &&
      |x.events| == 2 * x.used - 1 &&
      (forall k :: 0 <= k < x.used ==> x.events[2 * k] == Sent(req)) &&
      (forall k :: 0 <= k < x.used - 1 ==> x.events[2 * k + 1] == Slept(12 * (attempt + k))) &&
      (forall i :: 0 <= i < |x.events| ==> x.events[i] == Sent(req) || x.events[i].Slept?)
  {
    RetriedFromCalls(answers, n, req, attempt, retries);
    RetriedFromEvents(answers, n, req, attempt, retries);
  }

  /** The calls of the retry loop: every one but the last failed, and the result is the last one's. */
  lemma {:induction false} RetriedFromCalls(answers: nat -> Outcome, n: nat, req: Request, attempt: nat, retries: nat)
    requires 1 <= attempt <= retries
    ensures var x := RetriedFrom(answers, n, req, attempt, retries);
      1 <= x.used <= retries + 1 - attempt &&
      (forall m :: n <= m < n + x.used - 1 ==> AttemptResult(answers(m)).Err?) &&
      x.result == AttemptResult(answers(n + x.used - 1)) &&
      (x.result.Err? ==> x.used == retries + 1 - attempt)
    decreases retries + 1 - attempt
  {
    var r := AttemptResult(answers(n));
    if !(r.Ok? || attempt == retries) {
      RetriedFromCalls(answers, n + 1, req, attempt + 1, retries);
    }
  }

  /** The events of the retry loop: a request per call, with the growing sleep between two calls. */
  lemma {:induction false} RetriedFromEvents(answers: nat -> Outcome, n: nat, req: Request, attempt: nat, retries: nat)
    requires 1 <= attempt <= retries
    ensures var x := RetriedFrom(answers, n, req, attempt, retries);
      1 <= x.used &&
      |x.events| == 2 * x.used - 1 &&
      (forall k :: 0 <= k < x.used ==> x.events[2 * k] == Sent(req)) &&
      (forall k :: 0 <= k < x.used - 1 ==> x.events[2 * k + 1] == Slept(12 * (attempt + k))) &&
      (forall i :: 0 <= i < |x.events| ==> x.events[i] == Sent(req) || x.events[i].Slept?)
    decreases retries + 1 - attempt
  {
    var r := AttemptResult(answers(n));
    if !(r.Ok? || attempt == retries) {
      RetriedFromEvents(answers, n + 1, req, attempt + 1, retries);
      var rest := RetriedFrom(answers, n + 1, req, attempt + 1, retries);
      var x := RetriedFrom(answers, n, req, attempt, retries);
      assert x.events == [Sent(req), Slept(12 * attempt)] + rest.events;
      forall k | 1 <= k < x.used
        ensures x.events[2 * k] == Sent(req)
      {
        assert x.events[2 * k] == rest.events[2 * (k - 1)];
      }
      forall k | 1 <= k < x.used - 1
        ensures x.events[2 * k + 1] == Slept(12 * (attempt + k))
      {
        assert x.events[2 * k + 1] == rest.events[2 * (k - 1) + 1];
      }
    }
  }

  /** `_req` as a whole: no attempt means no call and a `None` result; otherwise between 1 and
      `retries` calls, a success is the first one, and an error is raised only after all
      `retries` calls failed. */
  lemma RetriedProperties(answers: nat -> Outcome, n: nat, req: Request, retries: nat)
    ensures var x := Retried(answers, n, req, retries);
      (retries == 0 ==> x == Exchange(Ok(JNull), 0, [])) &&
      (retries >= 1 ==>
        1 <= x.used <= retries &&
        (forall m :: n <= m < n + x.used - 1 ==> AttemptResult(answers(m)).Err?) &&
        x.result == AttemptResult(answers(n + x.used - 1)) &&
        (x.result.Err? ==> x.used == retries) &&
        |x.events| == 2 * x.used - 1 &&
        (forall k :: 0 <= k < x.used ==> x.events[2 * k] == Sent(req)) &&
        (forall k :: 0 <= k < x.used - 1 ==> x.events[2 * k + 1] == Slept(12 * (k + 1))) &&
        (forall i :: 0 <= i < |x.events| ==> x.events[i] == Sent(req) || x.events[i].Slept?))
  {
    if retries >= 1 {
      RetriedFromProperties(answers, n, req, 1, retries);
    }
  }

  /** The attempt loop of `_req` (uploader.py:108-129, run.py:355-369). */
  method Req(answers: nat -> Outcome, n: nat, req: Request, retries: nat) returns (x: Exchange<Json>)
    ensures x == Retried(answers, n, req, retries)
  {
    var events: seq<Event> := [];
    var attempt := 1;
    while attempt <= retries
      invariant 1 <= attempt <= retries + 1
      invariant |events| == 2 * (attempt - 1)
      invariant var rest := RetriedFrom(answers, n + attempt - 1, req, attempt, retries);
        Retried(answers, n, req, retries) == Exchange(rest.result, attempt - 1 + rest.used, events + rest.events)
      decreases retries + 1 - attempt
    {
      ghost var before := events;
      var r := AttemptResult(answers(n + attempt - 1));
      events := events + [Sent(req)];
      if r.Ok? || attempt == retries {
        assert RetriedFrom(answers, n + attempt - 1, req, attempt, retries) == Exchange(r, 1, [Sent(req)]);
        return Exchange(r, attempt, events);
      }
      events := events + [Slept(12 * attempt)];
      ghost var rest := RetriedFrom(answers, n + attempt, req, attempt + 1, retries);
      assert RetriedFrom(answers, n + attempt - 1, req, attempt, retries) ==
             Exchange(rest.result, rest.used + 1, [Sent(req), Slept(12 * attempt)] + rest.events);
      assert events + rest.events == before + ([Sent(req), Slept(12 * attempt)] + rest.events);
      attempt := attempt + 1;
    }
    assert RetriedFrom(answers, n + attempt - 1, req, attempt, retries) == Exchange(Ok(JNull), 0, []);
    assert events + [] == events;
    return Exchange(Ok(JNull), attempt - 1, events);
  }

  /** The client's `_req` with its default four attempts, as a function of the first call's
      index and the request; the operations above `_req` are stated over such a `call`. */
  function Api(answers: nat -> Outcome): (nat, Request) -> Exchange<Json> {
    (m: nat, r: Request) => Retried(answers, m, r, DefaultRetries)
  }

  /** `_req`'s default number of attempts. */
  const DefaultRetries: nat := 4

  /** What the operations above `_req` rely on: a call makes at most `retries` network calls
      and sends nothing but its request, with sleeps in between. */
  ghost predicate WellBehaved(call: (nat, Request) -> Exchange<Json>, retries: nat) {
    forall m: nat, r: Request :: Behaves(call, retries, m, r)
  }

  /** The call of request `r` from call `m` on keeps to `WellBehaved`. */
  ghost predicate Behaves(call: (nat, Request) -> Exchange<Json>, retries: nat, m: nat, r: Request) {
    var x := call(m, r);
    x.used <= retries && forall i :: 0 <= i < |x.events| ==> x.events[i] == Sent(r) || x.events[i].Slept?
  }

  /** `call` answers request `r` from call `m` on as `_req` does over `answers`. */
  ghost predicate UsesReq(call: (nat, Request) -> Exchange<Json>, answers: nat -> Outcome, m: nat, r: Request) {
    call(m, r) == Retried(answers, m, r, DefaultRetries)
  }

  /** `call` is the client's `_req` over the transport `answers`. */
  ghost predicate IsClient(call: (nat, Request) -> Exchange<Json>, answers: nat -> Outcome) {
    forall m: nat, r: Request :: UsesReq(call, answers, m, r)
  }

  lemma ApiIsClient(answers: nat -> Outcome)
    ensures IsClient(Api(answers), answers)
  {
    forall m: nat, r: Request
      ensures UsesReq(Api(answers), answers, m, r)
    {
    }
  }

  lemma ApiWellBehaved(answers: nat -> Outcome)
    ensures WellBehaved(Api(answers), DefaultRetries)
  {
    forall m: nat, r: Request
      ensures Behaves(Api(answers), DefaultRetries, m, r)
    {
      RetriedProperties(answers, m, r, DefaultRetries);
    }
  }

  // ---------------------------------------------------------------------------
  // list_folders

  /** The request for page `page` of the space's folders. */
  function FoldersRequest(spaceId: int, page: nat): Request {
    Request("GET", StoriesPath(spaceId), FolderPage(page), NoBody)
  }

  /** `data.get("stories", []) or []`, as what `out.extend` adds: the items of a list, the
      one-character strings of a string; a number or `true` is not iterable. */
  function PageItems(data: Json): Result<seq<Json>> {
    var s := Get(data, "stories", JList([]));
    if s.Err? then Err(s.failure)
    else
      var v := Or(s.value, JList([]));
      if v.JList? then Ok(v.items)
      else if v.JStr? then Ok(Characters(v.s))
      else Err(OtherError("TypeError"))
  }

  /** Iterating a string: its characters, each a string of its own. */
  function Characters(s: string): seq<Json> {
    seq(|s|, i requires 0 <= i < |s| => JStr([s[i]]))
  }

  /** `int(data.get("total") or 0)`. */
  function PageTotal(data: Json): Result<int> {
    var t := Get(data, "total", JNull);
    if t.Err? then Err(t.failure) else IntOf(Or(t.value, JInt(0)))
  }

  /** What one page of the listing says: its items, and whether to ask for the next page
      (neither `page*100 >= total` nor an empty page). */
  datatype PageInfo = PageInfo(items: seq<Json>, more: bool)

  /** Reading the response for page `page`. */
  function ReadPage(data: Json, page: nat): (r: Result<PageInfo>)
    ensures r.Ok? ==> PageItems(data) == Ok(r.value.items) && PageTotal(data).Ok? &&
                      (r.value.more <==> page * 100 < PageTotal(data).value && r.value.items != [])
  {
    var items := PageItems(data);
    var total := PageTotal(data);
    if items.Err? then Err(items.failure)
    else if total.Err? then Err(total.failure)
    else Ok(PageInfo(items.value, !(page * 100 >= total.value || |items.value| == 0)))
  }

  /** What listing the folders did; `capped` when it stopped only because `fuel` ran out. */
  datatype Listing = Listing(result: Result<seq<Json>>, used: nat, events: seq<Event>, capped: bool)

  /** One page as the listing sees it: the exchange for its request, and that response
      read as a page. */
  datatype Fetched = Fetched(x: Exchange<Json>, p: Result<PageInfo>)

  /** A source of pages: `fetch(m, page)` is what asking for page `page` from network call
      `m` on gives. */
  type Pages = (nat, nat) -> Fetched

  /** What the request for page `page` gave, read as a page. */
  function PageResult(x: Exchange<Json>, page: nat): Result<PageInfo> {
    if x.result.Err? then Err(x.result.failure) else ReadPage(x.result.value, page)
  }

  /** The page source of `list_folders`: the folder request through the client's `call`. */
  ghost predicate ReadsFolderPage(fetch: Pages, call: (nat, Request) -> Exchange<Json>, spaceId: int, m: nat, page: nat) {
    var x := call(m, FoldersRequest(spaceId, page));
    fetch(m, page) == Fetched(x, PageResult(x, page))
  }

  ghost predicate ReadsFolders(fetch: Pages, call: (nat, Request) -> Exchange<Json>, spaceId: int) {
    forall m: nat, page: nat :: ReadsFolderPage(fetch, call, spaceId, m, page)
  }

  function FoldersOf(call: (nat, Request) -> Exchange<Json>, spaceId: int): Pages {
    (m: nat, page: nat) => Fetched(call(m, FoldersRequest(spaceId, page)),
                                    PageResult(call(m, FoldersRequest(spaceId, page)), page))
  }

  lemma FoldersOfPages(call: (nat, Request) -> Exchange<Json>, spaceId: int)
    ensures ReadsFolders(FoldersOf(call, spaceId), call, spaceId)
  {
    forall m: nat, page: nat
      ensures ReadsFolderPage(FoldersOf(call, spaceId), call, spaceId, m, page)
    {
    }
  }

  /** `rest`, run after the pages that gave `out` with `used` calls and `events`. */
  function After(out: seq<Json>, used: nat, events: seq<Event>, rest: Listing): Listing {
    Listing(if rest.result.Ok? then Ok(out + rest.result.value) else rest.result,
            used + rest.used, events + rest.events, rest.capped)
  }

  lemma AfterNothing(l: Listing)
    ensures After([], 0, [], l) == l
  {
    assert [] + l.events == l.events;
    if l.result.Ok? {
      assert [] + l.result.value == l.result.value;
    }
  }

  lemma AfterAfter(out: seq<Json>, used: nat, events: seq<Event>, items: seq<Json>, used': nat, events': seq<Event>, rest: Listing)
    ensures After(out, used, events, After(items, used', events', rest)) == After(out + items, used + used', events + events', rest)
  {
    assert events + (events' + rest.events) == (events + events') + rest.events;
    if rest.result.Ok? {
      assert out + (items + rest.result.value) == (out + items) + rest.result.value;
    }
  }

  /** `list_folders` (uploader.py:163-175, run.py:398-407) from page `page` on, fetching at
      most `fuel` more pages from `fetch`, the first from network call `n` on. */
  function ListFrom(fetch: Pages, n: nat, page: nat, fuel: nat): Listing
    decreases fuel
  {
    if fuel == 0 then Listing(Ok([]), 0, [], true)
    else
      var f := fetch(n, page);
      if f.p.Err? then Listing(Err(f.p.failure), f.x.used, f.x.events, false)
      else if !f.p.value.more then Listing(Ok(f.p.value.items), f.x.used, f.x.events, false)
      else After(f.p.value.items, f.x.used, f.x.events, ListFrom(fetch, n + f.x.used, page + 1, fuel - 1))
  }

  /** Whether the listing from page `page` goes on to the next page. */
  predicate GoesOn(fetch: Pages, n: nat, page: nat) {
    var f := fetch(n, page);
    f.p.Ok? && f.p.value.more
  }

  /** A listing that goes on past page `page` is that page followed by the rest. */
  lemma ListFromMore(fetch: Pages, n: nat, page: nat, fuel: nat)
    requires fuel > 0 && GoesOn(fetch, n, page)
    ensures var f := fetch(n, page);
      ListFrom(fetch, n, page, fuel) ==
      After(f.p.value.items, f.x.used, f.x.events, ListFrom(fetch, n + f.x.used, page + 1, fuel - 1))
  {
  }

  /** A listing that stops at page `page` made that one request. */
  lemma ListFromLast(fetch: Pages, n: nat, page: nat, fuel: nat)
    requires fuel > 0 && !GoesOn(fetch, n, page)
    ensures var f := fetch(n, page);
      ListFrom(fetch, n, page, fuel).used == f.x.used && ListFrom(fetch, n, page, fuel).events == f.x.events
  {
  }

  /** One page of `list_folders`: the request, the stories it lists and whether to go on
      (uploader.py:167-173, run.py:401-405). */
  method FetchPage(answers: nat -> Outcome, ghost call: (nat, Request) -> Exchange<Json>, ghost fetch: Pages,
                   n: nat, spaceId: int, page: nat) returns (f: Fetched)
    requires IsClient(call, answers) && ReadsFolders(fetch, call, spaceId)
    ensures f == fetch(n, page)
  {
    var x := Req(answers, n, FoldersRequest(spaceId, page), DefaultRetries);
    assert UsesReq(call, answers, n, FoldersRequest(spaceId, page));
    assert ReadsFolderPage(fetch, call, spaceId, n, page);
    if x.result.Err? {
      return Fetched(x, Err(x.result.failure));
    }
    var data := x.result.value;
    var items := PageItems(data);
    if items.Err? {
      return Fetched(x, Err(items.failure));
    }
    var total := PageTotal(data);
    if total.Err? {
      return Fetched(x, Err(total.failure));
    }
    return Fetched(x, Ok(PageInfo(items.value, !(page * 100 >= total.value || |items.value| == 0))));
  }

  /** The loop of `list_folders` in the state it has before page `page`: the items `out`
      so far, after `used` calls that caused `events`. */
  function ListLoop(fetch: Pages, n: nat, page: nat, fuel: nat, out: seq<Json>, used: nat, events: seq<Event>): Listing
    decreases fuel
  {
    if fuel == 0 then Listing(Ok(out), used, events, true)
    else
      var f := fetch(n + used, page);
      if f.p.Err? then Listing(Err(f.p.failure), used + f.x.used, events + f.x.events, false)
      else if !f.p.value.more then Listing(Ok(out + f.p.value.items), used + f.x.used, events + f.x.events, false)
      else ListLoop(fetch, n, page + 1, fuel - 1, out + f.p.value.items, used + f.x.used, events + f.x.events)
  }

  /** The loop state and the rest of the listing make up the listing. */
  lemma {:induction false} ListLoopIsAfter(fetch: Pages, n: nat, page: nat, fuel: nat, out: seq<Json>, used: nat,
                                           events: seq<Event>)
    ensures ListLoop(fetch, n, page, fuel, out, used, events) == After(out, used, events, ListFrom(fetch, n + used, page, fuel))
    decreases fuel
  {
    if fuel == 0 {
      assert out + [] == out && events + [] == events;
    } else {
      var f := fetch(n + used, page);
      if f.p.Ok? && f.p.value.more {
        ListLoopIsAfter(fetch, n, page + 1, fuel - 1, out + f.p.value.items, used + f.x.used, events + f.x.events);
        AfterAfter(out, used, events, f.p.value.items, f.x.used, f.x.events,
                   ListFrom(fetch, n + used + f.x.used, page + 1, fuel - 1));
      }
    }
  }

  /** The page loop of `list_folders` (uploader.py:163-175, run.py:398-407), fetching at most
      `maxPages` pages; `call` is the client's `_req` over the transport `answers`, and
      `fetch` reads its answers as pages. */
  method ListFolders(answers: nat -> Outcome, ghost call: (nat, Request) -> Exchange<Json>, ghost fetch: Pages,
                     n: nat, spaceId: int, maxPages: nat) returns (l: Listing)
    requires IsClient(call, answers) && ReadsFolders(fetch, call, spaceId)
    ensures l == ListFrom(fetch, n, 1, maxPages)
  {
    var out: seq<Json> := [];
    var used: nat := 0;
    var events: seq<Event> := [];
    var page := 1;
    ListLoopIsAfter(fetch, n, 1, maxPages, [], 0, []);
    AfterNothing(ListFrom(fetch, n, 1, maxPages));
    ghost var whole := ListLoop(fetch, n, 1, maxPages, [], 0, []);
    ghost var fuel := maxPages;
    while page <= maxPages
      invariant 1 <= page <= maxPages + 1 && fuel == maxPages + 1 - page
      invariant whole == ListLoop(fetch, n, page, fuel, out, used, events)
      decreases fuel
    {
      var f := FetchPage(answers, call, fetch, n + used, spaceId, page);
      if f.p.Err? {
        return Listing(Err(f.p.failure), used + f.x.used, events + f.x.events, false);
      }
      if !f.p.value.more {
        return Listing(Ok(out + f.p.value.items), used + f.x.used, events + f.x.events, false);
      }
      out, used, events := out + f.p.value.items, used + f.x.used, events + f.x.events;
      page, fuel := page + 1, fuel - 1;
    }
    return Listing(Ok(out), used, events, true);
  }

  /** The page a request event asks for, or -1. */
  function PageOf(e: Event): int {
    if e.Sent? && e.req.query.FolderPage? then e.req.query.page else -1
  }

  /** `events` only request folder pages in `[lo, hi)` (and sleep), never going back a page. */
  predicate PagesInOrder(events: seq<Event>, spaceId: int, lo: nat, hi: nat) {
    (forall i :: 0 <= i < |events| ==>
      events[i].Slept? || (lo <= PageOf(events[i]) < hi && events[i] == Sent(FoldersRequest(spaceId, PageOf(events[i]))))) &&
    (forall i, j :: 0 <= i < j < |events| && events[i].Sent? && events[j].Sent? ==> PageOf(events[i]) <= PageOf(events[j]))
  }

  /** Every page of `fetch` takes at most `retries` network calls and sends only the request
      for that page of the space's folders, with sleeps in between. */
  ghost predicate PagesBehave(fetch: Pages, spaceId: int, retries: nat) {
    forall m: nat, page: nat :: PageBehaves(fetch, spaceId, retries, m, page)
  }

  ghost predicate PageBehaves(fetch: Pages, spaceId: int, retries: nat, m: nat, page: nat) {
    var x := fetch(m, page).x;
    x.used <= retries && PagesInOrder(x.events, spaceId, page, page + 1)
  }

  /** The folder pages of a well-behaved client behave. */
  lemma FolderPagesBehave(fetch: Pages, call: (nat, Request) -> Exchange<Json>, spaceId: int, retries: nat)
    requires ReadsFolders(fetch, call, spaceId) && WellBehaved(call, retries)
    ensures PagesBehave(fetch, spaceId, retries)
  {
    forall m: nat, page: nat
      ensures PageBehaves(fetch, spaceId, retries, m, page)
    {
      var req := FoldersRequest(spaceId, page);
      assert ReadsFolderPage(fetch, call, spaceId, m, page);
      assert Behaves(call, retries, m, req);
      assert PageOf(Sent(req)) == page;
    }
  }

  /** Listing requests the pages in order, one page after another. */
  lemma {:induction false} ListPagesInOrder(fetch: Pages, spaceId: int, retries: nat, n: nat, page: nat, fuel: nat)
    requires PagesBehave(fetch, spaceId, retries)
    ensures PagesInOrder(ListFrom(fetch, n, page, fuel).events, spaceId, page, page + fuel)
    decreases fuel
  {
    if fuel > 0 {
      var x := fetch(n, page).x;
      assert PageBehaves(fetch, spaceId, retries, n, page);
      if GoesOn(fetch, n, page) {
        ListFromMore(fetch, n, page, fuel);
        ListPagesInOrder(fetch, spaceId, retries, n + x.used, page + 1, fuel - 1);
        PagesInOrderConcat(x.events, ListFrom(fetch, n + x.used, page + 1, fuel - 1).events,
                           spaceId, page, page + 1, page + fuel);
      } else {
        ListFromLast(fetch, n, page, fuel);
        PagesInOrderWider(x.events, spaceId, page, page + 1, page + fuel);
      }
    }
  }

  /** Listing `fuel` pages makes at most `retries` network calls per page. */
  lemma {:induction false} ListUsedBound(fetch: Pages, spaceId: int, retries: nat, n: nat, page: nat, fuel: nat)
    requires PagesBehave(fetch, spaceId, retries)
    ensures ListFrom(fetch, n, page, fuel).used <= retries * fuel
    decreases fuel
  {
    if fuel > 0 {
      var x := fetch(n, page).x;
      assert PageBehaves(fetch, spaceId, retries, n, page);
      if GoesOn(fetch, n, page) {
        ListFromMore(fetch, n, page, fuel);
        ListUsedBound(fetch, spaceId, retries, n + x.used, page + 1, fuel - 1);
        assert retries * fuel == retries + retries * (fuel - 1);
      } else {
        ListFromLast(fetch, n, page, fuel);
        assert retries <= retries * fuel;
      }
    }
  }

  lemma PagesInOrderWider(a: seq<Event>, spaceId: int, lo: nat, hi: nat, hi': nat)
    requires PagesInOrder(a, spaceId, lo, hi) && hi <= hi'
    ensures PagesInOrder(a, spaceId, lo, hi')
  {
  }

  /** Requests for earlier pages followed by requests for later ones are in order. */
  lemma PagesInOrderConcat(a: seq<Event>, b: seq<Event>, spaceId: int, lo: nat, mid: nat, hi: nat)
    requires PagesInOrder(a, spaceId, lo, mid) && PagesInOrder(b, spaceId, mid, hi) && lo <= mid <= hi
    ensures PagesInOrder(a + b, spaceId, lo, hi)
  {
    var e := a + b;
    forall i | 0 <= i < |e|
      ensures e[i].Slept? || (lo <= PageOf(e[i]) < hi && e[i] == Sent(FoldersRequest(spaceId, PageOf(e[i]))))
    {
      if i < |a| { assert e[i] == a[i]; } else { assert e[i] == b[i - |a|]; }
    }
    forall i, j | 0 <= i < j < |e| && e[i].Sent? && e[j].Sent?
      ensures PageOf(e[i]) <= PageOf(e[j])
    {
      if j < |a| {
        assert e[i] == a[i] && e[j] == a[j];
      } else if i < |a| {
        assert e[i] == a[i] && e[j] == b[j - |a|];
      } else {
        assert e[i] == b[i - |a|] && e[j] == b[j - |a|];
      }
    }
  }

  /** The fuel bound is harmless: once listing stops by itself, more fuel changes nothing. */
  lemma {:induction false} ListCapHarmless(fetch: Pages, n: nat, page: nat, fuel: nat, more: nat)
    requires fuel <= more && !ListFrom(fetch, n, page, fuel).capped
    ensures ListFrom(fetch, n, page, more) == ListFrom(fetch, n, page, fuel)
    decreases fuel
  {
    var f := fetch(n, page);
    if GoesOn(fetch, n, page) {
      ListCapHarmless(fetch, n + f.x.used, page + 1, fuel - 1, more - 1);
    }
  }

  // ---------------------------------------------------------------------------
  // create_story, create_signed_asset and upload_asset_from_bytes

  /** The request of `create_story` (uploader.py:209-220, run.py:426-428). */
  function StoryRequest(spaceId: int, title: string, slug: string, content: Content, parentId: int,
                        publish: bool): (r: Request)
    ensures r.verb == "POST" && Url(r.path) == ApiBase + "/spaces/" + IntToString(spaceId) + "/stories"
    ensures QueryJson(r.query) == if publish then Some(JObj(map["publish" := JInt(1)])) else None
    ensures BodyJson(r.body) == Some(JObj(map["story" := JObj(map["name" := JStr(title), "slug" := JStr(slug),
                                                              "parent_id" := JInt(parentId),
                                                              "content" := ContentJson(content)])]))
  {
    Request("POST", StoriesPath(spaceId), if publish then PublishQuery else NoQuery,
            StoryBody(title, slug, parentId, content))
  }

  /** The request of `create_signed_asset` (uploader.py:131-136, run.py:371-375): the file
      name, and the asset folder only when one other than 0 is given. */
  function SignedAssetRequest(spaceId: int, filename: string, assetFolderId: Option<int>): (r: Request)
    ensures r.verb == "POST" && Url(r.path) == ApiBase + "/spaces/" + IntToString(spaceId) + "/assets"
    ensures QueryJson(r.query) == None
    ensures BodyJson(r.body).Some? && BodyJson(r.body).value.JObj?
    ensures var b := BodyJson(r.body).value.fields;
      "filename" in b && b["filename"] == JStr(filename) &&
      ("asset_folder_id" in b <==> assetFolderId.Some? && assetFolderId.value != 0) &&
      ("asset_folder_id" in b ==> b["asset_folder_id"] == JInt(assetFolderId.value)) &&
      b.Keys <= {"filename", "asset_folder_id"}
  {
    Request("POST", AssetsPath(spaceId), NoQuery, AssetBody(filename, assetFolderId))
  }

  /** `raise_for_status` after the multipart POST: statuses from 400 to 599 raise. */
  function PostResult(o: Outcome): (r: Result<Json>)
    ensures r.Ok? <==> o.Answered? && !(400 <= o.status < 600)
    ensures o.Answered? && 400 <= o.status < 600 ==> r == Err(HttpError(o.status, o.text))
    ensures o.Raised? ==> r.Err? && (r.failure.NetworkError? <==> o.network)
  {
    match o
    case Raised(network, t) => Err(if network then NetworkError(t) else OtherError(t))
    case Answered(status, text, _) => if 400 <= status < 600 then Err(HttpError(status, text)) else Ok(JNull)
  }

  /** `upload_asset_from_bytes` (uploader.py:138-147, run.py:377-383): the signed payload
      must carry a truthy `post_url` and truthy `fields`; only then is the file posted, the
      post taking the transport's call `n`. */
  function UploadBytes(answers: nat -> Outcome, n: nat, payload: Json, filename: string, mime: string): (x: Exchange<Json>)
    ensures x.used <= 1 && |x.events| == x.used
    ensures x.used == 1 <==>
      payload.JObj? && "post_url" in payload.fields && Truthy(payload.fields["post_url"]) &&
      "fields" in payload.fields && Truthy(payload.fields["fields"])
    ensures x.used == 1 ==> x.events == [Posted(payload.fields["post_url"], filename, mime)] &&
                            x.result == PostResult(answers(n))
    ensures x.used == 0 ==> x.result.Err?
  {
    var fields := Get(payload, "fields", JNull);
    var postUrl := Get(payload, "post_url", JNull);
    if fields.Err? then Exchange(Err(fields.failure), 0, [])
    else if !Truthy(postUrl.value) || !Truthy(Or(fields.value, JObj(map[]))) then
      Exchange(Err(OtherError("RuntimeError")), 0, [])
    else Exchange(PostResult(answers(n)), 1, [Posted(postUrl.value, filename, mime)])
  }

  // ---------------------------------------------------------------------------
  // ensure_content_folder_by_path

  /** The test of a listed folder: `f.get("is_folder") and f.get("name") == name and
      int(f.get("parent_id") or 0) == parent`, evaluated left to right; the `.get` of a
      value that is not a dict and the `int` of a bad parent id raise. */
  function FolderMatches(f: Json, name: string, parent: int): (r: Result<bool>)
    ensures r.Err? ==> !f.JObj? || ("is_folder" in f.fields && Truthy(f.fields["is_folder"]) &&
                                    "name" in f.fields && f.fields["name"] == JStr(name))
    ensures r == Ok(true) <==>
      f.JObj? && "is_folder" in f.fields && Truthy(f.fields["is_folder"]) &&
      "name" in f.fields && f.fields["name"] == JStr(name) &&
      IntOf(Or(if "parent_id" in f.fields then f.fields["parent_id"] else JNull, JInt(0))) == Ok(parent)
  {
    var isFolder := Get(f, "is_folder", JNull);
    if isFolder.Err? then Err(isFolder.failure)
    else if !Truthy(isFolder.value) then Ok(false)
    else if Get(f, "name", JNull).value != JStr(name) then Ok(false)
    else
      var p := IntOf(Or(Get(f, "parent_id", JNull).value, JInt(0)));
      if p.Err? then Err(p.failure) else Ok(p.value == parent)
  }

  /** The index of the first folder from `k` on that matches, with an error when a test
      raises first. */
  function FirstMatch(folders: seq<Json>, name: string, parent: int, k: nat): (r: Result<Option<nat>>)
    requires k <= |folders|
    ensures r.Ok? && r.value.Some? ==>
      (k <= r.value.value < |folders| &&
       FolderMatches(folders[r.value.value], name, parent) == Ok(true) &&
       forall j :: k <= j < r.value.value ==> FolderMatches(folders[j], name, parent) == Ok(false))
    ensures r == Ok(None) ==> forall j :: k <= j < |folders| ==> FolderMatches(folders[j], name, parent) == Ok(false)
    ensures r.Err? ==>
      exists e :: (k <= e < |folders| && FolderMatches(folders[e], name, parent) == Err(r.failure) &&
                   forall j :: k <= j < e ==> FolderMatches(folders[j], name, parent) == Ok(false))
    decreases |folders| - k
  {
    if k == |folders| then Ok(None)
    else
      var m := FolderMatches(folders[k], name, parent);
      if m.Err? then Err(m.failure)
      else if m.value then Ok(Some(k))
      else FirstMatch(folders, name, parent, k + 1)
  }

  /** The search for the folder of one level (uploader.py:185-189, run.py:415): the first
      listed folder that passes the test. */
  method FindFolder(folders: seq<Json>, name: string, parent: int) returns (r: Result<Option<nat>>)
    ensures r == FirstMatch(folders, name, parent, 0)
  {
    var k := 0;
    while k < |folders|
      invariant k <= |folders|
      invariant FirstMatch(folders, name, parent, 0) == FirstMatch(folders, name, parent, k)
      decreases |folders| - k
    {
      var m := FolderMatches(folders[k], name, parent);
      if m.Err? {
        return Err(m.failure);
      }
      if m.value {
        return Ok(Some(k));
      }
      k := k + 1;
    }
    return Ok(None);
  }

  predicate AllAscii(names: seq<string>) {
    forall k :: 0 <= k < |names| ==> IsAscii(names[k])
  }

  /** The request creating folder `name` under `parent` (uploader.py:194-203, run.py:419-420). */
  function FolderRequest(spaceId: int, name: string, parent: int, now: nat): Request
    requires IsAscii(name)
  {
    Request("POST", StoriesPath(spaceId), NoQuery, FolderBody(name, Slugify(name, 90, now), parent))
  }

  /** A created folder: its id and what is appended to the folder list. */
  datatype Created = Created(id: int, folder: Json)

  /** `folder = created.get("story") or created; int(folder.get("id"))`. */
  function CreatedFolder(created: Json): (r: Result<Created>)
    ensures r.Ok? ==> r.value.folder.JObj? && "id" in r.value.folder.fields &&
                      IntOf(r.value.folder.fields["id"]) == Ok(r.value.id)
    ensures r.Ok? ==> r.value.folder == created || (created.JObj? && "story" in created.fields &&
                                                    r.value.folder == created.fields["story"])
  {
    var story := Get(created, "story", JNull);
    if story.Err? then Err(story.failure)
    else
      var folder := Or(story.value, created);
      var id := Get(folder, "id", JNull);
      if id.Err? then Err(id.failure)
      else
        var i := IntOf(id.value);
        if i.Err? then Err(i.failure) else Ok(Created(i.value, folder))
  }

  /** `int(found["id"])`. */
  function FoundId(found: Json): Result<int> {
    var id := Index(found, "id");
    if id.Err? then Err(id.failure) else IntOf(id.value)
  }

  /** What creating one folder gave: the exchange of its request, and the created folder
      read from the response. */
  datatype Creation = Creation(x: Exchange<Json>, c: Result<Created>)

  /** A folder creator: `create(m, name, parent)` is what creating folder `name` under
      `parent` from network call `m` on gives. */
  type Creator = (nat, string, int) -> Creation

  /** The creator of `ensure_content_folder_by_path`: the folder request through `call`,
      its response read by `CreatedFolder`. */
  ghost predicate CreatesFolder(create: Creator, call: (nat, Request) -> Exchange<Json>, spaceId: int, now: nat,
                                m: nat, name: string, parent: int) {
    IsAscii(name) ==>
      var x := call(m, FolderRequest(spaceId, name, parent, now));
      create(m, name, parent) == Creation(x, if x.result.Err? then Err(x.result.failure) else CreatedFolder(x.result.value))
  }

  ghost predicate CreatesFolders(create: Creator, call: (nat, Request) -> Exchange<Json>, spaceId: int, now: nat) {
    forall m: nat, name: string, parent: int :: CreatesFolder(create, call, spaceId, now, m, name, parent)
  }

  /** The creator of a client `call`. Its non-ASCII branch is never reached: the walk
      requires ASCII names, and `CreatesFolder` constrains only those. That branch holds a
      placeholder failure, with no call made; it models nothing the program does. */
  function FolderCreatorOf(call: (nat, Request) -> Exchange<Json>, spaceId: int, now: nat): Creator {
    (m: nat, name: string, parent: int) =>
      if !IsAscii(name) then Creation(Exchange(Err(OtherError("")), 0, []), Err(OtherError("")))
      else
        var x := call(m, FolderRequest(spaceId, name, parent, now));
        Creation(x, if x.result.Err? then Err(x.result.failure) else CreatedFolder(x.result.value))
  }

  lemma FolderCreatorOfCreates(call: (nat, Request) -> Exchange<Json>, spaceId: int, now: nat)
    ensures CreatesFolders(FolderCreatorOf(call, spaceId, now), call, spaceId, now)
  {
    forall m: nat, name: string, parent: int
      ensures CreatesFolder(FolderCreatorOf(call, spaceId, now), call, spaceId, now, m, name, parent)
    {
    }
  }

  /** What the walk did: the id of the last level, the calls, the events and the folder
      list as it ends up. */
  datatype Walk = Walk(result: Result<int>, used: nat, events: seq<Event>, folders: seq<Json>)

  /** What one level of the walk does: stop with the walk's outcome, or go on to the next
      level under a new parent, with the folder list, calls and events as they then are. */
  datatype Level = Stop(walk: Walk) | Next(parent: int, folders: seq<Json>, used: nat, events: seq<Event>)

  /** One level of the loop over the path (uploader.py:184-206, run.py:414-423): the
      first listed folder that matches `name` under `parent` becomes the parent; when none
      matches, the folder is created and appended to the list; an error stops the walk. */
  function WalkStep(create: Creator, n: nat, name: string, parent: int, folders: seq<Json>, used: nat,
                    events: seq<Event>): Level {
    var f := FirstMatch(folders, name, parent, 0);
    if f.Err? then Stop(Walk(Err(f.failure), used, events, folders))
    else if f.value.Some? then
      var id := FoundId(folders[f.value.value]);
      if id.Err? then Stop(Walk(Err(id.failure), used, events, folders))
      else Next(id.value, folders, used, events)
    else
      var cr := create(n + used, name, parent);
      if cr.c.Err? then Stop(Walk(Err(cr.c.failure), used + cr.x.used, events + cr.x.events, folders))
      else Next(cr.c.value.id, folders + [cr.c.value.folder], used + cr.x.used, events + cr.x.events)
  }

  /** The loop over the path of `ensure_content_folder_by_path` (uploader.py:183-207,
      run.py:413-424) in the state it has before level `i`: the current `parent`, the folder
      list, and the calls and events so far. */
  function WalkFrom(create: Creator, n: nat, names: seq<string>, i: nat, parent: int, folders: seq<Json>,
                    used: nat, events: seq<Event>): Walk
    requires i <= |names|
    decreases |names| - i
  {
    if i == |names| then Walk(Ok(parent), used, events, folders)
    else
      match WalkStep(create, n, names[i], parent, folders, used, events)
      case Stop(w) => w
      case Next(p, fs, u, es) => WalkFrom(create, n, names, i + 1, p, fs, u, es)
  }

  /** What ensuring a folder path did. */
  datatype Ensured = Ensured(walk: Walk, capped: bool)

  /** `ensure_content_folder_by_path`: an empty path is the root, 0, without any call;
      otherwise the folders are listed (at most `maxPages` pages) and the path walked from
      the root. */
  function EnsurePath(fetch: Pages, create: Creator, n: nat, names: seq<string>, maxPages: nat): Ensured {
    if names == [] then Ensured(Walk(Ok(0), 0, [], []), false)
    else
      var l := ListFrom(fetch, n, 1, maxPages);
      if l.result.Err? then Ensured(Walk(Err(l.result.failure), l.used, l.events, []), l.capped)
      else Ensured(WalkFrom(create, n, names, 0, 0, l.result.value, l.used, l.events), l.capped)
  }

  /** One missing level: the folder is created under `parent` (uploader.py:193-206,
      run.py:419-423). */
  method CreateFolder(answers: nat -> Outcome, ghost call: (nat, Request) -> Exchange<Json>, ghost create: Creator,
                      n: nat, spaceId: int, name: string, parent: int, now: nat) returns (cr: Creation)
    requires IsClient(call, answers) && CreatesFolders(create, call, spaceId, now) && IsAscii(name)
    ensures cr == create(n, name, parent)
  {
    var req := FolderRequest(spaceId, name, parent, now);
    var x := Req(answers, n, req, DefaultRetries);
    assert UsesReq(call, answers, n, req);
    assert CreatesFolder(create, call, spaceId, now, n, name, parent);
    if x.result.Err? {
      return Creation(x, Err(x.result.failure));
    }
    return Creation(x, CreatedFolder(x.result.value));
  }

  /** `ensure_content_folder_by_path` (uploader.py:177-207, run.py:409-424), listing at most
      `maxPages` pages of folders; `now` is the clock `slugify` reads. */
  method EnsureContentFolderByPath(answers: nat -> Outcome, ghost call: (nat, Request) -> Exchange<Json>,
                                   ghost fetch: Pages, ghost create: Creator, n: nat, spaceId: int,
                                   names: seq<string>, now: nat, maxPages: nat) returns (e: Ensured)
    requires IsClient(call, answers) && ReadsFolders(fetch, call, spaceId) && CreatesFolders(create, call, spaceId, now)
    requires AllAscii(names)
    ensures e == EnsurePath(fetch, create, n, names, maxPages)
  {
    if names == [] {
      return Ensured(Walk(Ok(0), 0, [], []), false);
    }
    var l := ListFolders(answers, call, fetch, n, spaceId, maxPages);
    if l.result.Err? {
      return Ensured(Walk(Err(l.result.failure), l.used, l.events, []), l.capped);
    }
    var w := WalkPath(answers, call, create, n, spaceId, names, now, l.result.value, l.used, l.events);
    return Ensured(w, l.capped);
  }

  /** The walk down the path (uploader.py:183-207, run.py:413-424): for each level, the
      first listed folder that matches, or a new folder appended to the list. */
  method WalkPath(answers: nat -> Outcome, ghost call: (nat, Request) -> Exchange<Json>, ghost create: Creator,
                  n: nat, spaceId: int, names: seq<string>, now: nat, folders0: seq<Json>, used0: nat,
                  events0: seq<Event>) returns (w: Walk)
    requires IsClient(call, answers) && CreatesFolders(create, call, spaceId, now) && AllAscii(names)
    ensures w == WalkFrom(create, n, names, 0, 0, folders0, used0, events0)
  {
    var folders, events := folders0, events0;
    var used: nat := used0;
    var parent := 0;
    var i := 0;
    ghost var whole := WalkFrom(create, n, names, 0, 0, folders, used, events);
    while i < |names|
      invariant i <= |names|
      invariant whole == WalkFrom(create, n, names, i, parent, folders, used, events)
      decreases |names| - i
    {
      var l := WalkLevel(answers, call, create, n, spaceId, names[i], now, parent, folders, used, events);
      match l {
      case Stop(w') =>
        return w';
      case Next(p, fs, u, es) =>
        parent, folders, used, events := p, fs, u, es;
      }
      i := i + 1;
    }
    return Walk(Ok(parent), used, events, folders);
  }

  /** One level of the walk (uploader.py:184-206, run.py:414-423): the folder `name` is
      looked up under `parent` and created when missing. */
  method WalkLevel(answers: nat -> Outcome, ghost call: (nat, Request) -> Exchange<Json>, ghost create: Creator,
                   n: nat, spaceId: int, name: string, now: nat, parent: int, folders: seq<Json>, used: nat,
                   events: seq<Event>) returns (l: Level)
    requires IsClient(call, answers) && CreatesFolders(create, call, spaceId, now) && IsAscii(name)
    ensures l == WalkStep(create, n, name, parent, folders, used, events)
  {
    var f := FindFolder(folders, name, parent);
    if f.Err? {
      return Stop(Walk(Err(f.failure), used, events, folders));
    }
    if f.value.Some? {
      var id := FoundId(folders[f.value.value]);
      if id.Err? {
        return Stop(Walk(Err(id.failure), used, events, folders));
      }
      return Next(id.value, folders, used, events);
    }
    var cr := CreateFolder(answers, call, create, n + used, spaceId, name, parent, now);
    if cr.c.Err? {
      return Stop(Walk(Err(cr.c.failure), used + cr.x.used, events + cr.x.events, folders));
    }
    return Next(cr.c.value.id, folders + [cr.c.value.folder], used + cr.x.used, events + cr.x.events);
  }

  /** What ensuring a path relies on of the creator: at most `retries` calls, nothing sent
      but the request creating that folder (and sleeps), and a created folder whose `id`
      reads as the id reported. */
  ghost predicate CreatorBehaves(create: Creator, spaceId: int, now: nat, retries: nat) {
    forall m: nat, name: string, parent: int :: CreationBehaves(create, spaceId, now, retries, m, name, parent)
  }

  ghost predicate CreationBehaves(create: Creator, spaceId: int, now: nat, retries: nat, m: nat, name: string,
                                  parent: int) {
    IsAscii(name) ==>
      var cr := create(m, name, parent);
      cr.x.used <= retries &&
      (forall k :: 0 <= k < |cr.x.events| ==>
         cr.x.events[k].Slept? || cr.x.events[k] == Sent(FolderRequest(spaceId, name, parent, now))) &&
      (cr.c.Ok? ==> FoundId(cr.c.value.folder) == Ok(cr.c.value.id))
  }

  /** The creator of a well-behaved client behaves. */
  lemma FolderCreatorBehaves(create: Creator, call: (nat, Request) -> Exchange<Json>, spaceId: int, now: nat,
                             retries: nat)
    requires CreatesFolders(create, call, spaceId, now) && WellBehaved(call, retries)
    ensures CreatorBehaves(create, spaceId, now, retries)
  {
    forall m: nat, name: string, parent: int
      ensures CreationBehaves(create, spaceId, now, retries, m, name, parent)
    {
      if IsAscii(name) {
        assert CreatesFolder(create, call, spaceId, now, m, name, parent);
        assert Behaves(call, retries, m, FolderRequest(spaceId, name, parent, now));
        CreationBehavesAt(create, call, spaceId, now, retries, m, name, parent);
      }
    }
  }

  lemma CreationBehavesAt(create: Creator, call: (nat, Request) -> Exchange<Json>, spaceId: int, now: nat,
                          retries: nat, m: nat, name: string, parent: int)
    requires IsAscii(name)
    requires CreatesFolder(create, call, spaceId, now, m, name, parent)
    requires Behaves(call, retries, m, FolderRequest(spaceId, name, parent, now))
    ensures CreationBehaves(create, spaceId, now, retries, m, name, parent)
  {
  }

  /** Only folder creations and sleeps. */
  predicate FolderPosts(es: seq<Event>) {
    forall k :: 0 <= k < |es| ==> es[k].Slept? || (es[k].Sent? && es[k].req.verb == "POST" && es[k].req.body.FolderBody?)
  }

  lemma FolderPostsConcat(a: seq<Event>, b: seq<Event>)
    requires FolderPosts(a) && FolderPosts(b)
    ensures FolderPosts(a + b)
  {
    forall k | 0 <= k < |a + b|
      ensures (a + b)[k].Slept? || ((a + b)[k].Sent? && (a + b)[k].req.verb == "POST" && (a + b)[k].req.body.FolderBody?)
    {
      if k < |a| { assert (a + b)[k] == a[k]; } else { assert (a + b)[k] == b[k - |a|]; }
    }
  }

  /** One level only appends: it keeps the folder list and the events in front, adds at
      most one folder, and when it adds none and goes on it made no call. A level that
      stops, stops with an error. */
  lemma StepGrowsList(create: Creator, n: nat, name: string, parent: int, folders: seq<Json>, used: nat,
                      events: seq<Event>)
    ensures match WalkStep(create, n, name, parent, folders, used, events)
      case Stop(w) =>
        w.result.Err? && w.folders == folders && used <= w.used && |events| <= |w.events| && w.events[..|events|] == events
      case Next(_, fs, u, es) =>
        (fs == folders && u == used && es == events) ||
        (|fs| == |folders| + 1 && fs[..|folders|] == folders && used <= u && |events| <= |es| && es[..|events|] == events)
  {
    var f := FirstMatch(folders, name, parent, 0);
    if f.Ok? && f.value.None? {
      var cr := create(n + used, name, parent);
      if cr.c.Ok? {
        assert (folders + [cr.c.value.folder])[..|folders|] == folders;
      }
      assert (events + cr.x.events)[..|events|] == events;
    }
  }

  /** The walk only appends: the folder list it starts with and the events so far are kept
      in front, at most one folder is added per level, and a walk that ends well without
      adding a folder made no call at all. */
  lemma {:induction false} WalkGrowsList(create: Creator, n: nat, names: seq<string>, i: nat, parent: int,
                                         folders: seq<Json>, used: nat, events: seq<Event>)
    requires i <= |names|
    ensures var w := WalkFrom(create, n, names, i, parent, folders, used, events);
      |folders| <= |w.folders| <= |folders| + (|names| - i) && w.folders[..|folders|] == folders &&
      used <= w.used && |events| <= |w.events| && w.events[..|events|] == events &&
      (w.result.Ok? && |w.folders| == |folders| ==> w.used == used && w.events == events)
    decreases |names| - i
  {
    if i < |names| {
      StepGrowsList(create, n, names[i], parent, folders, used, events);
      match WalkStep(create, n, names[i], parent, folders, used, events)
      case Stop(_) =>
      case Next(p, fs, u, es) =>
        WalkGrowsList(create, n, names, i + 1, p, fs, u, es);
        var w := WalkFrom(create, n, names, i, parent, folders, used, events);
        assert w == WalkFrom(create, n, names, i + 1, p, fs, u, es);
        assert w.folders[..|folders|] == w.folders[..|fs|][..|folders|];
        assert w.events[..|events|] == w.events[..|es|][..|events|];
    }
  }

  /** One creation by a well-behaved creator. */
  lemma CreationFacts(create: Creator, spaceId: int, now: nat, retries: nat, m: nat, name: string, parent: int)
    requires CreatorBehaves(create, spaceId, now, retries) && IsAscii(name)
    ensures var cr := create(m, name, parent);
      cr.x.used <= retries && FolderPosts(cr.x.events) && (cr.c.Ok? ==> FoundId(cr.c.value.folder) == Ok(cr.c.value.id))
  {
    assert CreationBehaves(create, spaceId, now, retries, m, name, parent);
    var es := create(m, name, parent).x.events;
    forall k | 0 <= k < |es|
      ensures es[k].Slept? || (es[k].Sent? && es[k].req.verb == "POST" && es[k].req.body.FolderBody?)
    {
      assert es[k].Slept? || es[k] == Sent(FolderRequest(spaceId, name, parent, now));
    }
  }

  /** Events kept in front of a longer prefix are kept in front; the tail stays folder posts. */
  lemma KeptInFront(events: seq<Event>, mid: seq<Event>, w: seq<Event>)
    requires |events + mid| <= |w| && w[..|events + mid|] == events + mid
    requires FolderPosts(mid) && FolderPosts(w[|events + mid|..])
    ensures |events| <= |w| && w[..|events|] == events && FolderPosts(w[|events|..])
  {
    assert w[..|events|] == (events + mid)[..|events|];
    assert w[|events|..] == mid + w[|events + mid|..];
    FolderPostsConcat(mid, w[|events + mid|..]);
  }

  /** One level of a well-behaved creator makes at most `retries` calls. */
  lemma StepUsedBound(create: Creator, spaceId: int, now: nat, retries: nat, n: nat, name: string, parent: int,
                      folders: seq<Json>, used: nat, events: seq<Event>)
    requires CreatorBehaves(create, spaceId, now, retries) && IsAscii(name)
    ensures match WalkStep(create, n, name, parent, folders, used, events)
      case Stop(w) => used <= w.used <= used + retries
      case Next(_, _, u, _) => used <= u <= used + retries
  {
    CreationFacts(create, spaceId, now, retries, n + used, name, parent);
  }

  /** With a well-behaved creator the walk makes at most `retries` calls per level. */
  lemma {:induction false} WalkUsedBound(create: Creator, spaceId: int, now: nat, retries: nat, n: nat,
                                         names: seq<string>, i: nat, parent: int, folders: seq<Json>, used: nat,
                                         events: seq<Event>)
    requires CreatorBehaves(create, spaceId, now, retries) && AllAscii(names) && i <= |names|
    ensures WalkFrom(create, n, names, i, parent, folders, used, events).used <= used + retries * (|names| - i)
    decreases |names| - i
  {
    if i < |names| {
      MulStep(retries, |names|, i);
      StepUsedBound(create, spaceId, now, retries, n, names[i], parent, folders, used, events);
      match WalkStep(create, n, names[i], parent, folders, used, events)
      case Stop(_) =>
      case Next(p, fs, u, es) =>
        WalkUsedBound(create, spaceId, now, retries, n, names, i + 1, p, fs, u, es);
    }
  }

  lemma MulStep(a: nat, total: nat, i: nat)
    requires i < total
    ensures a * (total - i) == a + a * (total - (i + 1)) && 0 <= a * (total - (i + 1))
  {
  }

  /** One level of a well-behaved creator adds only folder creations and sleeps to the
      events. */
  lemma StepPostsOnly(create: Creator, spaceId: int, now: nat, retries: nat, n: nat, name: string, parent: int,
                      folders: seq<Json>, used: nat, events: seq<Event>)
    requires CreatorBehaves(create, spaceId, now, retries) && IsAscii(name)
    ensures match WalkStep(create, n, name, parent, folders, used, events)
      case Stop(w) => |events| <= |w.events| && w.events[..|events|] == events && FolderPosts(w.events[|events|..])
      case Next(_, _, _, es) => |events| <= |es| && es[..|events|] == events && FolderPosts(es[|events|..])
  {
    var f := FirstMatch(folders, name, parent, 0);
    if f.Ok? && f.value.None? {
      var cr := create(n + used, name, parent);
      CreationFacts(create, spaceId, now, retries, n + used, name, parent);
      assert (events + cr.x.events)[..|events|] == events;
      assert (events + cr.x.events)[|events|..] == cr.x.events;
    } else {
      assert events[|events|..] == [];
    }
  }

  /** With a well-behaved creator the walk posts nothing but folder creations (and sleeps),
      after the events it started with. */
  lemma {:induction false} WalkPostsOnly(create: Creator, spaceId: int, now: nat, retries: nat, n: nat,
                                         names: seq<string>, i: nat, parent: int, folders: seq<Json>, used: nat,
                                         events: seq<Event>)
    requires CreatorBehaves(create, spaceId, now, retries) && AllAscii(names) && i <= |names|
    ensures var w := WalkFrom(create, n, names, i, parent, folders, used, events);
      |events| <= |w.events| && w.events[..|events|] == events && FolderPosts(w.events[|events|..])
    decreases |names| - i
  {
    var w := WalkFrom(create, n, names, i, parent, folders, used, events);
    if i == |names| {
      assert w.events[|events|..] == [];
      return;
    }
    StepPostsOnly(create, spaceId, now, retries, n, names[i], parent, folders, used, events);
    match WalkStep(create, n, names[i], parent, folders, used, events)
    case Stop(_) =>
    case Next(p, fs, u, es) =>
      WalkPostsOnly(create, spaceId, now, retries, n, names, i + 1, p, fs, u, es);
      assert w == WalkFrom(create, n, names, i + 1, p, fs, u, es);
      assert es == events + es[|events|..];
      KeptInFront(events, es[|events|..], w.events);
  }

  /** A level of a well-behaved creator that goes on does so under a folder of its list:
      the one it found or the one it created. */
  lemma StepParentIsListed(create: Creator, spaceId: int, now: nat, retries: nat, n: nat, name: string,
                           parent: int, folders: seq<Json>, used: nat, events: seq<Event>)
    requires CreatorBehaves(create, spaceId, now, retries) && IsAscii(name)
    ensures match WalkStep(create, n, name, parent, folders, used, events)
      case Stop(_) => true
      case Next(p, fs, _, _) => exists j :: 0 <= j < |fs| && FoundId(fs[j]) == Ok(p)
  {
    var f := FirstMatch(folders, name, parent, 0);
    if f.Ok? && f.value.Some? {
      var j := f.value.value;
      assert FoundId(folders[j]).Ok? ==> FoundId(folders[j]) == Ok(FoundId(folders[j]).value);
    } else if f.Ok? {
      var cr := create(n + used, name, parent);
      CreationFacts(create, spaceId, now, retries, n + used, name, parent);
      if cr.c.Ok? {
        assert (folders + [cr.c.value.folder])[|folders|] == cr.c.value.folder;
      }
    }
  }

  /** The id the walk ends with is the id of a folder in the final list (the last level's,
      found or created). */
  lemma {:induction false} WalkResultIsListed(create: Creator, spaceId: int, now: nat, retries: nat, n: nat,
                                              names: seq<string>, i: nat, parent: int, folders: seq<Json>,
                                              used: nat, events: seq<Event>)
    requires CreatorBehaves(create, spaceId, now, retries) && AllAscii(names) && i < |names|
    ensures var w := WalkFrom(create, n, names, i, parent, folders, used, events);
      w.result.Ok? ==> exists j :: 0 <= j < |w.folders| && FoundId(w.folders[j]) == w.result
    decreases |names| - i
  {
    StepParentIsListed(create, spaceId, now, retries, n, names[i], parent, folders, used, events);
    StepGrowsList(create, n, names[i], parent, folders, used, events);
    match WalkStep(create, n, names[i], parent, folders, used, events)
    case Stop(_) =>
    case Next(p, fs, u, es) =>
      if i + 1 < |names| {
        WalkResultIsListed(create, spaceId, now, retries, n, names, i + 1, p, fs, u, es);
      } else {
        assert WalkFrom(create, n, names, i, parent, folders, used, events) == Walk(Ok(p), u, es, fs);
      }
  }

  /** The last level of a walk, after the walk over the levels before it: an error stays;
      otherwise the last name is looked up under the parent reached so far, and the walk
      ends with the id of the first match or of the folder created for it. */
  function LastLevel(create: Creator, n: nat, name: string, w: Walk): Walk {
    if w.result.Err? then w
    else
      match WalkStep(create, n, name, w.result.value, w.folders, w.used, w.events)
      case Stop(s) => s
      case Next(p, fs, u, es) => Walk(Ok(p), u, es, fs)
  }

  /** The walk over a path is the walk over all but its last name followed by the last
      level: the id returned is the last level's. */
  lemma {:induction false} WalkLast(create: Creator, n: nat, names: seq<string>, i: nat, parent: int,
                                    folders: seq<Json>, used: nat, events: seq<Event>)
    requires i < |names|
    ensures WalkFrom(create, n, names, i, parent, folders, used, events) ==
      LastLevel(create, n, names[|names| - 1], WalkFrom(create, n, names[..|names| - 1], i, parent, folders, used, events))
    decreases |names| - i
  {
    var front := names[..|names| - 1];
    if i + 1 < |names| {
      assert front[i] == names[i];
      match WalkStep(create, n, names[i], parent, folders, used, events)
      case Stop(w) =>
      case Next(p, fs, u, es) =>
        WalkLast(create, n, names, i + 1, p, fs, u, es);
    }
  }

  /** `ensure_content_folder_by_path` as a whole: an empty path is the root with no call;
      otherwise the listing comes first, the listed folders stay at the front of the folder
      list, at most `retries` calls go to each page and to each level, only folder
      creations are posted after the listing, and the id returned is that of a folder in
      the final list: the last level's, found under the parent the levels before it reached
      or created there. */
  lemma EnsurePathProperties(fetch: Pages, create: Creator, spaceId: int, now: nat, retries: nat, n: nat,
                             names: seq<string>, maxPages: nat)
    requires PagesBehave(fetch, spaceId, retries) && CreatorBehaves(create, spaceId, now, retries) && AllAscii(names)
    ensures var e := EnsurePath(fetch, create, n, names, maxPages);
      var l := ListFrom(fetch, n, 1, maxPages);
      (names == [] ==> e.walk == Walk(Ok(0), 0, [], [])) &&
      (names != [] ==>
        e.capped == l.capped && e.walk.used <= retries * (maxPages + |names|) &&
        |l.events| <= |e.walk.events| && e.walk.events[..|l.events|] == l.events &&
        FolderPosts(e.walk.events[|l.events|..]) &&
        (l.result.Ok? ==> |l.result.value| <= |e.walk.folders| && e.walk.folders[..|l.result.value|] == l.result.value) &&
        (e.walk.result.Ok? ==> exists j :: 0 <= j < |e.walk.folders| && FoundId(e.walk.folders[j]) == e.walk.result) &&
        (l.result.Ok? ==> e.walk == LastLevel(create, n, names[|names| - 1],
                                              WalkFrom(create, n, names[..|names| - 1], 0, 0, l.result.value, l.used, l.events))))
  {
    if names != [] {
      var l := ListFrom(fetch, n, 1, maxPages);
      ListUsedBound(fetch, spaceId, retries, n, 1, maxPages);
      if l.result.Ok? {
        WalkGrowsList(create, n, names, 0, 0, l.result.value, l.used, l.events);
        WalkUsedBound(create, spaceId, now, retries, n, names, 0, 0, l.result.value, l.used, l.events);
        WalkPostsOnly(create, spaceId, now, retries, n, names, 0, 0, l.result.value, l.used, l.events);
        WalkResultIsListed(create, spaceId, now, retries, n, names, 0, 0, l.result.value, l.used, l.events);
        WalkLast(create, n, names, 0, 0, l.result.value, l.used, l.events);
        assert retries * (maxPages + |names|) == retries * maxPages + retries * |names|;
      } else {
        var e := EnsurePath(fetch, create, n, names, maxPages);
        assert e.walk.events[..|l.events|] == l.events && e.walk.events[|l.events|..] == [];
        assert retries * maxPages <= retries * (maxPages + |names|);
      }
    }
  }
}
