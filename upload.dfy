/** The upload side of run.py and uploader.py: the hero image sent to Storyblok's asset
    store with network-only retries, the story created under three slug candidates, and
    the preparation of one scraped JSON record (its final description and the path of its
    hero image).

    The file system is given by two predicates: `present(p)` is `Path(p).exists()`, and
    `readable(p)` says whether `Path(p).read_bytes()` succeeds. `mimetypes.guess_type` is
    the function `guess`. */
module Upload {
  import opened Basics
  import opened Text
  import opened Media
  import opened Cms

  // ---------------------------------------------------------------------------
  // Paths

  /** `Path(p).is_absolute()` on POSIX. */
  predicate IsAbsolute(p: string) {
    StartsWith(p, "/")
  }

  /** `str(Path(dir) / p)`: an absolute `p` replaces the directory, and the current
      directory adds nothing. */
  function JoinPath(dir: string, p: string): (r: string)
    ensures EndsWith(r, p)
    ensures IsAbsolute(p) || dir == "." || dir == "" ==> r == p
  {
    if IsAbsolute(p) || dir == "." || dir == "" then p
    else
      var sep := if EndsWith(dir, "/") then "" else "/";
      assert (dir + sep + p)[|dir + sep|..] == p;
      dir + sep + p
  }

  /** The file `upload_image_to_storyblok` reads (uploader.py:244-258, run.py:432-439): an
      empty path is no image; a relative path that does not exist is looked up in the
      script's directory; a path that does not exist then is no image either. */
  function ImageFile(imagePath: string, present: string -> bool, scriptDir: string): (r: Option<string>)
    ensures imagePath == "" ==> r == None
    ensures r.Some? ==> present(r.value) && (r.value == imagePath || r.value == JoinPath(scriptDir, imagePath))
    ensures imagePath != "" && present(imagePath) ==> r == Some(imagePath)
    ensures r.None? && imagePath != "" ==>
      !present(imagePath) && (IsAbsolute(imagePath) || !present(JoinPath(scriptDir, imagePath)))
  {
    if imagePath == "" then None
    else
      var p := if !IsAbsolute(imagePath) && !present(imagePath) then JoinPath(scriptDir, imagePath) else imagePath;
      if present(p) then Some(p) else None
  }

  /** What is uploaded: the file, the name it is uploaded under and its MIME type. */
  datatype Target = Target(path: string, filename: string, mime: string)

  /** The MIME type (the guess when it is an image type, else the one of the lowercased
      suffix) and the file name (`path_obj.name`, else `image-<now><ext>`) of an upload
      (uploader.py:267-285, run.py:443-447). */
  function ImageTarget(file: string, guess: string -> Option<string>, now: nat): (t: Target)
    ensures t.path == file && StartsWith(t.mime, "image/") && t.filename != ""
    ensures PathName(file) != "" ==> t.filename == PathName(file)
    ensures PathName(file) == "" ==> t.filename == "image-" + NatToString(now) + ExtFromMime(t.mime)
    ensures var g := guess(file); g.Some? && StartsWith(g.value, "image/") ==> t.mime == g.value
  {
    var mime := ResolveMime(guess(file), Suffix(PathName(file)));
    var name := PathName(file);
    Target(file, if name != "" then name else "image-" + NatToString(now) + ExtFromMime(mime), mime)
  }

  // ---------------------------------------------------------------------------
  // One upload attempt

  /** `signed.get("id") or (signed.get("asset") or {}).get("id")`. */
  function AssetId(signed: Json): (r: Result<Json>)
    ensures r.Ok? ==> signed.JObj?
    ensures signed.JObj? && "id" in signed.fields && Truthy(signed.fields["id"]) ==> r == Ok(signed.fields["id"])
    ensures signed.JObj? && "id" !in signed.fields && "asset" !in signed.fields ==> r == Ok(JNull)
    ensures signed.JObj? && !("id" in signed.fields && Truthy(signed.fields["id"])) ==>
      var a := if "asset" in signed.fields && Truthy(signed.fields["asset"]) then signed.fields["asset"] else JObj(map[]);
      (a.JObj? ==> r == Ok(if "id" in a.fields then a.fields["id"] else JNull)) && (!a.JObj? ==> r.Err?)
    ensures signed.JObj? ==>
      (r.Ok? && Truthy(r.value) <==>
        ("id" in signed.fields && Truthy(signed.fields["id"])) ||
        ("asset" in signed.fields && signed.fields["asset"].JObj? && "id" in signed.fields["asset"].fields &&
         Truthy(signed.fields["asset"].fields["id"])))
  {
    var id := Get(signed, "id", JNull);
    if id.Err? then Err(id.failure)
    else if Truthy(id.value) then id
    else Get(Or(Get(signed, "asset", JNull).value, JObj(map[])), "id", JNull)
  }

  /** The public address of uploaded assets. */
  const AssetBase := "https://a.storyblok.com/"

  /** `f"{v}"` of a decoded JSON value. Lists and dicts are rendered as a marker only. */
  function StrOf(j: Json): string {
    match j
    case JNull => "None"
    case JBool(b) => if b then "True" else "False"
    case JInt(i) => IntToString(i)
    case JStr(s) => s
    case JList(_) => "[...]"
    case JObj(_) => "{...}"
  }

  /** The shape of an asset object: the public address, the field type and, maybe, an
      integer id. */
  predicate IsAsset(j: Json) {
    j.JObj? && "filename" in j.fields && j.fields["filename"].JStr? && StartsWith(j.fields["filename"].s, AssetBase) &&
    "fieldtype" in j.fields && j.fields["fieldtype"] == JStr("asset") &&
    j.fields.Keys <= {"filename", "fieldtype", "id"} && ("id" in j.fields ==> j.fields["id"].JInt?)
  }

  /** `fields = payload.get("fields") or {}; key = fields.get("key")`, which must be
      truthy. */
  function AssetKey(payload: Json): (r: Result<Json>)
    ensures r.Ok? ==> Truthy(r.value)
    ensures r.Ok? ==> payload.JObj? && "fields" in payload.fields && payload.fields["fields"].JObj? &&
                      "key" in payload.fields["fields"].fields && r.value == payload.fields["fields"].fields["key"]
  {
    var fields := Get(payload, "fields", JNull);
    if fields.Err? then Err(fields.failure)
    else
      var key := Get(Or(fields.value, JObj(map[])), "key", JNull);
      if key.Err? then Err(key.failure)
      else if !Truthy(key.value) then Err(OtherError("RuntimeError"))
      else key
  }

  /** The asset object: the public address of `key`, `fieldtype` `asset` and, when the
      asset id is truthy, `int` of it (which may raise). */
  function AssetObject(key: Json, assetId: Json): (r: Result<Json>)
    ensures r.Ok? ==> IsAsset(r.value)
    ensures r.Err? <==> Truthy(assetId) && IntOf(assetId).Err?
    ensures r.Ok? ==> r.value.fields["filename"] == JStr(AssetBase + StrOf(key)) &&
                      ("id" in r.value.fields <==> Truthy(assetId))
    ensures r.Ok? && Truthy(assetId) ==> r.value.fields["id"] == JInt(IntOf(assetId).value)
  {
    var obj := map["filename" := JStr(AssetBase + StrOf(key)), "fieldtype" := JStr("asset")];
    if !Truthy(assetId) then Ok(JObj(obj))
    else
      var id := IntOf(assetId);
      if id.Err? then Err(id.failure) else Ok(JObj(obj["id" := JInt(id.value)]))
  }

  /** One attempt of the upload from network call `m` on (uploader.py:288-309,
      run.py:448-458): the signed request, then the rest of the attempt. */
  function Attempted(script: Script, answers: nat -> Outcome, call: (nat, Request) -> Exchange<Json>, m: nat,
                     spaceId: int, t: Target, assetFolderId: Option<int>): (x: Exchange<Json>)
    ensures x.result.Ok? ==> IsAsset(x.result.value)
    ensures x.result.Ok? ==> |x.events| >= 1 && x.events[|x.events| - 1].Posted? &&
                             x.events[|x.events| - 1].filename == t.filename && x.events[|x.events| - 1].mime == t.mime
    ensures x.used <= call(m, SignedAssetRequest(spaceId, t.filename, assetFolderId)).used + 1
  {
    var s := call(m, SignedAssetRequest(spaceId, t.filename, assetFolderId));
    if s.result.Err? then Exchange(Err(s.result.failure), s.used, s.events)
    else AfterSigned(script, answers, m, s, t)
  }

  /** The attempt once the signed request `s` answered: the file posted to the signed
      address, then the asset object. uploader.py reads the asset id before the post,
      run.py after the key check. */
  function AfterSigned(script: Script, answers: nat -> Outcome, m: nat, s: Exchange<Json>, t: Target)
    : (x: Exchange<Json>)
    requires s.result.Ok?
    ensures x.result.Ok? ==> IsAsset(x.result.value)
    ensures x.result.Ok? ==> |x.events| >= 1 && x.events[|x.events| - 1].Posted? &&
                             x.events[|x.events| - 1].filename == t.filename && x.events[|x.events| - 1].mime == t.mime
    ensures x.used <= s.used + 1
  {
    var signed := s.result.value;
    var early := if script == UploaderScript then AssetId(signed) else Ok(JNull);
    if early.Err? then Exchange(Err(early.failure), s.used, s.events)
    else
      var data := Get(signed, "data", JNull);
      if data.Err? then Exchange(Err(data.failure), s.used, s.events)
      else
        var payload := Or(data.value, signed);
        var up := UploadBytes(answers, m + s.used, payload, t.filename, t.mime);
        var used := s.used + up.used;
        var events := s.events + up.events;
        if up.result.Err? then Exchange(Err(up.result.failure), used, events)
        else
          var key := AssetKey(payload);
          if key.Err? then Exchange(Err(key.failure), used, events)
          else
            var id := if script == UploaderScript then early else AssetId(signed);
            if id.Err? then Exchange(Err(id.failure), used, events)
            else Exchange(AssetObject(key.value, id.value), used, events)
  }

  /** The two copies differ only in when the asset id is read: whenever reading it does not
      raise, both attempts are the same. */
  lemma AttemptScriptsAgree(answers: nat -> Outcome, call: (nat, Request) -> Exchange<Json>, m: nat, spaceId: int,
                            t: Target, assetFolderId: Option<int>)
    requires var s := call(m, SignedAssetRequest(spaceId, t.filename, assetFolderId));
      s.result.Err? || AssetId(s.result.value).Ok?
    ensures Attempted(RunScript, answers, call, m, spaceId, t, assetFolderId) ==
            Attempted(UploaderScript, answers, call, m, spaceId, t, assetFolderId)
  {
  }

  /** An attempt source: `tries(m, t)` is what an attempt at uploading `t` from network
      call `m` on gives. */
  type Attempts = (nat, Target) -> Exchange<Json>

  ghost predicate AttemptsAt(tries: Attempts, script: Script, answers: nat -> Outcome,
                             call: (nat, Request) -> Exchange<Json>, spaceId: int, assetFolderId: Option<int>,
                             m: nat, t: Target) {
    tries(m, t) == Attempted(script, answers, call, m, spaceId, t, assetFolderId)
  }

  /** `tries` is the attempt of one of the scripts over the client `call`. */
  ghost predicate AttemptsUpload(tries: Attempts, script: Script, answers: nat -> Outcome,
                                 call: (nat, Request) -> Exchange<Json>, spaceId: int, assetFolderId: Option<int>) {
    forall m: nat, t: Target :: AttemptsAt(tries, script, answers, call, spaceId, assetFolderId, m, t)
  }

  function AttemptsOf(script: Script, answers: nat -> Outcome, call: (nat, Request) -> Exchange<Json>, spaceId: int,
                      assetFolderId: Option<int>): Attempts {
    (m: nat, t: Target) => Attempted(script, answers, call, m, spaceId, t, assetFolderId)
  }

  lemma AttemptsOfUpload(script: Script, answers: nat -> Outcome, call: (nat, Request) -> Exchange<Json>,
                         spaceId: int, assetFolderId: Option<int>)
    ensures AttemptsUpload(AttemptsOf(script, answers, call, spaceId, assetFolderId), script, answers, call, spaceId,
                           assetFolderId)
  {
    var tries := AttemptsOf(script, answers, call, spaceId, assetFolderId);
    forall m: nat, t: Target
      ensures tries(m, t) == Attempted(script, answers, call, m, spaceId, t, assetFolderId)
    {
    }
  }

  /** What the retry loop relies on of an attempt: at most `bound` calls, and a result that
      is an asset object when it succeeds. */
  ghost predicate TriesBehave(tries: Attempts, bound: nat) {
    forall m: nat, t: Target :: TryBehaves(tries, bound, m, t)
  }

  ghost predicate TryBehaves(tries: Attempts, bound: nat, m: nat, t: Target) {
    var x := tries(m, t);
    x.used <= bound && (x.result.Ok? ==> IsAsset(x.result.value))
  }

  /** Over a well-behaved client an attempt makes at most one call more than `_req`. */
  lemma AttemptsBehave(tries: Attempts, script: Script, answers: nat -> Outcome,
                       call: (nat, Request) -> Exchange<Json>, spaceId: int, assetFolderId: Option<int>, retries: nat)
    requires AttemptsUpload(tries, script, answers, call, spaceId, assetFolderId) && WellBehaved(call, retries)
    ensures TriesBehave(tries, retries + 1)
  {
    var bound := retries + 1;
    forall m: nat, t: Target
      ensures TryBehaves(tries, bound, m, t)
    {
      assert AttemptsAt(tries, script, answers, call, spaceId, assetFolderId, m, t);
      assert Behaves(call, retries, m, SignedAssetRequest(spaceId, t.filename, assetFolderId));
    }
  }

  /** One attempt (uploader.py:262-309, run.py:441-458). */
  method UploadAttempt(script: Script, answers: nat -> Outcome, ghost call: (nat, Request) -> Exchange<Json>,
                       ghost tries: Attempts, m: nat, spaceId: int, t: Target, assetFolderId: Option<int>)
    returns (x: Exchange<Json>)
    requires IsClient(call, answers) && AttemptsUpload(tries, script, answers, call, spaceId, assetFolderId)
    ensures x == tries(m, t)
  {
    var req := SignedAssetRequest(spaceId, t.filename, assetFolderId);
    var s := Req(answers, m, req, DefaultRetries);
    assert UsesReq(call, answers, m, req);
    assert AttemptsAt(tries, script, answers, call, spaceId, assetFolderId, m, t);
    if s.result.Err? {
      return Exchange(Err(s.result.failure), s.used, s.events);
    }
    x := FinishAttempt(script, answers, m, s, t);
  }

  /** The attempt after the signed request (uploader.py:290-309, run.py:448-458). */
  method FinishAttempt(script: Script, answers: nat -> Outcome, m: nat, s: Exchange<Json>, t: Target)
    returns (x: Exchange<Json>)
    requires s.result.Ok?
    ensures x == AfterSigned(script, answers, m, s, t)
  {
    var signed := s.result.value;
    var early := if script == UploaderScript then AssetId(signed) else Ok(JNull);
    if early.Err? {
      return Exchange(Err(early.failure), s.used, s.events);
    }
    var data := Get(signed, "data", JNull);
    if data.Err? {
      return Exchange(Err(data.failure), s.used, s.events);
    }
    var payload := Or(data.value, signed);
    var up := UploadBytes(answers, m + s.used, payload, t.filename, t.mime);
    if up.result.Err? {
      return Exchange(Err(up.result.failure), s.used + up.used, s.events + up.events);
    }
    var key := AssetKey(payload);
    if key.Err? {
      return Exchange(Err(key.failure), s.used + up.used, s.events + up.events);
    }
    var id := if script == UploaderScript then early else AssetId(signed);
    if id.Err? {
      return Exchange(Err(id.failure), s.used + up.used, s.events + up.events);
    }
    return Exchange(AssetObject(key.value, id.value), s.used + up.used, s.events + up.events);
  }

  // ---------------------------------------------------------------------------
  // The retry loop

  /** What an upload did: the asset object (or `None`), the calls, the events, and the
      result of every attempt made, in order. */
  datatype Uploaded = Uploaded(asset: Option<Json>, used: nat, events: seq<Event>, outcomes: seq<Result<Json>>)

  /** The attempt loop of `upload_image_to_storyblok` from attempt `attempt` on
      (uploader.py:261-323, run.py:440-466): a success is returned; a network error (SSL,
      timeout, connection) is followed by a sleep of `1.5 * attempt` seconds, but for the
      last attempt, and the next attempt; any other error gives `None` at once; no attempt
      left gives `None`. */
  function UploadFrom(tries: Attempts, t: Target, n: nat, attempt: nat, maxRetries: nat): Uploaded
    requires 1 <= attempt
    decreases maxRetries + 1 - attempt
  {
    if attempt > maxRetries then Uploaded(None, 0, [], [])
    else
      var x := tries(n, t);
      if x.result.Ok? then Uploaded(Some(x.result.value), x.used, x.events, [x.result])
      else if !x.result.failure.NetworkError? then Uploaded(None, x.used, x.events, [x.result])
      else
        var pause := if attempt < maxRetries then [Slept(15 * attempt)] else [];
        var rest := UploadFrom(tries, t, n + x.used, attempt + 1, maxRetries);
        Uploaded(rest.asset, x.used + rest.used, x.events + pause + rest.events, [x.result] + rest.outcomes)
  }

  /** `upload_image_to_storyblok` with `maxRetries` attempts, from network call `n` on. A
      file that cannot be read raises on the first attempt, an error that is not a network
      error, so nothing is sent. */
  function UploadImage(tries: Attempts, n: nat, imagePath: string, present: string -> bool, readable: string -> bool,
                       scriptDir: string, guess: string -> Option<string>, now: nat, maxRetries: nat): Uploaded {
    var file := ImageFile(imagePath, present, scriptDir);
    if file.None? || !readable(file.value) then Uploaded(None, 0, [], [])
    else UploadFrom(tries, ImageTarget(file.value, guess, now), n, 1, maxRetries)
  }

  /** The default number of attempts. */
  const MaxImageRetries: nat := 3

  /** The retry discipline of the upload: between one and `maxRetries + 1 - attempt`
      attempts; every attempt but the last failed with a network error; a network error on
      the last attempt means every attempt was used. */
  lemma {:induction false} UploadOutcomes(tries: Attempts, t: Target, n: nat, attempt: nat, maxRetries: nat)
    requires 1 <= attempt <= maxRetries
    ensures var u := UploadFrom(tries, t, n, attempt, maxRetries);
      1 <= |u.outcomes| <= maxRetries + 1 - attempt &&
      (forall k :: 0 <= k < |u.outcomes| - 1 ==> u.outcomes[k].Err? && u.outcomes[k].failure.NetworkError?) &&
      (u.outcomes[|u.outcomes| - 1].Err? && u.outcomes[|u.outcomes| - 1].failure.NetworkError? ==>
        |u.outcomes| == maxRetries + 1 - attempt)
    decreases maxRetries + 1 - attempt
  {
    var x := tries(n, t);
    if x.result.Err? && x.result.failure.NetworkError? && attempt < maxRetries {
      UploadOutcomes(tries, t, n + x.used, attempt + 1, maxRetries);
      var rest := UploadFrom(tries, t, n + x.used, attempt + 1, maxRetries);
      var u := UploadFrom(tries, t, n, attempt, maxRetries);
      assert u.outcomes == [x.result] + rest.outcomes;
      assert u.outcomes[|u.outcomes| - 1] == rest.outcomes[|rest.outcomes| - 1];
      forall k | 1 <= k < |u.outcomes| - 1
        ensures u.outcomes[k].Err? && u.outcomes[k].failure.NetworkError?
      {
        assert u.outcomes[k] == rest.outcomes[k - 1];
      }
    }
  }

  /** An asset is returned exactly when the last attempt succeeded, and it is what that
      attempt gave: an asset object, when the attempts behave. */
  lemma {:induction false} UploadAssetIsLast(tries: Attempts, bound: nat, t: Target, n: nat, attempt: nat,
                                             maxRetries: nat)
    requires TriesBehave(tries, bound) && 1 <= attempt <= maxRetries
    ensures var u := UploadFrom(tries, t, n, attempt, maxRetries);
      |u.outcomes| >= 1 && (u.asset.Some? <==> u.outcomes[|u.outcomes| - 1].Ok?) &&
      (u.asset.Some? ==> u.outcomes[|u.outcomes| - 1] == Ok(u.asset.value) && IsAsset(u.asset.value))
    decreases maxRetries + 1 - attempt
  {
    var x := tries(n, t);
    assert TryBehaves(tries, bound, n, t);
    if x.result.Err? && x.result.failure.NetworkError? && attempt < maxRetries {
      UploadAssetIsLast(tries, bound, t, n + x.used, attempt + 1, maxRetries);
      var rest := UploadFrom(tries, t, n + x.used, attempt + 1, maxRetries);
      var u := UploadFrom(tries, t, n, attempt, maxRetries);
      assert u.outcomes[|u.outcomes| - 1] == rest.outcomes[|rest.outcomes| - 1];
    }
  }

  /** At most `bound` calls per attempt. */
  lemma {:induction false} UploadUsedBound(tries: Attempts, bound: nat, t: Target, n: nat, attempt: nat,
                                           maxRetries: nat)
    requires TriesBehave(tries, bound) && 1 <= attempt
    ensures var u := UploadFrom(tries, t, n, attempt, maxRetries); u.used <= bound * |u.outcomes|
    decreases maxRetries + 1 - attempt
  {
    if attempt <= maxRetries {
      var x := tries(n, t);
      assert TryBehaves(tries, bound, n, t);
      if x.result.Err? && x.result.failure.NetworkError? {
        UploadUsedBound(tries, bound, t, n + x.used, attempt + 1, maxRetries);
        var rest := UploadFrom(tries, t, n + x.used, attempt + 1, maxRetries);
        assert bound * (1 + |rest.outcomes|) == bound + bound * |rest.outcomes|;
      }
    }
  }

  /** Every attempt at `t` fails with a network error. */
  ghost predicate NetworkDown(tries: Attempts, t: Target) {
    forall m: nat :: FailsOnNetwork(tries, t, m)
  }

  ghost predicate FailsOnNetwork(tries: Attempts, t: Target, m: nat) {
    tries(m, t).result.Err? && tries(m, t).result.failure.NetworkError?
  }

  /** With the network down the upload gives up with `None`, after all its attempts. */
  lemma {:induction false} UploadNetworkDown(tries: Attempts, t: Target, n: nat, attempt: nat, maxRetries: nat)
    requires NetworkDown(tries, t) && 1 <= attempt
    ensures var u := UploadFrom(tries, t, n, attempt, maxRetries);
      u.asset == None && (attempt <= maxRetries ==> |u.outcomes| == maxRetries + 1 - attempt)
    decreases maxRetries + 1 - attempt
  {
    if attempt <= maxRetries {
      assert FailsOnNetwork(tries, t, n);
      UploadNetworkDown(tries, t, n + tries(n, t).used, attempt + 1, maxRetries);
    }
  }

  /** The attempt loop in the state it has before attempt `attempt`: the calls, events
      and attempt results so far. */
  function UploadLoopFrom(tries: Attempts, t: Target, n: nat, attempt: nat, maxRetries: nat, used: nat,
                          events: seq<Event>, outcomes: seq<Result<Json>>): Uploaded
    requires 1 <= attempt
    decreases maxRetries + 1 - attempt
  {
    if attempt > maxRetries then Uploaded(None, used, events, outcomes)
    else
      var x := tries(n + used, t);
      if x.result.Ok? then Uploaded(Some(x.result.value), used + x.used, events + x.events, outcomes + [x.result])
      else if !x.result.failure.NetworkError? then Uploaded(None, used + x.used, events + x.events, outcomes + [x.result])
      else
        UploadLoopFrom(tries, t, n, attempt + 1, maxRetries, used + x.used,
                       events + x.events + (if attempt < maxRetries then [Slept(15 * attempt)] else []),
                       outcomes + [x.result])
  }

  /** The loop state is a prefix of what the remaining attempts add. */
  lemma {:induction false} UploadLoopIsFrom(tries: Attempts, t: Target, n: nat, attempt: nat, maxRetries: nat,
                                            used: nat, events: seq<Event>, outcomes: seq<Result<Json>>)
    requires 1 <= attempt
    ensures var rest := UploadFrom(tries, t, n + used, attempt, maxRetries);
      UploadLoopFrom(tries, t, n, attempt, maxRetries, used, events, outcomes) ==
      Uploaded(rest.asset, used + rest.used, events + rest.events, outcomes + rest.outcomes)
    decreases maxRetries + 1 - attempt
  {
    if attempt <= maxRetries {
      var x := tries(n + used, t);
      if x.result.Err? && x.result.failure.NetworkError? {
        var pause := if attempt < maxRetries then [Slept(15 * attempt)] else [];
        UploadLoopIsFrom(tries, t, n, attempt + 1, maxRetries, used + x.used, events + x.events + pause,
                         outcomes + [x.result]);
        var rest := UploadFrom(tries, t, n + used + x.used, attempt + 1, maxRetries);
        assert events + x.events + pause + rest.events == events + (x.events + pause + rest.events);
        assert outcomes + [x.result] + rest.outcomes == outcomes + ([x.result] + rest.outcomes);
      } else {
        assert outcomes + [x.result] == outcomes + [x.result] + [];
      }
    } else {
      assert events + [] == events && outcomes + [] == outcomes;
    }
  }

  /** The attempt loop (uploader.py:261-323, run.py:440-466). */
  method UploadLoop(script: Script, answers: nat -> Outcome, ghost call: (nat, Request) -> Exchange<Json>,
                    ghost tries: Attempts, n: nat, spaceId: int, t: Target, assetFolderId: Option<int>, maxRetries: nat)
    returns (u: Uploaded)
    requires IsClient(call, answers) && AttemptsUpload(tries, script, answers, call, spaceId, assetFolderId)
    ensures u == UploadFrom(tries, t, n, 1, maxRetries)
  {
    UploadLoopIsFrom(tries, t, n, 1, maxRetries, 0, [], []);
    var used: nat := 0;
    var events: seq<Event> := [];
    var outcomes: seq<Result<Json>> := [];
    var attempt := 1;
    ghost var whole := UploadLoopFrom(tries, t, n, 1, maxRetries, 0, [], []);
    assert [] + UploadFrom(tries, t, n, 1, maxRetries).events == UploadFrom(tries, t, n, 1, maxRetries).events;
    assert [] + UploadFrom(tries, t, n, 1, maxRetries).outcomes == UploadFrom(tries, t, n, 1, maxRetries).outcomes;
    while attempt <= maxRetries
      invariant 1 <= attempt
      invariant whole == UploadLoopFrom(tries, t, n, attempt, maxRetries, used, events, outcomes)
      decreases maxRetries + 1 - attempt
    {
      var x := UploadAttempt(script, answers, call, tries, n + used, spaceId, t, assetFolderId);
      if x.result.Ok? {
        return Uploaded(Some(x.result.value), used + x.used, events + x.events, outcomes + [x.result]);
      }
      if !x.result.failure.NetworkError? {
        return Uploaded(None, used + x.used, events + x.events, outcomes + [x.result]);
      }
      var pause := if attempt < maxRetries then [Slept(15 * attempt)] else [];
      used, events, outcomes := used + x.used, events + x.events + pause, outcomes + [x.result];
      attempt := attempt + 1;
    }
    return Uploaded(None, used, events, outcomes);
  }

  /** `upload_image_to_storyblok` (uploader.py:226-323, run.py:431-466). */
  method UploadImageToStoryblok(script: Script, answers: nat -> Outcome, ghost call: (nat, Request) -> Exchange<Json>,
                                ghost tries: Attempts, n: nat, spaceId: int, imagePath: string,
                                present: string -> bool, readable: string -> bool, scriptDir: string,
                                guess: string -> Option<string>, now: nat, assetFolderId: Option<int>,
                                maxRetries: nat)
    returns (u: Uploaded)
    requires IsClient(call, answers) && AttemptsUpload(tries, script, answers, call, spaceId, assetFolderId)
    ensures u == UploadImage(tries, n, imagePath, present, readable, scriptDir, guess, now, maxRetries)
  {
    if imagePath == "" {
      return Uploaded(None, 0, [], []);
    }
    var path := imagePath;
    if !IsAbsolute(path) && !present(path) {
      path := JoinPath(scriptDir, imagePath);
    }
    if !present(path) || !readable(path) {
      return Uploaded(None, 0, [], []);
    }
    u := UploadLoop(script, answers, call, tries, n, spaceId, ImageTarget(path, guess, now), assetFolderId, maxRetries);
  }

  /** The upload as a whole: no path, or no file there, is `None` without any call;
      otherwise at most `maxRetries` attempts of at most `bound` calls each, retried only
      after network errors, and a result that is an asset object. */
  lemma UploadImageProperties(tries: Attempts, bound: nat, n: nat, imagePath: string, present: string -> bool,
                              readable: string -> bool, scriptDir: string, guess: string -> Option<string>, now: nat,
                              maxRetries: nat)
    requires TriesBehave(tries, bound)
    ensures var u := UploadImage(tries, n, imagePath, present, readable, scriptDir, guess, now, maxRetries);
      (ImageFile(imagePath, present, scriptDir).None? ==> u == Uploaded(None, 0, [], [])) &&
      |u.outcomes| <= maxRetries && u.used <= bound * maxRetries &&
      (forall k :: 0 <= k < |u.outcomes| - 1 ==> u.outcomes[k].Err? && u.outcomes[k].failure.NetworkError?) &&
      (u.asset.Some? ==> IsAsset(u.asset.value))
  {
    var file := ImageFile(imagePath, present, scriptDir);
    if file.Some? && readable(file.value) && maxRetries >= 1 {
      var t := ImageTarget(file.value, guess, now);
      UploadOutcomes(tries, t, n, 1, maxRetries);
      UploadAssetIsLast(tries, bound, t, n, 1, maxRetries);
      UploadUsedBound(tries, bound, t, n, 1, maxRetries);
      var u := UploadFrom(tries, t, n, 1, maxRetries);
      MulMonotone(bound, |u.outcomes|, maxRetries);
    }
  }

  lemma MulMonotone(a: nat, b: nat, c: nat)
    requires b <= c
    ensures a * b <= a * c
  {
    assert a * c == a * b + a * (c - b);
  }


  // ---------------------------------------------------------------------------
  // Creating the story

  /** The slug candidates of `create_storyblok_story` (uploader.py:348-353, run.py:472-473):
      the slug of the title, then with `rnd` (the draw of `random.randint(1000, 9999)`) and
      then with `now` (`int(time.time())`) appended. */
  function SlugCandidates(base: string, rnd: nat, now: nat): seq<string> {
    [base, base + "-" + NatToString(rnd), base + "-" + NatToString(now)]
  }

  /** The three candidates all extend the base slug, and they are different from each other
      unless the draw equals the clock. */
  lemma CandidatesDistinct(base: string, rnd: nat, now: nat)
    requires rnd != now
    ensures var c := SlugCandidates(base, rnd, now);
      |c| == 3 && c[0] != c[1] && c[0] != c[2] && c[1] != c[2] &&
      forall k :: 0 <= k < 3 ==> StartsWith(c[k], base)
  {
    var c := SlugCandidates(base, rnd, now);
    assert c[1][..|base|] == base && c[2][..|base|] == base;
    if c[1] == c[2] {
      assert c[1][|base| + 1..] == NatToString(rnd);
      assert c[2][|base| + 1..] == NatToString(now);
      NatToStringInjective(rnd, now);
    }
  }

  /** A 422 whose lowercased text mentions a taken slug. */
  predicate SlugConflict(f: Failure) {
    f.HttpError? && f.status == 422 &&
    (Contains(Lower(f.text), "already taken") || Contains(Lower(f.text), "slug"))
  }

  /** The test after which the next candidate is tried (uploader.py:379-386,
      run.py:483-485). uploader.py asks whether the error carries a response (`is not
      None`), which `_req`'s errors always do; run.py asks whether the response is truthy,
      and a `requests` response is truthy only below status 400. */
  predicate NextCandidate(script: Script, f: Failure) {
    SlugConflict(f) && (script == UploaderScript || f.status < 400)
  }

  /** `result.get("story") or result`, which must be a dict for the following
      `.get("id")` not to raise. */
  function CreatedStory(result: Json): (r: Option<Json>)
    ensures r.Some? ==> r.value.JObj?
    ensures r.Some? ==> r.value == result || (result.JObj? && "story" in result.fields && r.value == result.fields["story"])
    ensures (result.JObj? && "story" in result.fields && result.fields["story"].JObj? &&
             Truthy(result.fields["story"])) ==> r == Some(result.fields["story"])
    ensures !result.JObj? ==> r == None
  {
    var story := Get(result, "story", JNull);
    if story.Err? then None
    else
      var created := Or(story.value, result);
      if created.JObj? then Some(created) else None
  }

  /** What creating the story did: the story (or `None`), the calls, the events, and the
      slugs tried with what each `create_story` gave, in order. */
  datatype Posting = Posting(story: Option<Json>, used: nat, events: seq<Event>, tried: seq<string>,
                             results: seq<Result<Json>>)

  /** A story poster: `post(m, slug)` is what `create_story` with slug `slug` gives from
      network call `m` on. */
  type Poster = (nat, string) -> Exchange<Json>

  ghost predicate PostsAt(post: Poster, call: (nat, Request) -> Exchange<Json>, spaceId: int, title: string,
                          content: Content, parentId: int, publish: bool, m: nat, slug: string) {
    post(m, slug) == call(m, StoryRequest(spaceId, title, slug, content, parentId, publish))
  }

  /** `post` is `create_story` of one title and content over the client `call`. */
  ghost predicate PostsStories(post: Poster, call: (nat, Request) -> Exchange<Json>, spaceId: int, title: string,
                               content: Content, parentId: int, publish: bool) {
    forall m: nat, slug: string :: PostsAt(post, call, spaceId, title, content, parentId, publish, m, slug)
  }

  function PosterOf(call: (nat, Request) -> Exchange<Json>, spaceId: int, title: string, content: Content,
                    parentId: int, publish: bool): Poster {
    (m: nat, slug: string) => call(m, StoryRequest(spaceId, title, slug, content, parentId, publish))
  }

  lemma PosterOfPosts(call: (nat, Request) -> Exchange<Json>, spaceId: int, title: string, content: Content,
                      parentId: int, publish: bool)
    ensures PostsStories(PosterOf(call, spaceId, title, content, parentId, publish), call, spaceId, title, content,
                         parentId, publish)
  {
    var post := PosterOf(call, spaceId, title, content, parentId, publish);
    forall m: nat, slug: string
      ensures post(m, slug) == call(m, StoryRequest(spaceId, title, slug, content, parentId, publish))
    {
    }
  }

  /** The candidate loop of `create_storyblok_story` over `slugs` (uploader.py:367-396,
      run.py:473-491): the first success is returned (when its story is a dict); the next
      candidate is tried only after a slug conflict the script recognises; any other error
      gives `None`; no candidate left gives `None`. */
  function StoryFrom(script: Script, post: Poster, n: nat, slugs: seq<string>, i: nat): Posting
    requires i <= |slugs|
    decreases |slugs| - i
  {
    if i == |slugs| then Posting(None, 0, [], [], [])
    else
      var x := post(n, slugs[i]);
      if x.result.Ok? then Posting(CreatedStory(x.result.value), x.used, x.events, [slugs[i]], [x.result])
      else if NextCandidate(script, x.result.failure) then
        var rest := StoryFrom(script, post, n + x.used, slugs, i + 1);
        Posting(rest.story, x.used + rest.used, x.events + rest.events, [slugs[i]] + rest.tried, [x.result] + rest.results)
      else Posting(None, x.used, x.events, [slugs[i]], [x.result])
  }

  /** `create_storyblok_story` for an ASCII title, from network call `n` on. */
  function CreateStory(script: Script, post: Poster, n: nat, title: string, now: nat, rnd: nat): Posting
    requires IsAscii(title)
  {
    StoryFrom(script, post, n, SlugCandidates(Slugify(title, 90, now), rnd, now), 0)
  }

  /** The candidates are tried in order, one `create_story` each: the slugs tried are a
      non-empty run of the candidates from `i` on, and run.py never gets past the first. */
  lemma {:induction false} StoryTried(script: Script, post: Poster, n: nat, slugs: seq<string>, i: nat)
    requires i < |slugs|
    ensures var p := StoryFrom(script, post, n, slugs, i);
      1 <= |p.tried| == |p.results| <= |slugs| - i && p.tried == slugs[i..i + |p.tried|] &&
      (script == RunScript ==> |p.tried| == 1)
    decreases |slugs| - i
  {
    var p := StoryFrom(script, post, n, slugs, i);
    var x := post(n, slugs[i]);
    if x.result.Err? && NextCandidate(script, x.result.failure) && i + 1 < |slugs| {
      StoryTried(script, post, n + x.used, slugs, i + 1);
      var rest := StoryFrom(script, post, n + x.used, slugs, i + 1);
      assert p.tried == [slugs[i]] + rest.tried && p.results == [x.result] + rest.results;
      assert slugs[i..i + 1 + |rest.tried|] == [slugs[i]] + slugs[i + 1..i + 1 + |rest.tried|];
    } else {
      assert p.tried == [slugs[i]] && |p.results| == 1;
      assert slugs[i..i + 1] == [slugs[i]];
    }
  }

  /** Every result but the last is an error the script moves on after. */
  predicate MovedOnBefore(script: Script, results: seq<Result<Json>>) {
    forall k :: 0 <= k < |results| - 1 ==> results[k].Err? && NextCandidate(script, results[k].failure)
  }

  /** Every slug tried but the last gave an error the script moves on after. */
  lemma {:induction false} StoryMovedOn(script: Script, post: Poster, n: nat, slugs: seq<string>, i: nat)
    requires i <= |slugs|
    ensures MovedOnBefore(script, StoryFrom(script, post, n, slugs, i).results)
    decreases |slugs| - i
  {
    if i < |slugs| {
      var x := post(n, slugs[i]);
      if x.result.Err? && NextCandidate(script, x.result.failure) {
        StoryMovedOn(script, post, n + x.used, slugs, i + 1);
        var rest := StoryFrom(script, post, n + x.used, slugs, i + 1);
        var p := StoryFrom(script, post, n, slugs, i);
        assert p.results == [x.result] + rest.results;
        forall k | 1 <= k < |p.results| - 1
          ensures p.results[k].Err? && NextCandidate(script, p.results[k].failure)
        {
          assert p.results[k] == rest.results[k - 1];
        }
      }
    }
  }

  /** A story is returned only when the last slug tried succeeded, and it is the dict that
      call gave. */
  lemma {:induction false} StoryEnds(script: Script, post: Poster, n: nat, slugs: seq<string>, i: nat)
    requires i < |slugs|
    ensures var p := StoryFrom(script, post, n, slugs, i);
      |p.results| >= 1 &&
      (p.story.Some? ==> p.results[|p.results| - 1].Ok? && p.story == CreatedStory(p.results[|p.results| - 1].value) &&
                         p.story.value.JObj?)
    decreases |slugs| - i
  {
    var x := post(n, slugs[i]);
    if x.result.Err? && NextCandidate(script, x.result.failure) && i + 1 < |slugs| {
      StoryEnds(script, post, n + x.used, slugs, i + 1);
      var rest := StoryFrom(script, post, n + x.used, slugs, i + 1);
      var p := StoryFrom(script, post, n, slugs, i);
      assert p.results[|p.results| - 1] == rest.results[|rest.results| - 1];
    }
  }

  /** When the last slug tried, too, gave an error the script moves on after, every
      candidate was tried and there is no story. */
  lemma {:induction false} StoryExhausted(script: Script, post: Poster, n: nat, slugs: seq<string>, i: nat)
    requires i < |slugs|
    ensures var p := StoryFrom(script, post, n, slugs, i);
      |p.results| >= 1 &&
      (p.results[|p.results| - 1].Err? && NextCandidate(script, p.results[|p.results| - 1].failure) ==>
         |p.tried| == |slugs| - i && p.story == None)
    decreases |slugs| - i
  {
    var x := post(n, slugs[i]);
    if x.result.Err? && NextCandidate(script, x.result.failure) && i + 1 < |slugs| {
      StoryExhausted(script, post, n + x.used, slugs, i + 1);
      var rest := StoryFrom(script, post, n + x.used, slugs, i + 1);
      var p := StoryFrom(script, post, n, slugs, i);
      assert p.results[|p.results| - 1] == rest.results[|rest.results| - 1];
    }
  }

  /** Every slug candidate is taken. */
  ghost predicate AlwaysTaken(post: Poster) {
    forall m: nat, slug: string :: TakenAt(post, m, slug)
  }

  ghost predicate TakenAt(post: Poster, m: nat, slug: string) {
    post(m, slug).result.Err? && SlugConflict(post(m, slug).result.failure)
  }

  /** When every slug is taken, uploader.py tries every candidate and run.py only the first;
      both give `None`. */
  lemma {:induction false} StoryAllTaken(script: Script, post: Poster, n: nat, slugs: seq<string>, i: nat)
    requires AlwaysTaken(post) && i < |slugs|
    ensures var p := StoryFrom(script, post, n, slugs, i);
      p.story == None && p.tried == (if script == UploaderScript then slugs[i..] else [slugs[i]])
    decreases |slugs| - i
  {
    assert TakenAt(post, n, slugs[i]);
    if script == UploaderScript && i + 1 < |slugs| {
      StoryAllTaken(script, post, n + post(n, slugs[i]).used, slugs, i + 1);
      assert slugs[i..] == [slugs[i]] + slugs[i + 1..];
    } else if script == UploaderScript {
      assert slugs[i..] == [slugs[i]];
    }
  }

  /** What the candidate loop relies on of a poster: at most `retries` calls, and nothing
      sent but the story request of that slug, with the same title, content and parent
      (and sleeps). */
  ghost predicate PostsBehave(post: Poster, spaceId: int, title: string, content: Content, parentId: int,
                              publish: bool, retries: nat) {
    forall m: nat, slug: string :: PostBehaves(post, spaceId, title, content, parentId, publish, retries, m, slug)
  }

  ghost predicate PostBehaves(post: Poster, spaceId: int, title: string, content: Content, parentId: int,
                              publish: bool, retries: nat, m: nat, slug: string) {
    var x := post(m, slug);
    x.used <= retries &&
    forall k :: 0 <= k < |x.events| ==>
      x.events[k].Slept? || x.events[k] == Sent(StoryRequest(spaceId, title, slug, content, parentId, publish))
  }

  lemma StoryPosterBehaves(post: Poster, call: (nat, Request) -> Exchange<Json>, spaceId: int, title: string,
                           content: Content, parentId: int, publish: bool, retries: nat)
    requires PostsStories(post, call, spaceId, title, content, parentId, publish) && WellBehaved(call, retries)
    ensures PostsBehave(post, spaceId, title, content, parentId, publish, retries)
  {
    forall m: nat, slug: string
      ensures PostBehaves(post, spaceId, title, content, parentId, publish, retries, m, slug)
    {
      assert PostsAt(post, call, spaceId, title, content, parentId, publish, m, slug);
      assert Behaves(call, retries, m, StoryRequest(spaceId, title, slug, content, parentId, publish));
    }
  }

  /** Only story creations of this title, content and parent, and sleeps. */
  predicate StoryPosts(es: seq<Event>, spaceId: int, title: string, content: Content, parentId: int) {
    forall k :: 0 <= k < |es| ==>
      es[k].Slept? ||
      (es[k].Sent? && es[k].req.verb == "POST" && es[k].req.path == StoriesPath(spaceId) &&
       es[k].req.body.StoryBody? && es[k].req.body == StoryBody(title, es[k].req.body.slug, parentId, content))
  }

  lemma PostFacts(post: Poster, spaceId: int, title: string, content: Content, parentId: int, publish: bool,
                  retries: nat, m: nat, slug: string)
    requires PostsBehave(post, spaceId, title, content, parentId, publish, retries)
    ensures post(m, slug).used <= retries && StoryPosts(post(m, slug).events, spaceId, title, content, parentId)
  {
    assert PostBehaves(post, spaceId, title, content, parentId, publish, retries, m, slug);
    var es := post(m, slug).events;
    forall k | 0 <= k < |es|
      ensures es[k].Slept? ||
              (es[k].Sent? && es[k].req.verb == "POST" && es[k].req.path == StoriesPath(spaceId) &&
               es[k].req.body.StoryBody? && es[k].req.body == StoryBody(title, es[k].req.body.slug, parentId, content))
    {
      assert es[k].Slept? || es[k] == Sent(StoryRequest(spaceId, title, slug, content, parentId, publish));
    }
  }

  lemma StoryPostsConcat(a: seq<Event>, b: seq<Event>, spaceId: int, title: string, content: Content, parentId: int)
    requires StoryPosts(a, spaceId, title, content, parentId) && StoryPosts(b, spaceId, title, content, parentId)
    ensures StoryPosts(a + b, spaceId, title, content, parentId)
  {
    forall k | 0 <= k < |a + b|
      ensures (a + b)[k] == (if k < |a| then a[k] else b[k - |a|])
    {
    }
  }

  /** Every candidate is sent with the same title, content and parent. */
  lemma {:induction false} StorySameContent(script: Script, post: Poster, spaceId: int, title: string,
                                            content: Content, parentId: int, publish: bool, retries: nat, n: nat,
                                            slugs: seq<string>, i: nat)
    requires PostsBehave(post, spaceId, title, content, parentId, publish, retries) && i <= |slugs|
    ensures StoryPosts(StoryFrom(script, post, n, slugs, i).events, spaceId, title, content, parentId)
    decreases |slugs| - i
  {
    if i < |slugs| {
      var x := post(n, slugs[i]);
      PostFacts(post, spaceId, title, content, parentId, publish, retries, n, slugs[i]);
      if x.result.Err? && NextCandidate(script, x.result.failure) {
        StorySameContent(script, post, spaceId, title, content, parentId, publish, retries, n + x.used, slugs, i + 1);
        var rest := StoryFrom(script, post, n + x.used, slugs, i + 1);
        StoryPostsConcat(x.events, rest.events, spaceId, title, content, parentId);
      }
    }
  }

  /** At most `retries` calls go to each candidate tried. */
  lemma {:induction false} StoryUsedBound(script: Script, post: Poster, spaceId: int, title: string,
                                          content: Content, parentId: int, publish: bool, retries: nat, n: nat,
                                          slugs: seq<string>, i: nat)
    requires PostsBehave(post, spaceId, title, content, parentId, publish, retries) && i <= |slugs|
    ensures var p := StoryFrom(script, post, n, slugs, i); p.used <= retries * |p.tried|
    decreases |slugs| - i
  {
    if i < |slugs| {
      var x := post(n, slugs[i]);
      assert PostBehaves(post, spaceId, title, content, parentId, publish, retries, n, slugs[i]);
      if x.result.Err? && NextCandidate(script, x.result.failure) {
        StoryUsedBound(script, post, spaceId, title, content, parentId, publish, retries, n + x.used, slugs, i + 1);
        var rest := StoryFrom(script, post, n + x.used, slugs, i + 1);
        assert retries * (1 + |rest.tried|) == retries + retries * |rest.tried|;
      }
    }
  }

  /** `acc` after one more candidate `slug`, tried with `x`, ending with `story`. */
  function Extend(acc: Posting, x: Exchange<Json>, slug: string, story: Option<Json>): Posting {
    Posting(story, acc.used + x.used, acc.events + x.events, acc.tried + [slug], acc.results + [x.result])
  }

  /** What the remaining candidates `rest` add to `acc`. */
  function Join(acc: Posting, rest: Posting): Posting {
    Posting(rest.story, acc.used + rest.used, acc.events + rest.events, acc.tried + rest.tried,
            acc.results + rest.results)
  }

  /** The candidate loop in the state `acc` it has before candidate `i`. */
  function StoryLoopFrom(script: Script, post: Poster, n: nat, slugs: seq<string>, i: nat, acc: Posting): Posting
    requires i <= |slugs|
    decreases |slugs| - i
  {
    if i == |slugs| then Posting(None, acc.used, acc.events, acc.tried, acc.results)
    else
      var x := post(n + acc.used, slugs[i]);
      if x.result.Ok? then Extend(acc, x, slugs[i], CreatedStory(x.result.value))
      else if NextCandidate(script, x.result.failure) then
        StoryLoopFrom(script, post, n, slugs, i + 1, Extend(acc, x, slugs[i], None))
      else Extend(acc, x, slugs[i], None)
  }

  /** The loop state is a prefix of what the remaining candidates add. */
  lemma {:induction false} StoryLoopIsFrom(script: Script, post: Poster, n: nat, slugs: seq<string>, i: nat,
                                           acc: Posting)
    requires i <= |slugs|
    ensures StoryLoopFrom(script, post, n, slugs, i, acc) == Join(acc, StoryFrom(script, post, n + acc.used, slugs, i))
    decreases |slugs| - i
  {
    if i < |slugs| && post(n + acc.used, slugs[i]).result.Err? &&
       NextCandidate(script, post(n + acc.used, slugs[i]).result.failure) {
      var x := post(n + acc.used, slugs[i]);
      var acc' := Extend(acc, x, slugs[i], None);
      StoryLoopIsFrom(script, post, n, slugs, i + 1, acc');
      JoinExtend(acc, x, slugs[i], StoryFrom(script, post, n + acc'.used, slugs, i + 1));
    } else {
      StoryLoopStops(script, post, n, slugs, i, acc);
    }
  }

  lemma JoinExtend(acc: Posting, x: Exchange<Json>, slug: string, rest: Posting)
    ensures Join(Extend(acc, x, slug, None), rest) ==
            Join(acc, Posting(rest.story, x.used + rest.used, x.events + rest.events, [slug] + rest.tried,
                              [x.result] + rest.results))
  {
    assert acc.events + x.events + rest.events == acc.events + (x.events + rest.events);
    assert acc.tried + [slug] + rest.tried == acc.tried + ([slug] + rest.tried);
    assert acc.results + [x.result] + rest.results == acc.results + ([x.result] + rest.results);
  }

  /** The loop ends at candidate `i` as what is left does. */
  lemma StoryLoopStops(script: Script, post: Poster, n: nat, slugs: seq<string>, i: nat, acc: Posting)
    requires i <= |slugs|
    requires i < |slugs| ==> post(n + acc.used, slugs[i]).result.Ok? ||
                             !NextCandidate(script, post(n + acc.used, slugs[i]).result.failure)
    ensures StoryLoopFrom(script, post, n, slugs, i, acc) == Join(acc, StoryFrom(script, post, n + acc.used, slugs, i))
  {
    assert acc.events + [] == acc.events && acc.tried + [] == acc.tried && acc.results + [] == acc.results;
  }

  /** One `create_story` call (uploader.py:209-220, run.py:426-428). */
  method PostStory(answers: nat -> Outcome, ghost call: (nat, Request) -> Exchange<Json>, ghost post: Poster, m: nat,
                   spaceId: int, title: string, slug: string, content: Content, parentId: int, publish: bool)
    returns (x: Exchange<Json>)
    requires IsClient(call, answers) && PostsStories(post, call, spaceId, title, content, parentId, publish)
    ensures x == post(m, slug)
  {
    var req := StoryRequest(spaceId, title, slug, content, parentId, publish);
    x := Req(answers, m, req, DefaultRetries);
    assert UsesReq(call, answers, m, req);
    assert PostsAt(post, call, spaceId, title, content, parentId, publish, m, slug);
  }

  /** `create_storyblok_story` (uploader.py:326-396, run.py:469-491), `image` being the
      asset object handed in. */
  method CreateStoryblokStory(script: Script, answers: nat -> Outcome, ghost call: (nat, Request) -> Exchange<Json>,
                              ghost post: Poster, n: nat, spaceId: int, title: string, description: string,
                              image: Option<Json>, parentId: int, publish: bool, now: nat, rnd: nat)
    returns (p: Posting)
    requires IsClient(call, answers)
    requires PostsStories(post, call, spaceId, title, Content(title, description, image), parentId, publish)
    requires IsAscii(title)
    ensures p == CreateStory(script, post, n, title, now, rnd)
  {
    var slugs := SlugCandidates(Slugify(title, 90, now), rnd, now);
    p := TryCandidates(script, answers, call, post, n, spaceId, title, Content(title, description, image), parentId,
                       publish, slugs);
  }

  /** The candidate loop of `create_storyblok_story` (uploader.py:367-396, run.py:473-491). */
  method TryCandidates(script: Script, answers: nat -> Outcome, ghost call: (nat, Request) -> Exchange<Json>,
                       ghost post: Poster, n: nat, spaceId: int, title: string, content: Content, parentId: int,
                       publish: bool, slugs: seq<string>)
    returns (p: Posting)
    requires IsClient(call, answers) && PostsStories(post, call, spaceId, title, content, parentId, publish)
    ensures p == StoryFrom(script, post, n, slugs, 0)
  {
    var acc := Posting(None, 0, [], [], []);
    StoryLoopIsFrom(script, post, n, slugs, 0, acc);
    ghost var whole := StoryLoopFrom(script, post, n, slugs, 0, acc);
    ghost var spec := StoryFrom(script, post, n, slugs, 0);
    assert [] + spec.events == spec.events && [] + spec.tried == spec.tried && [] + spec.results == spec.results;
    var i := 0;
    while i < |slugs|
      invariant i <= |slugs|
      invariant whole == StoryLoopFrom(script, post, n, slugs, i, acc)
      decreases |slugs| - i
    {
      var x := PostStory(answers, call, post, n + acc.used, spaceId, title, slugs[i], content, parentId, publish);
      if x.result.Ok? {
        return Extend(acc, x, slugs[i], CreatedStory(x.result.value));
      }
      if !NextCandidate(script, x.result.failure) {
        return Extend(acc, x, slugs[i], None);
      }
      acc := Extend(acc, x, slugs[i], None);
      i := i + 1;
    }
    return Posting(None, acc.used, acc.events, acc.tried, acc.results);
  }

  /** The story content: component `success_story`, the title, the description and, only
      for a truthy image, the image (uploader.py:356-363, run.py:475-477). */
  lemma ContentFields(c: Content)
    ensures var j := ContentJson(c);
      j.JObj? && j.fields["component"] == JStr(ContentType) && j.fields["title"] == JStr(c.title) &&
      j.fields["description"] == JStr(c.description) &&
      ("image" in j.fields <==> c.image.Some? && Truthy(c.image.value)) &&
      ("image" in j.fields ==> j.fields["image"] == c.image.value) &&
      j.fields.Keys <= {"component", "title", "description", "image"}
  {
  }

  // ---------------------------------------------------------------------------
  // Preparing one record

  /** run.py's `(data.get(key) or "").strip()` (run.py:523, 527-528): a field that is
      missing or falsy is the empty text; a truthy value that is not a string, or data that
      is not a dict, raises. */
  function OrText(data: Json, key: string): (r: Result<string>)
    ensures r.Ok? ==> Strip(r.value) == r.value
    ensures r.Err? <==> !data.JObj? || (key in data.fields && Truthy(data.fields[key]) && !data.fields[key].JStr?)
    ensures data.JObj? && (key !in data.fields || !Truthy(data.fields[key])) ==> r == Ok("")
    ensures data.JObj? && key in data.fields && data.fields[key].JStr? ==> r == Ok(Strip(data.fields[key].s))
  {
    var v := Get(data, key, JNull);
    if v.Err? then Err(v.failure)
    else
      var w := Or(v.value, JStr(""));
      if w.JStr? then StripIdempotent(w.s); Ok(Strip(w.s)) else Err(OtherError("AttributeError"))
  }

  /** uploader.py's `data.get(key, "").strip()` (uploader.py:453-455): a missing field is
      the empty text; any value that is not a string, `null` included, raises. */
  function TextField(data: Json, key: string): (r: Result<string>)
    ensures r.Ok? ==> Strip(r.value) == r.value
    ensures r.Err? <==> !data.JObj? || (key in data.fields && !data.fields[key].JStr?)
    ensures data.JObj? && key !in data.fields ==> r == Ok("")
    ensures data.JObj? && key in data.fields && data.fields[key].JStr? ==> r == Ok(Strip(data.fields[key].s))
  {
    var v := Get(data, key, JStr(""));
    if v.Err? then Err(v.failure)
    else if v.value.JStr? then StripIdempotent(v.value.s); Ok(Strip(v.value.s))
    else Err(OtherError("AttributeError"))
  }

  /** The uploader's final description: the description, the body text, or both with a
      blank line between them. */
  function Combined(desc: string, body: string): (r: string)
    ensures StartsWith(r, desc) && EndsWith(r, body)
    ensures body == "" ==> r == desc
    ensures desc == "" ==> r == body
    ensures desc != "" && body != "" ==> |r| == |desc| + 2 + |body| && r[|desc|..|desc| + 2] == "\n\n"
  {
    if body == "" then desc
    else if desc == "" then body
    else
      var r := desc + "\n\n" + body;
      assert r[..|desc|] == desc && r[|r| - |body|..] == body;
      r
  }

  /** run.py's final description (run.py:529): `f"{desc}\n\n{body}".strip()` when there is a
      body, else the description. */
  function RunFinalDescription(desc: string, body: string): string {
    if body != "" then Strip(desc + "\n\n" + body) else desc
  }

  /** On stripped fields the two scripts build the same description. */
  lemma FinalDescriptionsAgree(desc: string, body: string)
    requires Strip(desc) == desc && Strip(body) == body
    ensures RunFinalDescription(desc, body) == Combined(desc, body)
  {
    if body != "" {
      if desc == "" {
        assert All("\n\n", IsSpace);
        StripAfterSpace("\n\n", body);
        assert desc + "\n\n" + body == "\n\n" + body;
      } else {
        StrippedEnds(desc);
        StrippedEnds(body);
        JoinedStripped(desc, "\n\n", body);
      }
    }
  }

  /** A non-empty stripped string starts and ends with a non-space. */
  lemma StrippedEnds(s: string)
    requires Strip(s) == s && s != []
    ensures !IsSpace(s[0]) && !IsSpace(s[|s| - 1])
  {
  }

  lemma JoinedStripped(a: string, sep: string, b: string)
    requires a != [] && b != [] && !IsSpace(a[0]) && !IsSpace(b[|b| - 1])
    ensures Strip(a + sep + b) == a + sep + b
  {
    var s := a + sep + b;
    assert s[0] == a[0] && s[|s| - 1] == b[|b| - 1];
    TrimKept(s, IsSpace);
  }

  /** The uploader's combination by reassignment (uploader.py:463-469). */
  method CombineDescription(description: string, bodyText: string) returns (finalDescription: string)
    ensures finalDescription == Combined(description, bodyText)
  {
    finalDescription := description;
    if bodyText != "" {
      if finalDescription != "" {
        finalDescription := finalDescription + "\n\n" + bodyText;
      } else {
        finalDescription := bodyText;
      }
    }
  }

  /** A record after its fields are read: reading raised, it has no title, or it is ready
      with its title, final description and hero image (`""` for none). */
  datatype Prepared = Unusable(failure: Failure) | Untitled | Ready(title: string, description: string, hero: string)

  /** run.py's reading of one record (run.py:523-530): the title first, and a blank title
      skips the record before anything else is read; the hero image is taken as it is. */
  function RunRecord(data: Json): (r: Prepared)
    ensures r == Untitled <==> OrText(data, "title") == Ok("")
    ensures r.Ready? ==> r.title != ""
  {
    ReadRecord(OrText(data, "title"), OrText(data, "description"), OrText(data, "body_text"),
               Get(data, "hero_image", JNull))
  }

  /** run.py's decisions on the fields it read, in the order it reads them: the title, the
      description, the body text, then the hero image, which is used when truthy and must
      then be a string. */
  function ReadRecord(title: Result<string>, desc: Result<string>, body: Result<string>, hero: Result<Json>)
    : (r: Prepared)
    ensures r == Untitled <==> title == Ok("")
    ensures r.Ready? ==>
      title == Ok(r.title) && r.title != "" && desc.Ok? && body.Ok? &&
      r.description == RunFinalDescription(desc.value, body.value)
    ensures r.Ready? ==>
      hero.Ok? && (r.hero != "" ==> hero.value == JStr(r.hero)) && (r.hero == "" ==> !Truthy(hero.value))
  {
    if title.Err? then Unusable(title.failure)
    else if title.value == "" then Untitled
    else if desc.Err? then Unusable(desc.failure)
    else if body.Err? then Unusable(body.failure)
    else if hero.Err? then Unusable(hero.failure)
    else if !Truthy(hero.value) then Ready(title.value, RunFinalDescription(desc.value, body.value), "")
    else if hero.value.JStr? then Ready(title.value, RunFinalDescription(desc.value, body.value), hero.value.s)
    else Unusable(OtherError("TypeError"))
  }

  /** A record run.py is ready to upload has its stripped title and the combination of its
      stripped description and body text. */
  lemma RunRecordReady(data: Json)
    ensures var r := RunRecord(data);
      r.Ready? ==>
        OrText(data, "title") == Ok(r.title) && OrText(data, "description").Ok? && OrText(data, "body_text").Ok? &&
        r.description == Combined(OrText(data, "description").value, OrText(data, "body_text").value)
  {
    var t, d, b := OrText(data, "title"), OrText(data, "description"), OrText(data, "body_text");
    var r := ReadRecord(t, d, b, Get(data, "hero_image", JNull));
    assert RunRecord(data) == r;
    if r.Ready? {
      assert t == Ok(r.title) && d.Ok? && b.Ok? && r.description == RunFinalDescription(d.value, b.value);
      FinalDescriptionsAgree(d.value, b.value);
    }
  }

  /** A record run.py is ready to upload has its hero image when that is truthy (it is then
      a string), and none otherwise. */
  lemma RunRecordHero(data: Json)
    ensures var r := RunRecord(data);
      r.Ready? ==>
        data.JObj? &&
        (r.hero != "" ==> "hero_image" in data.fields && data.fields["hero_image"] == JStr(r.hero)) &&
        (r.hero == "" ==> "hero_image" !in data.fields || !Truthy(data.fields["hero_image"]))
  {
    var h := Get(data, "hero_image", JNull);
    var r := ReadRecord(OrText(data, "title"), OrText(data, "description"), OrText(data, "body_text"), h);
    assert RunRecord(data) == r;
  }

  /** What reading a record raises on: data that is not a dict, a field that is truthy but
      not a string. */
  lemma RunRecordUnusable(data: Json)
    ensures RunRecord(data).Unusable? <==>
      OrText(data, "title").Err? ||
      (OrText(data, "title") != Ok("") &&
       (OrText(data, "description").Err? || OrText(data, "body_text").Err? ||
        ("hero_image" in data.fields && Truthy(data.fields["hero_image"]) && !data.fields["hero_image"].JStr?)))
  {
  }

  /** The hero image field of the uploader's record can be stripped. */
  predicate HeroStrippable(data: Json) {
    data.JObj? && ("hero_image" in data.fields && Truthy(data.fields["hero_image"]) ==> data.fields["hero_image"].JStr?)
  }

  /** uploader.py's reading of the record (uploader.py:453-469): every field is read, the
      hero image stripped, before the title is checked. */
  function UploaderRecord(data: Json): (r: Prepared)
    ensures r == Untitled <==>
      TextField(data, "title") == Ok("") && TextField(data, "description").Ok? && TextField(data, "body_text").Ok? &&
      HeroStrippable(data)
    ensures r.Ready? ==> r.title != ""
  {
    var title := TextField(data, "title");
    if title.Err? then Unusable(title.failure)
    else
      var desc := TextField(data, "description");
      var body := TextField(data, "body_text");
      if desc.Err? then Unusable(desc.failure)
      else if body.Err? then Unusable(body.failure)
      else
        var h := Get(data, "hero_image", JNull).value;
        if Truthy(h) && !h.JStr? then Unusable(OtherError("AttributeError"))
        else
          var hero := if Truthy(h) then Strip(h.s) else "";
          if title.value == "" then Untitled
          else Ready(title.value, Combined(desc.value, body.value), hero)
  }

  /** A record the uploader is ready to upload has its stripped title, the combination of its
      stripped description and body text, and its stripped hero image. */
  lemma UploaderRecordReady(data: Json)
    ensures var r := UploaderRecord(data);
      r.Ready? ==>
        TextField(data, "title") == Ok(r.title) && TextField(data, "description").Ok? &&
        TextField(data, "body_text").Ok? && HeroStrippable(data) &&
        r.description == Combined(TextField(data, "description").value, TextField(data, "body_text").value) &&
        (r.hero != "" ==> data.fields["hero_image"].JStr? && r.hero == Strip(data.fields["hero_image"].s))
  {
  }

  // ---------------------------------------------------------------------------
  // The hero image path

  /** The first of `cands` that exists, else `fallback`. */
  function FirstPresent(cands: seq<string>, fallback: string, present: string -> bool): (r: string)
    ensures (forall k :: 0 <= k < |cands| ==> !present(cands[k])) ==> r == fallback
    ensures (exists k :: 0 <= k < |cands| && present(cands[k])) ==>
      exists k :: 0 <= k < |cands| && r == cands[k] && present(cands[k]) &&
                  forall j :: 0 <= j < k ==> !present(cands[j])
  {
    if cands == [] then fallback
    else if present(cands[0]) then cands[0]
    else
      var r := FirstPresent(cands[1..], fallback, present);
      assert forall k :: 1 <= k < |cands| ==> cands[k] == cands[1..][k - 1];
      r
  }

  /** The directories a hero image is looked up in: the record's directory and its parent. */
  function HeroCandidates(jsonDir: string, parentDir: string, hero: string): seq<string> {
    [JoinPath(jsonDir, hero), JoinPath(parentDir, hero)]
  }

  /** run.py's lookup (run.py:530-538): the first candidate that exists, else the hero
      image as it is. */
  method FirstExisting(cands: seq<string>, hero: string, present: string -> bool) returns (heroPath: string)
    ensures heroPath == FirstPresent(cands, hero, present)
  {
    var found: Option<string> := None;
    for i := 0 to |cands|
      invariant found.None? ==> FirstPresent(cands, hero, present) == FirstPresent(cands[i..], hero, present)
      invariant found.None? || found == Some(FirstPresent(cands, hero, present))
    {
      assert cands[i..][1..] == cands[i + 1..];
      if present(cands[i]) {
        found := Some(cands[i]);
        break;
      }
    }
    heroPath := if found.Some? then found.value else hero;
  }

  /** uploader.py's lookup (uploader.py:483-492). */
  function ResolveHero(jsonDir: string, parentDir: string, hero: string, present: string -> bool): string {
    var p1 := JoinPath(jsonDir, hero);
    var p2 := JoinPath(parentDir, hero);
    if present(p1) then p1 else if present(p2) then p2 else hero
  }

  /** Both scripts resolve a hero image to the same path. */
  lemma HeroLookupsAgree(jsonDir: string, parentDir: string, hero: string, present: string -> bool)
    ensures ResolveHero(jsonDir, parentDir, hero, present) ==
            FirstPresent(HeroCandidates(jsonDir, parentDir, hero), hero, present)
  {
    var p1, p2 := JoinPath(jsonDir, hero), JoinPath(parentDir, hero);
    assert HeroCandidates(jsonDir, parentDir, hero) == [p1, p2];
    assert [p1, p2][1..] == [p2] && [p2][1..] == [];
    if !present(p1) {
      assert FirstPresent([p1, p2], hero, present) == FirstPresent([p2], hero, present);
      if !present(p2) {
        assert FirstPresent([p2], hero, present) == FirstPresent([], hero, present);
      }
    }
  }

  // ---------------------------------------------------------------------------
  // run.py's upload loop

  /** A JSON file handed to `run_upload`: its directory, that directory's parent, what it
      decodes to (`None` when reading or decoding it raised), and the clock reading and
      random draw its image and story are made with. */
  datatype JsonFile = JsonFile(dir: string, parentDir: string, data: Option<Json>, now: nat, rnd: nat)

  /** What `run_upload` did with one file: skipped it, raised (which ends `run_upload`), or
      created the story (or failed to) with the image asset (or without). */
  datatype Handled = Skipped | Stopped(failure: Failure) | Submitted(image: Option<Json>, story: Option<Json>)

  /** One file handled, with the network calls made and the events. */
  datatype RecordRun = RecordRun(handled: Handled, used: nat, events: seq<Event>)

  /** An image uploader: `upload(m, path, now)` is `upload_image_to_storyblok` of `path` from
      network call `m` on, under the clock reading `now`. */
  type ImageUploader = (nat, string, nat) -> Uploaded

  ghost predicate UploadsImageAt(upload: ImageUploader, tries: Attempts, present: string -> bool,
                                 readable: string -> bool, scriptDir: string, guess: string -> Option<string>,
                                 m: nat, path: string, now: nat) {
    upload(m, path, now) == UploadImage(tries, m, path, present, readable, scriptDir, guess, now, MaxImageRetries)
  }

  /** `upload` is `upload_image_to_storyblok` with the default retries over the attempts `tries`. */
  ghost predicate UploadsImages(upload: ImageUploader, tries: Attempts, present: string -> bool,
                                readable: string -> bool, scriptDir: string, guess: string -> Option<string>) {
    forall m: nat, path: string, now: nat :: UploadsImageAt(upload, tries, present, readable, scriptDir, guess, m, path, now)
  }

  function ImageUploaderOf(tries: Attempts, present: string -> bool, readable: string -> bool, scriptDir: string,
                           guess: string -> Option<string>): ImageUploader {
    (m: nat, path: string, now: nat) => UploadImage(tries, m, path, present, readable, scriptDir, guess, now, MaxImageRetries)
  }

  lemma ImageUploaderOfUploads(tries: Attempts, present: string -> bool, readable: string -> bool, scriptDir: string,
                               guess: string -> Option<string>)
    ensures UploadsImages(ImageUploaderOf(tries, present, readable, scriptDir, guess), tries, present, readable,
                          scriptDir, guess)
  {
    var upload := ImageUploaderOf(tries, present, readable, scriptDir, guess);
    forall m: nat, path: string, now: nat
      ensures upload(m, path, now) == UploadImage(tries, m, path, present, readable, scriptDir, guess, now, MaxImageRetries)
    {
    }
  }

  /** A story creator: `create(m, title, description, image, now, rnd)` is
      `create_storyblok_story` from network call `m` on. */
  type StoryCreator = (nat, string, string, Option<Json>, nat, nat) -> Posting

  ghost predicate CreatesStoryWith(create: StoryCreator, post: Poster, call: (nat, Request) -> Exchange<Json>,
                                   spaceId: int, parentId: int, publish: bool, m: nat, title: string,
                                   description: string, image: Option<Json>, now: nat, rnd: nat) {
    PostsStories(post, call, spaceId, title, Content(title, description, image), parentId, publish) && IsAscii(title) ==>
      create(m, title, description, image, now, rnd) == CreateStory(RunScript, post, m, title, now, rnd)
  }

  /** `create` is run.py's `create_storyblok_story` over the client `call`: for an ASCII
      title it is the candidate loop over the `create_story` of that title and content. */
  ghost predicate CreatesStories(create: StoryCreator, call: (nat, Request) -> Exchange<Json>, spaceId: int,
                                 parentId: int, publish: bool) {
    forall post: Poster, m: nat, title: string, description: string, image: Option<Json>, now: nat, rnd: nat ::
      CreatesStoryWith(create, post, call, spaceId, parentId, publish, m, title, description, image, now, rnd)
  }

  lemma CreatesStoryUse(create: StoryCreator, post: Poster, call: (nat, Request) -> Exchange<Json>, spaceId: int,
                        parentId: int, publish: bool, m: nat, title: string, description: string, image: Option<Json>,
                        now: nat, rnd: nat)
    requires CreatesStories(create, call, spaceId, parentId, publish) && IsAscii(title)
    requires PostsStories(post, call, spaceId, title, Content(title, description, image), parentId, publish)
    ensures create(m, title, description, image, now, rnd) == CreateStory(RunScript, post, m, title, now, rnd)
  {
    assert CreatesStoryWith(create, post, call, spaceId, parentId, publish, m, title, description, image, now, rnd);
  }

  function StoryCreatorOf(call: (nat, Request) -> Exchange<Json>, spaceId: int, parentId: int, publish: bool)
    : StoryCreator
  {
    (m: nat, title: string, description: string, image: Option<Json>, now: nat, rnd: nat) =>
      if IsAscii(title) then
        CreateStory(RunScript, PosterOf(call, spaceId, title, Content(title, description, image), parentId, publish), m,
                    title, now, rnd)
      else Posting(None, 0, [], [], [])
  }

  /** Two posters of the same stories give the same candidate loop. */
  lemma {:induction false} StoryFromAgrees(script: Script, p1: Poster, p2: Poster,
                                           call: (nat, Request) -> Exchange<Json>, spaceId: int, title: string,
                                           content: Content, parentId: int, publish: bool, n: nat,
                                           slugs: seq<string>, i: nat)
    requires i <= |slugs|
    requires PostsStories(p1, call, spaceId, title, content, parentId, publish)
    requires PostsStories(p2, call, spaceId, title, content, parentId, publish)
    ensures StoryFrom(script, p1, n, slugs, i) == StoryFrom(script, p2, n, slugs, i)
    decreases |slugs| - i
  {
    if i < |slugs| {
      assert PostsAt(p1, call, spaceId, title, content, parentId, publish, n, slugs[i]);
      assert PostsAt(p2, call, spaceId, title, content, parentId, publish, n, slugs[i]);
      StoryFromAgrees(script, p1, p2, call, spaceId, title, content, parentId, publish, n + p1(n, slugs[i]).used,
                      slugs, i + 1);
    }
  }

  lemma StoryCreatorOfCreates(call: (nat, Request) -> Exchange<Json>, spaceId: int, parentId: int, publish: bool)
    ensures CreatesStories(StoryCreatorOf(call, spaceId, parentId, publish), call, spaceId, parentId, publish)
  {
    var create := StoryCreatorOf(call, spaceId, parentId, publish);
    forall post: Poster, m: nat, title: string, description: string, image: Option<Json>, now: nat, rnd: nat
      ensures CreatesStoryWith(create, post, call, spaceId, parentId, publish, m, title, description, image, now, rnd)
    {
      var content := Content(title, description, image);
      if PostsStories(post, call, spaceId, title, content, parentId, publish) && IsAscii(title) {
        var canonical := PosterOf(call, spaceId, title, content, parentId, publish);
        PosterOfPosts(call, spaceId, title, content, parentId, publish);
        StoryFromAgrees(RunScript, post, canonical, call, spaceId, title, content, parentId, publish, m,
                        SlugCandidates(Slugify(title, 90, now), rnd, now), 0);
      }
    }
  }

  /** The hero image path run.py uploads: none without a hero image, else the first
      candidate that exists or the hero image as it is. */
  function HeroPath(f: JsonFile, hero: string, present: string -> bool): (r: string)
    ensures r == "" <==> hero == ""
  {
    if hero == "" then ""
    else
      var r := FirstPresent(HeroCandidates(f.dir, f.parentDir, hero), hero, present);
      assert EndsWith(JoinPath(f.dir, hero), hero) && EndsWith(JoinPath(f.parentDir, hero), hero);
      r
  }

  /** The title of the file, when it has one, is ASCII text. */
  predicate AsciiTitled(f: JsonFile) {
    f.data.Some? && RunRecord(f.data.value).Ready? ==> IsAscii(RunRecord(f.data.value).title)
  }

  /** One file of `run_upload` (run.py:517-545): a file that cannot be read, or a record
      without a title, is skipped; a record that raises while it is read ends the loop; else
      it is handed on. */
  function RunStep(upload: ImageUploader, create: StoryCreator, present: string -> bool, n: nat, f: JsonFile)
    : RecordRun
    requires AsciiTitled(f)
  {
    if f.data.None? then RecordRun(Skipped, 0, [])
    else
      match RunRecord(f.data.value)
      case Unusable(e) => RecordRun(Stopped(e), 0, [])
      case Untitled => RecordRun(Skipped, 0, [])
      case Ready(title, description, hero) => ReadyStep(upload, create, present, n, f, title, description, hero)
  }

  /** A record with a title (run.py:530-545): the hero image is uploaded when there is one,
      and the story is created with what that gave. */
  function ReadyStep(upload: ImageUploader, create: StoryCreator, present: string -> bool, n: nat, f: JsonFile,
                     title: string, description: string, hero: string): RecordRun
    requires IsAscii(title)
  {
    AfterHero(create, n, title, description, HeroUploaded(upload, present, n, f, hero), f.now, f.rnd)
  }

  /** What follows the hero upload `u` (run.py:541-545): the story is created with the asset `u`
      gave, from the call after the upload's. */
  function AfterHero(create: StoryCreator, n: nat, title: string, description: string, u: Uploaded, now: nat,
                     rnd: nat): RecordRun
    requires IsAscii(title)
  {
    var p := create(n + u.used, title, description, u.asset, now, rnd);
    RecordRun(Submitted(u.asset, p.story), u.used + p.used, u.events + p.events)
  }

  /** The upload of the hero image, when there is one (run.py:530-540). */
  function HeroUploaded(upload: ImageUploader, present: string -> bool, n: nat, f: JsonFile, hero: string): Uploaded {
    var path := HeroPath(f, hero, present);
    if path != "" then upload(n, path, f.now) else Uploaded(None, 0, [], [])
  }

  /** The file is skipped before any call: it cannot be read, or its title is blank. */
  predicate Skips(f: JsonFile) {
    f.data.None? || OrText(f.data.value, "title") == Ok("")
  }

  /** A skipped file makes no call, and only a skipped file is skipped. */
  lemma SkipsSilently(upload: ImageUploader, create: StoryCreator, present: string -> bool, n: nat, f: JsonFile)
    requires AsciiTitled(f)
    ensures Skips(f) ==> RunStep(upload, create, present, n, f) == RecordRun(Skipped, 0, [])
    ensures RunStep(upload, create, present, n, f).handled == Skipped ==> Skips(f)
  {
  }

  /** A record with a title has its hero image uploaded exactly when it has one: without
      one, the story creation is all the step does; with one, the upload's calls and events
      come first, and the story gets the asset the upload gave. */
  lemma ReadyStepUploads(upload: ImageUploader, create: StoryCreator, present: string -> bool, n: nat, f: JsonFile,
                         title: string, description: string, hero: string)
    requires IsAscii(title)
    ensures var s := ReadyStep(upload, create, present, n, f, title, description, hero);
      (hero == "" ==>
        var p := create(n, title, description, None, f.now, f.rnd);
        s == RecordRun(Submitted(None, p.story), p.used, p.events)) &&
      (hero != "" ==>
        var u := upload(n, HeroPath(f, hero, present), f.now);
        u.used <= s.used && u.events <= s.events && (s.handled.Submitted? ==> s.handled.image == u.asset))
  {
    var u := HeroUploaded(upload, present, n, f, hero);
    assert ReadyStep(upload, create, present, n, f, title, description, hero) ==
           AfterHero(create, n, title, description, u, f.now, f.rnd);
    AfterHeroExtends(create, n, title, description, u, f.now, f.rnd);
    if hero == "" {
      assert u == Uploaded(None, 0, [], []);
    } else {
      assert u == upload(n, HeroPath(f, hero, present), f.now);
    }
  }

  /** What follows the upload keeps its calls and events in front, and the story gets its
      asset. */
  lemma AfterHeroExtends(create: StoryCreator, n: nat, title: string, description: string, u: Uploaded, now: nat,
                         rnd: nat)
    requires IsAscii(title)
    ensures var s := AfterHero(create, n, title, description, u, now, rnd);
      u.used <= s.used && u.events <= s.events && s.handled.Submitted? && s.handled.image == u.asset
  {
  }

  /** One file of `run_upload` (run.py:517-545). */
  method UploadFile(answers: nat -> Outcome, ghost call: (nat, Request) -> Exchange<Json>, ghost tries: Attempts,
                    ghost upload: ImageUploader, ghost create: StoryCreator, n: nat, spaceId: int,
                    present: string -> bool, readable: string -> bool, scriptDir: string,
                    guess: string -> Option<string>, assetFolderId: Option<int>, parentId: int, publish: bool,
                    f: JsonFile)
    returns (s: RecordRun)
    requires IsClient(call, answers) && AttemptsUpload(tries, RunScript, answers, call, spaceId, assetFolderId)
    requires UploadsImages(upload, tries, present, readable, scriptDir, guess)
    requires CreatesStories(create, call, spaceId, parentId, publish) && AsciiTitled(f)
    ensures s == RunStep(upload, create, present, n, f)
  {
    if f.data.None? {
      return RecordRun(Skipped, 0, []);
    }
    var prep := RunRecord(f.data.value);
    if prep.Unusable? {
      return RecordRun(Stopped(prep.failure), 0, []);
    }
    if prep.Untitled? {
      return RecordRun(Skipped, 0, []);
    }
    s := UploadReady(answers, call, tries, upload, create, n, spaceId, present, readable, scriptDir, guess,
                     assetFolderId, parentId, publish, f, prep.title, prep.description, prep.hero);
  }

  /** A record with a title (run.py:530-545). */
  method UploadReady(answers: nat -> Outcome, ghost call: (nat, Request) -> Exchange<Json>, ghost tries: Attempts,
                     ghost upload: ImageUploader, ghost create: StoryCreator, n: nat, spaceId: int,
                     present: string -> bool, readable: string -> bool, scriptDir: string,
                     guess: string -> Option<string>, assetFolderId: Option<int>, parentId: int, publish: bool,
                     f: JsonFile, title: string, description: string, hero: string)
    returns (s: RecordRun)
    requires IsClient(call, answers) && AttemptsUpload(tries, RunScript, answers, call, spaceId, assetFolderId)
    requires UploadsImages(upload, tries, present, readable, scriptDir, guess)
    requires CreatesStories(create, call, spaceId, parentId, publish) && IsAscii(title)
    ensures s == ReadyStep(upload, create, present, n, f, title, description, hero)
  {
    var u := HeroStep(answers, call, tries, upload, n, spaceId, present, readable, scriptDir, guess, assetFolderId, f,
                      hero);
    s := StoryStep(answers, call, create, n, spaceId, parentId, publish, title, description, u, f.now, f.rnd);
  }

  /** The story of one file, once its hero image is uploaded (run.py:541-545). */
  method StoryStep(answers: nat -> Outcome, ghost call: (nat, Request) -> Exchange<Json>, ghost create: StoryCreator,
                   n: nat, spaceId: int, parentId: int, publish: bool, title: string, description: string,
                   u: Uploaded, now: nat, rnd: nat)
    returns (s: RecordRun)
    requires IsClient(call, answers) && CreatesStories(create, call, spaceId, parentId, publish) && IsAscii(title)
    ensures s == AfterHero(create, n, title, description, u, now, rnd)
  {
    var p := CreateStep(answers, call, create, n + u.used, spaceId, parentId, publish, title, description, u.asset,
                        now, rnd);
    s := RecordRun(Submitted(u.asset, p.story), u.used + p.used, u.events + p.events);
  }

  /** The hero image of one file, looked up and uploaded (run.py:530-540). */
  method HeroStep(answers: nat -> Outcome, ghost call: (nat, Request) -> Exchange<Json>, ghost tries: Attempts,
                  ghost upload: ImageUploader, n: nat, spaceId: int, present: string -> bool,
                  readable: string -> bool, scriptDir: string, guess: string -> Option<string>,
                  assetFolderId: Option<int>, f: JsonFile, hero: string)
    returns (u: Uploaded)
    requires IsClient(call, answers) && AttemptsUpload(tries, RunScript, answers, call, spaceId, assetFolderId)
    requires UploadsImages(upload, tries, present, readable, scriptDir, guess)
    ensures u == HeroUploaded(upload, present, n, f, hero)
  {
    var heroPath := "";
    if hero != "" {
      heroPath := FirstExisting(HeroCandidates(f.dir, f.parentDir, hero), hero, present);
    }
    assert heroPath == HeroPath(f, hero, present);
    u := Uploaded(None, 0, [], []);
    if heroPath != "" {
      u := ImageStep(answers, call, tries, upload, n, spaceId, heroPath, present, readable, scriptDir, guess, f.now,
                     assetFolderId);
    }
  }

  /** The hero image of one file (run.py:540). */
  method ImageStep(answers: nat -> Outcome, ghost call: (nat, Request) -> Exchange<Json>, ghost tries: Attempts,
                   ghost upload: ImageUploader, n: nat, spaceId: int, path: string, present: string -> bool,
                   readable: string -> bool, scriptDir: string, guess: string -> Option<string>, now: nat,
                   assetFolderId: Option<int>)
    returns (u: Uploaded)
    requires IsClient(call, answers) && AttemptsUpload(tries, RunScript, answers, call, spaceId, assetFolderId)
    requires UploadsImages(upload, tries, present, readable, scriptDir, guess)
    ensures u == upload(n, path, now)
  {
    u := UploadImageToStoryblok(RunScript, answers, call, tries, n, spaceId, path, present, readable, scriptDir, guess,
                                now, assetFolderId, MaxImageRetries);
    assert UploadsImageAt(upload, tries, present, readable, scriptDir, guess, n, path, now);
  }

  /** The story of one file, after its image (run.py:541). */
  method CreateStep(answers: nat -> Outcome, ghost call: (nat, Request) -> Exchange<Json>, ghost create: StoryCreator, n: nat, spaceId: int, parentId: int, publish: bool, title: string,
                    description: string, image: Option<Json>, now: nat, rnd: nat)
    returns (p: Posting)
    requires IsClient(call, answers) && CreatesStories(create, call, spaceId, parentId, publish) && IsAscii(title)
    ensures p == create(n, title, description, image, now, rnd)
  {
    ghost var post := PosterOf(call, spaceId, title, Content(title, description, image), parentId, publish);
    PosterOfPosts(call, spaceId, title, Content(title, description, image), parentId, publish);
    p := CreateStoryblokStory(RunScript, answers, call, post, n, spaceId, title, description, image, parentId, publish,
                              now, rnd);
    CreatesStoryUse(create, post, call, spaceId, parentId, publish, n, title, description, image, now, rnd);
  }

  /** A per-file step: `step(m, f)` is what `run_upload` does with file `f` from network
      call `m` on. */
  type Stepper = (nat, JsonFile) -> RecordRun

  ghost predicate StepsAt(step: Stepper, upload: ImageUploader, create: StoryCreator, present: string -> bool, m: nat,
                          f: JsonFile) {
    AsciiTitled(f) ==> step(m, f) == RunStep(upload, create, present, m, f)
  }

  /** `step` is run.py's handling of one file with an ASCII title. */
  ghost predicate StepsFiles(step: Stepper, upload: ImageUploader, create: StoryCreator, present: string -> bool) {
    forall m: nat, f: JsonFile :: StepsAt(step, upload, create, present, m, f)
  }

  /** A stepper that is run.py's step on files with an ASCII title (and skips the others). */
  function StepperOf(upload: ImageUploader, create: StoryCreator, present: string -> bool): Stepper {
    (m: nat, f: JsonFile) => if AsciiTitled(f) then RunStep(upload, create, present, m, f) else RecordRun(Skipped, 0, [])
  }

  lemma StepperOfSteps(upload: ImageUploader, create: StoryCreator, present: string -> bool)
    ensures StepsFiles(StepperOf(upload, create, present), upload, create, present)
  {
    var step := StepperOf(upload, create, present);
    forall m: nat, f: JsonFile | AsciiTitled(f)
      ensures step(m, f) == RunStep(upload, create, present, m, f)
    {
    }
  }

  /** What the loop relies on of a step on the files `ok` admits: a file is reported
      skipped exactly when `skips` holds of it, and then it makes no call. */
  ghost predicate SkipsQuietly(step: Stepper, skips: JsonFile -> bool, ok: JsonFile -> bool) {
    forall m: nat, f: JsonFile :: ok(f) ==> SkipsQuietlyAt(step, skips, m, f)
  }

  ghost predicate SkipsQuietlyAt(step: Stepper, skips: JsonFile -> bool, m: nat, f: JsonFile) {
    (skips(f) ==> step(m, f) == RecordRun(Skipped, 0, [])) && (step(m, f).handled == Skipped ==> skips(f))
  }

  /** run.py's step skips quietly the files that are skipped before any call. */
  lemma StepsSkipQuietly(step: Stepper, upload: ImageUploader, create: StoryCreator, present: string -> bool)
    requires StepsFiles(step, upload, create, present)
    ensures SkipsQuietly(step, Skips, AsciiTitled)
  {
    forall m: nat, f: JsonFile | AsciiTitled(f)
      ensures SkipsQuietlyAt(step, Skips, m, f)
    {
      assert StepsAt(step, upload, create, present, m, f);
      SkipsSilently(upload, create, present, m, f);
    }
  }

  /** One file of the loop. */
  method StepFile(answers: nat -> Outcome, ghost call: (nat, Request) -> Exchange<Json>, ghost tries: Attempts,
                  ghost upload: ImageUploader, ghost create: StoryCreator, ghost step: Stepper, n: nat, spaceId: int,
                  present: string -> bool, readable: string -> bool, scriptDir: string,
                  guess: string -> Option<string>, assetFolderId: Option<int>, parentId: int, publish: bool,
                  f: JsonFile)
    returns (s: RecordRun)
    requires IsClient(call, answers) && AttemptsUpload(tries, RunScript, answers, call, spaceId, assetFolderId)
    requires UploadsImages(upload, tries, present, readable, scriptDir, guess)
    requires CreatesStories(create, call, spaceId, parentId, publish)
    requires StepsFiles(step, upload, create, present) && AsciiTitled(f)
    ensures s == step(n, f)
  {
    s := UploadFile(answers, call, tries, upload, create, n, spaceId, present, readable, scriptDir, guess,
                    assetFolderId, parentId, publish, f);
    assert StepsAt(step, upload, create, present, n, f);
  }

  /** What `run_upload` did with the files, its calls and its events. */
  datatype Report = Report(handled: seq<Handled>, used: nat, events: seq<Event>)

  /** `run_upload`'s loop from file `i` on (run.py:517-545): each file in turn, until one
      raises. */
  function RunFrom(step: Stepper, n: nat, files: seq<JsonFile>, i: nat): Report
    requires i <= |files|
    decreases |files| - i
  {
    if i == |files| then Report([], 0, [])
    else
      var s := step(n, files[i]);
      if s.handled.Stopped? then Report([s.handled], s.used, s.events)
      else
        var rest := RunFrom(step, n + s.used, files, i + 1);
        Report([s.handled] + rest.handled, s.used + rest.used, s.events + rest.events)
  }

  /** No entry but the last is a raise. */
  predicate Unstopped(hs: seq<Handled>) {
    forall k :: 0 <= k < |hs| - 1 ==> !hs[k].Stopped?
  }

  /** Every file is handled in order, one by one, until one raises: every file handled but
      the last went through, and the loop ends early only on a file that raised. */
  lemma {:induction false} RunHandlesInOrder(step: Stepper, n: nat, files: seq<JsonFile>, i: nat)
    requires i <= |files|
    ensures var r := RunFrom(step, n, files, i);
      |r.handled| <= |files| - i && (i < |files| ==> |r.handled| >= 1) &&
      (|r.handled| < |files| - i ==> r.handled[|r.handled| - 1].Stopped?) &&
      Unstopped(r.handled)
    decreases |files| - i
  {
    if i < |files| {
      var s := step(n, files[i]);
      if !s.handled.Stopped? {
        RunHandlesInOrder(step, n + s.used, files, i + 1);
        var rest := RunFrom(step, n + s.used, files, i + 1);
        var r := RunFrom(step, n, files, i);
        assert r.handled == [s.handled] + rest.handled;
        forall k | 1 <= k < |r.handled| - 1
          ensures !r.handled[k].Stopped?
        {
          assert r.handled[k] == rest.handled[k - 1];
        }
        if |rest.handled| > 0 {
          assert r.handled[|r.handled| - 1] == rest.handled[|rest.handled| - 1];
        }
      }
    }
  }

  /** Entry `k` of `hs` is about file `i + k`, and it is `Skipped` exactly when that file is
      skipped before any call. */
  predicate SkipsMatch(hs: seq<Handled>, files: seq<JsonFile>, i: nat, skips: JsonFile -> bool) {
    i + |hs| <= |files| && forall k :: 0 <= k < |hs| ==> (hs[k] == Skipped <==> skips(files[i + k]))
  }

  /** Exactly the files that are skipped before any call are reported skipped. */
  lemma {:induction false} RunReportsSkips(step: Stepper, skips: JsonFile -> bool, ok: JsonFile -> bool, n: nat,
                                           files: seq<JsonFile>, i: nat)
    requires i <= |files| && SkipsQuietly(step, skips, ok) && forall k :: i <= k < |files| ==> ok(files[k])
    ensures SkipsMatch(RunFrom(step, n, files, i).handled, files, i, skips)
    decreases |files| - i
  {
    if i < |files| {
      var s := step(n, files[i]);
      assert SkipsQuietlyAt(step, skips, n, files[i]);
      if !s.handled.Stopped? {
        RunReportsSkips(step, skips, ok, n + s.used, files, i + 1);
        var rest := RunFrom(step, n + s.used, files, i + 1);
        var r := RunFrom(step, n, files, i);
        assert r.handled == [s.handled] + rest.handled;
        forall k | 0 <= k < |r.handled|
          ensures r.handled[k] == Skipped <==> skips(files[i + k])
        {
          if k > 0 {
            assert r.handled[k] == rest.handled[k - 1];
          } else {
            assert r.handled[0] == s.handled;
          }
        }
      } else {
        assert RunFrom(step, n, files, i).handled == [s.handled];
      }
    }
  }

  /** When every file is skipped, `run_upload` makes no call at all and reports every file. */
  lemma {:induction false} AllSkippedNoCalls(step: Stepper, skips: JsonFile -> bool, ok: JsonFile -> bool, n: nat,
                                             files: seq<JsonFile>, i: nat)
    requires i <= |files| && SkipsQuietly(step, skips, ok) && forall k :: i <= k < |files| ==> ok(files[k])
    requires forall k :: i <= k < |files| ==> skips(files[k])
    ensures var r := RunFrom(step, n, files, i);
      r.used == 0 && r.events == [] && |r.handled| == |files| - i
    decreases |files| - i
  {
    if i < |files| {
      assert SkipsQuietlyAt(step, skips, n, files[i]);
      AllSkippedNoCalls(step, skips, ok, n, files, i + 1);
    }
  }

  /** In run.py's loop, exactly the files that cannot be read or have a blank title are
      reported skipped, and when every file is one of those no call is made. */
  lemma RunUploadSkips(step: Stepper, upload: ImageUploader, create: StoryCreator, present: string -> bool, n: nat,
                       files: seq<JsonFile>)
    requires StepsFiles(step, upload, create, present) && forall k :: 0 <= k < |files| ==> AsciiTitled(files[k])
    ensures var r := RunFrom(step, n, files, 0);
      SkipsMatch(r.handled, files, 0, Skips) &&
      ((forall k :: 0 <= k < |files| ==> Skips(files[k])) ==> r.used == 0 && r.events == [] && |r.handled| == |files|)
  {
    StepsSkipQuietly(step, upload, create, present);
    RunReportsSkips(step, Skips, AsciiTitled, n, files, 0);
    if forall k :: 0 <= k < |files| ==> Skips(files[k]) {
      AllSkippedNoCalls(step, Skips, AsciiTitled, n, files, 0);
    }
  }

  /** The loop in the state `acc` it has before file `i`. */
  function RunLoopFrom(step: Stepper, n: nat, files: seq<JsonFile>, i: nat, acc: Report): Report
    requires i <= |files|
    decreases |files| - i
  {
    if i == |files| then acc
    else
      var s := step(n + acc.used, files[i]);
      var acc' := Report(acc.handled + [s.handled], acc.used + s.used, acc.events + s.events);
      if s.handled.Stopped? then acc' else RunLoopFrom(step, n, files, i + 1, acc')
  }

  /** The loop state is a prefix of what the remaining files add. */
  lemma {:induction false} RunLoopIsFrom(step: Stepper, n: nat, files: seq<JsonFile>, i: nat, acc: Report)
    requires i <= |files|
    ensures var rest := RunFrom(step, n + acc.used, files, i);
      RunLoopFrom(step, n, files, i, acc) ==
      Report(acc.handled + rest.handled, acc.used + rest.used, acc.events + rest.events)
    decreases |files| - i
  {
    if i == |files| {
      assert acc.handled + [] == acc.handled && acc.events + [] == acc.events;
    } else {
      var s := step(n + acc.used, files[i]);
      var acc' := Report(acc.handled + [s.handled], acc.used + s.used, acc.events + s.events);
      if !s.handled.Stopped? {
        RunLoopIsFrom(step, n, files, i + 1, acc');
        var rest := RunFrom(step, n + acc'.used, files, i + 1);
        assert acc.handled + [s.handled] + rest.handled == acc.handled + ([s.handled] + rest.handled);
        assert acc.events + s.events + rest.events == acc.events + (s.events + rest.events);
      }
    }
  }

  /** The loop of `run_upload` over the JSON files (run.py:517-545), the content folder
      `parentId` being found beforehand. */
  method RunUpload(answers: nat -> Outcome, ghost call: (nat, Request) -> Exchange<Json>, ghost tries: Attempts,
                   ghost upload: ImageUploader, ghost create: StoryCreator, ghost step: Stepper, n: nat, spaceId: int,
                   present: string -> bool, readable: string -> bool, scriptDir: string,
                   guess: string -> Option<string>, assetFolderId: Option<int>, parentId: int, publish: bool,
                   files: seq<JsonFile>)
    returns (r: Report)
    requires IsClient(call, answers) && AttemptsUpload(tries, RunScript, answers, call, spaceId, assetFolderId)
    requires UploadsImages(upload, tries, present, readable, scriptDir, guess)
    requires CreatesStories(create, call, spaceId, parentId, publish)
    requires StepsFiles(step, upload, create, present)
    requires forall k :: 0 <= k < |files| ==> AsciiTitled(files[k])
    ensures r == RunFrom(step, n, files, 0)
  {
    r := Report([], 0, []);
    RunLoopIsFrom(step, n, files, 0, r);
    ghost var whole := RunLoopFrom(step, n, files, 0, r);
    ghost var spec := RunFrom(step, n, files, 0);
    assert [] + spec.handled == spec.handled && [] + spec.events == spec.events;
    var i := 0;
    while i < |files|
      invariant i <= |files|
      invariant whole == RunLoopFrom(step, n, files, i, r)
      decreases |files| - i
    {
      var s := StepFile(answers, call, tries, upload, create, step, n + r.used, spaceId, present, readable, scriptDir,
                        guess, assetFolderId, parentId, publish, files[i]);
      r := Report(r.handled + [s.handled], r.used + s.used, r.events + s.events);
      if s.handled.Stopped? {
        return;
      }
      i := i + 1;
    }
  }
}
