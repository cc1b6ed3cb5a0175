/** Image extensions and MIME types: the extension `download_image` gives a saved image,
    `_ext_from_mime`, and the MIME type the uploader sends when `mimetypes` gives none. */
module Media {
  import opened Basics
  import opened Text

  /** The extension the Content-Type header suggests (run.py:259); `ct` is lowercased. */
  function ContentTypeExt(ct: string): (ext: string)
    ensures ext in {".png", ".webp", ".gif", ".jpg"}
    ensures Contains(ct, "png") ==> ext == ".png"
    ensures !Contains(ct, "png") && Contains(ct, "webp") ==> ext == ".webp"
    ensures !Contains(ct, "png") && !Contains(ct, "webp") && Contains(ct, "gif") ==> ext == ".gif"
    ensures !Contains(ct, "png") && !Contains(ct, "webp") && !Contains(ct, "gif") ==> ext == ".jpg"
  {
    if Contains(ct, "png") then ".png"
    else if Contains(ct, "webp") then ".webp"
    else if Contains(ct, "gif") then ".gif"
    else ".jpg"
  }

  /** The extensions looked for in the image URL, in the order they are tried. */
  const UrlExts: seq<string> := [".png", ".jpg", ".jpeg", ".gif", ".webp"]

  /** The extension choice of `download_image` (run.py:258-263): the first of `UrlExts` that
      occurs anywhere in the lowercased URL wins over the Content-Type's suggestion. */
  function ImageExt(contentType: string, imageUrl: string): (ext: string)
    ensures var u := Lower(imageUrl);
      forall k :: 0 <= k < |UrlExts| && Contains(u, UrlExts[k]) && (forall m :: 0 <= m < k ==> !Contains(u, UrlExts[m]))
        ==> ext == UrlExts[k]
    ensures var u := Lower(imageUrl);
      (forall k :: 0 <= k < |UrlExts| ==> !Contains(u, UrlExts[k])) ==> ext == ContentTypeExt(Lower(contentType))
    ensures ext in {".png", ".jpg", ".jpeg", ".gif", ".webp"}
  {
    FirstUrlExt(Lower(imageUrl), 0, ContentTypeExt(Lower(contentType)))
  }

  /** The first of `UrlExts[k..]` that occurs in `u`, or `fallback`. */
  function FirstUrlExt(u: string, k: nat, fallback: string): (ext: string)
    requires k <= |UrlExts|
    ensures forall j :: k <= j < |UrlExts| && Contains(u, UrlExts[j]) && (forall m :: k <= m < j ==> !Contains(u, UrlExts[m]))
                        ==> ext == UrlExts[j]
    ensures (forall j :: k <= j < |UrlExts| ==> !Contains(u, UrlExts[j])) ==> ext == fallback
    ensures ext == fallback || ext in UrlExts[k..]
    decreases |UrlExts| - k
  {
    if k == |UrlExts| then fallback
    else if Contains(u, UrlExts[k]) then UrlExts[k]
    else FirstUrlExt(u, k + 1, fallback)
  }

  /** The loop of `download_image` over `UrlExts`, computing `ImageExt`. */
  method ChooseImageExt(contentType: string, imageUrl: string) returns (ext: string)
    ensures ext == ImageExt(contentType, imageUrl)
  {
    var ct := Lower(contentType);
    ext := if Contains(ct, "png") then ".png"
      else if Contains(ct, "webp") then ".webp"
      else if Contains(ct, "gif") then ".gif"
      else ".jpg";
    var u := Lower(imageUrl);
    var k := 0;
    while k < |UrlExts|
      invariant 0 <= k <= |UrlExts|
      invariant ext == ContentTypeExt(ct)
      invariant ImageExt(contentType, imageUrl) == FirstUrlExt(u, k, ext)
    {
      if Contains(u, UrlExts[k]) {
        ext := UrlExts[k];
        return;
      }
      k := k + 1;
    }
  }

  /** `_ext_from_mime` (run.py:386-396, uploader.py:150-161). */
  function ExtFromMime(mime: string): (ext: string)
    ensures ext in {".png", ".jpg", ".gif", ".webp", ""}
    ensures var m := Lower(mime); Contains(m, "png") ==> ext == ".png"
    ensures var m := Lower(mime); !Contains(m, "png") && (Contains(m, "jpeg") || Contains(m, "jpg")) ==> ext == ".jpg"
    ensures var m := Lower(mime);
      !Contains(m, "png") && !Contains(m, "jpeg") && !Contains(m, "jpg") && Contains(m, "gif") ==> ext == ".gif"
    ensures var m := Lower(mime);
      (!Contains(m, "png") && !Contains(m, "jpeg") && !Contains(m, "jpg") && !Contains(m, "gif") && Contains(m, "webp"))
        ==> ext == ".webp"
    ensures var m := Lower(mime);
      ext == "" <==>
        (!Contains(m, "png") && !Contains(m, "jpeg") && !Contains(m, "jpg") && !Contains(m, "gif") && !Contains(m, "webp"))
  {
    var m := Lower(mime);
    if Contains(m, "png") then ".png"
    else if Contains(m, "jpeg") || Contains(m, "jpg") then ".jpg"
    else if Contains(m, "gif") then ".gif"
    else if Contains(m, "webp") then ".webp"
    else ""
  }

  /** The MIME type chosen from a lowercased file suffix (uploader.py:268-280, run.py:444-446). */
  function FallbackMime(ext: string): (m: string)
    ensures StartsWith(m, "image/")
  {
    if ext == ".png" then "image/png"
    else if ext == ".jpg" || ext == ".jpeg" then "image/jpeg"
    else if ext == ".gif" then "image/gif"
    else if ext == ".webp" then "image/webp"
    else "image/jpeg"
  }

  /** The guessed type is kept when it is an image type; otherwise the suffix decides. */
  function ResolveMime(guessed: Option<string>, suffix: string): (m: string)
    ensures StartsWith(m, "image/")
    ensures guessed.Some? && StartsWith(guessed.value, "image/") ==> m == guessed.value
    ensures !(guessed.Some? && StartsWith(guessed.value, "image/")) ==> m == FallbackMime(Lower(suffix))
  {
    if guessed.Some? && StartsWith(guessed.value, "image/") then guessed.value
    else FallbackMime(Lower(suffix))
  }

  lemma ContainsAt(s: string, sub: string, i: nat)
    requires OccursAt(s, sub, i)
    ensures Contains(s, sub)
  {
  }

  /** A string lacking one of the characters of `sub` does not contain it. */
  lemma MissingChar(s: string, sub: string, k: nat)
    requires k < |sub| && sub[k] !in s
    ensures !Contains(s, sub)
  {
    forall i | 0 <= i <= |s| - |sub|
      ensures !OccursAt(s, sub, i)
    {
      assert s[i..i + |sub|][k] == s[i + k];
      assert s[i + k] in s;
    }
  }

  /** The fallback type maps back to the extension it came from, `.jpeg` and unknown
      suffixes both ending up as `.jpg`. */
  lemma ExtFromFallbackMime(ext: string)
    ensures ExtFromMime(FallbackMime(ext)) ==
      if ext == ".png" || ext == ".gif" || ext == ".webp" then ext else ".jpg"
  {
    if ext == ".png" {
      ExtOfPng();
    } else if ext == ".gif" {
      ExtOfGif();
    } else if ext == ".webp" {
      ExtOfWebp();
    } else {
      ExtOfJpeg();
    }
  }

  /** `image/<sub>` for a lowercase `sub` is already lowercase and contains `sub`. */
  lemma ImageMime(sub: string)
    requires forall i :: 0 <= i < |sub| ==> IsAsciiLower(sub[i])
    ensures Lower("image/" + sub) == "image/" + sub && Contains("image/" + sub, sub)
  {
    var m := "image/" + sub;
    assert m[6..6 + |sub|] == sub;
    ContainsAt(m, sub, 6);
    forall i | 0 <= i < |m|
      ensures Lower(m)[i] == m[i]
    {
      if i >= 6 {
        assert m[i] == sub[i - 6];
      }
    }
  }

  lemma ExtOfPng()
    ensures ExtFromMime("image/png") == ".png"
  {
    assert "image/png" == "image/" + "png";
    ImageMime("png");
  }

  lemma ExtOfJpeg()
    ensures ExtFromMime("image/jpeg") == ".jpg"
  {
    var m := "image/jpeg";
    assert m == "image/" + "jpeg";
    ImageMime("jpeg");
    MissingChar(m, "png", 1);
  }

  lemma ExtOfGif()
    ensures ExtFromMime("image/gif") == ".gif"
  {
    var m := "image/gif";
    assert m == "image/" + "gif";
    ImageMime("gif");
    MissingChar(m, "png", 0); MissingChar(m, "jpeg", 0); MissingChar(m, "jpg", 0);
  }

  lemma ExtOfWebp()
    ensures ExtFromMime("image/webp") == ".webp"
  {
    var m := "image/webp";
    assert m == "image/" + "webp";
    ImageMime("webp");
    MissingChar(m, "png", 1); MissingChar(m, "jpeg", 0); MissingChar(m, "jpg", 0); MissingChar(m, "gif", 2);
  }

  // ---------------------------------------------------------------------------
  // Path pieces

  /** The index of the last `c` in `s`, or -1 (`str.rfind`). */
  function RFind(s: string, c: char): (i: int)
    ensures -1 <= i < |s|
    ensures i >= 0 ==> s[i] == c
    ensures forall k :: i < k < |s| ==> s[k] != c
    decreases |s|
  {
    if s == [] then -1
    else if s[|s| - 1] == c then |s| - 1
    else RFind(s[..|s| - 1], c)
  }

  lemma NoSlashAfter(path: string, i: int)
    requires -1 <= i < |path| && forall k :: i < k < |path| ==> path[k] != '/'
    ensures '/' !in path[i + 1..]
  {
    var name := path[i + 1..];
    assert forall k :: 0 <= k < |name| ==> name[k] == path[i + 1 + k];
  }

  /** `Path(p).name` for a path without trailing separator: what follows the last `/`. */
  function PathName(path: string): (r: string)
    ensures '/' !in r
    ensures EndsWith(path, r)
    ensures |r| == |path| || path[|path| - |r| - 1] == '/'
  {
    var i := RFind(path, '/');
    NoSlashAfter(path, i);
    path[i + 1..]
  }

  /** `Path(p).suffix`: from the last dot of the name, unless that dot starts or ends it. */
  function Suffix(name: string): (r: string)
    ensures r == [] || (r[0] == '.' && |r| >= 2 && EndsWith(name, r) && |r| < |name|)
    ensures forall k :: 1 <= k < |r| ==> r[k] != '.'
    ensures forall i :: 0 < i < |name| - 1 && name[i] == '.' && (forall k :: i < k < |name| ==> name[k] != '.') ==>
      r == name[i..]
  {
    var i := RFind(name, '.');
    if 0 < i < |name| - 1 then name[i..] else ""
  }
}
