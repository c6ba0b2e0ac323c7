/**
 * The deterministic parts of `S3Service` (app/services/s3_service.py): the extension rule of
 * `upload_image_from_url`, and `generate_resized_image_urls`, which turns a media URL into
 * CDN links whose suffix is the URL-safe base 64 of a JSON resize request.
 *
 * `generate_slug_and_urls` in this file is the same code as the helper of the same name and is
 * modelled once, as `Helpers.GenerateSlugAndUrls`. The uploads themselves are storage I/O.
 */
module S3Service {
  import opened Wrappers
  import opened Text
  import opened PyJson
  import JsonText
  import Base64

  // ---------------------------------------------------------------------------
  // str.find / str.rfind on one character

  /** `s.find(c)`: the first index of `c`, None for -1. */
  function IndexOf(s: string, c: char): (r: Option<nat>)
    ensures r.Some? ==> r.value < |s| && s[r.value] == c && forall k :: 0 <= k < r.value ==> s[k] != c
    ensures r.None? ==> forall k :: 0 <= k < |s| ==> s[k] != c
    decreases |s|
  {
    if |s| == 0 then None
    else if s[0] == c then Some(0)
    else match IndexOf(s[1..], c)
      case None => None
      case Some(i) => Some(i + 1)
  }

  /** `s.rfind(c)`: the last index of `c`, None for -1. */
  function LastIndexOf(s: string, c: char): (r: Option<nat>)
    ensures r.Some? ==> r.value < |s| && s[r.value] == c && forall k :: r.value < k < |s| ==> s[k] != c
    ensures r.None? ==> forall k :: 0 <= k < |s| ==> s[k] != c
    decreases |s|
  {
    if |s| == 0 then None
    else if s[|s| - 1] == c then Some(|s| - 1)
    else LastIndexOf(s[..|s| - 1], c)
  }

  /** The text before the first `c`, as `s.split(c, 1)[0]`. */
  function BeforeFirst(s: string, c: char): (r: string)
    ensures forall k :: 0 <= k < |r| ==> r[k] != c
    ensures StartsWith(s, r)
  {
    match IndexOf(s, c)
    case None => s
    case Some(i) => s[..i]
  }

  // ---------------------------------------------------------------------------
  // urllib.parse.urlparse(url).path, as Python 3.9 and later compute it

  /** What `urlsplit` strips from the front: the C0 controls and space. */
  predicate IsC0OrSpace(c: char) { c <= ' ' }

  /** What `urlsplit` deletes everywhere: tab, CR and LF. */
  predicate IsUnsafe(c: char) { c == '\t' || c == '\r' || c == '\n' }

  function RemoveUnsafe(s: string): (r: string)
    ensures |r| <= |s|
    ensures forall k :: 0 <= k < |r| ==> !IsUnsafe(r[k])
    ensures (forall k :: 0 <= k < |s| ==> !IsUnsafe(s[k])) ==> r == s
    decreases |s|
  {
    if |s| == 0 then ""
    else if IsUnsafe(s[0]) then RemoveUnsafe(s[1..])
    else [s[0]] + RemoveUnsafe(s[1..])
  }

  predicate IsSchemeChar(c: char)
  {
    'a' <= c <= 'z' || 'A' <= c <= 'Z' || IsDigit(c) || c == '+' || c == '-' || c == '.'
  }

  /**
   * The scheme, lowercased, and what follows its colon; ("", url) when the text before the
   * first colon is empty, does not start with an ASCII letter or holds a non-scheme character.
   */
  function SplitScheme(url: string): (r: (string, string))
    ensures r.0 == "" ==> r.1 == url
    ensures r.0 != "" ==> |r.0| < |url| && url[|r.0|] == ':' && r.1 == url[|r.0| + 1..]
  {
    match IndexOf(url, ':')
    case None => ("", url)
    case Some(i) =>
      if i > 0 && ('a' <= url[0] <= 'z' || 'A' <= url[0] <= 'Z')
         && forall k :: 0 <= k < i ==> IsSchemeChar(url[k])
      then (Lower(url[..i]), url[i + 1..])
      else ("", url)
  }

  predicate IsNetlocEnd(c: char) { c == '/' || c == '?' || c == '#' }

  /** Where the network location that follows `//` ends: at the first `/`, `?` or `#`. */
  function NetlocLength(s: string): (n: nat)
    ensures n <= |s|
    ensures forall k :: 0 <= k < n ==> !IsNetlocEnd(s[k])
    ensures n < |s| ==> IsNetlocEnd(s[n])
    decreases |s|
  {
    if |s| == 0 || IsNetlocEnd(s[0]) then 0 else 1 + NetlocLength(s[1..])
  }

  /** The schemes whose path may carry `;params` (`urllib.parse.uses_params`). */
  const UsesParams: seq<string> :=
    ["", "ftp", "hdl", "prospero", "http", "imap", "https", "shttp", "rtsp", "rtsps", "rtspu",
     "sip", "sips", "mms", "sftp", "tel"]

  /** `_splitparams`: the path without the `;params` of its last segment. */
  function DropParams(path: string): (r: string)
    ensures StartsWith(path, r)
  {
    var start := match LastIndexOf(path, '/') case None => 0 case Some(i) => i;
    match IndexOf(path[start..], ';')
    case None => path
    case Some(k) => path[..start + k]
  }

  /** What follows the network location when the text starts with `//`, else the text itself. */
  function AfterNetloc(rest: string): (r: Result<string>)
    ensures r.Ok? ==> EndsWith(rest, r.value)
  {
    if StartsWith(rest, "//") then
      var n := 2 + NetlocLength(rest[2..]);
      var netloc := rest[2..n];
      if ('[' in netloc) != (']' in netloc) then Err("ValueError: Invalid IPv6 URL")
      else Ok(rest[n..])
    else Ok(rest)
  }

  /** The path once the fragment, the query and, where the scheme allows them, the params are cut. */
  function CutPath(scheme: string, afterNetloc: string): (r: string)
    ensures StartsWith(afterNetloc, r)
    ensures forall k :: 0 <= k < |r| ==> r[k] != '#' && r[k] != '?'
  {
    var noFragment := BeforeFirst(afterNetloc, '#');
    var path := BeforeFirst(noFragment, '?');
    if scheme in UsesParams && ';' in path then DropParams(path) else path
  }

  /** The `path` of `urlparse(url)`; an unbalanced `[` or `]` in the netloc raises ValueError. */
  function UrlPath(url: string): (r: Result<string>)
    ensures r.Ok? ==> forall k :: 0 <= k < |r.value| ==> r.value[k] != '#' && r.value[k] != '?'
  {
    var split := SplitScheme(RemoveUnsafe(LStrip(url, IsC0OrSpace)));
    var afterNetloc :- AfterNetloc(split.1);
    Ok(CutPath(split.0, afterNetloc))
  }

  // ---------------------------------------------------------------------------
  // The extension rule of upload_image_from_url

  /** `os.path.basename`: the text after the last `/`. */
  function Basename(p: string): (r: string)
    ensures EndsWith(p, r) && '/' !in r
    ensures |r| < |p| ==> p[|p| - |r| - 1] == '/'
  {
    match LastIndexOf(p, '/')
    case None => p
    case Some(i) => p[i + 1..]
  }

  /**
   * `os.path.splitext` on a name without `/`: the extension runs from the last `.` to the end,
   * unless nothing but dots precedes that `.` (".profile" has no extension).
   */
  function Splitext(p: string): (r: (string, string))
    requires '/' !in p
    ensures r.0 + r.1 == p
    ensures r.1 != "" ==> r.1[0] == '.' && '.' !in r.1[1..]
    ensures r.1 != "" ==> exists k :: 0 <= k < |r.0| && r.0[k] != '.'
  {
    match LastIndexOf(p, '.')
    case None => (p, "")
    case Some(dot) =>
      if exists k :: 0 <= k < dot && p[k] != '.' then
        assert p[..dot] + p[dot..] == p;
        assert forall k :: 0 <= k < |p[dot..]| - 1 ==> p[dot..][1..][k] == p[dot + 1 + k];
        (p[..dot], p[dot..])
      else (p, "")
  }

  const AllowedExtensions: seq<string> := [".jpg", ".jpeg", ".png", ".gif"]

  /** The extension the uploaded copy gets; ValueError from `urlparse` propagates. */
  function ImageExtension(url: string): (r: Result<string>)
    ensures r.Ok? <==> UrlPath(url).Ok?
    ensures r.Ok? ==> r.value in AllowedExtensions
    ensures r.Ok? ==> var ext := Lower(Splitext(Basename(UrlPath(url).value)).1);
                      r.value == (if ext in AllowedExtensions then ext else ".jpg")
  {
    var path :- UrlPath(url);
    var ext := Lower(Splitext(Basename(path)).1);
    Ok(if ext in AllowedExtensions then ext else ".jpg")
  }

  // ---------------------------------------------------------------------------
  // generate_resized_image_urls

  const MediaHttp: string := "http://media.suvichaar.org"
  const MediaHttps: string := "https://media.suvichaar.org"

  predicate IsMediaUrl(url: string) { StartsWith(url, MediaHttp) || StartsWith(url, MediaHttps) }

  predicate IsSlash(c: char) { c == '/' }

  /** The object key: the URL path without its leading slashes. */
  function CdnKey(url: string): (r: Result<string>)
    ensures r.Ok? <==> UrlPath(url).Ok?
    ensures r.Ok? ==> EndsWith(UrlPath(url).value, r.value) && (|r.value| > 0 ==> r.value[0] != '/')
  {
    var path :- UrlPath(url);
    var key := LStrip(path, IsSlash);
    assert EndsWith(path, key);
    Ok(key)
  }

  /** A character that `urlparse` passes through a path unchanged. */
  predicate PlainPathChar(c: char)
  {
    c != '?' && c != '#' && c != ';' && c != '[' && c != ']' && !IsUnsafe(c) && !IsC0OrSpace(c)
  }

  const MediaHost: string := "media.suvichaar.org"

  /** How a media URL with path `p` is laid out. */
  function MediaUrl(scheme: string, p: string): string { scheme + ":" + "//" + MediaHost + "/" + p }

  lemma MediaUrlShape(scheme: string, p: string)
    ensures MediaUrl(scheme, p) == scheme + (":" + ("//" + (MediaHost + ("/" + p))))
  {
  }

  /** Nothing in front to strip and nothing to remove: the URL reaches the scheme split as it is. */
  lemma MediaClean(scheme: string, p: string)
    requires scheme == "http" || scheme == "https"
    requires forall k :: 0 <= k < |p| ==> PlainPathChar(p[k])
    ensures RemoveUnsafe(LStrip(MediaUrl(scheme, p), IsC0OrSpace)) == MediaUrl(scheme, p)
  {
    var url := MediaUrl(scheme, p);
    MediaUrlShape(scheme, p);
    assert url[0] == 'h';
    assert forall k :: 0 <= k < |url| ==> !IsUnsafe(url[k]) by {
      forall k | 0 <= k < |url| ensures !IsUnsafe(url[k]) {
        if k >= |url| - |p| {
          assert url[k] == p[k - (|url| - |p|)];
        }
      }
    }
  }

  lemma MediaSplit(scheme: string, p: string)
    requires scheme == "http" || scheme == "https"
    ensures SplitScheme(MediaUrl(scheme, p)) == (scheme, "//" + (MediaHost + ("/" + p)))
  {
    MediaUrlShape(scheme, p);
    assert scheme[0] == 'h' && forall k :: 0 <= k < |scheme| ==> 'a' <= scheme[k] <= 'z';
    SchemeSplitOf(scheme, "//" + (MediaHost + ("/" + p)));
  }

  /** A lower-case alphabetic scheme in front of the first colon is split off as it is. */
  lemma SchemeSplitOf(scheme: string, rest: string)
    requires |scheme| > 0 && forall k :: 0 <= k < |scheme| ==> 'a' <= scheme[k] <= 'z'
    ensures SplitScheme(scheme + (":" + rest)) == (scheme, rest)
  {
    var url := scheme + (":" + rest);
    assert url[|scheme|] == ':';
    assert forall k :: 0 <= k < |scheme| ==> url[k] == scheme[k];
    assert IndexOf(url, ':') == Some(|scheme|);
    assert url[..|scheme|] == scheme;
    assert Lower(scheme) == scheme;
    assert url[|scheme| + 1..] == rest;
  }

  /** The network location ends at the first delimiter after a text that holds none. */
  lemma NetlocLengthOf(h: string, t: string)
    requires forall k :: 0 <= k < |h| ==> !IsNetlocEnd(h[k])
    requires |t| > 0 && IsNetlocEnd(t[0])
    ensures NetlocLength(h + t) == |h|
  {
    assert (h + t)[|h|] == t[0];
    assert forall k :: 0 <= k < |h| ==> (h + t)[k] == h[k];
  }

  lemma MediaNetloc(p: string)
    ensures AfterNetloc("//" + (MediaHost + ("/" + p))) == Ok("/" + p)
  {
    var rest := "//" + (MediaHost + ("/" + p));
    assert rest[..2] == "//";
    assert rest[2..] == MediaHost + ("/" + p);
    NetlocLengthOf(MediaHost, "/" + p);
    assert rest[2..2 + |MediaHost|] == MediaHost;
    assert '[' !in MediaHost && ']' !in MediaHost;
    assert rest[2 + |MediaHost|..] == "/" + p;
  }

  lemma PlainCut(scheme: string, p: string)
    requires scheme == "http" || scheme == "https"
    requires forall k :: 0 <= k < |p| ==> PlainPathChar(p[k])
    ensures CutPath(scheme, "/" + p) == "/" + p
  {
    var path := "/" + p;
    assert forall k :: 0 <= k < |path| ==> PlainPathChar(path[k]) || k == 0;
    assert IndexOf(path, '#') == None && IndexOf(path, '?') == None;
    assert ';' !in path;
  }

  lemma MediaPath(scheme: string, p: string)
    requires scheme == "http" || scheme == "https"
    requires forall k :: 0 <= k < |p| ==> PlainPathChar(p[k])
    ensures UrlPath(MediaUrl(scheme, p)) == Ok("/" + p)
  {
    MediaClean(scheme, p);
    MediaSplit(scheme, p);
    MediaNetloc(p);
    PlainCut(scheme, p);
  }

  lemma MediaBases()
    ensures MediaHttp == "http" + "://" + MediaHost && MediaHttps == "https" + "://" + MediaHost
  {
  }

  lemma MediaPrefix(scheme: string, p: string)
    requires scheme == "http" || scheme == "https"
    ensures IsMediaUrl(MediaUrl(scheme, p))
  {
    var head := scheme + "://" + MediaHost;
    assert MediaUrl(scheme, p) == head + ("/" + p);
    assert (head + ("/" + p))[..|head|] == head;
    MediaBases();
  }

  /**
   * For `http(s)://media.suvichaar.org/` followed by a path with no query, fragment, params
   * or leading slash, the object key is that path.
   */
  lemma MediaKey(scheme: string, p: string)
    requires scheme == "http" || scheme == "https"
    requires forall k :: 0 <= k < |p| ==> PlainPathChar(p[k])
    requires |p| == 0 || p[0] != '/'
    ensures IsMediaUrl(MediaUrl(scheme, p)) && CdnKey(MediaUrl(scheme, p)) == Ok(p)
  {
    MediaPrefix(scheme, p);
    MediaPath(scheme, p);
    SlashStripped(p);
  }

  /** Stripping the slash in front of a path that does not start with one leaves the path. */
  lemma SlashStripped(p: string)
    requires |p| == 0 || p[0] != '/'
    ensures LStrip("/" + p, IsSlash) == p
  {
    assert ("/" + p)[1..] == p;
  }

  /** The preset labels with their width and height, in the order the dict literal lists them. */
  const Presets: seq<(string, int, int)> := [("potraitcoverurl", 640, 853), ("msthumbnailcoverurl", 300, 300)]

  /** The request the image handler receives. */
  function ResizeTemplate(bucket: string, key: string, width: int, height: int): Json
  {
    Obj([("bucket", Str(bucket)), ("key", Str(key)),
         ("edits", Obj([("resize", Obj([("width", Num(width)), ("height", Num(height)), ("fit", Str("cover"))]))]))])
  }

  /** The UTF-8 bytes of one character. */
  function Utf8Char(c: char): (b: seq<Base64.Byte>)
    ensures c as int < 0x80 ==> b == [c as int]
  {
    var n := c as int;
    if n < 0x80 then [n]
    else if n < 0x800 then [0xC0 + n / 64, 0x80 + n % 64]
    else if n < 0x10000 then [0xE0 + n / 4096, 0x80 + (n / 64) % 64, 0x80 + n % 64]
    else [0xF0 + n / 262144, 0x80 + (n / 4096) % 64, 0x80 + (n / 64) % 64, 0x80 + n % 64]
  }

  /** `str.encode()`: UTF-8. */
  function Utf8(s: string): seq<Base64.Byte>
    decreases |s|
  {
    if |s| == 0 then [] else Utf8Char(s[0]) + Utf8(s[1..])
  }

  /** One character per byte, as `bytes.decode("latin-1")`; it agrees with UTF-8 on ASCII. */
  function DecodeBytes(b: seq<Base64.Byte>): (s: string)
    ensures |s| == |b|
  {
    seq(|b|, i requires 0 <= i < |b| => b[i] as char)
  }

  /** Printable ASCII text encodes to one byte per character, which read back give the text. */
  lemma {:induction false} Utf8Ascii(s: string)
    requires JsonText.Ascii(s)
    ensures DecodeBytes(Utf8(s)) == s
    decreases |s|
  {
    if |s| > 0 {
      Utf8Ascii(s[1..]);
      assert Utf8(s) == [s[0] as int] + Utf8(s[1..]);
      assert DecodeBytes(Utf8(s)) == [s[0]] + DecodeBytes(Utf8(s[1..]));
      assert [s[0]] + s[1..] == s;
    }
  }

  /** `cdn_prefix_media` + URL-safe base 64 of `json.dumps(template).encode()`. */
  function ResizedUrl(cdnPrefix: string, bucket: string, key: string, width: int, height: int): string
  {
    cdnPrefix + Base64.Encode(Utf8(JsonText.Dumps(ResizeTemplate(bucket, key, width, height))))
  }

  /** The first `n` presets as label and URL, in preset order. */
  function PresetUrls(cdnPrefix: string, bucket: string, key: string, n: nat): (r: Dict<string>)
    requires n <= |Presets|
    ensures |r| == n
    ensures forall m :: 0 <= m < n ==> r[m].0 == Presets[m].0
  {
    if n == 0 then []
    else PresetUrls(cdnPrefix, bucket, key, n - 1) + [(Presets[n - 1].0, ResizedUrl(cdnPrefix, bucket, key, Presets[n - 1].1, Presets[n - 1].2))]
  }

  /** What `generate_resized_image_urls` returns: {} off the media host, else one URL per preset. */
  function ResizedUrls(cdnPrefix: string, bucket: string, url: string): (r: Result<Dict<string>>)
    ensures !IsMediaUrl(url) ==> r == Ok([])
    ensures IsMediaUrl(url) ==> (r.Ok? <==> UrlPath(url).Ok?)
    ensures IsMediaUrl(url) && r.Ok? ==> Keys(r.value) == ["potraitcoverurl", "msthumbnailcoverurl"]
  {
    if !IsMediaUrl(url) then Ok([])
    else
      var key :- CdnKey(url);
      PresetLabels(cdnPrefix, bucket, key);
      Ok(PresetUrls(cdnPrefix, bucket, key, |Presets|))
  }

  /** The labels of all the presets, in preset order. */
  lemma PresetLabels(cdnPrefix: string, bucket: string, key: string)
    ensures Keys(PresetUrls(cdnPrefix, bucket, key, |Presets|)) == ["potraitcoverurl", "msthumbnailcoverurl"]
  {
    var r := PresetUrls(cdnPrefix, bucket, key, |Presets|);
    assert |r| == 2;
    assert r[0].0 == Presets[0].0 == "potraitcoverurl";
    assert r[1].0 == Presets[1].0 == "msthumbnailcoverurl";
    assert Keys(r) == [r[0].0, r[1].0];
  }

  /** One preset's URL, as the loop body builds it. */
  method PresetUrl(cdnPrefix: string, bucket: string, key: string, width: int, height: int) returns (u: string)
    ensures u == ResizedUrl(cdnPrefix, bucket, key, width, height)
  {
    var template := ResizeTemplate(bucket, key, width, height);
    var text := JsonText.Dumps(template);
    var encoded := Base64.Encode(Utf8(text));
    u := cdnPrefix + encoded;
  }

  /** `resized_urls[label] = final_url` for the next preset; its label is not in the dict yet. */
  method AddPreset(cdnPrefix: string, bucket: string, key: string, resized: Dict<string>, i: nat)
    returns (r: Dict<string>)
    requires i < |Presets| && resized == PresetUrls(cdnPrefix, bucket, key, i)
    ensures r == PresetUrls(cdnPrefix, bucket, key, i + 1)
  {
    var finalUrl := PresetUrl(cdnPrefix, bucket, key, Presets[i].1, Presets[i].2);
    PutFresh(resized, Presets[i].0, finalUrl);
    r := Put(resized, Presets[i].0, finalUrl);
  }

  method GenerateResizedImageUrls(cdnPrefix: string, bucket: string, imageUrl: string) returns (r: Result<Dict<string>>)
    ensures r == ResizedUrls(cdnPrefix, bucket, imageUrl)
  {
    if !IsMediaUrl(imageUrl) {
      return Ok([]);
    }
    var path :- UrlPath(imageUrl);
    var key := LStrip(path, IsSlash);
    var resized: Dict<string> := [];
    var i := 0;
    while i < |Presets|
      invariant 0 <= i <= |Presets|
      invariant resized == PresetUrls(cdnPrefix, bucket, key, i)
    {
      resized := AddPreset(cdnPrefix, bucket, key, resized, i);
      i := i + 1;
    }
    return Ok(resized);
  }

  // ---------------------------------------------------------------------------
  // Reading a resized URL back

  /** An independent reader: strip the prefix, base-64 decode, parse the whole text as JSON. */
  function ReadResizedUrl(cdnPrefix: string, u: string): Option<Json>
  {
    if !StartsWith(u, cdnPrefix) then None
    else match Base64.Decode(u[|cdnPrefix|..])
      case None => None
      case Some(bytes) =>
        match JsonText.ParseValue(DecodeBytes(bytes))
        case Some((j, rest)) => if rest == "" then Some(j) else None
        case None => None
  }

  /** Decoding a resized URL's suffix gives back the request: bucket, key, size and fit. */
  lemma ReadResizedUrlOf(cdnPrefix: string, bucket: string, key: string, width: int, height: int)
    ensures ReadResizedUrl(cdnPrefix, ResizedUrl(cdnPrefix, bucket, key, width, height))
            == Some(ResizeTemplate(bucket, key, width, height))
  {
    var t := ResizeTemplate(bucket, key, width, height);
    var text := JsonText.Dumps(t);
    JsonText.DumpsAscii(t);
    var bytes := Utf8(text);
    var u := cdnPrefix + Base64.Encode(bytes);
    assert u == ResizedUrl(cdnPrefix, bucket, key, width, height);
    assert u[..|cdnPrefix|] == cdnPrefix && u[|cdnPrefix|..] == Base64.Encode(bytes);
    Base64.DecodeEncode(bytes);
    Utf8Ascii(text);
    JsonText.ParseDumps(t, "");
    assert text + "" == text;
  }

  lemma PresetUrlsAt(cdnPrefix: string, bucket: string, key: string, n: nat, m: nat)
    requires m < n <= |Presets|
    ensures PresetUrls(cdnPrefix, bucket, key, n)[m].1 == ResizedUrl(cdnPrefix, bucket, key, Presets[m].1, Presets[m].2)
    decreases n
  {
    if m < n - 1 {
      PresetUrlsAt(cdnPrefix, bucket, key, n - 1, m);
    }
  }

  /**
   * For a media URL whose path parses, the two URLs carry the portrait (640 by 853) and the
   * thumbnail (300 by 300) crop of the same object key, with fit "cover".
   */
  lemma ResizedUrlsDecode(cdnPrefix: string, bucket: string, url: string)
    requires IsMediaUrl(url) && UrlPath(url).Ok?
    ensures var r := ResizedUrls(cdnPrefix, bucket, url);
            var key := CdnKey(url).value;
            && r.Ok? && |r.value| == 2
            && r.value[0].0 == "potraitcoverurl"
            && ReadResizedUrl(cdnPrefix, r.value[0].1) == Some(ResizeTemplate(bucket, key, 640, 853))
            && r.value[1].0 == "msthumbnailcoverurl"
            && ReadResizedUrl(cdnPrefix, r.value[1].1) == Some(ResizeTemplate(bucket, key, 300, 300))
  {
    var key := CdnKey(url).value;
    PresetUrlsAt(cdnPrefix, bucket, key, 2, 0);
    PresetUrlsAt(cdnPrefix, bucket, key, 2, 1);
    ReadResizedUrlOf(cdnPrefix, bucket, key, Presets[0].1, Presets[0].2);
    ReadResizedUrlOf(cdnPrefix, bucket, key, Presets[1].1, Presets[1].2);
  }
}
