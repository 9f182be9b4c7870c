/**
 * The watermark cache engine of the storefront: which product images are
 * watermarked, where the watermarked copy of an image is cached and when
 * that copy is reused, the guards that make generation fail, the font size
 * of the pattern, the font lookup, and the three passes over the cache
 * directory (clear everything, remove old files, count files and bytes).
 *
 * The file system and the GD library are inputs (`Platform`); md5 is an
 * uninterpreted function given as a parameter. The cache directory is the
 * class `CacheDir`, whose entries are in the order `glob` lists them.
 */
module Watermark {
  import opened Common
  import opened DownloadGateway

  // ---------------------------------------------------------------------------
  // Settings

  /** The five watermark options the handler loads. */
  datatype Settings = Settings(text: string, opacity: int, size: real, angle: int, spacing: real)

  /** The defaults used when an option was never saved. */
  const DefaultSettings := Settings("ShutterPress", 90, 2.5, 45, 2.0)

  // ---------------------------------------------------------------------------
  // Which products are watermarked

  /**
   * `should_watermark_product`: `product` is None when there is no product
   * object; otherwise its type meta must be one of the three ShutterPress
   * access types.
   */
  predicate ShouldWatermark(product: Option<nat>, productType: map<nat, string>) {
    product.Some? && Meta(productType, product.value) in {Free, Subscription, Premium}
  }

  /**
   * Every product the download gateway knows how to serve or hand over is
   * watermarked, and a product of any other type is not.
   */
  lemma WatermarkedExactlyTheShutterPressTypes(env: Env, pid: nat)
    ensures ShouldWatermark(Some(pid), env.productType) <==>
      TypeOf(env, pid) == Free || TypeOf(env, pid) == Subscription || TypeOf(env, pid) == Premium
    ensures !ShouldWatermark(None, env.productType)
  {
  }

  // ---------------------------------------------------------------------------
  // Paths as PHP's pathinfo, dirname and WordPress's path_join see them

  function Basename(path: string): string {
    match LastIndexOf(path, '/')
    case None => path
    case Some(i) => path[i + 1..]
  }

  /** `pathinfo($p)['extension']`: None when the base name has no dot. */
  function PathExtension(path: string): Option<string> {
    var b := Basename(path);
    match LastIndexOf(b, '.')
    case None => None
    case Some(i) => Some(b[i + 1..])
  }

  /** `pathinfo($p)['filename']`: the base name up to its last dot. */
  function PathFilename(path: string): string {
    var b := Basename(path);
    match LastIndexOf(b, '.')
    case None => b
    case Some(i) => b[..i]
  }

  /** A missing extension reads as the empty string in a concatenation. */
  function ExtensionText(path: string): string {
    match PathExtension(path)
    case None => ""
    case Some(e) => e
  }

  function Dirname(path: string): string {
    match LastIndexOf(path, '/')
    case None => "."
    case Some(i) => if i == 0 then "/" else path[..i]
  }

  function TrimTrailingSlashes(s: string): (r: string)
    ensures r <= s && (|r| == 0 || r[|r| - 1] != '/')
  {
    if |s| > 0 && s[|s| - 1] == '/' then TrimTrailingSlashes(s[..|s| - 1]) else s
  }

  /** `path_join`: an absolute path is kept, a relative one is put under `base`. */
  function PathJoin(base: string, path: string): string {
    if |path| > 0 && path[0] == '/' then path else TrimTrailingSlashes(base) + "/" + path
  }

  /** The file name splits back into its filename and extension parts. */
  lemma FilenameAndExtensionRebuildBasename(path: string)
    ensures PathExtension(path).Some? ==> PathFilename(path) + "." + ExtensionText(path) == Basename(path)
    ensures PathExtension(path).None? ==> PathFilename(path) == Basename(path)
  {
    var b := Basename(path);
    match LastIndexOf(b, '.') {
      case None =>
      case Some(i) =>
        assert b[..i] + "." + b[i + 1..] == b;
    }
  }

  // ---------------------------------------------------------------------------
  // Cache file names

  /** A WordPress image size: a registered name ('full', 'thumbnail', ...) or explicit dimensions. */
  datatype ImageSize = Named(name: string) | Dims(width: int, height: int)

  /** The part of the cache file name that identifies the size. */
  function SizeSuffix(size: ImageSize): string {
    match size
    case Named(n) => n
    case Dims(w, h) => IntToString(w) + "x" + IntToString(h)
  }

  /** Different explicit dimensions never share a suffix. */
  lemma DimsSuffixInjective(w1: int, h1: int, w2: int, h2: int)
    requires SizeSuffix(Dims(w1, h1)) == SizeSuffix(Dims(w2, h2))
    ensures w1 == w2 && h1 == h2
  {
    var a1, b1 := IntToString(w1), IntToString(h1);
    var a2, b2 := IntToString(w2), IntToString(h2);
    NoXInIntToString(w1);
    NoXInIntToString(h1);
    NoXInIntToString(w2);
    NoXInIntToString(h2);
    var s := a1 + "x" + b1;
    assert s == a2 + "x" + b2;
    LastIndexOfSplit(a1, 'x', b1);
    LastIndexOfSplit(a2, 'x', b2);
    assert a1 + ['x'] + b1 == s == a2 + ['x'] + b2;
    assert |a1| == |a2|;
    assert a1 == s[..|a1|] == a2;
    assert b1 == s[|a1| + 1..] == b2;
    IntValOfIntToString(w1);
    IntValOfIntToString(w2);
    IntValOfIntToString(h1);
    IntValOfIntToString(h2);
  }

  lemma NoXInIntToString(n: int)
    ensures forall k :: 0 <= k < |IntToString(n)| ==> IntToString(n)[k] != 'x'
  {
    var d := NatToString(Abs(n));
    assert forall k :: 0 <= k < |d| ==> IsDigit(d[k]);
    if n < 0 {
      assert IntToString(n) == "-" + d;
    }
  }

  /** What `get_attached_file` and the attachment metadata say about an image. */
  datatype Attachment = Attachment(file: string, sizes: map<string, string>)

  /** The file the watermark is drawn from: the sized derivative when the metadata lists it. */
  function SourceFile(att: Attachment, size: ImageSize): string {
    match size
    case Named(n) =>
      if n != "full" && n in att.sizes then PathJoin(Dirname(att.file), att.sizes[n]) else att.file
    case Dims(_, _) => att.file
  }

  /** The settings as the string that is hashed; `floatText` is PHP's rendering of a float. */
  function SettingsText(s: Settings, floatText: real -> string): string {
    s.text + IntToString(s.opacity) + floatText(s.size) + IntToString(s.angle) + floatText(s.spacing)
  }

  /** The name of the cached copy: `<filename>_watermarked_<suffix>_<hash>.<ext>`. */
  function CacheFilename(source: string, suffix: string, hash: string): string {
    PathFilename(source) + "_watermarked_" + suffix + "_" + hash + "." + ExtensionText(source)
  }

  /**
   * Settings hashes of one length (md5 is always 32 hex digits) lead to the
   * same cache file only when they are equal: a change of settings that
   * changes the hash makes every cached copy a miss.
   */
  lemma CacheFilenameDeterminesHash(source: string, suffix: string, h1: string, h2: string)
    requires |h1| == |h2|
    requires CacheFilename(source, suffix, h1) == CacheFilename(source, suffix, h2)
    ensures h1 == h2
  {
    var p := PathFilename(source) + "_watermarked_" + suffix + "_";
    MiddleDetermined(p, h1, h2, ".", ExtensionText(source));
  }

  lemma MiddleDetermined(p: string, h1: string, h2: string, d: string, e: string)
    requires |h1| == |h2| && p + h1 + d + e == p + h2 + d + e
    ensures h1 == h2
  {
    assert h1 == (p + h1 + d + e)[|p|..|p| + |h1|];
    assert h2 == (p + h2 + d + e)[|p|..|p| + |h2|];
  }

  /** The cached copy keeps the extension of its source, so it is written in the same format. */
  lemma CacheFilenameKeepsExtension(source: string, suffix: string, hash: string)
    requires forall k :: 0 <= k < |suffix| ==> suffix[k] != '/'
    requires forall k :: 0 <= k < |hash| ==> hash[k] != '/'
    ensures PathExtension(CacheFilename(source, suffix, hash)) == Some(ExtensionText(source))
  {
    var ext := ExtensionText(source);
    var f := PathFilename(source);
    var head := f + "_watermarked_" + suffix + "_" + hash;
    var name := CacheFilename(source, suffix, hash);
    assert name == head + ['.'] + ext;
    NoSlashInFilename(source);
    NoDotSlashInExtension(source);
    NoSlashAppend(f, "_watermarked_");
    NoSlashAppend(f + "_watermarked_", suffix);
    NoSlashAppend(f + "_watermarked_" + suffix, "_");
    NoSlashAppend(f + "_watermarked_" + suffix + "_", hash);
    NoSlashAppend(head, ['.']);
    NoSlashAppend(head + ['.'], ext);
    assert LastIndexOf(name, '/').None?;
    assert Basename(name) == name;
    LastIndexOfSplit(head, '.', ext);
  }

  lemma NoSlashAppend(a: string, b: string)
    requires forall k :: 0 <= k < |a| ==> a[k] != '/'
    requires forall k :: 0 <= k < |b| ==> b[k] != '/'
    ensures forall k :: 0 <= k < |a + b| ==> (a + b)[k] != '/'
  {
    forall k | 0 <= k < |a + b|
      ensures (a + b)[k] != '/'
    {
      if k >= |a| {
        assert (a + b)[k] == b[k - |a|];
      }
    }
  }

  lemma NoSlashInFilename(path: string)
    ensures forall k :: 0 <= k < |PathFilename(path)| ==> PathFilename(path)[k] != '/'
  {
    var b := Basename(path);
    assert forall k :: 0 <= k < |b| ==> b[k] != '/';
  }

  lemma NoDotSlashInExtension(path: string)
    ensures forall k :: 0 <= k < |ExtensionText(path)| ==> ExtensionText(path)[k] != '/' && ExtensionText(path)[k] != '.'
  {
    var b := Basename(path);
    assert forall k :: 0 <= k < |b| ==> b[k] != '/';
  }

  // ---------------------------------------------------------------------------
  // Generation guards and the cache-hit rule

  /** What `getimagesize` reports. */
  datatype ImageInfo = ImageInfo(mime: string, width: int, height: int)

  /** The file system and GD as the handler sees them. */
  datatype Platform = Platform(
    gdAvailable: bool,
    fileExists: string -> bool,
    mtime: string -> int,
    // getimagesize: None when the file is no readable image
    imageSize: string -> Option<ImageInfo>,
    // imagecreatefrom<type> succeeds on the file
    decodes: string -> bool,
    // image<type> writes the destination
    encodes: string -> bool)

  predicate SupportedMime(mime: string) {
    mime in {"image/jpeg", "image/png", "image/gif", "image/webp"}
  }

  /** `generate_watermarked_image`: whether a watermarked copy of `source` is written to `dest`. */
  predicate Generated(p: Platform, source: string, dest: string) {
    p.gdAvailable && p.fileExists(source) &&
    match p.imageSize(source)
    case None => false
    case Some(info) =>
      info.width >= 100 && info.height >= 100
      && SupportedMime(info.mime) && p.decodes(source) && p.encodes(dest)
  }

  /**
   * Generation fails without GD, on images under 100 pixels in either
   * direction and on any type other than JPEG, PNG, GIF and WebP; an image
   * of exactly 100 by 100 pixels is accepted.
   */
  lemma GenerationGuards(p: Platform, source: string, dest: string)
    ensures !p.gdAvailable ==> !Generated(p, source, dest)
    ensures (p.imageSize(source).Some? && (p.imageSize(source).value.width < 100 || p.imageSize(source).value.height < 100))
      ==> !Generated(p, source, dest)
    ensures p.imageSize(source).Some? && !SupportedMime(p.imageSize(source).value.mime) ==> !Generated(p, source, dest)
    ensures (p.gdAvailable && p.fileExists(source) && p.imageSize(source) == Some(ImageInfo("image/jpeg", 100, 100))
      && p.decodes(source) && p.encodes(dest)) ==> Generated(p, source, dest)
  {
  }

  /** `file_exists($watermarked) && filemtime($watermarked) >= filemtime($source)`. */
  predicate CacheHit(p: Platform, cached: string, source: string) {
    p.fileExists(cached) && p.mtime(cached) >= p.mtime(source)
  }

  /** Where the cached copies live: the directory on disk and its public URL, both ending in '/'. */
  datatype CacheLocation = CacheLocation(dir: string, url: string)

  /**
   * The settings as the handler hashes them: `md5` of the five values
   * concatenated. `md5` and PHP's float rendering `floatText` are given.
   */
  function SettingsHash(s: Settings, floatText: real -> string, md5: string -> string): string {
    md5(SettingsText(s, floatText))
  }

  /**
   * `get_watermarked_image_url`: the URL of the watermarked copy, or None
   * (PHP's false) when there is no GD, no original file, or generation
   * fails. The copy is named after the source, the size and the hash of
   * the settings `s` the handler was built with.
   */
  function WatermarkedImageUrl(p: Platform, loc: CacheLocation, s: Settings, floatText: real -> string,
                               md5: string -> string, attachment: Option<Attachment>, size: ImageSize): (r: Option<string>)
    ensures r.Some? ==> p.gdAvailable && attachment.Some? && p.fileExists(attachment.value.file)
    ensures r.Some? ==>
      r.value == loc.url + CacheFilename(SourceFile(attachment.value, size), SizeSuffix(size), SettingsHash(s, floatText, md5))
  {
    if !p.gdAvailable then None
    else if attachment.None? || !p.fileExists(attachment.value.file) then None
    else
      var source := SourceFile(attachment.value, size);
      var name := CacheFilename(source, SizeSuffix(size), SettingsHash(s, floatText, md5));
      if CacheHit(p, loc.dir + name, source) then Some(loc.url + name)
      else if Generated(p, source, loc.dir + name) then Some(loc.url + name)
      else None
  }

  /**
   * A fresh cached copy is served as it is, whatever generation would do;
   * a stale or missing one is regenerated, and the URL is returned only if
   * that succeeds.
   */
  lemma CachedCopyRule(p: Platform, loc: CacheLocation, s: Settings, floatText: real -> string,
                       md5: string -> string, att: Attachment, size: ImageSize)
    requires p.gdAvailable && p.fileExists(att.file)
    ensures var source := SourceFile(att, size);
      var name := CacheFilename(source, SizeSuffix(size), SettingsHash(s, floatText, md5));
      var url := WatermarkedImageUrl(p, loc, s, floatText, md5, Some(att), size);
      && (CacheHit(p, loc.dir + name, source) ==> url == Some(loc.url + name))
      && (!CacheHit(p, loc.dir + name, source) ==>
            url == (if Generated(p, source, loc.dir + name) then Some(loc.url + name) else None))
  {
  }

  /**
   * Changing the settings so that their hash changes (md5 digests all have
   * one length) moves every image to a new cache file: the copy made under
   * the old settings is never served under the new ones.
   */
  lemma SettingsChangeMovesCopy(p: Platform, loc: CacheLocation, s1: Settings, s2: Settings,
                                floatText: real -> string, md5: string -> string, att: Attachment, size: ImageSize)
    requires forall x :: |md5(x)| == 32
    requires SettingsHash(s1, floatText, md5) != SettingsHash(s2, floatText, md5)
    requires WatermarkedImageUrl(p, loc, s1, floatText, md5, Some(att), size).Some?
    requires WatermarkedImageUrl(p, loc, s2, floatText, md5, Some(att), size).Some?
    ensures WatermarkedImageUrl(p, loc, s1, floatText, md5, Some(att), size) !=
            WatermarkedImageUrl(p, loc, s2, floatText, md5, Some(att), size)
  {
    var source := SourceFile(att, size);
    var h1, h2 := SettingsHash(s1, floatText, md5), SettingsHash(s2, floatText, md5);
    if WatermarkedImageUrl(p, loc, s1, floatText, md5, Some(att), size) ==
       WatermarkedImageUrl(p, loc, s2, floatText, md5, Some(att), size) {
      var n1, n2 := CacheFilename(source, SizeSuffix(size), h1), CacheFilename(source, SizeSuffix(size), h2);
      assert loc.url + n1 == loc.url + n2;
      assert n1 == (loc.url + n1)[|loc.url|..];
      assert n2 == (loc.url + n2)[|loc.url|..];
      CacheFilenameDeterminesHash(source, SizeSuffix(size), h1, h2);
    }
  }

  /** Only a listed, non-'full' size switches the source to its derivative. */
  lemma SourceFileRule(att: Attachment, size: ImageSize)
    ensures SourceFile(att, size) != att.file ==> size.Named? && size.name != "full" && size.name in att.sizes
    ensures size == Named("full") || size.Dims? ==> SourceFile(att, size) == att.file
    ensures size == Named("full") ==> SizeSuffix(size) == "full"
  {
  }

  // ---------------------------------------------------------------------------
  // The font

  /**
   * The size of the tiled text: `min(width, height) * size / 100` clamped
   * to [8, 32].
   */
  function TileFontSize(width: int, height: int, sizePercent: real): (r: real)
    ensures 8.0 <= r <= 32.0
    ensures var base := (Min(width, height) as real) * (sizePercent / 100.0);
      (8.0 <= base <= 32.0 ==> r == base) && (base < 8.0 ==> r == 8.0) && (base > 32.0 ==> r == 32.0)
  {
    var base := (Min(width, height) as real) * (sizePercent / 100.0);
    var capped := if base < 32.0 then base else 32.0;
    if capped > 8.0 then capped else 8.0
  }

  /** The central mark is half as large again as the tiles. */
  function CentralFontSize(width: int, height: int, sizePercent: real): (r: real)
    ensures 12.0 <= r <= 48.0
    ensures r == 1.5 * TileFontSize(width, height, sizePercent)
  {
    TileFontSize(width, height, sizePercent) * 1.5
  }

  /** The fonts tried after the plugin's own, in order. */
  const SystemFonts: seq<string> := [
    "/System/Library/Fonts/Arial.ttf",
    "/System/Library/Fonts/Helvetica.ttc",
    "/Windows/Fonts/arial.ttf",
    "/Windows/Fonts/calibri.ttf",
    "/usr/share/fonts/truetype/dejavu/DejaVuSans.ttf",
    "/usr/share/fonts/truetype/liberation/LiberationSans-Regular.ttf"]

  /** The first path of `paths` that exists. */
  function FirstExisting(paths: seq<string>, fileExists: string -> bool): (r: Option<nat>)
    ensures r.Some? ==> r.value < |paths| && fileExists(paths[r.value])
    ensures r.Some? ==> forall k :: 0 <= k < r.value ==> !fileExists(paths[k])
    ensures r.None? <==> forall k :: 0 <= k < |paths| ==> !fileExists(paths[k])
  {
    if |paths| == 0 then None
    else if fileExists(paths[0]) then Some(0)
    else
      match FirstExisting(paths[1..], fileExists)
      case None => None
      case Some(i) => Some(i + 1)
  }

  /**
   * `get_font_path`: the plugin's font when it exists, else the first
   * system font that exists, else None (GD's built-in font is used).
   */
  function FontPath(pluginFont: string, fileExists: string -> bool): (r: Option<string>)
    ensures fileExists(pluginFont) ==> r == Some(pluginFont)
    ensures r.Some? ==> fileExists(r.value) && (r.value == pluginFont || r.value in SystemFonts)
    ensures r.None? ==> !fileExists(pluginFont) && forall k :: 0 <= k < |SystemFonts| ==> !fileExists(SystemFonts[k])
  {
    var candidates := [pluginFont] + SystemFonts;
    match FirstExisting(candidates, fileExists)
    case None => None
    case Some(i) => Some(candidates[i])
  }

  // ---------------------------------------------------------------------------
  // The cache directory

  /** One directory entry: its name inside the directory, whether it is a regular file, its mtime and size. */
  datatype FileEntry = FileEntry(name: string, isFile: bool, mtime: int, size: nat)

  /** Thirty days in seconds. */
  const MaxAge := 30 * 24 * 60 * 60

  /**
   * The entries every pass acts on: `glob('*')` skips names starting with
   * a dot, and each pass keeps only regular files whose extension is not
   * `htaccess`.
   */
  predicate IsCachedImage(e: FileEntry) {
    (|e.name| == 0 || e.name[0] != '.') && e.isFile && PathExtension(e.name) != Some("htaccess")
  }

  predicate IsStale(e: FileEntry, now: int) {
    IsCachedImage(e) && now - e.mtime > MaxAge
  }

  /** The directory after every cached image is removed. */
  function Cleared(d: seq<FileEntry>): (r: seq<FileEntry>)
    ensures |r| <= |d|
  {
    if d == [] then []
    else
      var last := d[|d| - 1];
      Cleared(d[..|d| - 1]) + (if IsCachedImage(last) then [] else [last])
  }

  /** The directory after the stale cached images are removed. */
  function CleanedUp(d: seq<FileEntry>, now: int): (r: seq<FileEntry>)
    ensures |r| <= |d|
  {
    if d == [] then []
    else
      var last := d[|d| - 1];
      CleanedUp(d[..|d| - 1], now) + (if IsStale(last, now) then [] else [last])
  }

  function CachedCount(d: seq<FileEntry>): nat {
    if d == [] then 0
    else CachedCount(d[..|d| - 1]) + (if IsCachedImage(d[|d| - 1]) then 1 else 0)
  }

  function CachedBytes(d: seq<FileEntry>): nat {
    if d == [] then 0
    else CachedBytes(d[..|d| - 1]) + (if IsCachedImage(d[|d| - 1]) then d[|d| - 1].size else 0)
  }

  /** Clearing keeps exactly the entries that are not cached images, in order, and removes the rest. */
  lemma {:induction false} ClearedKeepsTheRest(d: seq<FileEntry>)
    ensures |Cleared(d)| + CachedCount(d) == |d|
    ensures forall e :: e in Cleared(d) <==> e in d && !IsCachedImage(e)
  {
    if d != [] {
      ClearedKeepsTheRest(d[..|d| - 1]);
      assert d == d[..|d| - 1] + [d[|d| - 1]];
    }
  }

  /** After clearing, the statistics count nothing. */
  lemma {:induction false} ClearedHasNoCachedImages(d: seq<FileEntry>)
    ensures CachedCount(Cleared(d)) == 0 && CachedBytes(Cleared(d)) == 0
  {
    if d != [] {
      var rest := Cleared(d[..|d| - 1]);
      var last := d[|d| - 1];
      ClearedHasNoCachedImages(d[..|d| - 1]);
      if !IsCachedImage(last) {
        var r := rest + [last];
        assert r[..|r| - 1] == rest && r[|r| - 1] == last;
        assert CachedCount(r) == CachedCount(rest);
        assert CachedBytes(r) == CachedBytes(rest);
      } else {
        assert Cleared(d) == rest;
      }
    }
  }

  /** Clearing a cleared directory removes nothing more. */
  lemma {:induction false} ClearTwice(d: seq<FileEntry>)
    ensures Cleared(Cleared(d)) == Cleared(d)
  {
    if d != [] {
      var init, last := d[..|d| - 1], d[|d| - 1];
      ClearTwice(init);
      var c := Cleared(init);
      if !IsCachedImage(last) {
        var r := c + [last];
        assert r[..|r| - 1] == c && r[|r| - 1] == last;
        assert Cleared(r) == Cleared(c) + [last];
      } else {
        assert Cleared(d) == c;
      }
    }
  }

  /**
   * The age-based cleanup removes exactly the cached images older than
   * thirty days: newer files and files that are no cached image are kept.
   */
  lemma {:induction false} CleanedUpKeepsFresh(d: seq<FileEntry>, now: int)
    ensures forall e :: e in CleanedUp(d, now) <==> e in d && !IsStale(e, now)
  {
    if d != [] {
      CleanedUpKeepsFresh(d[..|d| - 1], now);
      assert d == d[..|d| - 1] + [d[|d| - 1]];
    }
  }

  /** Whatever the cleanup removes, a clear would have removed too: clearing after it is the same as clearing. */
  lemma {:induction false} ClearAfterCleanup(d: seq<FileEntry>, now: int)
    ensures Cleared(CleanedUp(d, now)) == Cleared(d)
  {
    if d != [] {
      var init := d[..|d| - 1];
      var last := d[|d| - 1];
      ClearAfterCleanup(init, now);
      var c := CleanedUp(init, now);
      if !IsStale(last, now) {
        var r := c + [last];
        assert CleanedUp(d, now) == r;
        assert r[..|r| - 1] == c && r[|r| - 1] == last;
        assert Cleared(r) == Cleared(c) + (if IsCachedImage(last) then [] else [last]);
      } else {
        assert CleanedUp(d, now) == c;
        assert IsCachedImage(last);
      }
    }
  }

  /** The cache directory: whether it exists and its entries in `glob` order. */
  class CacheDir {
    var present: bool
    var entries: seq<FileEntry>

    constructor (present: bool, entries: seq<FileEntry>)
      ensures this.present == present && this.entries == entries
    {
      this.present := present;
      this.entries := entries;
    }

    /** `clear_watermark_cache`: removes every cached image and returns how many it removed. */
    method ClearCache() returns (deleted: nat)
      modifies this`entries
      ensures !present ==> deleted == 0 && entries == old(entries)
      ensures present ==> entries == Cleared(old(entries)) && deleted == CachedCount(old(entries))
    {
      if !present {
        return 0;
      }
      var files := entries;
      var kept: seq<FileEntry> := [];
      deleted := 0;
      var i := 0;
      while i < |files|
        invariant 0 <= i <= |files|
        invariant kept == Cleared(files[..i])
        invariant deleted == CachedCount(files[..i])
      {
        assert files[..i + 1][..i] == files[..i];
        if IsCachedImage(files[i]) {
          deleted := deleted + 1;
        } else {
          kept := kept + [files[i]];
        }
        i := i + 1;
      }
      assert files[..i] == files;
      entries := kept;
    }

    /** `cleanup_old_watermarks`: removes the cached images older than thirty days at time `now`. */
    method CleanupOld(now: int)
      modifies this`entries
      ensures !present ==> entries == old(entries)
      ensures present ==> entries == CleanedUp(old(entries), now)
    {
      if !present {
        return;
      }
      var files := entries;
      var kept: seq<FileEntry> := [];
      var i := 0;
      while i < |files|
        invariant 0 <= i <= |files|
        invariant kept == CleanedUp(files[..i], now)
      {
        assert files[..i + 1][..i] == files[..i];
        if !IsStale(files[i], now) {
          kept := kept + [files[i]];
        }
        i := i + 1;
      }
      assert files[..i] == files;
      entries := kept;
    }

    /** `get_watermark_stats`: the number and total size of the cached images. */
    method Stats() returns (count: nat, bytes: nat)
      ensures !present ==> count == 0 && bytes == 0
      ensures present ==> count == CachedCount(entries) && bytes == CachedBytes(entries)
    {
      count, bytes := 0, 0;
      if present {
        var i := 0;
        while i < |entries|
          invariant 0 <= i <= |entries|
          invariant count == CachedCount(entries[..i]) && bytes == CachedBytes(entries[..i])
        {
          assert entries[..i + 1][..i] == entries[..i];
          if IsCachedImage(entries[i]) {
            count := count + 1;
            bytes := bytes + entries[i].size;
          }
          i := i + 1;
        }
        assert entries[..i] == entries;
      }
    }
  }
}
