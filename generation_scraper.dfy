/**
 * The per-generation Phygitals mirror (phygitals_generation_scraper.py):
 * file names reduced to `[\w\-_.]`, files typed by URL extension and then
 * by Content-Type, local paths organised by generation and file type, and a
 * memoised downloader with per-type counters.
 *
 * The URL's path component (`urlparse(url).path`), `urljoin` and the HTTP
 * response are parameters; a response is `Some(contentType)` when the
 * fetch and the write succeed, `None` when either raises.
 */
module GenerationScraper {
  import opened PyText
  import opened Collections
  import SiteMirror

  // ---------------------------------------------------------------------
  // clean_filename

  /** The characters `[\w\-_\.]` that the second substitution keeps. */
  predicate NameChar(c: char) { IsWordChar(c) || c == '-' || c == '.' }

  predicate NotNameChar(c: char) { !NameChar(c) }

  /** `clean_filename`: the unsafe characters become '_', then every character outside `[\w\-_.]` does. */
  function CleanFilename(s: string): (r: string)
  {
    ReplaceWhere(ReplaceWhere(s, SiteMirror.Unsafe, '_'), NotNameChar, '_')
  }

  /**
   * The two substitutions together replace exactly the characters outside
   * `[\w\-_.]`; the result keeps the length, holds only those characters,
   * and cleaning it again changes nothing.
   */
  lemma CleanFilenameSpec(s: string)
    ensures |CleanFilename(s)| == |s|
    ensures forall i :: 0 <= i < |s| ==> CleanFilename(s)[i] == if NameChar(s[i]) then s[i] else '_'
    ensures forall i :: 0 <= i < |s| ==> NameChar(CleanFilename(s)[i])
    ensures CleanFilename(CleanFilename(s)) == CleanFilename(s)
  {
    var r := CleanFilename(s);
    forall i | 0 <= i < |s|
      ensures r[i] == if NameChar(s[i]) then s[i] else '_'
    {
      if SiteMirror.Unsafe(s[i]) {
        assert !NameChar(s[i]);
      }
    }
    forall i | 0 <= i < |r|
      ensures CleanFilename(r)[i] == r[i]
    {
      assert NameChar(r[i]);
      assert !SiteMirror.Unsafe(r[i]);
    }
  }

  // ---------------------------------------------------------------------
  // get_file_type

  datatype FileType = Images | Videos | Audio | Other

  const ImageExts: seq<string> := [".png", ".jpg", ".jpeg", ".gif", ".webp", ".svg", ".bmp"]
  const VideoExts: seq<string> := [".mp4", ".webm", ".avi", ".mov", ".mkv"]
  const AudioExts: seq<string> := [".mp3", ".wav", ".ogg", ".m4a"]

  /** Some extension of the three lists occurs in the lowercased URL. */
  predicate KnownExtension(url: string) {
    var u := Lower(url);
    ContainsAny(u, ImageExts) || ContainsAny(u, VideoExts) || ContainsAny(u, AudioExts)
  }

  /** `get_file_type`: URL extensions (image, then video, then audio), then the Content-Type ("" when absent), else other. */
  function GetFileType(url: string, contentType: string): (t: FileType)
  {
    var u := Lower(url);
    if ContainsAny(u, ImageExts) then Images
    else if ContainsAny(u, VideoExts) then Videos
    else if ContainsAny(u, AudioExts) then Audio
    else if StartsWith(contentType, "image/") then Images
    else if StartsWith(contentType, "video/") then Videos
    else if StartsWith(contentType, "audio/") then Audio
    else Other
  }

  /** A known extension in the URL decides the type, whatever the Content-Type says. */
  lemma UrlWinsOverHeader(url: string, header1: string, header2: string)
    requires KnownExtension(url)
    ensures GetFileType(url, header1) == GetFileType(url, header2) == GetFileType(url, "")
  {
  }

  /** Without a known extension the Content-Type decides, and anything else is other. */
  lemma HeaderDecides(url: string, contentType: string)
    requires !KnownExtension(url)
    ensures GetFileType(url, contentType) == Other <==>
      !StartsWith(contentType, "image/") && !StartsWith(contentType, "video/") && !StartsWith(contentType, "audio/")
    ensures GetFileType(url, contentType) == Images <==> StartsWith(contentType, "image/")
  {
  }

  /** The type depends on the URL only through its lowercase form. */
  lemma FileTypeIgnoresCase(url: string, contentType: string)
    ensures GetFileType(Lower(url), contentType) == GetFileType(url, contentType)
  {
    LowerIdempotent(url);
  }

  // ---------------------------------------------------------------------
  // get_local_path

  const PageImageExts: seq<string> := [".png", ".jpg", ".jpeg", ".gif", ".webp"]

  /** The URL path after the index/extension rule of `get_local_path`. */
  function PagePath(path: string, url: string): (p: string)
  {
    if path == "" || path == "/" then "/index.html"
    else if Suffix(path) == "" && !EndsWith(path, "/") then
      if ContainsAny(Lower(url), PageImageExts) then path else path + ".html"
    else path
  }

  /** The cleaned relative path: the leading '/' stripped, each segment cleaned on its own. */
  function CleanPath(p: string): (r: string)
  {
    Join(MapSeq(Split(LStripChar(p, '/'), '/'), CleanFilename), "/")
  }

  /** Cleaning keeps the directory structure: the cleaned path has the same segments, each cleaned. */
  lemma CleanPathSegments(p: string)
    ensures Split(CleanPath(p), '/') == MapSeq(Split(LStripChar(p, '/'), '/'), CleanFilename)
  {
    var parts := MapSeq(Split(LStripChar(p, '/'), '/'), CleanFilename);
    forall k, j | 0 <= k < |parts| && 0 <= j < |parts[k]|
      ensures parts[k][j] != '/'
    {
      CleanFilenameSpec(Split(LStripChar(p, '/'), '/')[k]);
      assert NameChar(parts[k][j]);
    }
    SplitJoin(parts, '/');
  }

  /** An extensionless page path not ending in '/' gets ".html", unless the URL names an image. */
  lemma PagePathHtml(path: string, url: string)
    requires path != "" && path != "/" && Suffix(path) == "" && !EndsWith(path, "/")
    ensures !ContainsAny(Lower(url), PageImageExts) ==> PagePath(path, url) == path + ".html"
    ensures ContainsAny(Lower(url), PageImageExts) ==> PagePath(path, url) == path
  {
  }

  /** A local path: the directory under the output directory ("" for the output directory itself) and the cleaned relative path. */
  datatype Location = Location(dir: string, file: string)

  /** The sub-directory of `generation_{g}` for a file of this URL. */
  function GenerationSubdir(url: string, clean: string): (d: string)
  {
    var u := Lower(url);
    match GetFileType(url, "")
    case Images =>
      if Contains(u, "sprite") then "images/sprites"
      else if ContainsAny(u, ["artwork", "art", "official"]) then "images/artwork"
      else "images/pokemon"
    case Videos => "animations/videos"
    case Audio => "audio"
    case Other => if EndsWith(clean, ".html") then "pages" else "data"
  }

  /** The directory for a file outside any generation. */
  function AssetDir(url: string): (d: string)
  {
    var u := Lower(url);
    if ContainsAny(u, ["css", "style"]) then "assets/css"
    else if ContainsAny(u, ["js", "javascript"]) then "assets/js"
    else if ContainsAny(u, ["font", "woff", "ttf"]) then "assets/fonts"
    else ""
  }

  /** `get_local_path(url, generation)`; a generation of 0 is falsy, like None. */
  function LocalPath(url: string, path: string, generation: nat): (r: Location)
  {
    var clean := CleanPath(PagePath(path, url));
    if generation != 0 then Location("generation_" + NatToString(generation) + "/" + GenerationSubdir(url, clean), clean)
    else Location(AssetDir(url), clean)
  }

  /** Within a generation, the sub-directory follows the file type: images, videos, audio, and pages or data for the rest. */
  lemma SubdirFollowsType(url: string, clean: string)
    ensures var d := GenerationSubdir(url, clean);
      (GetFileType(url, "") == Images <==> d in {"images/sprites", "images/artwork", "images/pokemon"}) &&
      (GetFileType(url, "") == Videos <==> d == "animations/videos") &&
      (GetFileType(url, "") == Audio <==> d == "audio") &&
      (GetFileType(url, "") == Other <==> d in {"pages", "data"})
    ensures GetFileType(url, "") == Images && Contains(Lower(url), "sprite") ==> GenerationSubdir(url, clean) == "images/sprites"
    ensures GetFileType(url, "") == Other ==> (GenerationSubdir(url, clean) == "pages" <==> EndsWith(clean, ".html"))
  {
  }

  /** Outside a generation, the checks run css/style, then js/javascript, then font/woff/ttf. */
  lemma AssetDirOrder(url: string)
    ensures Contains(Lower(url), "css") ==> AssetDir(url) == "assets/css"
    ensures AssetDir(url) == "" <==>
      !ContainsAny(Lower(url), ["css", "style"]) && !ContainsAny(Lower(url), ["js", "javascript"]) &&
      !ContainsAny(Lower(url), ["font", "woff", "ttf"])
  {
    if Contains(Lower(url), "css") {
      assert ["css", "style"][0] == "css";
    }
  }

  // ---------------------------------------------------------------------
  // process_css_for_media

  predicate NotDataUrl(u: string) { !StartsWith(u, "data:") }

  /** `process_css_for_media` over the `url(...)` captures of the stylesheet, in order. */
  method MediaFromCss(matches: seq<string>, resolve: string -> string) returns (media: seq<string>)
    ensures media == MapSeq(Filter(matches, NotDataUrl), resolve)
  {
    media := [];
    var i := 0;
    while i < |matches|
      invariant 0 <= i <= |matches|
      invariant media == MapSeq(Filter(matches[..i], NotDataUrl), resolve)
    {
      assert matches[..i + 1][..i] == matches[..i];
      if NotDataUrl(matches[i]) {
        assert Filter(matches[..i + 1], NotDataUrl) == Filter(matches[..i], NotDataUrl) + [matches[i]];
        media := media + [resolve(matches[i])];
      }
      i := i + 1;
    }
    assert matches[..i] == matches;
  }

  /** Every media URL taken from a stylesheet resolves a capture that is not a data: URL. */
  lemma CssMediaNeverData(matches: seq<string>, resolve: string -> string, i: nat)
    requires i < |MapSeq(Filter(matches, NotDataUrl), resolve)|
    ensures exists m :: m in matches && !StartsWith(m, "data:") && MapSeq(Filter(matches, NotDataUrl), resolve)[i] == resolve(m)
  {
    var f := Filter(matches, NotDataUrl);
    FilterMember(matches, NotDataUrl, f[i]);
  }

  // ---------------------------------------------------------------------
  // download_file and the summary

  /** `download_stats`: one counter per file type plus the failures. */
  datatype DownloadStats = DownloadStats(images: nat, videos: nat, audio: nat, other: nat, failed: nat)

  /** One more download counted under type `t`, always one of the existing keys. */
  function Bump(s: DownloadStats, t: FileType): (r: DownloadStats)
    ensures r.failed == s.failed
    ensures r.images + r.videos + r.audio + r.other == s.images + s.videos + s.audio + s.other + 1
  {
    match t
    case Images => s.(images := s.images + 1)
    case Videos => s.(videos := s.videos + 1)
    case Audio => s.(audio := s.audio + 1)
    case Other => s.(other := s.other + 1)
  }

  /** The summary's total: all counted downloads except the failed ones. */
  function TotalFiles(s: DownloadStats): (n: int)
    ensures n == s.images + s.videos + s.audio + s.other
  {
    (s.images + s.videos + s.audio + s.other + s.failed) - s.failed
  }

  class Downloader {
    var downloaded: set<string>
    var stats: DownloadStats
    var failedDownloads: seq<string>

    /** Each downloaded URL was counted under exactly one type, and each failure once. */
    ghost predicate Valid()
      reads this
    {
      stats.images + stats.videos + stats.audio + stats.other == |downloaded| && stats.failed == |failedDownloads|
    }

    constructor()
      ensures Valid()
      ensures downloaded == {} && failedDownloads == []
      ensures stats == DownloadStats(0, 0, 0, 0, 0)
    {
      downloaded := {};
      stats := DownloadStats(0, 0, 0, 0, 0);
      failedDownloads := [];

    }

    /** `download_file`: `response` is the Content-Type of a successful fetch, or None when it raises. */
    method DownloadFile(url: string, response: Option<string>) returns (ok: bool)
      requires Valid()
      modifies this
      ensures Valid()
      ensures url in old(downloaded) ==>
        ok && downloaded == old(downloaded) && stats == old(stats) && failedDownloads == old(failedDownloads)
      ensures url !in old(downloaded) && response.Some? ==>
        ok && downloaded == old(downloaded) + {url} && failedDownloads == old(failedDownloads) &&
        stats == Bump(old(stats), GetFileType(url, response.value))
      ensures url !in old(downloaded) && response.None? ==>
        !ok && downloaded == old(downloaded) && failedDownloads == old(failedDownloads) + [url] &&
        stats == old(stats).(failed := old(stats).failed + 1)
    {
      if url in downloaded {
        return true;
      }
      if response.None? {
        failedDownloads := failedDownloads + [url];
        stats := stats.(failed := stats.failed + 1);
        return false;
      }
      var fileType := GetFileType(url, response.value);
      downloaded := downloaded + {url};
      stats := Bump(stats, fileType);
      ok := true;
    }

    /** The summary's "Total files downloaded": the number of distinct URLs saved. */
    method Summary() returns (total: int)
      requires Valid()
      ensures total == |downloaded|
    {
      total := TotalFiles(stats);
    }
  }
}
