/**
 * The generic site mirror (scraper.py): URL paths become flat file names
 * under the output directory, downloads are memoised by URL, and `srcset`
 * and CSS `url()` references are rewritten to local copies, leaving inline
 * `data:` URLs alone.
 *
 * `urljoin`, `os.path.relpath` and the HTTP fetch are parameters: `resolve`
 * maps a reference to an absolute URL, `rel` maps an absolute URL to the
 * relative path of its local copy, and `fetchOk` says whether fetching and
 * saving a URL succeeds.
 */
module SiteMirror {
  import opened PyText

  /** The characters `clean_filename` replaces: `< > : " / \ | ? *`. */
  predicate Unsafe(c: char) {
    c == '<' || c == '>' || c == ':' || c == '"' || c == '/' || c == '\\' || c == '|' || c == '?' || c == '*'
  }

  /** `clean_filename`: every unsafe character becomes '_'. */
  function CleanFilename(s: string): (r: string)
  {
    ReplaceWhere(s, Unsafe, '_')
  }

  /** Cleaning keeps the length, replaces exactly the unsafe characters, leaves none, and is idempotent. */
  lemma CleanFilenameSpec(s: string)
    ensures |CleanFilename(s)| == |s|
    ensures forall i :: 0 <= i < |s| ==> CleanFilename(s)[i] == if Unsafe(s[i]) then '_' else s[i]
    ensures forall i :: 0 <= i < |s| ==> !Unsafe(CleanFilename(s)[i])
    ensures CleanFilename(CleanFilename(s)) == CleanFilename(s)
  {
    ReplaceWhereClean(s, Unsafe, '_');
  }

  /** A suffix made only of safe characters survives cleaning. */
  lemma CleanKeepsSafeSuffix(s: string, t: string)
    requires EndsWith(s, t)
    requires SafeName(t)
    ensures EndsWith(CleanFilename(s), t)
  {
    var r := CleanFilename(s);
    forall j | 0 <= j < |t|
      ensures r[|r| - |t|..][j] == t[j]
    {
      assert s[|s| - |t| + j] == t[j];
    }
  }

  /** The path `get_local_path` cleans, before the leading '/' is stripped. */
  function IndexPath(path: string): (r: string)
  {
    if path == "" || path == "/" then "/index.html"
    else if Suffix(path) == "" then RStripChar(path, '/') + "/index.html"
    else path
  }

  /** `get_local_path`, given the URL's path: the name of the local copy inside the output directory. */
  function LocalName(path: string): (r: string)
    ensures forall j :: 0 <= j < |r| ==> r[j] != '/' && !Unsafe(r[j])
  {
    CleanFilenameSpec(LStripChar(IndexPath(path), '/'));
    CleanFilename(LStripChar(IndexPath(path), '/'))
  }

  /** A name without unsafe characters. */
  predicate SafeName(s: string) {
    forall j :: 0 <= j < |s| ==> !Unsafe(s[j])
  }

  lemma IndexHtmlSafe()
    ensures SafeName("index.html")
  {
  }

  /** A name without unsafe characters is its own clean form. */
  lemma CleanSafe(s: string)
    requires SafeName(s)
    ensures CleanFilename(s) == s
  {
    CleanFilenameSpec(s);
  }

  lemma RootIndexName()
    ensures CleanFilename(LStripChar("/index.html", '/')) == "index.html"
  {
    assert "/index.html"[1..] == "index.html";
    assert LStripChar("/index.html", '/') == "index.html";
    IndexHtmlSafe();
    CleanSafe("index.html");
  }

  /** The site root is saved as index.html. */
  lemma LocalNameRoot(path: string)
    requires path == "" || path == "/"
    ensures LocalName(path) == "index.html"
  {
    assert IndexPath(path) == "/index.html";
    RootIndexName();
  }

  lemma IndexEnds(d: string)
    ensures EndsWith(d + "/index.html", "index.html")
  {
    var s := d + "/index.html";
    assert s[|s| - 10..] == "index.html";
  }

  lemma IndexPathNoSuffix(path: string)
    requires path != "" && path != "/" && Suffix(path) == ""
    ensures IndexPath(path) == RStripChar(path, '/') + "/index.html"
  {
  }

  lemma IndexPathEnds(path: string)
    requires Suffix(path) == ""
    ensures EndsWith(IndexPath(path), "index.html")
  {
    if path == "" || path == "/" {
      IndexEnds("");
    } else {
      IndexPathNoSuffix(path);
      IndexEnds(RStripChar(path, '/'));
    }
  }

  /** A path without a suffix is saved as its directory's index.html, flattened with '_'. */
  lemma LocalNameDirectory(path: string)
    requires Suffix(path) == ""
    ensures EndsWith(LocalName(path), "index.html")
  {
    var p := IndexPath(path);
    IndexPathEnds(path);
    LStripCharKeepsSuffix(p, '/', "index.html");
    IndexHtmlSafe();
    CleanKeepsSafeSuffix(LStripChar(p, '/'), "index.html");
  }

  lemma SplitB()
    ensures Split("b", '/') == ["b"]
  {
    assert Split("", '/') == [""];
    assert "b"[1..] == "";
    assert ['b'] + "" == "b";
    assert Split("b", '/') == [['b'] + ""] + [""][1..];
  }

  lemma SuffixOfAB()
    ensures Suffix("/a/b") == ""
  {
    SplitB();
    assert "/b"[1..] == "b";
    assert Split("/b", '/') == ["", "b"];
    assert "a/b"[1..] == "/b";
    assert ['a'] + "" == "a";
    assert Split("a/b", '/') == [['a'] + ""] + ["", "b"][1..];
    assert Split("a/b", '/') == ["a", "b"];
    assert "/a/b"[1..] == "a/b";
    assert Split("/a/b", '/') == ["", "a", "b"];
    assert PathName("/a/b") == "b";
  }

  lemma IndexPathAB()
    ensures IndexPath("/a/b") == "/a/b/index.html"
  {
    SuffixOfAB();
    IndexPathNoSuffix("/a/b");
    assert RStripChar("/a/b", '/') == "/a/b";
    LiteralConcat();
  }

  lemma LiteralConcat()
    ensures "/a/b" + "/index.html" == "/a/b/index.html"
  {
    var s := "/a/b" + "/index.html";
    forall i | 0 <= i < |s|
      ensures s[i] == "/a/b/index.html"[i]
    {
      if i < 4 { assert s[i] == "/a/b"[i]; } else { assert s[i] == "/index.html"[i - 4]; }
    }
  }

  lemma CleanAB()
    ensures CleanFilename("a/b/index.html") == "a_b_index.html"
  {
    CleanFilenameSpec("a/b/index.html");
    var r := CleanFilename("a/b/index.html");
    assert forall i :: 0 <= i < |r| ==> r[i] == "a_b_index.html"[i];
  }

  /** Example: the nested path /a/b becomes the single file a_b_index.html. */
  lemma LocalNameFlattens()
    ensures LocalName("/a/b") == "a_b_index.html"
  {
    IndexPathAB();
    LStripAB();
    LocalNameVia("/a/b", "/a/b/index.html", "a/b/index.html");
    CleanAB();
  }

  lemma LocalNameVia(path: string, full: string, stripped: string)
    requires IndexPath(path) == full && LStripChar(full, '/') == stripped
    ensures LocalName(path) == CleanFilename(stripped)
  {
  }

  lemma LStripAB()
    ensures LStripChar("/a/b/index.html", '/') == "a/b/index.html"
  {
    assert "/a/b/index.html"[1..] == "a/b/index.html";
    assert "a/b/index.html"[0] != '/';
  }

  /**
   * `download_file` on the set of downloaded URLs: a URL already downloaded
   * counts as success without a fetch; otherwise the fetch outcome decides,
   * and only a success records the URL.
   */
  function Fetch(downloaded: set<string>, url: string, fetchOk: bool): (r: (bool, set<string>))
    ensures r.0 <==> url in downloaded || fetchOk
    ensures r.1 == if r.0 then downloaded + {url} else downloaded
  {
    if url in downloaded then (true, downloaded)
    else if fetchOk then (true, downloaded + {url})
    else (false, downloaded)
  }

  /** Once a URL has been fetched successfully, fetching it again succeeds and changes nothing, whatever the network does. */
  lemma FetchMemo(downloaded: set<string>, url: string, first: bool, second: bool)
    requires Fetch(downloaded, url, first).0
    ensures Fetch(Fetch(downloaded, url, first).1, url, second) == (true, Fetch(downloaded, url, first).1)
  {
  }

  /** A srcset part split at its last space into URL and size; the whole part and no size when it has no space. */
  function SrcSize(part: string): (r: (string, string))
    ensures r.1 == "" || RFind(part, ' ') >= 0
    ensures if RFind(part, ' ') >= 0 then r.0 + " " + r.1 == part else r == (part, "")
    ensures forall j :: 0 <= j < |r.1| ==> r.1[j] != ' '
  {
    var i := RFind(part, ' ');
    if i >= 0 then
      assert part[..i] + " " + part[i + 1..] == part;
      (part[..i], part[i + 1..])
    else (part, "")
  }

  /** One srcset entry: the new text of the stripped entry and the new set of downloaded URLs. */
  function RewritePart(raw: string, downloaded: set<string>, resolve: string -> string,
                       rel: string -> string, fetchOk: string -> bool): (r: (string, set<string>))
  {
    var part := Strip(raw);
    var (src, size) := SrcSize(part);
    if StartsWith(src, "data:") then (part, downloaded)
    else
      var url := resolve(src);
      var (ok, now) := Fetch(downloaded, url, fetchOk(url));
      if ok then (Strip(rel(url) + " " + size), now) else (part, now)
  }

  /** What a part may become: itself stripped, or the stripped local path with its size descriptor. */
  predicate PartOutcome(raw: string, out: string, rel: string -> string, resolve: string -> string) {
    var part := Strip(raw);
    var (src, size) := SrcSize(part);
    out == part || (!StartsWith(src, "data:") && out == Strip(rel(resolve(src)) + " " + size))
  }

  /** A data: entry and an entry whose download fails are both kept as their stripped original. */
  lemma RewritePartKeeps(raw: string, downloaded: set<string>, resolve: string -> string,
                         rel: string -> string, fetchOk: string -> bool)
    ensures var src := SrcSize(Strip(raw)).0;
      (StartsWith(src, "data:") || (resolve(src) !in downloaded && !fetchOk(resolve(src))))
      ==> RewritePart(raw, downloaded, resolve, rel, fetchOk) == (Strip(raw), downloaded)
    ensures PartOutcome(raw, RewritePart(raw, downloaded, resolve, rel, fetchOk).0, rel, resolve)
  {
  }

  /** The srcset loop, over the first parts: the new parts and the downloaded set afterwards. */
  function RewriteParts(parts: seq<string>, downloaded: set<string>, resolve: string -> string,
                        rel: string -> string, fetchOk: string -> bool): (r: (seq<string>, set<string>))
    ensures |r.0| == |parts|
    ensures downloaded <= r.1
    decreases |parts|
  {
    if |parts| == 0 then ([], downloaded)
    else
      var prev := RewriteParts(parts[..|parts| - 1], downloaded, resolve, rel, fetchOk);
      var step := RewritePart(parts[|parts| - 1], prev.1, resolve, rel, fetchOk);
      (prev.0 + [step.0], step.1)
  }

  /** Each new part is its original stripped, or the stripped local path of its non-data source with its size. */
  lemma {:induction false} RewritePartsOutcome(parts: seq<string>, downloaded: set<string>, resolve: string -> string,
                                               rel: string -> string, fetchOk: string -> bool, i: nat)
    requires i < |parts|
    ensures PartOutcome(parts[i], RewriteParts(parts, downloaded, resolve, rel, fetchOk).0[i], rel, resolve)
    decreases |parts|
  {
    var init := parts[..|parts| - 1];
    var prev := RewriteParts(init, downloaded, resolve, rel, fetchOk);
    if i < |init| {
      RewritePartsOutcome(init, downloaded, resolve, rel, fetchOk, i);
      assert init[i] == parts[i];
    } else {
      RewritePartKeeps(parts[i], prev.1, resolve, rel, fetchOk);
    }
  }

  /** Every URL the srcset loop adds to the downloaded set is the resolved source of one of its non-data parts. */
  lemma {:induction false} RewritePartsOnlyFetches(parts: seq<string>, downloaded: set<string>, resolve: string -> string,
                                                   rel: string -> string, fetchOk: string -> bool, url: string)
    requires url in RewriteParts(parts, downloaded, resolve, rel, fetchOk).1 && url !in downloaded
    ensures exists i :: 0 <= i < |parts| && !StartsWith(SrcSize(Strip(parts[i])).0, "data:")
                        && url == resolve(SrcSize(Strip(parts[i])).0)
    decreases |parts|
  {
    var init := parts[..|parts| - 1];
    var last := parts[|parts| - 1];
    var prev := RewriteParts(init, downloaded, resolve, rel, fetchOk);
    if url in prev.1 {
      RewritePartsOnlyFetches(init, downloaded, resolve, rel, fetchOk, url);
      var i :| 0 <= i < |init| && !StartsWith(SrcSize(Strip(init[i])).0, "data:")
               && url == resolve(SrcSize(Strip(init[i])).0);
      assert init[i] == parts[i];
    } else {
      RewritePartAdds(last, prev.1, resolve, rel, fetchOk, url);
    }
  }

  /** A URL one srcset entry adds is the resolved source of that entry, which is not a data: URL. */
  lemma RewritePartAdds(raw: string, downloaded: set<string>, resolve: string -> string,
                        rel: string -> string, fetchOk: string -> bool, url: string)
    requires url in RewritePart(raw, downloaded, resolve, rel, fetchOk).1 && url !in downloaded
    ensures !StartsWith(SrcSize(Strip(raw)).0, "data:") && url == resolve(SrcSize(Strip(raw)).0)
  {
  }

  lemma RewritePartsStep(parts: seq<string>, i: nat, downloaded: set<string>, resolve: string -> string,
                         rel: string -> string, fetchOk: string -> bool)
    requires i < |parts|
    ensures var prev := RewriteParts(parts[..i], downloaded, resolve, rel, fetchOk);
      var step := RewritePart(parts[i], prev.1, resolve, rel, fetchOk);
      RewriteParts(parts[..i + 1], downloaded, resolve, rel, fetchOk) == (prev.0 + [step.0], step.1)
  {
    assert parts[..i + 1][..i] == parts[..i];
  }

  /** The memoised downloader of the mirror. */
  class Mirror {
    var downloaded: set<string>

    constructor()
      ensures downloaded == {}
    {
      downloaded := {};
    }

    /** `download_file`: memoised on the URL; `fetchOk` is the outcome of fetching and saving it. */
    method DownloadFile(url: string, fetchOk: bool) returns (ok: bool)
      modifies this
      ensures (ok, downloaded) == Fetch(old(downloaded), url, fetchOk)
    {
      if url in downloaded {
        return true;
      }
      if !fetchOk {
        return false;
      }
      downloaded := downloaded + {url};
      ok := true;
    }

    /** The `srcset` rewrite: each comma-separated entry is rewritten in turn and the entries are joined with ", ". */
    method RewriteSrcset(srcset: string, resolve: string -> string, rel: string -> string, fetchOk: string -> bool)
      returns (attr: string)
      modifies this
      ensures srcset == "" ==> attr == "" && downloaded == old(downloaded)
      ensures srcset != "" ==>
        var r := RewriteParts(Split(srcset, ','), old(downloaded), resolve, rel, fetchOk);
        attr == Join(r.0, ", ") && downloaded == r.1
    {
      if srcset == "" {
        return srcset;
      }
      var parts := Split(srcset, ',');
      var out: seq<string> := [];
      var i := 0;
      while i < |parts|
        invariant 0 <= i <= |parts|
        invariant (out, downloaded) == RewriteParts(parts[..i], old(downloaded), resolve, rel, fetchOk)
      {
        RewritePartsStep(parts, i, old(downloaded), resolve, rel, fetchOk);
        var entry := RewriteEntry(parts[i], resolve, rel, fetchOk);
        out := out + [entry];
        i := i + 1;
      }
      assert parts[..|parts|] == parts;
      attr := Join(out, ", ");
    }

    /** One `srcset` entry, stripped; its source is downloaded unless it is a data: URL. */
    method RewriteEntry(raw: string, resolve: string -> string, rel: string -> string, fetchOk: string -> bool)
      returns (entry: string)
      modifies this
      ensures (entry, downloaded) == RewritePart(raw, old(downloaded), resolve, rel, fetchOk)
    {
      var part := Strip(raw);
      var (src, size) := SrcSize(part);
      if StartsWith(src, "data:") {
        return part;
      }
      var url := resolve(src);
      var ok := DownloadFile(url, fetchOk(url));
      entry := if ok then Strip(rel(url) + " " + size) else part;
    }

    /** `replace_url` in `process_css`: the replacement for one `url(...)` match whose captured URL is `asset`. */
    method ReplaceCssUrl(matched: string, asset: string, resolve: string -> string, rel: string -> string, fetchOk: bool)
      returns (text: string)
      modifies this
      ensures StartsWith(asset, "data:") ==> text == matched && downloaded == old(downloaded)
      ensures !StartsWith(asset, "data:") ==>
        var (ok, now) := Fetch(old(downloaded), resolve(asset), fetchOk);
        downloaded == now && text == if ok then "url(\"" + rel(resolve(asset)) + "\")" else matched
    {
      if StartsWith(asset, "data:") {
        return matched;
      }
      var url := resolve(asset);
      var ok := DownloadFile(url, fetchOk);
      text := if ok then "url(\"" + rel(url) + "\")" else matched;
    }

    /**
     * The `src`/`href` rewrite of `scrape_page`: an empty value (and, for
     * the image and other-asset loops, a data: URL; for the other asset
     * tags, a '#' anchor too) is left alone and fetches nothing; otherwise
     * a successful download replaces the value. The stylesheet and script
     * loops do not test for data: URLs; fetching one fails and keeps the
     * value, so the model skips them there too.
     */
    method RewriteReference(value: string, skipAnchors: bool, resolve: string -> string, rel: string -> string, fetchOk: bool)
      returns (newValue: string)
      modifies this
      ensures Skipped(value, skipAnchors) ==> newValue == value && downloaded == old(downloaded)
      ensures !Skipped(value, skipAnchors) ==>
        var (ok, now) := Fetch(old(downloaded), resolve(value), fetchOk);
        downloaded == now && newValue == if ok then rel(resolve(value)) else value
    {
      if Skipped(value, skipAnchors) {
        return value;
      }
      var url := resolve(value);
      var ok := DownloadFile(url, fetchOk);
      newValue := if ok then rel(url) else value;
    }
  }

  /** The references `scrape_page` never downloads. */
  predicate Skipped(value: string, skipAnchors: bool) {
    value == "" || StartsWith(value, "data:") || (skipAnchors && StartsWith(value, "#"))
  }
}
