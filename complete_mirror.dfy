/**
 * The complete Phygitals mirror (phygitals_complete_mirror_scraper.py):
 * length-limited safe file names, link and image classification by
 * keyword, a file-existence-memoised asset downloader, and the site map
 * built from discovered links.
 *
 * The file system and the network are parameters: `fileExists` says whether
 * the local file is already there, `fetchOk` whether fetching and writing
 * it succeeds. Browser elements are abstracted to their href and text.
 */
module CompleteMirror {
  import opened PyText
  import SiteMirror

  // ---------------------------------------------------------------------
  // safe_filename

  /** `safe_filename` as written: unsafe characters replaced, and a name over 200 characters cut to 190 characters of stem plus the whole extension. */
  function SafeFilenameAsWritten(filename: string): (r: string)
  {
    var f := SiteMirror.CleanFilename(filename);
    if |f| > 200 then
      var (name, ext) := SplitExt(f);
      Take(name, 190) + ext
    else f
  }

  /** Up to 200 characters only characters are replaced; beyond, the stem is cut to 190 and the extension kept. */
  lemma SafeFilenameAsWrittenSpec(filename: string)
    ensures |filename| <= 200 ==> SafeFilenameAsWritten(filename) == SiteMirror.CleanFilename(filename)
    ensures |filename| <= 200 ==> |SafeFilenameAsWritten(filename)| == |filename|
    ensures |filename| > 200 ==>
      var (name, ext) := SplitExt(SiteMirror.CleanFilename(filename));
      SafeFilenameAsWritten(filename) == Take(name, 190) + ext
  {
    SiteMirror.CleanFilenameSpec(filename);
  }

  /** A name made of 'a', '.', and 200 'b's: 202 characters whose extension alone is 201 long. */
  function LongExtensionName(): (s: string)
    ensures |s| == 202 && s[0] == 'a' && s[1] == '.'
    ensures forall j :: 2 <= j < |s| ==> s[j] == 'b'
  {
    "a." + seq(200, _ => 'b')
  }

  /** The 200-character limit is not kept: a long extension survives whole, giving 202 characters. */
  lemma SafeFilenameExceedsLimit()
    ensures |SafeFilenameAsWritten(LongExtensionName())| == 202
  {
    var s := LongExtensionName();
    SiteMirror.CleanFilenameSpec(s);
    var f := SiteMirror.CleanFilename(s);
    assert forall j :: 0 <= j < |s| ==> !SiteMirror.Unsafe(s[j]);
    assert f == s;
    assert RFind(f, '.') == 1;
    assert f[0] != '.';
    assert ExtStart(f) == 1;
  }

  /** The room left for the stem: 190 characters for an extension of at most 10, less for a longer one. */
  function StemRoom(ext: string): (n: nat)
    ensures n + (if |ext| <= 200 then |ext| else 200) <= 200
  {
    if |ext| <= 10 then 190 else if |ext| <= 200 then 200 - |ext| else 0
  }

  /** `safe_filename` with the evident intent kept: at most 200 characters whatever the extension. */
  function SafeFilename(filename: string): (r: string)
    ensures |r| <= 200
  {
    var f := SiteMirror.CleanFilename(filename);
    if |f| > 200 then
      var (name, ext) := SplitExt(f);
      Take(name, StemRoom(ext)) + Take(ext, 200)
    else
      SiteMirror.CleanFilenameSpec(filename);
      f
  }

  /** The bounded name has no unsafe character, never exceeds 200, and agrees with the code whenever the extension has at most 10 characters. */
  lemma SafeFilenameSpec(filename: string)
    ensures |SafeFilename(filename)| <= 200
    ensures forall j :: 0 <= j < |SafeFilename(filename)| ==> !SiteMirror.Unsafe(SafeFilename(filename)[j])
    ensures |SplitExt(SiteMirror.CleanFilename(filename)).1| <= 10 ==>
      SafeFilename(filename) == SafeFilenameAsWritten(filename)
  {
    SiteMirror.CleanFilenameSpec(filename);
    var f := SiteMirror.CleanFilename(filename);
    if |f| > 200 {
      var (name, ext) := SplitExt(f);
      assert name + ext == f;
      var r := Take(name, StemRoom(ext)) + Take(ext, 200);
      forall j | 0 <= j < |r|
        ensures !SiteMirror.Unsafe(r[j])
      {
        if j < |Take(name, StemRoom(ext))| {
          assert r[j] == f[j];
        } else {
          assert r[j] == f[|name| + (j - |Take(name, StemRoom(ext))|)];
        }
      }
    }
  }

  /**
   * The name an asset is saved under: the basename of its URL path, made
   * safe by the corrected `SafeFilename`; it is the code's own name whenever
   * the extension has at most 10 characters.
   */
  function AssetFileName(path: string): (r: string)
    ensures |r| <= 200
    ensures forall j :: 0 <= j < |r| ==> !SiteMirror.Unsafe(r[j])
    ensures |SplitExt(SiteMirror.CleanFilename(BaseName(path))).1| <= 10 ==>
      r == SafeFilenameAsWritten(BaseName(path))
  {
    SafeFilenameSpec(BaseName(path));
    SafeFilename(BaseName(path))
  }

  // ---------------------------------------------------------------------
  // classify_link, classify_image_type

  datatype LinkType = GenerationLink | PokemonLink | CardLink | AnimationLink | GeneralLink

  /** `classify_link`, on the lowercased URL. */
  function ClassifyLink(url: string): (t: LinkType)
  {
    var u := Lower(url);
    if Contains(u, "generation") then GenerationLink
    else if Contains(u, "pokemon") then PokemonLink
    else if Contains(u, "card") then CardLink
    else if Contains(u, "animation") then AnimationLink
    else GeneralLink
  }

  /** generation > pokemon > card > animation > general, and case does not matter. */
  lemma ClassifyLinkPrecedence(url: string)
    ensures var u := Lower(url);
      (ClassifyLink(url) == GenerationLink <==> Contains(u, "generation")) &&
      (ClassifyLink(url) == PokemonLink <==> !Contains(u, "generation") && Contains(u, "pokemon")) &&
      (ClassifyLink(url) == CardLink <==> !Contains(u, "generation") && !Contains(u, "pokemon") && Contains(u, "card")) &&
      (ClassifyLink(url) == AnimationLink <==>
        !Contains(u, "generation") && !Contains(u, "pokemon") && !Contains(u, "card") && Contains(u, "animation"))
    ensures ClassifyLink(Lower(url)) == ClassifyLink(url)
  {
    LowerIdempotent(url);
  }

  datatype ImageType = AnimationImage | SpriteImage | CardImage | BackgroundImage | PlainImage

  /** `classify_image_type`, on the lowercased URL. */
  function ClassifyImageType(url: string): (t: ImageType)
  {
    var u := Lower(url);
    if Contains(u, ".gif") then AnimationImage
    else if Contains(u, "sprite") then SpriteImage
    else if Contains(u, "card") then CardImage
    else if Contains(u, "background") then BackgroundImage
    else PlainImage
  }

  /** .gif > sprite > card > background > image. */
  lemma ClassifyImagePrecedence(url: string)
    ensures var u := Lower(url);
      (ClassifyImageType(url) == AnimationImage <==> Contains(u, ".gif")) &&
      (ClassifyImageType(url) == SpriteImage <==> !Contains(u, ".gif") && Contains(u, "sprite")) &&
      (ClassifyImageType(url) == CardImage <==> !Contains(u, ".gif") && !Contains(u, "sprite") && Contains(u, "card")) &&
      (ClassifyImageType(url) == BackgroundImage <==>
        !Contains(u, ".gif") && !Contains(u, "sprite") && !Contains(u, "card") && Contains(u, "background"))
  {
  }

  // ---------------------------------------------------------------------
  // download_asset and discover_site_structure

  /** A `failed_downloads` entry; the error text is the exception's message. */
  datatype Failure = Failure(url: string, error: string, assetType: string)

  /** A `site_map` value. */
  datatype SiteEntry = SiteEntry(text: string, linkType: LinkType)

  /** A discovered link: its href ("" when absent) and its text. */
  datatype Link = Link(href: string, text: string)

  /** A link the site map records: it has an href, and the href is on the site. */
  predicate OnSite(l: Link, baseUrl: string) {
    l.href != "" && StartsWith(l.href, baseUrl)
  }

  /** The hrefs of the links the site map records. */
  function OnSiteHrefs(links: seq<Link>, baseUrl: string): set<string> {
    set l | l in links && OnSite(l, baseUrl) :: l.href
  }

  /** No later link carries the href of link `i`. */
  predicate LastWithHref(links: seq<Link>, i: nat)
    requires i < |links|
  {
    forall j :: i < j < |links| ==> links[j].href != links[i].href
  }

  /** The site map after the links, in order: each recorded link maps its href to its stripped text and link type. */
  function Discovered(m: map<string, SiteEntry>, links: seq<Link>, baseUrl: string): (r: map<string, SiteEntry>)
    decreases |links|
  {
    if |links| == 0 then m
    else
      var l := links[|links| - 1];
      var r0 := Discovered(m, links[..|links| - 1], baseUrl);
      if OnSite(l, baseUrl) then r0[l.href := SiteEntry(Strip(l.text), ClassifyLink(l.href))] else r0
  }

  /** The keys after discovery are the old keys and the hrefs of the recorded links. */
  lemma {:induction false} DiscoveredKeys(m: map<string, SiteEntry>, links: seq<Link>, baseUrl: string)
    ensures Discovered(m, links, baseUrl).Keys == m.Keys + OnSiteHrefs(links, baseUrl)
    decreases |links|
  {
    if |links| != 0 {
      var init := links[..|links| - 1];
      DiscoveredKeys(m, init, baseUrl);
      assert links == init + [links[|links| - 1]];
      assert OnSiteHrefs(links, baseUrl) ==
        OnSiteHrefs(init, baseUrl) + (if OnSite(links[|links| - 1], baseUrl) then {links[|links| - 1].href} else {});
    }
  }

  /** A recorded link with no later link of the same href decides its href's entry. */
  lemma {:induction false} DiscoveredLast(m: map<string, SiteEntry>, links: seq<Link>, baseUrl: string, i: nat)
    requires i < |links| && OnSite(links[i], baseUrl) && LastWithHref(links, i)
    ensures links[i].href in Discovered(m, links, baseUrl)
    ensures Discovered(m, links, baseUrl)[links[i].href] == SiteEntry(Strip(links[i].text), ClassifyLink(links[i].href))
    decreases |links|
  {
    if i < |links| - 1 {
      DiscoveredLast(m, links[..|links| - 1], baseUrl, i);
    }
  }

  /** An href no recorded link carries keeps its old entry, or stays absent. */
  lemma {:induction false} DiscoveredUntouched(m: map<string, SiteEntry>, links: seq<Link>, baseUrl: string, h: string)
    requires h !in OnSiteHrefs(links, baseUrl)
    ensures h in Discovered(m, links, baseUrl) <==> h in m
    ensures h in m ==> Discovered(m, links, baseUrl)[h] == m[h]
    decreases |links|
  {
    if |links| != 0 {
      var init := links[..|links| - 1];
      assert forall l :: l in init ==> l in links;
      DiscoveredUntouched(m, init, baseUrl, h);
      assert links[|links| - 1] in links;
    }
  }

  class Mirror {
    const baseUrl: string
    var pokemonDownloaded: nat
    var assetsDownloaded: nat
    var generationsFound: nat
    var failedDownloads: seq<Failure>
    var siteMap: map<string, SiteEntry>
    /** The number of `download_asset` calls that went to the network. */
    ghost var fetches: nat

    /** Every fetch either counted an asset or logged a failure; every site-map key is on the site and typed by `classify_link`. */
    ghost predicate Valid()
      reads this
    {
      assetsDownloaded + |failedDownloads| == fetches &&
      forall h :: h in siteMap ==> StartsWith(h, baseUrl) && siteMap[h].linkType == ClassifyLink(h)
    }

    constructor(baseUrl: string)
      ensures Valid()
      ensures this.baseUrl == baseUrl && siteMap == map[] && failedDownloads == []
      ensures pokemonDownloaded == 0 && assetsDownloaded == 0 && generationsFound == 0
    {
      this.baseUrl := baseUrl;
      pokemonDownloaded := 0;
      assetsDownloaded := 0;
      generationsFound := 0;
      failedDownloads := [];
      siteMap := map[];
      fetches := 0;
    }

    /** `download_asset`: an existing file is success with nothing changed; otherwise one fetch, counted or logged. */
    method DownloadAsset(url: string, assetType: string, fileExists: bool, fetchOk: bool, error: string) returns (ok: bool)
      requires Valid()
      modifies this
      ensures Valid()
      ensures ok <==> fileExists || fetchOk
      ensures fileExists ==> assetsDownloaded == old(assetsDownloaded) && failedDownloads == old(failedDownloads)
      ensures !fileExists && fetchOk ==> assetsDownloaded == old(assetsDownloaded) + 1 && failedDownloads == old(failedDownloads)
      ensures !fileExists && !fetchOk ==>
        assetsDownloaded == old(assetsDownloaded) && failedDownloads == old(failedDownloads) + [Failure(url, error, assetType)]
      ensures siteMap == old(siteMap) && pokemonDownloaded == old(pokemonDownloaded) && generationsFound == old(generationsFound)
    {
      if fileExists {
        return true;
      }
      fetches := fetches + 1;
      if fetchOk {
        assetsDownloaded := assetsDownloaded + 1;
        ok := true;
      } else {
        failedDownloads := failedDownloads + [Failure(url, error, assetType)];
        ok := false;
      }
    }

    /**
     * The site-map loop of `discover_site_structure`: each link on the site
     * maps its href to its stripped text and link type, a later link
     * overwriting an earlier one, and every other entry is kept.
     */
    method DiscoverSiteStructure(links: seq<Link>)
      requires Valid()
      modifies this
      ensures Valid()
      ensures siteMap == Discovered(old(siteMap), links, baseUrl)
      ensures siteMap.Keys == old(siteMap).Keys + OnSiteHrefs(links, baseUrl)
      ensures forall i :: 0 <= i < |links| && OnSite(links[i], baseUrl) && LastWithHref(links, i) ==>
        links[i].href in siteMap && siteMap[links[i].href] == SiteEntry(Strip(links[i].text), ClassifyLink(links[i].href))
      ensures forall h :: h in old(siteMap) && h !in OnSiteHrefs(links, baseUrl) ==>
        h in siteMap && siteMap[h] == old(siteMap)[h]
      ensures assetsDownloaded == old(assetsDownloaded) && failedDownloads == old(failedDownloads)
      ensures pokemonDownloaded == old(pokemonDownloaded) && generationsFound == old(generationsFound)
    {
      var i := 0;
      while i < |links|
        invariant 0 <= i <= |links|
        invariant Valid()
        invariant siteMap == Discovered(old(siteMap), links[..i], baseUrl)
        invariant assetsDownloaded == old(assetsDownloaded) && failedDownloads == old(failedDownloads)
        invariant pokemonDownloaded == old(pokemonDownloaded) && generationsFound == old(generationsFound)
      {
        var link := links[i];
        assert links[..i + 1][..i] == links[..i];
        if link.href != "" && StartsWith(link.href, baseUrl) {
          siteMap := siteMap[link.href := SiteEntry(Strip(link.text), ClassifyLink(link.href))];
        }
        i := i + 1;
      }
      assert links[..i] == links;
      DiscoveredKeys(old(siteMap), links, baseUrl);
      forall i | 0 <= i < |links| && OnSite(links[i], baseUrl) && LastWithHref(links, i)
        ensures links[i].href in siteMap && siteMap[links[i].href] == SiteEntry(Strip(links[i].text), ClassifyLink(links[i].href))
      {
        DiscoveredLast(old(siteMap), links, baseUrl, i);
      }
      forall h | h in old(siteMap) && h !in OnSiteHrefs(links, baseUrl)
        ensures h in siteMap && siteMap[h] == old(siteMap)[h]
      {
        DiscoveredUntouched(old(siteMap), links, baseUrl, h);
      }
    }
  }
}
