/*
 * The site loop of the comprehensive scraper: the ten configured sites are
 * visited grouped by priority (critical, high, medium, low), each with the
 * strategy its type names (static, dynamic, hybrid or animation), and the
 * static strategy downloads every image, stylesheet and script the page
 * links, each URL at most once.
 *
 * The network and the browser are parameters (a `World`): `page(url)` is
 * the parsed page a GET returns, or None when the request fails;
 * `fetchOk(url)` says whether downloading one asset succeeds;
 * `browserOk(key)` says whether the browser session for a site gets
 * through; `join` is `urljoin`. The scraping log keeps the entries that
 * say which stage started, which failed and how each site ended.
 */
module ComprehensiveScraper {
  import opened PyText
  import opened Collections

  // ---------------------------------------------------------------------
  // Configuration

  datatype SiteInfo = SiteInfo(url: string, name: string, siteType: string, priority: string)
  datatype Site = Site(key: string, info: SiteInfo)

  /** `target_sites`, in its insertion order. */
  const TargetSites: seq<Site> := [
    Site("pokemondb_all", SiteInfo("https://pokemondb.net/pokedex/all", "Pokemon Database - Complete List", "static_with_dynamic", "high")),
    Site("cardmarket", SiteInfo("https://www.cardmarket.com/en/Pokemon", "Card Market Pokemon", "dynamic", "high")),
    Site("pokemondb_pokedex", SiteInfo("https://pokemondb.net/pokedex", "Pokemon Database - Individual Pages", "static_with_dynamic", "high")),
    Site("bulbapedia", SiteInfo("https://bulbapedia.bulbagarden.net/wiki/List_of_Pokémon_by_National_Pokédex_number", "Bulbapedia Pokemon List", "static", "medium")),
    Site("serebii", SiteInfo("https://www.serebii.net/pokemon/nationalpokedex.shtml", "Serebii National Pokedex", "static", "medium")),
    Site("portal_pokemon", SiteInfo("https://ph.portal-pokemon.com/play/pokedex", "Portal Pokemon Pokedex", "dynamic", "medium")),
    Site("pkmn_pokedex", SiteInfo("https://www.pkmn.gg/pokedex", "PKMN.GG Pokedex", "dynamic", "high")),
    Site("pkmn_series", SiteInfo("https://www.pkmn.gg/series", "PKMN.GG Series", "dynamic", "medium")),
    Site("artofpkm", SiteInfo("https://www.artofpkm.com/", "Art of Pokemon", "static_with_dynamic", "high")),
    Site("tcg_galleries", SiteInfo("https://tcg.pokemon.com/en-us/all-galleries/", "Pokemon TCG Galleries", "dynamic_animations", "critical"))
  ]

  const PriorityOrder: seq<string> := ["critical", "high", "medium", "low"]

  // ---------------------------------------------------------------------
  // Visiting order

  function HasPriority(p: string): Site -> bool {
    (s: Site) => s.info.priority == p
  }

  function HasPriorityIn(order: seq<string>): Site -> bool {
    (s: Site) => s.info.priority in order
  }

  /** The sites visited, in order, when the groups are taken in `order`. */
  function Schedule(sites: seq<Site>, order: seq<string>): seq<Site>
    decreases |order|
  {
    if |order| == 0 then []
    else Schedule(sites, order[..|order| - 1]) + Filter(sites, HasPriority(order[|order| - 1]))
  }

  predicate Distinct(order: seq<string>) {
    forall i, j :: 0 <= i < j < |order| ==> order[i] != order[j]
  }

  /** The position of a priority in the visiting order. */
  function Rank(order: seq<string>, p: string): (k: nat)
    requires p in order
    ensures k < |order| && order[k] == p
    ensures forall j :: 0 <= j < k ==> order[j] != p
  {
    if order[0] == p then 0 else 1 + Rank(order[1..], p)
  }

  /** A site is visited exactly when it is configured and its priority is one of the groups. */
  lemma {:induction false} ScheduleMember(sites: seq<Site>, order: seq<string>, s: Site)
    ensures s in Schedule(sites, order) <==> s in sites && s.info.priority in order
    decreases |order|
  {
    if |order| > 0 {
      var init := order[..|order| - 1];
      ScheduleMember(sites, init, s);
      FilterMember(sites, HasPriority(order[|order| - 1]), s);
      assert order == init + [order[|order| - 1]];
    }
  }

  /** With distinct groups, the visits are the configured sites of those priorities, each as often as configured. */
  lemma {:induction false} ScheduleMultiset(sites: seq<Site>, order: seq<string>)
    requires Distinct(order)
    ensures multiset(Schedule(sites, order)) == multiset(Filter(sites, HasPriorityIn(order)))
    decreases |order|
  {
    if |order| == 0 {
      FilterAgree(sites, HasPriorityIn(order), (s: Site) => false);
      FilterNone(sites);
    } else {
      var init := order[..|order| - 1];
      var last := order[|order| - 1];
      assert order == init + [last];
      ScheduleMultiset(sites, init);
      FilterDisjointUnion(sites, HasPriorityIn(init), HasPriority(last), HasPriorityIn(order));
    }
  }

  lemma {:induction false} FilterNone(sites: seq<Site>)
    ensures Filter(sites, (s: Site) => false) == []
    decreases |sites|
  {
    if |sites| > 0 {
      FilterNone(sites[..|sites| - 1]);
    }
  }

  /** Groups come one after the other: a visit never goes back to an earlier priority. */
  lemma {:induction false} ScheduleGrouped(sites: seq<Site>, order: seq<string>, i: nat, j: nat)
    requires Distinct(order)
    requires i < j < |Schedule(sites, order)|
    ensures Schedule(sites, order)[i].info.priority in order
    ensures Schedule(sites, order)[j].info.priority in order
    ensures Rank(order, Schedule(sites, order)[i].info.priority) <= Rank(order, Schedule(sites, order)[j].info.priority)
    decreases |order|
  {
    var init := order[..|order| - 1];
    var last := order[|order| - 1];
    var a := Schedule(sites, init);
    var g := Filter(sites, HasPriority(last));
    var sched := Schedule(sites, order);
    assert sched == a + g;
    assert order == init + [last];
    assert Distinct(init);
    if j < |a| {
      ScheduleGrouped(sites, init, i, j);
      RankInit(order, a[i].info.priority);
      RankInit(order, a[j].info.priority);
    } else {
      assert sched[j] == g[j - |a|];
      assert sched[j].info.priority == last;
      assert Rank(order, last) == |init|;
      if i < |a| {
        ScheduleMember(sites, init, a[i]);
        RankInit(order, a[i].info.priority);
      } else {
        assert sched[i] == g[i - |a|];
      }
    }
  }

  lemma RankInit(order: seq<string>, p: string)
    requires Distinct(order) && |order| > 0 && p in order[..|order| - 1]
    ensures Rank(order, p) == Rank(order[..|order| - 1], p)
  {
  }

  /** When every configured priority is one of the distinct groups, every site is visited exactly once. */
  lemma ScheduleCoversAll(sites: seq<Site>, order: seq<string>)
    requires Distinct(order)
    requires forall i :: 0 <= i < |sites| ==> sites[i].info.priority in order
    ensures multiset(Schedule(sites, order)) == multiset(sites)
    ensures |Schedule(sites, order)| == |sites|
  {
    ScheduleMultiset(sites, order);
    FilterAll(sites, HasPriorityIn(order));
    assert |multiset(Schedule(sites, order))| == |Schedule(sites, order)|;
  }

  /** The groups are distinct and every configured priority is one of them. */
  lemma TargetPrioritiesGrouped()
    ensures Distinct(PriorityOrder)
    ensures forall i :: 0 <= i < |TargetSites| ==> TargetSites[i].info.priority in PriorityOrder
  {
  }

  /** Each of the ten configured sites is visited exactly once. */
  lemma TargetSitesVisitedOnce()
    ensures multiset(Schedule(TargetSites, PriorityOrder)) == multiset(TargetSites)
    ensures |Schedule(TargetSites, PriorityOrder)| == 10
  {
    TargetPrioritiesGrouped();
    ScheduleCoversAll(TargetSites, PriorityOrder);
  }

  // ---------------------------------------------------------------------
  // Strategy

  datatype Strategy = StaticScrape | DynamicScrape | HybridScrape | AnimationScrape

  /** The `type` value that names each strategy. */
  function TypeName(s: Strategy): string {
    match s
    case StaticScrape => "static"
    case DynamicScrape => "dynamic"
    case HybridScrape => "static_with_dynamic"
    case AnimationScrape => "dynamic_animations"
  }

  /** The strategy `scrape_single_site` picks for a site type; an unknown type is scraped as hybrid. */
  function StrategyFor(siteType: string): (s: Strategy)
    ensures s != HybridScrape ==> siteType == TypeName(s)
    ensures s == HybridScrape <==>
      (siteType == "static_with_dynamic" || siteType !in ["static", "dynamic", "static_with_dynamic", "dynamic_animations"])
  {
    if siteType == "static" then StaticScrape
    else if siteType == "dynamic" then DynamicScrape
    else if siteType == "static_with_dynamic" then HybridScrape
    else if siteType == "dynamic_animations" then AnimationScrape
    else HybridScrape
  }

  /** Every strategy is the one its own type name selects. */
  lemma StrategyForTypeName(s: Strategy)
    ensures StrategyFor(TypeName(s)) == s
  {
  }

  predicate UsesStatic(s: Strategy) { s == StaticScrape || s == HybridScrape }

  // ---------------------------------------------------------------------
  // The world outside, and what a site visit leaves behind

  /** The `src`/`href` values of the page's images, stylesheets and scripts; "" when absent. */
  datatype Page = Page(images: seq<string>, stylesheets: seq<string>, scripts: seq<string>)

  datatype World = World(
    page: string -> Option<Page>,
    join: (string, string) -> string,
    fetchOk: string -> bool,
    browserOk: string -> bool)

  datatype Event = Started(stage: Strategy) | StageFailed(stage: Strategy) | SiteFinished(success: bool)
  datatype LogEntry = LogEntry(site: string, event: Event)

  /** The absolute URLs of the non-empty references, in page order. */
  function AssetUrls(base: string, srcs: seq<string>, join: (string, string) -> string): (urls: seq<string>)
    ensures |urls| <= |srcs|
    decreases |srcs|
  {
    if |srcs| == 0 then []
    else
      AssetUrls(base, srcs[..|srcs| - 1], join)
      + (if srcs[|srcs| - 1] != "" then [join(base, srcs[|srcs| - 1])] else [])
  }

  predicate NonEmpty(s: string) { s != "" }

  /** The asset URLs are the joined non-empty references. */
  lemma {:induction false} AssetUrlsSpec(base: string, srcs: seq<string>, join: (string, string) -> string)
    ensures AssetUrls(base, srcs, join) == MapSeq(Filter(srcs, NonEmpty), s => join(base, s))
    decreases |srcs|
  {
    if |srcs| > 0 {
      var init := srcs[..|srcs| - 1];
      var last := srcs[|srcs| - 1];
      AssetUrlsSpec(base, init, join);
      if last != "" {
        MapSeqSnoc(Filter(init, NonEmpty), last, s => join(base, s));
      }
    }
  }

  function PageUrls(p: Page, base: string, join: (string, string) -> string): seq<string> {
    AssetUrls(base, p.images, join) + AssetUrls(base, p.stylesheets, join) + AssetUrls(base, p.scripts, join)
  }

  /** The asset URLs a site visit tries to download. */
  function SiteUrls(site: Site, w: World): seq<string> {
    if UsesStatic(StrategyFor(site.info.siteType)) && w.page(site.info.url).Some? then
      PageUrls(w.page(site.info.url).value, site.info.url, w.join)
    else []
  }

  function SiteUrlsIn(w: World): Site -> seq<string> {
    (s: Site) => SiteUrls(s, w)
  }

  /** The asset URLs a run over `sites` tries to download, in order. */
  function GroupUrls(sites: seq<Site>, w: World): seq<string> {
    FlatMap(sites, SiteUrlsIn(w))
  }

  /** The URLs among `urls` whose download succeeds. */
  function Fetched(urls: seq<string>, fetchOk: string -> bool): (r: set<string>)
    decreases |urls|
  {
    if |urls| == 0 then {}
    else Fetched(urls[..|urls| - 1], fetchOk) + (if fetchOk(urls[|urls| - 1]) then {urls[|urls| - 1]} else {})
  }

  lemma {:induction false} FetchedMember(urls: seq<string>, fetchOk: string -> bool, u: string)
    ensures u in Fetched(urls, fetchOk) <==> u in urls && fetchOk(u)
    decreases |urls|
  {
    if |urls| > 0 {
      FetchedMember(urls[..|urls| - 1], fetchOk, u);
      assert urls == urls[..|urls| - 1] + [urls[|urls| - 1]];
    }
  }

  lemma FetchedOk(urls: seq<string>, fetchOk: string -> bool)
    ensures forall u :: u in Fetched(urls, fetchOk) ==> fetchOk(u)
  {
    forall u | u in Fetched(urls, fetchOk) ensures fetchOk(u) {
      FetchedMember(urls, fetchOk, u);
    }
  }

  /** The download attempts that fail: a URL not already seen whose fetch fails, once per occurrence. */
  function FreshFailures(urls: seq<string>, seen: set<string>, fetchOk: string -> bool): (n: nat)
    ensures n <= |urls|
    ensures n == 0 <== forall i :: 0 <= i < |urls| ==> urls[i] in seen || fetchOk(urls[i])
    decreases |urls|
  {
    if |urls| == 0 then 0
    else
      var last := urls[|urls| - 1];
      FreshFailures(urls[..|urls| - 1], seen, fetchOk) + (if last !in seen && !fetchOk(last) then 1 else 0)
  }

  /** The log of one stage: its start, and its failure when it fails. */
  function StageTrace(key: string, stage: Strategy, ok: bool): seq<LogEntry> {
    [LogEntry(key, Started(stage))] + (if ok then [] else [LogEntry(key, StageFailed(stage))])
  }

  function StaticOk(site: Site, w: World): bool {
    w.page(site.info.url).Some?
  }

  /** The value `scrape_single_site` gets back from the strategy. */
  function SiteSuccess(site: Site, w: World): bool {
    match StrategyFor(site.info.siteType)
    case StaticScrape => StaticOk(site, w)
    case DynamicScrape => w.browserOk(site.key)
    case HybridScrape => StaticOk(site, w) && w.browserOk(site.key)
    case AnimationScrape => w.browserOk(site.key)
  }

  /** The log entries of the stages a site visit runs. */
  function SiteStages(site: Site, w: World): seq<LogEntry> {
    var key := site.key;
    match StrategyFor(site.info.siteType)
    case StaticScrape => StageTrace(key, StaticScrape, StaticOk(site, w))
    case DynamicScrape => StageTrace(key, DynamicScrape, w.browserOk(key))
    case HybridScrape =>
      [LogEntry(key, Started(HybridScrape))]
      + StageTrace(key, StaticScrape, StaticOk(site, w)) + StageTrace(key, DynamicScrape, w.browserOk(key))
    case AnimationScrape => StageTrace(key, AnimationScrape, w.browserOk(key))
  }

  /** The log entries of one site visit: its stages, then how it ended. */
  function SiteTrace(site: Site, w: World): seq<LogEntry> {
    SiteStages(site, w) + [LogEntry(site.key, SiteFinished(SiteSuccess(site, w)))]
  }

  function SiteTraceIn(w: World): Site -> seq<LogEntry> {
    (s: Site) => SiteTrace(s, w)
  }

  /** The log entries of a run over `sites`. */
  function Traces(sites: seq<Site>, w: World): seq<LogEntry> {
    FlatMap(sites, SiteTraceIn(w))
  }

  /** The keys of the sites, as recorded in `extraction_progress`. */
  function Keys(sites: seq<Site>): set<string>
    decreases |sites|
  {
    if |sites| == 0 then {} else Keys(sites[..|sites| - 1]) + {sites[|sites| - 1].key}
  }

  lemma {:induction false} KeysMember(sites: seq<Site>, k: string)
    ensures k in Keys(sites) <==> exists s :: s in sites && s.key == k
    decreases |sites|
  {
    if |sites| > 0 {
      KeysMember(sites[..|sites| - 1], k);
      assert sites == sites[..|sites| - 1] + [sites[|sites| - 1]];
    }
  }

  /**
   * The hybrid strategy starts both the static and the dynamic stage,
   * whatever the first one gives, and succeeds only when both do.
   */
  lemma HybridRunsBoth(site: Site, w: World)
    requires StrategyFor(site.info.siteType) == HybridScrape
    ensures LogEntry(site.key, Started(StaticScrape)) in SiteTrace(site, w)
    ensures LogEntry(site.key, Started(DynamicScrape)) in SiteTrace(site, w)
    ensures SiteSuccess(site, w) <==> StaticOk(site, w) && w.browserOk(site.key)
  {
    var t := SiteTrace(site, w);
    var k := site.key;
    assert t[1] == LogEntry(k, Started(StaticScrape));
    var s := StageTrace(k, StaticScrape, StaticOk(site, w));
    assert t[1 + |s|] == LogEntry(k, Started(DynamicScrape));
  }

  // ---------------------------------------------------------------------
  // File names

  /** The characters the name cleaning replaces with '_'. */
  predicate Unsafe(c: char) {
    c == '<' || c == '>' || c == ':' || c == '"' || c == '/' || c == '\\' || c == '|' || c == '?' || c == '*'
  }

  /**
   * `get_safe_filename`: the last component of the URL's path when it has
   * a '.', else "file_" and the absolute value of the URL's hash with
   * ".html"; then every unsafe character becomes '_'. `pathOf` is the path
   * `urlparse` finds and `hashOf` is Python's `hash`.
   */
  function GetSafeFilename(url: string, pathOf: string -> string, hashOf: string -> int): (r: string)
    ensures forall i :: 0 <= i < |r| ==> !Unsafe(r[i])
    ensures '.' in r
    ensures var name := BaseName(pathOf(url));
      (name != "" && '.' in name ==>
        |r| == |name| && forall i :: 0 <= i < |r| ==> r[i] == if Unsafe(name[i]) then '_' else name[i])
    ensures var name := BaseName(pathOf(url));
      (name == "" || '.' !in name ==> StartsWith(r, "file_") && EndsWith(r, ".html"))
  {
    var base := BaseName(pathOf(url));
    if base == "" || '.' !in base then
      var h := hashOf(url);
      var digits := NatToString(if h < 0 then -h else h);
      var r := ReplaceWhere("file_" + digits + ".html", Unsafe, '_');
      FallbackClean(digits, r);
      FallbackShape(digits);
      r
    else
      var r := ReplaceWhere(base, Unsafe, '_');
      DotKept(base, r);
      r
  }

  /** Cleaning a name with a '.' keeps the '.' and leaves no unsafe character. */
  lemma DotKept(name: string, r: string)
    requires '.' in name && r == ReplaceWhere(name, Unsafe, '_')
    ensures '.' in r
    ensures forall i :: 0 <= i < |r| ==> !Unsafe(r[i])
  {
    var i :| 0 <= i < |name| && name[i] == '.';
    assert r[i] == '.';
  }

  /** The fallback name has a '.', no unsafe character, and the "file_" and ".html" ends. */
  lemma FallbackShape(digits: string)
    requires IsDigits(digits)
    ensures var name := "file_" + digits + ".html";
      '.' in name && StartsWith(name, "file_") && EndsWith(name, ".html") &&
      forall i :: 0 <= i < |name| ==> !Unsafe(name[i])
  {
    var name := "file_" + digits + ".html";
    assert name[|name| - 5] == '.';
    assert name[..5] == "file_";
    assert name[|name| - 5..] == ".html";
    forall i | 0 <= i < |name|
      ensures !Unsafe(name[i])
    {
      if 5 <= i < 5 + |digits| {
        assert name[i] == digits[i - 5];
      }
    }
  }

  /** The fallback name has no unsafe character, so cleaning keeps it whole. */
  lemma FallbackClean(digits: string, r: string)
    requires IsDigits(digits)
    requires r == ReplaceWhere("file_" + digits + ".html", Unsafe, '_')
    ensures r == "file_" + digits + ".html"
  {
    var name := "file_" + digits + ".html";
    assert forall i :: 0 <= i < |name| ==> !Unsafe(name[i]) by {
      forall i | 0 <= i < |name|
        ensures !Unsafe(name[i])
      {
        if 5 <= i < 5 + |digits| {
          assert name[i] == digits[i - 5];
        }
      }
    }
  }

  /** A name that already has a '.' and no unsafe character is kept as it is, and cleaning is idempotent. */
  lemma GetSafeFilenameKeepsSafeNames(url: string, pathOf: string -> string, hashOf: string -> int)
    ensures var name := BaseName(pathOf(url));
      (name != "" && '.' in name && (forall i :: 0 <= i < |name| ==> !Unsafe(name[i])) ==>
        GetSafeFilename(url, pathOf, hashOf) == name)
    ensures var r := GetSafeFilename(url, pathOf, hashOf); ReplaceWhere(r, Unsafe, '_') == r
  {
    var r := GetSafeFilename(url, pathOf, hashOf);
    var cleaned := ReplaceWhere(r, Unsafe, '_');
    assert |cleaned| == |r|;
    assert forall i :: 0 <= i < |r| ==> cleaned[i] == r[i];
  }

  // ---------------------------------------------------------------------
  // The bookkeeping of a run

  /** `downloaded_files`, `total_files_downloaded` and `failed_downloads`. */
  datatype Downloads = Downloads(files: set<string>, total: nat, failed: nat)

  /** Each downloaded URL is counted once. */
  predicate Counted(d: Downloads) {
    d.total == |d.files|
  }

  /**
   * `download_file` on the bookkeeping: a URL already downloaded changes
   * nothing; otherwise a fetch that succeeds adds the URL and counts the
   * file, and one that fails counts a failed download.
   */
  function Download(d: Downloads, url: string, ok: bool): Downloads {
    if url in d.files then d
    else if ok then Downloads(d.files + {url}, d.total + 1, d.failed)
    else Downloads(d.files, d.total, d.failed + 1)
  }

  /** The downloads of `urls`, one after the other. */
  function DownloadEach(d: Downloads, urls: seq<string>, fetchOk: string -> bool): Downloads
    decreases |urls|
  {
    if |urls| == 0 then d
    else
      var last := urls[|urls| - 1];
      Download(DownloadEach(d, urls[..|urls| - 1], fetchOk), last, fetchOk(last))
  }

  lemma {:induction false} DownloadEachConcat(d: Downloads, a: seq<string>, b: seq<string>, fetchOk: string -> bool)
    ensures DownloadEach(d, a + b, fetchOk) == DownloadEach(DownloadEach(d, a, fetchOk), b, fetchOk)
    decreases |b|
  {
    if |b| == 0 {
      assert a + b == a;
    } else {
      assert (a + b)[..|a + b| - 1] == a + b[..|b| - 1];
      assert (a + b)[|a + b| - 1] == b[|b| - 1];
      DownloadEachConcat(d, a, b[..|b| - 1], fetchOk);
    }
  }

  /**
   * What downloading `urls` leaves behind: the URLs whose fetch succeeds are
   * added, every attempt at a URL neither downloaded before nor fetchable
   * counts as a failure (once per occurrence), and the file count grows
   * with the set, so it keeps counting each URL once.
   */
  lemma {:induction false} DownloadEachSpec(d: Downloads, urls: seq<string>, fetchOk: string -> bool)
    ensures DownloadEach(d, urls, fetchOk).files == d.files + Fetched(urls, fetchOk)
    ensures DownloadEach(d, urls, fetchOk).failed == d.failed + FreshFailures(urls, d.files, fetchOk)
    ensures DownloadEach(d, urls, fetchOk).total >= d.total
    ensures Counted(d) ==> Counted(DownloadEach(d, urls, fetchOk))
    decreases |urls|
  {
    if |urls| > 0 {
      var init := urls[..|urls| - 1];
      var last := urls[|urls| - 1];
      DownloadEachSpec(d, init, fetchOk);
      FetchedOk(init, fetchOk);
      var before := DownloadEach(d, init, fetchOk);
      if last in before.files {
        assert before.files + (if fetchOk(last) then {last} else {}) == before.files;
      }
    }
  }

  /** The state the site loop updates: the downloads, `sites_completed`, `extraction_progress` and the log. */
  datatype RunState = RunState(downloads: Downloads, completed: nat, progress: map<string, nat>, log: seq<LogEntry>)

  /**
   * One turn of the site loop: `scrape_single_site`, then the count of
   * completed sites, then the site's progress entry, which records the
   * files downloaded so far.
   */
  function Visit(s: RunState, site: Site, w: World): RunState {
    var d := DownloadEach(s.downloads, SiteUrls(site, w), w.fetchOk);
    RunState(d, s.completed + 1, s.progress[site.key := d.total], s.log + SiteTrace(site, w))
  }

  /** The turns for `sites`, one after the other. */
  function VisitAll(s: RunState, sites: seq<Site>, w: World): RunState
    decreases |sites|
  {
    if |sites| == 0 then s
    else Visit(VisitAll(s, sites[..|sites| - 1], w), sites[|sites| - 1], w)
  }

  lemma {:induction false} VisitAllConcat(s: RunState, a: seq<Site>, b: seq<Site>, w: World)
    ensures VisitAll(s, a + b, w) == VisitAll(VisitAll(s, a, w), b, w)
    decreases |b|
  {
    if |b| == 0 {
      assert a + b == a;
    } else {
      assert (a + b)[..|a + b| - 1] == a + b[..|b| - 1];
      assert (a + b)[|a + b| - 1] == b[|b| - 1];
      VisitAllConcat(s, a, b[..|b| - 1], w);
    }
  }

  /**
   * Visiting `sites` downloads their asset URLs in visiting order, counts
   * each site once, gives each a progress entry and appends their traces
   * to the log.
   */
  lemma {:induction false} VisitAllSpec(s: RunState, sites: seq<Site>, w: World)
    ensures VisitAll(s, sites, w).downloads == DownloadEach(s.downloads, GroupUrls(sites, w), w.fetchOk)
    ensures VisitAll(s, sites, w).completed == s.completed + |sites|
    ensures VisitAll(s, sites, w).progress.Keys == s.progress.Keys + Keys(sites)
    ensures VisitAll(s, sites, w).log == s.log + Traces(sites, w)
    decreases |sites|
  {
    if |sites| > 0 {
      var init := sites[..|sites| - 1];
      var last := sites[|sites| - 1];
      assert sites == init + [last];
      VisitAllSpec(s, init, w);
      FlatMapConcat(init, [last], SiteUrlsIn(w));
      FlatMapOne(last, SiteUrlsIn(w));
      FlatMapConcat(init, [last], SiteTraceIn(w));
      FlatMapOne(last, SiteTraceIn(w));
      DownloadEachConcat(s.downloads, GroupUrls(init, w), SiteUrls(last, w), w.fetchOk);
      AppendAssoc(s.log, Traces(init, w), SiteTrace(last, w));
    }
  }

  /** A progress entry never records more files than have been downloaded since. */
  lemma {:induction false} VisitAllProgressBound(s: RunState, sites: seq<Site>, w: World)
    requires forall k :: k in s.progress ==> s.progress[k] <= s.downloads.total
    ensures forall k :: k in VisitAll(s, sites, w).progress ==>
      VisitAll(s, sites, w).progress[k] <= VisitAll(s, sites, w).downloads.total
    decreases |sites|
  {
    if |sites| > 0 {
      var before := VisitAll(s, sites[..|sites| - 1], w);
      VisitAllProgressBound(s, sites[..|sites| - 1], w);
      DownloadEachSpec(before.downloads, SiteUrls(sites[|sites| - 1], w), w.fetchOk);
    }
  }

  /** Two lists with the same members have the same keys. */
  lemma KeysSameMembers(a: seq<Site>, b: seq<Site>)
    requires forall s :: s in a <==> s in b
    ensures Keys(a) == Keys(b)
  {
    forall k
      ensures k in Keys(a) <==> k in Keys(b)
    {
      KeysMember(a, k);
      KeysMember(b, k);
    }
  }

  // ---------------------------------------------------------------------
  // The scraper

  class Scraper {
    var downloadedFiles: set<string>
    var totalFilesDownloaded: nat
    var failedDownloads: nat
    var sitesCompleted: nat
    /** `extraction_progress`: for each finished site, `total_files_downloaded` when it finished. */
    var progress: map<string, nat>
    var log: seq<LogEntry>

    function Files(): Downloads
      reads this
    {
      Downloads(downloadedFiles, totalFilesDownloaded, failedDownloads)
    }

    function State(): RunState
      reads this
    {
      RunState(Files(), sitesCompleted, progress, log)
    }

    ghost predicate Valid()
      reads this
    {
      Counted(Files())
    }

    constructor()
      ensures Valid()
      ensures State() == RunState(Downloads({}, 0, 0), 0, map[], [])
    {
      downloadedFiles := {};
      totalFilesDownloaded := 0;
      failedDownloads := 0;
      sitesCompleted := 0;
      progress := map[];
      log := [];
    }

    /** `download_file`: true when the URL was downloaded before or its fetch succeeds. */
    method DownloadFile(url: string, fetchOk: bool) returns (ok: bool)
      modifies this
      ensures ok <==> url in old(downloadedFiles) || fetchOk
      ensures Files() == Download(old(Files()), url, fetchOk)
      ensures sitesCompleted == old(sitesCompleted) && progress == old(progress) && log == old(log)
    {
      if url in downloadedFiles {
        return true;
      }
      if !fetchOk {
        failedDownloads := failedDownloads + 1;
        return false;
      }
      downloadedFiles := downloadedFiles + {url};
      totalFilesDownloaded := totalFilesDownloaded + 1;
      ok := true;
    }

    /** One of the three download loops of `extract_static_assets`. */
    method DownloadAll(base: string, srcs: seq<string>, w: World)
      modifies this
      ensures Files() == DownloadEach(old(Files()), AssetUrls(base, srcs, w.join), w.fetchOk)
      ensures sitesCompleted == old(sitesCompleted) && progress == old(progress) && log == old(log)
    {
      ghost var d0 := Files();
      ghost var n0, p0, l0 := sitesCompleted, progress, log;
      var i := 0;
      ghost var done: seq<string> := [];
      while i < |srcs|
        invariant i <= |srcs|
        invariant done == AssetUrls(base, srcs[..i], w.join)
        invariant Files() == DownloadEach(d0, done, w.fetchOk)
        invariant sitesCompleted == n0 && progress == p0 && log == l0
      {
        var src := srcs[i];
        assert srcs[..i + 1][..i] == srcs[..i];
        if src != "" {
          var url := w.join(base, src);
          var _ := DownloadFile(url, w.fetchOk(url));
          assert (done + [url])[..|done|] == done;
          done := done + [url];
        }
        i := i + 1;
      }
      assert srcs[..i] == srcs;
    }

    /** `extract_static_assets`: the images, then the stylesheets, then the scripts. */
    method ExtractStaticAssets(p: Page, base: string, w: World)
      modifies this
      ensures Files() == DownloadEach(old(Files()), PageUrls(p, base, w.join), w.fetchOk)
      ensures sitesCompleted == old(sitesCompleted) && progress == old(progress) && log == old(log)
    {
      ghost var d0 := Files();
      ghost var u1 := AssetUrls(base, p.images, w.join);
      ghost var u2 := AssetUrls(base, p.stylesheets, w.join);
      ghost var u3 := AssetUrls(base, p.scripts, w.join);
      DownloadAll(base, p.images, w);
      DownloadAll(base, p.stylesheets, w);
      DownloadAll(base, p.scripts, w);
      DownloadEachConcat(d0, u1, u2, w.fetchOk);
      DownloadEachConcat(d0, u1 + u2, u3, w.fetchOk);
    }

    /** `scrape_static_site`: fetch the page, then download its assets; a failed request ends the stage with False. */
    method ScrapeStatic(site: Site, w: World) returns (ok: bool)
      modifies this
      ensures ok == StaticOk(site, w)
      ensures log == old(log) + StageTrace(site.key, StaticScrape, ok)
      ensures Files() == DownloadEach(old(Files()),
        if ok then PageUrls(w.page(site.info.url).value, site.info.url, w.join) else [], w.fetchOk)
      ensures sitesCompleted == old(sitesCompleted) && progress == old(progress)
    {
      log := log + [LogEntry(site.key, Started(StaticScrape))];
      match w.page(site.info.url) {
        case None =>
          log := log + [LogEntry(site.key, StageFailed(StaticScrape))];
          ok := false;
        case Some(p) =>
          ExtractStaticAssets(p, site.info.url, w);
          ok := true;
      }
    }

    /** `scrape_dynamic_site` and `scrape_animation_site`: a browser stage that succeeds when the browser gets through. */
    method ScrapeBrowser(site: Site, stage: Strategy, w: World) returns (ok: bool)
      modifies this
      ensures ok == w.browserOk(site.key)
      ensures log == old(log) + StageTrace(site.key, stage, ok)
      ensures Files() == old(Files())
      ensures sitesCompleted == old(sitesCompleted) && progress == old(progress)
    {
      log := log + [LogEntry(site.key, Started(stage))];
      ok := w.browserOk(site.key);
      if !ok {
        log := log + [LogEntry(site.key, StageFailed(stage))];
      }
    }

    /** `scrape_hybrid_site`: the static stage, then the dynamic stage in any case; both must succeed. */
    method ScrapeHybrid(site: Site, w: World) returns (ok: bool)
      modifies this
      ensures ok == (StaticOk(site, w) && w.browserOk(site.key))
      ensures log == old(log) + [LogEntry(site.key, Started(HybridScrape))]
        + StageTrace(site.key, StaticScrape, StaticOk(site, w)) + StageTrace(site.key, DynamicScrape, w.browserOk(site.key))
      ensures Files() == DownloadEach(old(Files()),
        if StaticOk(site, w) then PageUrls(w.page(site.info.url).value, site.info.url, w.join) else [], w.fetchOk)
      ensures sitesCompleted == old(sitesCompleted) && progress == old(progress)
    {
      log := log + [LogEntry(site.key, Started(HybridScrape))];
      var staticOk := ScrapeStatic(site, w);
      var dynamicOk := ScrapeBrowser(site, DynamicScrape, w);
      ok := staticOk && dynamicOk;
    }

    /** The strategy `scrape_single_site` picks for the site's type, run. */
    method RunStrategy(site: Site, w: World) returns (success: bool)
      modifies this
      ensures success == SiteSuccess(site, w)
      ensures log == old(log) + SiteStages(site, w)
      ensures Files() == DownloadEach(old(Files()), SiteUrls(site, w), w.fetchOk)
      ensures sitesCompleted == old(sitesCompleted) && progress == old(progress)
    {
      match StrategyFor(site.info.siteType) {
        case StaticScrape =>
          success := ScrapeStatic(site, w);
        case DynamicScrape =>
          success := ScrapeBrowser(site, DynamicScrape, w);
        case HybridScrape =>
          success := ScrapeHybrid(site, w);
        case AnimationScrape =>
          success := ScrapeBrowser(site, AnimationScrape, w);
      }
    }

    /** `scrape_single_site`: run the site's strategy and log how the site ended. */
    method ScrapeSingleSite(site: Site, w: World)
      modifies this
      ensures log == old(log) + SiteTrace(site, w)
      ensures Files() == DownloadEach(old(Files()), SiteUrls(site, w), w.fetchOk)
      ensures sitesCompleted == old(sitesCompleted) && progress == old(progress)
    {
      var success := RunStrategy(site, w);
      log := log + [LogEntry(site.key, SiteFinished(success))];
    }

    /** One turn of the site loop: scrape the site, count it, and record its progress. */
    method VisitSite(site: Site, w: World)
      modifies this
      ensures State() == Visit(old(State()), site, w)
    {
      ScrapeSingleSite(site, w);
      sitesCompleted := sitesCompleted + 1;
      progress := progress[site.key := totalFilesDownloaded];
    }

    /** The sites of one priority group, in configuration order. */
    method RunGroup(group: seq<Site>, w: World)
      modifies this
      ensures State() == VisitAll(old(State()), group, w)
    {
      ghost var s0 := State();
      var i := 0;
      while i < |group|
        invariant i <= |group|
        invariant State() == VisitAll(s0, group[..i], w)
      {
        assert group[..i + 1][..i] == group[..i];
        VisitSite(group[i], w);
        i := i + 1;
      }
      assert group[..i] == group;
    }

    /**
     * `start_comprehensive_scraping` over a site list and a group order:
     * each group in turn, its sites in configuration order.
     */
    method RunSchedule(sites: seq<Site>, order: seq<string>, w: World)
      modifies this
      ensures State() == VisitAll(old(State()), Schedule(sites, order), w)
    {
      ghost var s0 := State();
      var i := 0;
      while i < |order|
        invariant i <= |order|
        invariant State() == VisitAll(s0, Schedule(sites, order[..i]), w)
      {
        var group := Filter(sites, HasPriority(order[i]));
        assert order[..i + 1][..i] == order[..i];
        RunGroup(group, w);
        VisitAllConcat(s0, Schedule(sites, order[..i]), group, w);
        i := i + 1;
      }
      assert order[..i] == order;
    }

    /**
     * `start_comprehensive_scraping`: all ten sites, each completed once and
     * given a progress entry, every downloaded URL counted once.
     */
    method StartComprehensiveScraping(w: World)
      requires Valid()
      modifies this
      ensures Valid()
      ensures State() == VisitAll(old(State()), Schedule(TargetSites, PriorityOrder), w)
      ensures sitesCompleted == old(sitesCompleted) + 10
      ensures progress.Keys == old(progress).Keys + Keys(TargetSites)
      ensures log == old(log) + Traces(Schedule(TargetSites, PriorityOrder), w)
      ensures downloadedFiles == old(downloadedFiles) + Fetched(GroupUrls(Schedule(TargetSites, PriorityOrder), w), w.fetchOk)
    {
      ghost var s0 := State();
      RunSchedule(TargetSites, PriorityOrder, w);
      ghost var visits := Schedule(TargetSites, PriorityOrder);
      VisitAllSpec(s0, visits, w);
      DownloadEachSpec(s0.downloads, GroupUrls(visits, w), w.fetchOk);
      TargetSitesVisitedOnce();
      forall s
        ensures s in visits <==> s in TargetSites
      {
        assert s in visits <==> s in multiset(visits);
      }
      KeysSameMembers(visits, TargetSites);
    }
  }
}
