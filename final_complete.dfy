/**
 * The final complete Phygitals scraper (phygitals_final_complete_scraper.py):
 * per generation, the Pokémon asset URLs of every `img` are collected
 * once each, typed animation or image, and saved under pokemon_animations
 * or pokemon_images with a `gen_{n}_` prefix; the stats count generations,
 * assets, animations, images and failed downloads.
 *
 * The browser enters as the page title and the page's images; the network
 * as `fetch`, what fetching each URL gives; the output directory as the
 * set `files` of locations already written. `hash8(url)` stands for the
 * first eight hex digits of the URL's MD5.
 */
module FinalComplete {
  import opened PyText
  import opened Collections
  import opened ElementScan

  /** One entry of `pokemon_assets`. */
  datatype Asset = Asset(url: string, alt: string, assetType: string, generation: nat, filename: string)

  /** The dict built for one collected source: its type by '.gif' and its file name the text after the source's last '/'. */
  function AssetOf(s: Source, generation: nat): (a: Asset)
    ensures a.url == s.url && a.alt == s.alt && a.generation == generation
    ensures a.assetType == "animation" <==> Contains(Lower(s.url), ".gif")
    ensures EndsWith(s.url, a.filename) && forall j :: 0 <= j < |a.filename| ==> a.filename[j] != '/'
  {
    Asset(s.url, s.alt, AssetTypeOf(s.url), generation, BaseName(s.url))
  }

  /** The assets the collection loop yields for the page's images. */
  function GenerationAssets(imgs: seq<Img>, generation: nat): (r: seq<Asset>)
    ensures |r| == |PokemonAssets(imgs)|
  {
    MapSeq(PokemonAssets(imgs), (s: Source) => AssetOf(s, generation))
  }

  /**
   * The collected assets have pairwise distinct URLs, each an http URL
   * from the page that names pokemon, sprite, card or pkmn, typed
   * animation exactly when it contains '.gif'; every such URL of the page
   * is collected.
   */
  lemma GenerationAssetsSpec(imgs: seq<Img>, generation: nat)
    ensures var r := GenerationAssets(imgs, generation);
      forall j, k :: 0 <= j < k < |r| ==> r[j].url != r[k].url
    ensures var r := GenerationAssets(imgs, generation);
      forall k :: 0 <= k < |r| ==>
        StartsWith(r[k].url, "http") && Source(r[k].url, r[k].alt) in Sources(imgs) &&
        ContainsAny(Lower(r[k].url), ["pokemon", "sprite", "card", "pkmn"]) &&
        (r[k].assetType == "animation" <==> Contains(Lower(r[k].url), ".gif")) &&
        r[k].generation == generation
    ensures var r := GenerationAssets(imgs, generation);
      forall i :: (0 <= i < |imgs| && StartsWith(imgs[i].src, "http") &&
        ContainsAny(Lower(imgs[i].src), ["pokemon", "sprite", "card", "pkmn"])) ==>
        exists k :: 0 <= k < |r| && r[k].url == imgs[i].src
  {
    var sources := PokemonAssets(imgs);
    var r := GenerationAssets(imgs, generation);
    PokemonAssetsSpec(imgs);
    forall k | 0 <= k < |r|
      ensures Source(r[k].url, r[k].alt) in Sources(imgs) && IsPokemonAsset(Source(r[k].url, r[k].alt))
    {
      assert Source(r[k].url, r[k].alt) == sources[k];
    }
    forall i | 0 <= i < |imgs| && StartsWith(imgs[i].src, "http") &&
      ContainsAny(Lower(imgs[i].src), ["pokemon", "sprite", "card", "pkmn"])
      ensures exists k :: 0 <= k < |r| && r[k].url == imgs[i].src
    {
      assert IsPokemonAsset(Source(imgs[i].src, imgs[i].alt));
      var k := KeySetWitness(sources, UrlOf, imgs[i].src);
      assert r[k].url == imgs[i].src;
    }
  }

  /** The file name: the URL's last segment, or `gen{n}_{md5[:8]}` with .gif/.png when that is empty or has no '.'. */
  function AssetFileName(a: Asset, generation: nat, hash8: string -> string): string {
    if a.filename == "" || !HasDot(a.filename) then
      GenFallbackName(NatToString(generation), hash8(a.url), a.assetType == "animation")
    else a.filename
  }

  /** Where an asset is saved: `pokemon_animations/gen_{n}_{name}` or `pokemon_images/gen_{n}_{name}`. */
  function AssetLocation(a: Asset, generation: nat, hash8: string -> string): Location {
    GenLocation(a.assetType == "animation", NatToString(generation), AssetFileName(a, generation, hash8))
  }

  /** Animations go to pokemon_animations and images to pokemon_images, with the generation prefix, the URL's own name when it has a '.', and otherwise a fallback name whose extension follows the type. */
  lemma AssetLocationSpec(a: Asset, generation: nat, hash8: string -> string)
    ensures AssetLocation(a, generation, hash8).dir == "pokemon_animations" <==> a.assetType == "animation"
    ensures AssetLocation(a, generation, hash8).dir == "pokemon_images" <==> a.assetType != "animation"
    ensures StartsWith(AssetLocation(a, generation, hash8).file, "gen_" + NatToString(generation) + "_")
    ensures a.filename != "" && HasDot(a.filename) ==> EndsWith(AssetLocation(a, generation, hash8).file, a.filename)
    ensures a.filename == "" || !HasDot(a.filename) ==>
      EndsWith(AssetLocation(a, generation, hash8).file, if a.assetType == "animation" then ".gif" else ".png")
  {
    var g := NatToString(generation);
    var name := AssetFileName(a, generation, hash8);
    GenLocationSpec(a.assetType == "animation", g, name, hash8(a.url));
    if a.filename == "" || !HasDot(a.filename) {
      EndsWithTrans(AssetLocation(a, generation, hash8).file, name, if a.assetType == "animation" then ".gif" else ".png");
    }
  }

  /** The first `n` assets are written at their location or logged as failed. */
  ghost predicate AssetsHandled(files: set<Location>, failed: seq<Failure>, assets: seq<Asset>, n: nat,
                                generation: nat, hash8: string -> string, fetch: string -> Fetch)
    requires n <= |assets|
  {
    forall k :: 0 <= k < n ==>
      Handled(files, failed, AssetLocation(assets[k], generation, hash8), assets[k].url, assets[k].assetType, fetch(assets[k].url))
  }

  /** Handling the next asset extends the handled prefix, and growth keeps the earlier ones handled. */
  lemma AssetsHandledNext(files: set<Location>, failed: seq<Failure>, files': set<Location>, failed': seq<Failure>,
                          assets: seq<Asset>, n: nat, generation: nat, hash8: string -> string, fetch: string -> Fetch)
    requires n < |assets| && AssetsHandled(files, failed, assets, n, generation, hash8, fetch)
    requires files <= files' && failed <= failed'
    requires Handled(files', failed', AssetLocation(assets[n], generation, hash8), assets[n].url, assets[n].assetType,
                     fetch(assets[n].url))
    ensures AssetsHandled(files', failed', assets, n + 1, generation, hash8, fetch)
  {
    forall k | 0 <= k < n
      ensures Handled(files', failed', AssetLocation(assets[k], generation, hash8), assets[k].url, assets[k].assetType,
                      fetch(assets[k].url))
    {
      HandledGrows(files, failed, files', failed', AssetLocation(assets[k], generation, hash8), assets[k].url,
                   assets[k].assetType, fetch(assets[k].url));
    }
  }

  class Scraper {
    const baseUrl: string
    var totalGenerations: nat
    var totalPokemon: nat
    var totalAnimations: nat
    var totalImages: nat
    /** `stats['failed_downloads']`. */
    var failedCount: nat
    var failedDownloads: seq<Failure>
    /** The locations already written under the output directory. */
    var files: set<Location>

    /** The failure counter and the failure list move together. */
    ghost predicate Valid()
      reads this
    {
      failedCount == |failedDownloads|
    }

    constructor(files: set<Location>)
      ensures Valid() && baseUrl == "https://www.phygitals.com" && this.files == files
      ensures totalGenerations == 0 && totalPokemon == 0 && totalAnimations == 0 && totalImages == 0
      ensures failedDownloads == []
    {
      baseUrl := "https://www.phygitals.com";
      totalGenerations := 0;
      totalPokemon := 0;
      totalAnimations := 0;
      totalImages := 0;
      failedCount := 0;
      failedDownloads := [];
      this.files := files;
    }

    /** `success_metrics['total_files_downloaded']`. */
    function TotalFilesDownloaded(): (n: nat)
      reads this
      ensures n >= totalAnimations && n >= totalImages
    {
      totalAnimations + totalImages
    }

    /**
     * `download_asset`: an existing file is success with no change; a
     * fetched one is written and counted by type; a failure is appended to
     * the list and counted, so the counter keeps equal to the list length.
     */
    method DownloadAsset(url: string, loc: Location, assetType: string, fetch: Fetch) returns (ok: bool)
      requires Valid()
      modifies this
      ensures Valid()
      ensures ok <==> loc in old(files) || fetch == Fetched
      ensures loc in old(files) ==>
        files == old(files) && totalImages == old(totalImages) &&
        totalAnimations == old(totalAnimations) && failedDownloads == old(failedDownloads)
      ensures loc !in old(files) && fetch == Fetched ==>
        files == old(files) + {loc} && failedDownloads == old(failedDownloads) &&
        (assetType == "animation" ==> totalAnimations == old(totalAnimations) + 1 && totalImages == old(totalImages)) &&
        (assetType != "animation" ==> totalImages == old(totalImages) + 1 && totalAnimations == old(totalAnimations))
      ensures loc !in old(files) && fetch.FetchFailed? ==>
        files == old(files) && totalImages == old(totalImages) && totalAnimations == old(totalAnimations) &&
        failedDownloads == old(failedDownloads) + [Failure(url, fetch.error, assetType)]
      ensures totalGenerations == old(totalGenerations) && totalPokemon == old(totalPokemon)
    {
      if loc in files {
        return true;
      }
      match fetch
      case FetchFailed(error) =>
        failedDownloads := failedDownloads + [Failure(url, error, assetType)];
        failedCount := failedCount + 1;
        return false;
      case Fetched =>
        files := files + {loc};
        if assetType == "animation" {
          totalAnimations := totalAnimations + 1;
        } else {
          totalImages := totalImages + 1;
        }
        return true;
    }

    /**
     * The download loop of `scrape_generation_complete`: every asset ends
     * up written or logged as failed, and each asset is either counted in
     * `downloaded` or adds one failure, never both.
     */
    method DownloadAssets(assets: seq<Asset>, generation: nat, hash8: string -> string, fetch: string -> Fetch)
      returns (downloaded: nat)
      requires Valid()
      modifies this
      ensures Valid()
      ensures downloaded + |failedDownloads| == |old(failedDownloads)| + |assets|
      ensures old(files) <= files && old(failedDownloads) <= failedDownloads
      ensures AssetsHandled(files, failedDownloads, assets, |assets|, generation, hash8, fetch)
      ensures TotalFilesDownloaded() <= old(TotalFilesDownloaded()) + downloaded
      ensures totalGenerations == old(totalGenerations) && totalPokemon == old(totalPokemon)
    {
      downloaded := 0;
      var i := 0;
      while i < |assets|
        invariant 0 <= i <= |assets| && Valid()
        invariant downloaded + |failedDownloads| == |old(failedDownloads)| + i
        invariant old(files) <= files && old(failedDownloads) <= failedDownloads
        invariant AssetsHandled(files, failedDownloads, assets, i, generation, hash8, fetch)
        invariant TotalFilesDownloaded() <= old(TotalFilesDownloaded()) + downloaded
        invariant totalGenerations == old(totalGenerations) && totalPokemon == old(totalPokemon)
      {
        var a := assets[i];
        var loc := AssetLocation(a, generation, hash8);
        ghost var files0, failed0 := files, failedDownloads;
        var ok := DownloadAsset(a.url, loc, a.assetType, fetch(a.url));
        if ok {
          downloaded := downloaded + 1;
        }
        assert failed0 <= failedDownloads;
        assert Handled(files, failedDownloads, loc, a.url, a.assetType, fetch(a.url)) by {
          if fetch(a.url).FetchFailed? && loc !in files {
            assert failedDownloads[|failedDownloads| - 1] == Failure(a.url, fetch(a.url).error, a.assetType);
          }
        }
        AssetsHandledNext(files0, failed0, files, failedDownloads, assets, i, generation, hash8, fetch);
        i := i + 1;
      }
    }

    /**
     * `scrape_generation_complete` after the page has loaded: a title
     * containing "404" gives no assets and no change; otherwise the
     * collected assets are downloaded, at most all of them count as
     * downloaded, and the generation and Pokémon totals advance.
     */
    method ScrapeGenerationComplete(generation: nat, title: string, imgs: seq<Img>, hash8: string -> string,
                                    fetch: string -> Fetch) returns (assets: seq<Asset>, downloaded: nat)
      requires Valid()
      modifies this
      ensures Valid()
      ensures Contains(title, "404") ==>
        assets == [] && downloaded == 0 && totalGenerations == old(totalGenerations) &&
        totalPokemon == old(totalPokemon) && files == old(files) && failedDownloads == old(failedDownloads) &&
        TotalFilesDownloaded() == old(TotalFilesDownloaded())
      ensures !Contains(title, "404") ==>
        assets == GenerationAssets(imgs, generation) &&
        downloaded <= |assets| &&
        downloaded + |failedDownloads| == |old(failedDownloads)| + |assets| &&
        AssetsHandled(files, failedDownloads, assets, |assets|, generation, hash8, fetch) &&
        totalGenerations == old(totalGenerations) + 1 && totalPokemon == old(totalPokemon) + |assets|
      ensures old(files) <= files && old(failedDownloads) <= failedDownloads
      ensures TotalFilesDownloaded() <= old(TotalFilesDownloaded()) + downloaded
    {
      if Contains(title, "404") {
        return [], 0;
      }
      var sources := CollectPokemonAssets(imgs);
      assets := MapSeq(sources, (s: Source) => AssetOf(s, generation));
      downloaded := DownloadAssets(assets, generation, hash8, fetch);
      totalGenerations := totalGenerations + 1;
      totalPokemon := totalPokemon + |assets|;
    }
  }
}
