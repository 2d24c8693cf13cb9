/**
 * The browser-driven Phygitals scraper (phygitals_browser_scraper.py):
 * media URLs collected from a rendered page, routed to a category by
 * keyword, named from the URL path (or a hash-based fallback), and
 * downloaded with per-category counters.
 *
 * Selenium is abstracted: the page yields its candidate media, in the
 * order the selectors visit them, as `Candidate` values. `hash(url)` is
 * opaque and enters as the text of its absolute value.
 */
module BrowserScraper {
  import opened PyText
  import GenerationScraper

  // ---------------------------------------------------------------------
  // clean_filename

  /** `clean_filename`: the two substitutions of the generation scraper, then the first 200 characters. */
  function CleanFilename(s: string): (r: string)
  {
    Take(GenerationScraper.CleanFilename(s), 200)
  }

  /** The result holds only `[\w\-_.]`, and its length is min(len(s), 200). */
  lemma CleanFilenameSpec(s: string)
    ensures |CleanFilename(s)| == if |s| <= 200 then |s| else 200
    ensures forall i :: 0 <= i < |CleanFilename(s)| ==> GenerationScraper.NameChar(CleanFilename(s)[i])
    ensures forall i :: 0 <= i < |CleanFilename(s)| ==>
      CleanFilename(s)[i] == if GenerationScraper.NameChar(s[i]) then s[i] else '_'
  {
    GenerationScraper.CleanFilenameSpec(s);
  }

  // ---------------------------------------------------------------------
  // categorize_and_download_media

  datatype Category = TrainerPacks | Sprites | Animations | PokemonImages

  /** The keyword routing of `download_media_item`, on the lowercased URL. */
  function CategoryOf(url: string): (c: Category)
  {
    var u := Lower(url);
    if ContainsAny(u, ["trainer", "pack", "claw"]) then TrainerPacks
    else if ContainsAny(u, ["sprite", "icon"]) then Sprites
    else if ContainsAny(u, [".mp4", ".webm", ".gif"]) then Animations
    else PokemonImages
  }

  /** The directory under `generation_{g}` that each category is stored in. */
  function Subdir(c: Category): string {
    match c
    case TrainerPacks => "trainer_packs"
    case Sprites => "pokemon_sprites"
    case Animations => "animations"
    case PokemonImages => "pokemon_cards"
  }

  /** Trainer/pack/claw beats sprite/icon, which beats the animation extensions; the rest are card images. */
  lemma CategoryPrecedence(url: string)
    ensures CategoryOf(url) == TrainerPacks <==> ContainsAny(Lower(url), ["trainer", "pack", "claw"])
    ensures CategoryOf(url) == Sprites <==>
      !ContainsAny(Lower(url), ["trainer", "pack", "claw"]) && ContainsAny(Lower(url), ["sprite", "icon"])
    ensures CategoryOf(url) == Animations <==>
      !ContainsAny(Lower(url), ["trainer", "pack", "claw"]) && !ContainsAny(Lower(url), ["sprite", "icon"]) &&
      ContainsAny(Lower(url), [".mp4", ".webm", ".gif"])
    ensures Subdir(CategoryOf(url)) == "pokemon_cards" <==> CategoryOf(url) == PokemonImages
  {
  }

  /** '.' occurs in the name. */
  predicate HasDot(name: string) { exists j :: 0 <= j < |name| && name[j] == '.' }

  /**
   * The file name of a media URL before cleaning: the basename of its path,
   * or `media_{abs(hash(url))}` with extension mp4 or png when the basename
   * is empty or has no '.'.
   */
  function MediaFileName(url: string, path: string, hashText: string): (name: string)
  {
    var base := BaseName(path);
    if base == "" || !HasDot(base) then
      "media_" + hashText + "." + (if Contains(url, ".mp4") then "mp4" else "png")
    else base
  }

  /** The fallback is used exactly when the basename is empty or has no '.'; its extension is mp4 exactly when the URL mentions ".mp4". */
  lemma MediaFileNameSpec(url: string, path: string, hashText: string)
    ensures var base := BaseName(path);
      (base != "" && HasDot(base)) ==> MediaFileName(url, path, hashText) == base
    ensures var base := BaseName(path);
      (base == "" || !HasDot(base)) ==>
        MediaFileName(url, path, hashText) == "media_" + hashText + (if Contains(url, ".mp4") then ".mp4" else ".png")
  {
    var base := BaseName(path);
    if base == "" || !HasDot(base) {
      assert "media_" + hashText + "." + "mp4" == "media_" + hashText + ".mp4";
      assert "media_" + hashText + "." + "png" == "media_" + hashText + ".png";
    }
  }

  // ---------------------------------------------------------------------
  // extract_pokemon_data_from_page

  /**
   * One source the page yields, in the order the loops visit them: from
   * the image and video selectors, the background-image scan and the
   * data-attribute scan. It carries the source ("" when the attribute is
   * absent), the alt and title texts and the record type.
   */
  datatype Candidate = Candidate(url: string, alt: string, title: string, kind: string)

  /** A record of `pokemon_data`. */
  datatype MediaRecord = MediaRecord(url: string, alt: string, title: string, kind: string, generation: int)

  /** Only sources that are non-empty and start with 'http' join `image_urls` and `pokemon_data`. */
  predicate Accepted(c: Candidate) { c.url != "" && StartsWith(c.url, "http") }

  function RecordOf(c: Candidate, generation: int): MediaRecord {
    MediaRecord(c.url, c.alt, c.title, c.kind, generation)
  }

  /** The records the loops append, in visiting order. */
  function Records(cs: seq<Candidate>, generation: int): (rs: seq<MediaRecord>)
    ensures |rs| <= |cs|
    ensures forall k :: 0 <= k < |rs| ==>
      rs[k].url != "" && StartsWith(rs[k].url, "http") && rs[k].generation == generation
    decreases |cs|
  {
    if |cs| == 0 then []
    else
      var c := cs[|cs| - 1];
      Records(cs[..|cs| - 1], generation) + (if Accepted(c) then [RecordOf(c, generation)] else [])
  }

  /** `image_urls`: the accepted sources. */
  function MediaUrls(cs: seq<Candidate>): (us: set<string>)
    decreases |cs|
  {
    if |cs| == 0 then {}
    else
      var c := cs[|cs| - 1];
      MediaUrls(cs[..|cs| - 1]) + (if Accepted(c) then {c.url} else {})
  }

  /** The records are exactly those of the accepted sources, each tagged with the generation. */
  lemma {:induction false} RecordsMember(cs: seq<Candidate>, generation: int, r: MediaRecord)
    ensures r in Records(cs, generation) <==> exists c :: c in cs && Accepted(c) && r == RecordOf(c, generation)
    decreases |cs|
  {
    if |cs| > 0 {
      var init := cs[..|cs| - 1];
      RecordsMember(init, generation, r);
      assert cs == init + [cs[|cs| - 1]];
    }
  }

  /** A URL is collected exactly when some visited element has it as an accepted source. */
  lemma {:induction false} MediaUrlsMember(cs: seq<Candidate>, u: string)
    ensures u in MediaUrls(cs) <==> exists c :: c in cs && Accepted(c) && c.url == u
    decreases |cs|
  {
    if |cs| > 0 {
      var init := cs[..|cs| - 1];
      MediaUrlsMember(init, u);
      assert cs == init + [cs[|cs| - 1]];
    }
  }

  /** The collected URLs are exactly the URLs of the records. */
  lemma MediaUrlsAreRecordUrls(cs: seq<Candidate>, generation: int, u: string)
    ensures u in MediaUrls(cs) <==> exists r :: r in Records(cs, generation) && r.url == u
  {
    MediaUrlsMember(cs, u);
    if u in MediaUrls(cs) {
      var c :| c in cs && Accepted(c) && c.url == u;
      RecordsMember(cs, generation, RecordOf(c, generation));
    }
    if exists r :: r in Records(cs, generation) && r.url == u {
      var r :| r in Records(cs, generation) && r.url == u;
      RecordsMember(cs, generation, r);
    }
  }

  /** The loops of `extract_pokemon_data_from_page` over the visited elements. */
  method CollectMedia(candidates: seq<Candidate>, generation: int) returns (urls: set<string>, records: seq<MediaRecord>)
    ensures urls == MediaUrls(candidates)
    ensures records == Records(candidates, generation)
  {
    urls := {};
    records := [];
    var i := 0;
    while i < |candidates|
      invariant 0 <= i <= |candidates|
      invariant urls == MediaUrls(candidates[..i])
      invariant records == Records(candidates[..i], generation)
    {
      var c := candidates[i];
      assert candidates[..i + 1][..i] == candidates[..i];
      if Accepted(c) {
        urls := urls + {c.url};
        records := records + [RecordOf(c, generation)];
      }
      i := i + 1;
    }
    assert candidates[..i] == candidates;
  }

  /** `list(image_urls)`: the set's elements, each once, in an order the model leaves open. */
  method SetToList(urls: set<string>) returns (list: seq<string>)
    ensures |list| == |urls|
    ensures forall u :: u in list <==> u in urls
    ensures forall a, b :: 0 <= a < b < |list| ==> list[a] != list[b]
  {
    list := [];
    var rest := urls;
    while rest != {}
      invariant rest <= urls
      invariant forall u :: u in list <==> u in urls - rest
      invariant forall a, b :: 0 <= a < b < |list| ==> list[a] != list[b]
      invariant |list| + |rest| == |urls|
      decreases |rest|
    {
      var u :| u in rest;
      assert u !in list;
      forall v
        ensures v in list + [u] <==> v in urls - (rest - {u})
      {
        assert v in list + [u] <==> v in list || v == u;
      }
      list := list + [u];
      rest := rest - {u};
    }
  }

  /** `extract_pokemon_data_from_page`: the URL list, each accepted source once, and the records. */
  method ExtractPokemonData(candidates: seq<Candidate>, generation: int) returns (urls: seq<string>, records: seq<MediaRecord>)
    ensures forall a, b :: 0 <= a < b < |urls| ==> urls[a] != urls[b]
    ensures forall u :: u in urls <==> exists c :: c in candidates && Accepted(c) && c.url == u
    ensures forall a :: 0 <= a < |urls| ==> StartsWith(urls[a], "http")
    ensures records == Records(candidates, generation)
  {
    var found;
    found, records := CollectMedia(candidates, generation);
    urls := SetToList(found);
    forall u
      ensures u in urls <==> exists c :: c in candidates && Accepted(c) && c.url == u
    {
      MediaUrlsMember(candidates, u);
    }
    forall a | 0 <= a < |urls|
      ensures StartsWith(urls[a], "http")
    {
      MediaUrlsMember(candidates, urls[a]);
    }
  }

  // ---------------------------------------------------------------------
  // download_file and the summary

  datatype DownloadStats = DownloadStats(pokemonImages: nat, animations: nat, trainerPacks: nat, sprites: nat, failed: nat)

  /** One more download counted under the category. */
  function Bump(s: DownloadStats, c: Category): (r: DownloadStats)
    ensures r.failed == s.failed
    ensures r.pokemonImages + r.animations + r.trainerPacks + r.sprites ==
            s.pokemonImages + s.animations + s.trainerPacks + s.sprites + 1
  {
    match c
    case PokemonImages => s.(pokemonImages := s.pokemonImages + 1)
    case Animations => s.(animations := s.animations + 1)
    case TrainerPacks => s.(trainerPacks := s.trainerPacks + 1)
    case Sprites => s.(sprites := s.sprites + 1)
  }

  /** The summary's total: all counted downloads except the failed ones. */
  function TotalFiles(s: DownloadStats): (n: int)
    ensures n == s.pokemonImages + s.animations + s.trainerPacks + s.sprites
  {
    (s.pokemonImages + s.animations + s.trainerPacks + s.sprites + s.failed) - s.failed
  }

  class Downloader {
    var downloaded: set<string>
    var stats: DownloadStats
    var failedDownloads: seq<string>

    /** Each saved URL was counted under one category, and each failure once. */
    ghost predicate Valid()
      reads this
    {
      stats.pokemonImages + stats.animations + stats.trainerPacks + stats.sprites == |downloaded| &&
      stats.failed == |failedDownloads|
    }

    constructor()
      ensures Valid()
      ensures downloaded == {} && failedDownloads == []
      ensures stats == DownloadStats(0, 0, 0, 0, 0)
    {
      downloaded := {};
      stats := DownloadStats(0, 0, 0, 0, 0);
      failedDownloads := [];
    }

    /** `download_file(url, path, category)`; `fetchOk` is whether the fetch and the write succeed. */
    method DownloadFile(url: string, category: Category, fetchOk: bool) returns (ok: bool)
      requires Valid()
      modifies this
      ensures Valid()
      ensures url in old(downloaded) ==>
        ok && downloaded == old(downloaded) && stats == old(stats) && failedDownloads == old(failedDownloads)
      ensures url !in old(downloaded) && fetchOk ==>
        ok && downloaded == old(downloaded) + {url} && failedDownloads == old(failedDownloads) &&
        stats == Bump(old(stats), category)
      ensures url !in old(downloaded) && !fetchOk ==>
        !ok && downloaded == old(downloaded) && failedDownloads == old(failedDownloads) + [url] &&
        stats == old(stats).(failed := old(stats).failed + 1)
    {
      if url in downloaded {
        return true;
      }
      if !fetchOk {
        failedDownloads := failedDownloads + [url];
        stats := stats.(failed := stats.failed + 1);
        return false;
      }
      downloaded := downloaded + {url};
      stats := Bump(stats, category);
      ok := true;
    }

    /** `download_media_item`: routes the URL and downloads it under its category. */
    method DownloadMediaItem(url: string, fetchOk: bool) returns (ok: bool)
      requires Valid()
      modifies this
      ensures Valid()
      ensures ok <==> url in old(downloaded) || fetchOk
      ensures url !in old(downloaded) && fetchOk ==> stats == Bump(old(stats), CategoryOf(url))
    {
      ok := DownloadFile(url, CategoryOf(url), fetchOk);
    }

    /** The summary's "Total files downloaded": the number of distinct URLs saved. */
    method Summary() returns (total: int)
      requires Valid()
      ensures total == |downloaded|
    {
      total := TotalFiles(stats);
    }
  }
}
