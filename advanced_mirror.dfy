/**
 * The advanced Phygitals mirror (phygitals_advanced_mirror_scraper.py):
 * image classification with six outcomes, the direct generation URLs, the
 * union of the discovery strategies, a retrying asset downloader with one
 * counter per asset type, the extraction rule for a card element, and the
 * routing of a Pokémon's images to media directories.
 *
 * The network and the file system enter as an oracle saying what each
 * download attempt finds; the browser's discovery strategies enter as
 * their results, `None` for a strategy that raised. Sleeps, logging and
 * the downloaded size in MB are not modelled.
 */
module AdvancedMirror {
  import opened PyText
  import opened ElementScan
  import opened Collections

  // ---------------------------------------------------------------------
  // classify_image_type

  datatype ImageType = Animation | Sprite | Card | Background | Image | Unknown

  /** The string `classify_image_type` returns. */
  function TypeName(t: ImageType): string {
    match t
    case Animation => "animation"
    case Sprite => "sprite"
    case Card => "card"
    case Background => "background"
    case Image => "image"
    case Unknown => "unknown"
  }

  /** `classify_image_type`, on the lowercased URL. */
  function ClassifyImageType(url: string): (t: ImageType)
  {
    var u := Lower(url);
    if Contains(u, ".gif") then Animation
    else if ContainsAny(u, ["sprite", "pokemon"]) then Sprite
    else if Contains(u, "card") then Card
    else if Contains(u, "background") then Background
    else if ContainsAny(u, [".png", ".jpg", ".jpeg"]) then Image
    else Unknown
  }

  /** .gif > sprite/pokemon > card > background > .png/.jpg/.jpeg > unknown, whatever the case of the URL. */
  lemma ClassifyImagePrecedence(url: string)
    ensures var u := Lower(url);
      (ClassifyImageType(url) == Animation <==> Contains(u, ".gif")) &&
      (ClassifyImageType(url) == Sprite <==> !Contains(u, ".gif") && ContainsAny(u, ["sprite", "pokemon"])) &&
      (ClassifyImageType(url) == Card <==>
        !Contains(u, ".gif") && !ContainsAny(u, ["sprite", "pokemon"]) && Contains(u, "card")) &&
      (ClassifyImageType(url) == Background <==>
        !Contains(u, ".gif") && !ContainsAny(u, ["sprite", "pokemon"]) && !Contains(u, "card") && Contains(u, "background")) &&
      (ClassifyImageType(url) == Unknown <==>
        !Contains(u, ".gif") && !ContainsAny(u, ["sprite", "pokemon"]) && !Contains(u, "card") &&
        !Contains(u, "background") && !ContainsAny(u, [".png", ".jpg", ".jpeg"]))
    ensures ClassifyImageType(Lower(url)) == ClassifyImageType(url)
  {
    LowerIdempotent(url);
  }

  // ---------------------------------------------------------------------
  // discover_by_direct_urls

  /** A URL pattern with one `{}` placeholder, split around it. */
  datatype Pattern = Pattern(prefix: string, suffix: string)

  /** The four patterns, where `pokemon_base` is `base_url + "/pokemon/"`. */
  function Patterns(baseUrl: string): (ps: seq<Pattern>)
    ensures |ps| == 4
  {
    var pokemonBase := baseUrl + "/pokemon/";
    [Pattern(pokemonBase + "generation-", ""), Pattern(pokemonBase + "gen", ""),
     Pattern(pokemonBase, ""), Pattern(baseUrl + "/generation", "/pokemon")]
  }

  /** A URL pattern with the generation number filled in. */
  function Format(p: Pattern, gen: nat): string {
    p.prefix + NatToString(gen) + p.suffix
  }

  /** The URL the p-th pattern gives for generation g. */
  function DirectUrl(baseUrl: string, p: nat, g: nat): string
    requires p < 4
  {
    Format(Patterns(baseUrl)[p], g)
  }

  /** The k-th URL the nested loops add: generation 1 + k / 4, pattern k % 4. */
  function NthDirectUrl(baseUrl: string, k: nat): string {
    DirectUrl(baseUrl, k % 4, 1 + k / 4)
  }

  lemma PatternLengths(baseUrl: string)
    ensures |Patterns(baseUrl)[0].prefix + Patterns(baseUrl)[0].suffix| == |baseUrl| + 20
    ensures |Patterns(baseUrl)[1].prefix + Patterns(baseUrl)[1].suffix| == |baseUrl| + 12
    ensures |Patterns(baseUrl)[2].prefix + Patterns(baseUrl)[2].suffix| == |baseUrl| + 9
    ensures |Patterns(baseUrl)[3].prefix + Patterns(baseUrl)[3].suffix| == |baseUrl| + 19
  {
  }

  /** For single-digit generations, different (pattern, generation) pairs give different URLs. */
  lemma DirectUrlInjective(baseUrl: string, p1: nat, g1: nat, p2: nat, g2: nat)
    requires p1 < 4 && p2 < 4 && g1 < 10 && g2 < 10
    requires DirectUrl(baseUrl, p1, g1) == DirectUrl(baseUrl, p2, g2)
    ensures p1 == p2 && g1 == g2
  {
    var ps := Patterns(baseUrl);
    PatternLengths(baseUrl);
    assert NatToString(g1) == [DigitChar(g1)];
    assert NatToString(g2) == [DigitChar(g2)];
    assert |DirectUrl(baseUrl, p1, g1)| == |ps[p1].prefix + ps[p1].suffix| + 1;
    assert |DirectUrl(baseUrl, p2, g2)| == |ps[p2].prefix + ps[p2].suffix| + 1;
    assert p1 == p2;
    var at := |ps[p1].prefix|;
    assert DirectUrl(baseUrl, p1, g1)[at] == DigitChar(g1);
    assert DirectUrl(baseUrl, p2, g2)[at] == DigitChar(g2);
    assert DigitValue(DigitChar(g1)) == g1 && DigitValue(DigitChar(g2)) == g2;
  }

  /** The k-th URL is the one of generation g and pattern p when k = 4(g-1) + p. */
  lemma NthDirectUrlIs(baseUrl: string, g: nat, p: nat)
    requires 1 <= g && p < 4
    ensures NthDirectUrl(baseUrl, 4 * (g - 1) + p) == DirectUrl(baseUrl, p, g)
  {
    var k := 4 * (g - 1) + p;
    assert k % 4 == p && k / 4 == g - 1;
  }

  lemma NthDirectUrlRange(k: nat)
    requires k < 36
    ensures k % 4 < 4 && 1 <= 1 + k / 4 <= 9
  {
  }

  lemma NthDirectUrlInjective(baseUrl: string, k1: nat, k2: nat)
    requires k1 < 36 && k2 < 36
    ensures NthDirectUrl(baseUrl, k1) == NthDirectUrl(baseUrl, k2) ==> k1 == k2
  {
    if NthDirectUrl(baseUrl, k1) == NthDirectUrl(baseUrl, k2) {
      DirectUrlInjective(baseUrl, k1 % 4, 1 + k1 / 4, k2 % 4, 1 + k2 / 4);
      assert k1 == 4 * (k1 / 4) + k1 % 4 && k2 == 4 * (k2 / 4) + k2 % 4;
    }
  }

  /** `urls` holds exactly the first `n` URLs the loops produce. */
  ghost predicate FirstUrls(baseUrl: string, urls: set<string>, n: nat)
  {
    forall u :: u in urls <==> exists k :: 0 <= k < n && u == NthDirectUrl(baseUrl, k)
  }

  /** Adding the next URL grows the set by one, since no earlier URL equals it. */
  lemma AddNextUrl(baseUrl: string, urls: set<string>, n: nat)
    requires n < 36 && FirstUrls(baseUrl, urls, n) && |urls| == n
    ensures FirstUrls(baseUrl, urls + {NthDirectUrl(baseUrl, n)}, n + 1)
    ensures |urls + {NthDirectUrl(baseUrl, n)}| == n + 1
  {
    var url := NthDirectUrl(baseUrl, n);
    assert url !in urls by {
      forall k | 0 <= k < n
        ensures NthDirectUrl(baseUrl, k) != url
      {
        NthDirectUrlInjective(baseUrl, k, n);
      }
    }
    forall u
      ensures u in urls + {url} <==> exists k :: 0 <= k < n + 1 && u == NthDirectUrl(baseUrl, k)
    {
      if exists k :: 0 <= k < n + 1 && u == NthDirectUrl(baseUrl, k) {
        var k :| 0 <= k < n + 1 && u == NthDirectUrl(baseUrl, k);
        if k < n {
          assert u in urls;
        }
      }
    }
  }

  /** The first 36 URLs are those of generations 1..9 under the four patterns. */
  lemma AllUrls(baseUrl: string, urls: set<string>)
    requires FirstUrls(baseUrl, urls, 36)
    ensures forall g, p :: 1 <= g <= 9 && 0 <= p < 4 ==> DirectUrl(baseUrl, p, g) in urls
    ensures forall u :: u in urls ==> exists g, p :: 1 <= g <= 9 && 0 <= p < 4 && u == DirectUrl(baseUrl, p, g)
  {
    forall g, p | 1 <= g <= 9 && 0 <= p < 4
      ensures DirectUrl(baseUrl, p, g) in urls
    {
      NthDirectUrlIs(baseUrl, g, p);
    }
    forall u | u in urls
      ensures exists g, p :: 1 <= g <= 9 && 0 <= p < 4 && u == DirectUrl(baseUrl, p, g)
    {
      var k :| 0 <= k < 36 && u == NthDirectUrl(baseUrl, k);
      NthDirectUrlRange(k);
      assert u == DirectUrl(baseUrl, k % 4, 1 + k / 4);
    }
  }

  /** The inner loop of `discover_by_direct_urls`: the four patterns formatted with one generation. */
  method AddGeneration(baseUrl: string, urls0: set<string>, gen: nat) returns (urls: set<string>)
    requires 1 <= gen <= 9 && |urls0| == 4 * (gen - 1) && FirstUrls(baseUrl, urls0, 4 * (gen - 1))
    ensures |urls| == 4 * gen && FirstUrls(baseUrl, urls, 4 * gen)
  {
    var patterns := Patterns(baseUrl);
    urls := urls0;
    var p := 0;
    while p < 4
      invariant 0 <= p <= 4
      invariant |urls| == 4 * (gen - 1) + p && FirstUrls(baseUrl, urls, 4 * (gen - 1) + p)
    {
      var url := Format(patterns[p], gen);
      NthDirectUrlIs(baseUrl, gen, p);
      AddNextUrl(baseUrl, urls, 4 * (gen - 1) + p);
      urls := urls + {url};
      p := p + 1;
    }
  }

  /** `discover_by_direct_urls`: four patterns for each generation 1..9, 36 distinct URLs. */
  method DiscoverByDirectUrls(baseUrl: string) returns (urls: set<string>)
    ensures |urls| == 36
    ensures forall g, p :: 1 <= g <= 9 && 0 <= p < 4 ==> DirectUrl(baseUrl, p, g) in urls
    ensures forall u :: u in urls ==> exists g, p :: 1 <= g <= 9 && 0 <= p < 4 && u == DirectUrl(baseUrl, p, g)
  {
    urls := {};
    var gen := 1;
    while gen < 10
      invariant 1 <= gen <= 10
      invariant |urls| == 4 * (gen - 1) && FirstUrls(baseUrl, urls, 4 * (gen - 1))
    {
      urls := AddGeneration(baseUrl, urls, gen);
      gen := gen + 1;
    }
    AllUrls(baseUrl, urls);
  }

  // ---------------------------------------------------------------------
  // discover_pokemon_content

  /** The union of the strategies' results; a strategy that raised (`None`) adds nothing. */
  function UnionOf(results: seq<Option<set<string>>>): (all: set<string>)
    decreases |results|
  {
    if |results| == 0 then {}
    else
      var last := results[|results| - 1];
      UnionOf(results[..|results| - 1]) + (if last.Some? then last.value else {})
  }

  /** A URL is found exactly when some strategy that succeeded returned it. */
  lemma {:induction false} UnionOfMember(results: seq<Option<set<string>>>, u: string)
    ensures u in UnionOf(results) <==> exists i :: 0 <= i < |results| && results[i].Some? && u in results[i].value
    decreases |results|
  {
    if |results| > 0 {
      var init := results[..|results| - 1];
      UnionOfMember(init, u);
      if exists i :: 0 <= i < |init| && init[i].Some? && u in init[i].value {
        var i :| 0 <= i < |init| && init[i].Some? && u in init[i].value;
        assert results[i] == init[i];
      }
      if exists i :: 0 <= i < |results| && results[i].Some? && u in results[i].value {
        var i :| 0 <= i < |results| && results[i].Some? && u in results[i].value;
        if i < |init| {
          assert init[i] == results[i];
        }
      }
    }
  }

  // ---------------------------------------------------------------------
  // extract_pokemon_data_enhanced

  /** A card element: its images, its text and its attributes as (name, value) pairs. */
  datatype Element = Element(imgs: seq<ElementScan.Img>, text: string, attributes: seq<(string, string)>)

  datatype ImageRecord = ImageRecord(url: string, alt: string, kind: ImageType)

  /** The extracted record; `text` and `number` are `None` where the dict has no such key. */
  datatype PokemonData = PokemonData(
    generation: string, sourceUrl: string, images: seq<ImageRecord>,
    text: Option<string>, number: Option<nat>, metadata: seq<(string, string)>)

  /** Each collected source typed by `classify_image_type`. */
  function ImageRecords(sources: seq<ElementScan.Source>): (r: seq<ImageRecord>)
    ensures |r| == |sources|
    ensures forall k :: 0 <= k < |r| ==>
      r[k].url == sources[k].url && r[k].alt == sources[k].alt && r[k].kind == ClassifyImageType(sources[k].url)
  {
    seq(|sources|, k requires 0 <= k < |sources| =>
      ImageRecord(sources[k].url, sources[k].alt, ClassifyImageType(sources[k].url)))
  }

  predicate IsDataAttribute(a: (string, string)) { StartsWith(a.0, "data-") }

  /** The attributes whose name starts with 'data-', every one of them and in order. */
  function DataAttributes(attributes: seq<(string, string)>): (r: seq<(string, string)>)
    ensures |r| <= |attributes|
    ensures forall k :: 0 <= k < |r| ==> StartsWith(r[k].0, "data-") && r[k] in attributes
    ensures r == Filter(attributes, IsDataAttribute)
    ensures forall a :: a in r <==> a in attributes && StartsWith(a.0, "data-")
    decreases |attributes|
  {
    if |attributes| == 0 then []
    else
      var init := DataAttributes(attributes[..|attributes| - 1]);
      var last := attributes[|attributes| - 1];
      assert attributes == attributes[..|attributes| - 1] + [last];
      FilterMember(attributes, IsDataAttribute, last);
      if StartsWith(last.0, "data-") then init + [last] else init
  }

  /** `extract_pokemon_data_enhanced` on an element whose reads do not raise. */
  function ExtractPokemonData(e: Element, generation: string, sourceUrl: string): (r: Option<PokemonData>)
  {
    var images := ImageRecords(ElementScan.Sources(e.imgs));
    var text := Strip(e.text);
    var metadata := DataAttributes(e.attributes);
    if |images| == 0 && |metadata| == 0 && text == "" then None
    else
      Some(PokemonData(generation, sourceUrl, images,
        if text == "" then None else Some(text),
        if text == "" then None else ElementScan.NumberIn(text),
        metadata))
  }

  /**
   * A record is returned exactly when the element has an http image, a
   * data- attribute or non-blank text; its number is the first digit run
   * of the stripped text cut to four digits, below 10000.
   */
  lemma ExtractPokemonDataSpec(e: Element, generation: string, sourceUrl: string)
    ensures var r := ExtractPokemonData(e, generation, sourceUrl);
      r.None? <==> (|ElementScan.Sources(e.imgs)| == 0 && Strip(e.text) == "" &&
                    forall k :: 0 <= k < |e.attributes| ==> !StartsWith(e.attributes[k].0, "data-"))
    ensures var r := ExtractPokemonData(e, generation, sourceUrl);
      r.Some? ==>
        r.value.generation == generation &&
        (forall k :: 0 <= k < |r.value.images| ==> StartsWith(r.value.images[k].url, "http")) &&
        (r.value.text.Some? <==> Strip(e.text) != "") &&
        (r.value.number.Some? ==> r.value.number.value < 10000 && r.value.text.Some?) &&
        (r.value.number.Some? ==>
          FirstDigitRun(Strip(e.text)).Some? &&
          r.value.number.value == DigitsValue(Take(FirstDigitRun(Strip(e.text)).value, 4))) &&
        r.value.metadata == Filter(e.attributes, IsDataAttribute) &&
        (r.value.text.Some? ==>
          (r.value.number.None? <==> forall j :: 0 <= j < |r.value.text.value| ==> !IsDigit(r.value.text.value[j])))
  {
    var metadata := DataAttributes(e.attributes);
    if |metadata| != 0 {
      assert metadata[0] in metadata;
    }
    if k :| 0 <= k < |e.attributes| && StartsWith(e.attributes[k].0, "data-") {
      assert e.attributes[k] in metadata;
    }
  }

  // ---------------------------------------------------------------------
  // download_asset

  /** The counter that a saved asset of this type increments. */
  datatype Bucket = ImagesBucket | AnimationsBucket | AssetsBucket

  function BucketOf(assetType: string): Bucket {
    if assetType == "Pokemon sprite" then ImagesBucket
    else if assetType == "Pokemon animation" then AnimationsBucket
    else AssetsBucket
  }

  /** The index of the first attempt from `i` on that does not raise, or `n` when all of them up to `n` raise. */
  function FirstSettledFrom(outcome: nat -> Attempt, i: nat, n: nat): (k: nat)
    decreases n - i
  {
    if i >= n then n
    else if !outcome(i).Raised? then i
    else FirstSettledFrom(outcome, i + 1, n)
  }

  /** The first attempt that does not raise, or `n` when every attempt up to `n` raises. */
  function FirstSettled(outcome: nat -> Attempt, n: nat): (k: nat)
  {
    FirstSettledFrom(outcome, 0, n)
  }

  lemma {:induction false} FirstSettledFromSpec(outcome: nat -> Attempt, i: nat, n: nat)
    requires i <= n
    ensures i <= FirstSettledFrom(outcome, i, n) <= n
    ensures forall j :: i <= j < FirstSettledFrom(outcome, i, n) ==> outcome(j).Raised?
    ensures FirstSettledFrom(outcome, i, n) < n ==> !outcome(FirstSettledFrom(outcome, i, n)).Raised?
    decreases n - i
  {
    if i < n && outcome(i).Raised? {
      FirstSettledFromSpec(outcome, i + 1, n);
    }
  }

  /** At most `n` attempts: every attempt before the first settled one raised, and that one did not. */
  lemma FirstSettledSpec(outcome: nat -> Attempt, n: nat)
    ensures FirstSettled(outcome, n) <= n
    ensures forall j :: 0 <= j < FirstSettled(outcome, n) ==> outcome(j).Raised?
    ensures FirstSettled(outcome, n) < n ==> !outcome(FirstSettled(outcome, n)).Raised?
  {
    FirstSettledFromSpec(outcome, 0, n);
  }

  // ---------------------------------------------------------------------
  // download_pokemon_media

  /** The name an image is saved under before the generation prefix: the URL's basename, or `pokemon_{generation}_{number}_{md5[:8]}` with .gif for animations and .png otherwise. */
  function OriginalFilename(path: string, generation: string, number: string, hash8: string, t: ImageType): string {
    ElementScan.FileNameOr(path,
      "pokemon_" + generation + "_" + number + "_" + hash8 + (if t == Animation then ".gif" else ".png"))
  }

  /** The media directory each image type is routed to. */
  function MediaDir(t: ImageType): (dir: string)
  {
    match t
    case Animation => "media/pokemon_animations"
    case Sprite => "media/pokemon_sprites"
    case Card => "media/pokemon_cards"
    case _ => "media/pokemon_sprites"
  }

  /** Where `download_pokemon_media` saves an image. */
  function MediaLocation(path: string, generation: string, number: string, hash8: string, t: ImageType): (loc: Location)
  {
    Location(MediaDir(t), "gen_" + generation + "_" + OriginalFilename(path, generation, number, hash8, t))
  }

  /** Animations, sprites and cards have their own directories and everything else joins the sprites; every name starts with `gen_{generation}_`. */
  lemma MediaLocationSpec(path: string, generation: string, number: string, hash8: string, t: ImageType)
    ensures var loc := MediaLocation(path, generation, number, hash8, t);
      StartsWith(loc.file, "gen_" + generation + "_") &&
      (loc.dir == "media/pokemon_animations" <==> t == Animation) &&
      (loc.dir == "media/pokemon_cards" <==> t == Card) &&
      (loc.dir == "media/pokemon_sprites" <==> t != Animation && t != Card)
    ensures var loc := MediaLocation(path, generation, number, hash8, t);
      var base := BaseName(path);
      (base != "" && ElementScan.HasDot(base)) ==> loc.file == "gen_" + generation + "_" + base
  {
    var loc := MediaLocation(path, generation, number, hash8, t);
    var pre := "gen_" + generation + "_";
    assert loc.file[..|pre|] == pre;
  }

  /** The asset type passed to `download_asset`: sprites count as images, animations as animations, every other type as a generic asset. */
  lemma MediaBucket(t: ImageType)
    ensures BucketOf("Pokemon " + TypeName(t)) ==
      (if t == Sprite then ImagesBucket else if t == Animation then AnimationsBucket else AssetsBucket)
  {
    var s := "Pokemon " + TypeName(t);
    if t != Sprite {
      assert s[8..] == TypeName(t);
      assert s != "Pokemon sprite" by { assert "Pokemon sprite"[8..] == "sprite"; }
    }
    if t != Animation {
      assert s[8..] == TypeName(t);
      assert s != "Pokemon animation" by { assert "Pokemon animation"[8..] == "animation"; }
    }
  }

  class Mirror {
    var imagesDownloaded: nat
    var animationsDownloaded: nat
    var assetsDownloaded: nat
    var uniqueUrlsFound: nat
    var failedDownloads: seq<Failure>

    constructor()
      ensures imagesDownloaded == 0 && animationsDownloaded == 0 && assetsDownloaded == 0
      ensures uniqueUrlsFound == 0 && failedDownloads == []
    {
      imagesDownloaded := 0;
      animationsDownloaded := 0;
      assetsDownloaded := 0;
      uniqueUrlsFound := 0;
      failedDownloads := [];
    }

    /** The counters after one more saved asset in bucket `b`. */
    ghost predicate Counted(b: Bucket, images: nat, animations: nat, assets: nat)
      reads this
    {
      match b
      case ImagesBucket => imagesDownloaded == images + 1 && animationsDownloaded == animations && assetsDownloaded == assets
      case AnimationsBucket => imagesDownloaded == images && animationsDownloaded == animations + 1 && assetsDownloaded == assets
      case AssetsBucket => imagesDownloaded == images && animationsDownloaded == animations && assetsDownloaded == assets + 1
    }

    /**
     * `download_asset` with `max_retries` attempts, `outcome(j)` being what
     * attempt j finds. The first attempt that does not raise decides: an
     * existing file changes nothing, a saved one is counted by asset type.
     * When every attempt raises, the last one's error is logged once.
     */
    method DownloadAsset(url: string, assetType: string, maxRetries: int, outcome: nat -> Attempt) returns (ok: bool)
      modifies this
      ensures var n := if maxRetries < 0 then 0 else maxRetries;
        var k := FirstSettled(outcome, n);
        (ok <==> k < n) &&
        (k < n && outcome(k) == Saved ==>
          Counted(BucketOf(assetType), old(imagesDownloaded), old(animationsDownloaded), old(assetsDownloaded)) &&
          failedDownloads == old(failedDownloads)) &&
        (k < n && outcome(k) == FileThere ==>
          imagesDownloaded == old(imagesDownloaded) && animationsDownloaded == old(animationsDownloaded) &&
          assetsDownloaded == old(assetsDownloaded) && failedDownloads == old(failedDownloads)) &&
        (k == n && n > 0 ==>
          outcome(n - 1).Raised? && imagesDownloaded == old(imagesDownloaded) && animationsDownloaded == old(animationsDownloaded) &&
          assetsDownloaded == old(assetsDownloaded) &&
          failedDownloads == old(failedDownloads) + [Failure(url, outcome(n - 1).error, assetType)]) &&
        (n == 0 ==>
          imagesDownloaded == old(imagesDownloaded) && animationsDownloaded == old(animationsDownloaded) &&
          assetsDownloaded == old(assetsDownloaded) && failedDownloads == old(failedDownloads))
      ensures uniqueUrlsFound == old(uniqueUrlsFound)
    {
      var n: nat := if maxRetries < 0 then 0 else maxRetries;
      var attempt := 0;
      while attempt < n
        invariant 0 <= attempt <= n
        invariant FirstSettledFrom(outcome, attempt, n) == FirstSettled(outcome, n)
        invariant attempt == n ==> n == 0
        invariant imagesDownloaded == old(imagesDownloaded) && animationsDownloaded == old(animationsDownloaded)
        invariant assetsDownloaded == old(assetsDownloaded) && failedDownloads == old(failedDownloads)
        invariant uniqueUrlsFound == old(uniqueUrlsFound)
      {
        FirstSettledFromSpec(outcome, attempt, n);
        match outcome(attempt)
        case FileThere =>
          return true;
        case Saved =>
          match BucketOf(assetType) {
            case ImagesBucket => imagesDownloaded := imagesDownloaded + 1;
            case AnimationsBucket => animationsDownloaded := animationsDownloaded + 1;
            case AssetsBucket => assetsDownloaded := assetsDownloaded + 1;
          }
          return true;
        case Raised(error) =>
          if attempt == n - 1 {
            failedDownloads := failedDownloads + [Failure(url, error, assetType)];
            return false;
          }
        attempt := attempt + 1;
      }
      return false;
    }

    /**
     * `download_pokemon_media`: each image goes to the location its type
     * routes it to, with up to three attempts; `world(loc, j)` is what
     * attempt j at `loc` finds. No image, no change.
     */
    method DownloadPokemonMedia(data: PokemonData, numberText: string, hash8: string -> string,
                                pathOf: string -> string, world: (Location, nat) -> Attempt)
      modifies this
      ensures |data.images| == 0 ==>
        imagesDownloaded == old(imagesDownloaded) && animationsDownloaded == old(animationsDownloaded) &&
        assetsDownloaded == old(assetsDownloaded) && failedDownloads == old(failedDownloads)
      ensures imagesDownloaded + animationsDownloaded + assetsDownloaded + |failedDownloads| <=
        old(imagesDownloaded + animationsDownloaded + assetsDownloaded + |failedDownloads|) + |data.images|
      ensures |failedDownloads| >= |old(failedDownloads)| && failedDownloads[..|old(failedDownloads)|] == old(failedDownloads)
      ensures uniqueUrlsFound == old(uniqueUrlsFound)
    {
      if |data.images| == 0 {
        return;
      }
      ghost var before := failedDownloads;
      var i := 0;
      while i < |data.images|
        invariant 0 <= i <= |data.images|
        invariant imagesDownloaded + animationsDownloaded + assetsDownloaded + |failedDownloads| <=
          old(imagesDownloaded + animationsDownloaded + assetsDownloaded + |failedDownloads|) + i
        invariant |failedDownloads| >= |before| && failedDownloads[..|before|] == before
        invariant uniqueUrlsFound == old(uniqueUrlsFound)
      {
        var img := data.images[i];
        var loc := MediaLocation(pathOf(img.url), data.generation, numberText, hash8(img.url), img.kind);
        var ok := DownloadAsset(img.url, "Pokemon " + TypeName(img.kind), 3, (j: nat) => world(loc, j));
        i := i + 1;
      }
    }

    /** `discover_pokemon_content`: the union of the strategies' results, whose size is recorded as `unique_urls_found`. */
    method DiscoverPokemonContent(results: seq<Option<set<string>>>) returns (all: set<string>)
      modifies this
      ensures all == UnionOf(results)
      ensures uniqueUrlsFound == |all|
      ensures imagesDownloaded == old(imagesDownloaded) && animationsDownloaded == old(animationsDownloaded)
      ensures assetsDownloaded == old(assetsDownloaded) && failedDownloads == old(failedDownloads)
    {
      all := {};
      var i := 0;
      while i < |results|
        invariant 0 <= i <= |results|
        invariant all == UnionOf(results[..i])
      {
        assert results[..i + 1][..i] == results[..i];
        match results[i] {
          case Some(urls) => all := all + urls;
          case None =>
        }
        i := i + 1;
      }
      assert results[..i] == results;
      uniqueUrlsFound := |all|;
    }
  }
}
