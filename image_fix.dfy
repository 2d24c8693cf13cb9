/**
 * The image-fix Phygitals scraper (phygitals_image_fix_scraper.py): per
 * generation, the Pokémon image URLs of every `img` are collected once
 * each, typed animation or image, and saved under pokemon_animations or
 * pokemon_images with a `gen_{n}_` prefix. Unlike the other scrapers its
 * `download_asset` keeps no failure list.
 *
 * The browser enters as the page's images; the network as `fetch`, what
 * fetching each URL gives; the output directory as the set `files` of
 * locations already written. `hash8(url)` stands for the first eight hex
 * digits of the URL's MD5 and `pathOf(url)` for `urlparse(url).path`.
 */
module ImageFix {
  import opened PyText
  import opened Collections
  import opened ElementScan

  /** One entry of `pokemon_images`. */
  datatype PokemonImage = PokemonImage(url: string, alt: string, imgType: string, generation: nat)

  /** The dict built for one collected source, typed by '.gif'. */
  function ImageOf(s: Source, generation: nat): (p: PokemonImage)
    ensures p.url == s.url && p.alt == s.alt && p.generation == generation
    ensures p.imgType == "animation" <==> Contains(Lower(s.url), ".gif")
  {
    PokemonImage(s.url, s.alt, AssetTypeOf(s.url), generation)
  }

  /** The images the collection loop yields for the page's `img` elements. */
  function GenerationImages(imgs: seq<Img>, generation: nat): (r: seq<PokemonImage>)
    ensures |r| == |PokemonAssets(imgs)|
  {
    MapSeq(PokemonAssets(imgs), (s: Source) => ImageOf(s, generation))
  }

  /**
   * The collected images have pairwise distinct URLs, each an http src or
   * data-src of the page naming pokemon, sprite, card or pkmn, typed
   * animation exactly when it contains '.gif'.
   */
  lemma GenerationImagesSpec(imgs: seq<Img>, generation: nat)
    ensures var r := GenerationImages(imgs, generation);
      forall j, k :: 0 <= j < k < |r| ==> r[j].url != r[k].url
    ensures var r := GenerationImages(imgs, generation);
      forall k :: 0 <= k < |r| ==>
        Source(r[k].url, r[k].alt) in Sources(imgs) &&
        ContainsAny(Lower(r[k].url), ["pokemon", "sprite", "card", "pkmn"]) &&
        (r[k].imgType == "animation" <==> Contains(Lower(r[k].url), ".gif"))
  {
    var sources := PokemonAssets(imgs);
    var r := GenerationImages(imgs, generation);
    PokemonAssetsSpec(imgs);
    forall k | 0 <= k < |r|
      ensures Source(r[k].url, r[k].alt) in Sources(imgs) && IsPokemonAsset(Source(r[k].url, r[k].alt))
    {
      assert Source(r[k].url, r[k].alt) == sources[k];
    }
  }

  /** Where an image is saved: the URL path's basename, or the `gen{n}_{md5[:8]}` fallback, under the type's directory. */
  function ImageLocation(p: PokemonImage, generation: nat, hash8: string -> string, pathOf: string -> string): Location {
    var g := NatToString(generation);
    var isAnimation := p.imgType == "animation";
    GenLocation(isAnimation, g, FileNameOr(pathOf(p.url), GenFallbackName(g, hash8(p.url), isAnimation)))
  }

  /** Animations go to pokemon_animations and images to pokemon_images, with the generation prefix, the path's basename when it has a '.', and otherwise a fallback name whose extension follows the type. */
  lemma ImageLocationSpec(p: PokemonImage, generation: nat, hash8: string -> string, pathOf: string -> string)
    ensures ImageLocation(p, generation, hash8, pathOf).dir == "pokemon_animations" <==> p.imgType == "animation"
    ensures ImageLocation(p, generation, hash8, pathOf).dir == "pokemon_images" <==> p.imgType != "animation"
    ensures StartsWith(ImageLocation(p, generation, hash8, pathOf).file, "gen_" + NatToString(generation) + "_")
    ensures var base := BaseName(pathOf(p.url));
      base != "" && HasDot(base) ==> EndsWith(ImageLocation(p, generation, hash8, pathOf).file, base)
    ensures var base := BaseName(pathOf(p.url));
      base == "" || !HasDot(base) ==>
        EndsWith(ImageLocation(p, generation, hash8, pathOf).file, if p.imgType == "animation" then ".gif" else ".png")
  {
    var g := NatToString(generation);
    var isAnimation := p.imgType == "animation";
    var name := FileNameOr(pathOf(p.url), GenFallbackName(g, hash8(p.url), isAnimation));
    GenLocationSpec(isAnimation, g, name, hash8(p.url));
    var base := BaseName(pathOf(p.url));
    if base == "" || !HasDot(base) {
      EndsWithTrans(ImageLocation(p, generation, hash8, pathOf).file, name, if isAnimation then ".gif" else ".png");
    }
  }

  /** The number of images whose fetch succeeds. */
  function FetchedCount(images: seq<PokemonImage>, fetch: string -> Fetch): (n: nat)
    ensures n <= |images|
    decreases |images|
  {
    if |images| == 0 then 0
    else FetchedCount(images[..|images| - 1], fetch) + (if fetch(images[|images| - 1].url) == Fetched then 1 else 0)
  }

  /** Every one of the first `n` images whose fetch succeeds is written. */
  ghost predicate ImagesSaved(files: set<Location>, images: seq<PokemonImage>, n: nat, generation: nat,
                              hash8: string -> string, pathOf: string -> string, fetch: string -> Fetch)
    requires n <= |images|
  {
    forall k :: 0 <= k < n && fetch(images[k].url) == Fetched ==> ImageLocation(images[k], generation, hash8, pathOf) in files
  }

  /** Saving the next image extends the saved prefix, and growth keeps the earlier ones saved. */
  lemma ImagesSavedNext(files: set<Location>, files': set<Location>, images: seq<PokemonImage>, n: nat, generation: nat,
                        hash8: string -> string, pathOf: string -> string, fetch: string -> Fetch)
    requires n < |images| && ImagesSaved(files, images, n, generation, hash8, pathOf, fetch) && files <= files'
    requires fetch(images[n].url) == Fetched ==> ImageLocation(images[n], generation, hash8, pathOf) in files'
    ensures ImagesSaved(files', images, n + 1, generation, hash8, pathOf, fetch)
  {
  }

  /** One more image in the count of fetched images. */
  lemma CountFetchedStep(images: seq<PokemonImage>, i: nat, fetch: string -> Fetch)
    requires i < |images|
    ensures FetchedCount(images[..i + 1], fetch) ==
      FetchedCount(images[..i], fetch) + (if fetch(images[i].url) == Fetched then 1 else 0)
  {
    assert images[..i + 1][..i] == images[..i];
  }

  class Scraper {
    const baseUrl: string
    var pokemonFound: nat
    var imagesDownloaded: nat
    var animationsDownloaded: nat
    /** The locations already written under the output directory. */
    var files: set<Location>

    constructor(files: set<Location>)
      ensures baseUrl == "https://www.phygitals.com" && this.files == files
      ensures pokemonFound == 0 && imagesDownloaded == 0 && animationsDownloaded == 0
    {
      baseUrl := "https://www.phygitals.com";
      pokemonFound := 0;
      imagesDownloaded := 0;
      animationsDownloaded := 0;
      this.files := files;
    }

    /** `download_asset`: an existing file is success with no change; a fetched one is written and counted by type; a failure changes nothing. */
    method DownloadAsset(loc: Location, assetType: string, fetch: Fetch) returns (ok: bool)
      modifies this
      ensures ok <==> loc in old(files) || fetch == Fetched
      ensures loc in old(files) || fetch.FetchFailed? ==>
        files == old(files) && imagesDownloaded == old(imagesDownloaded) &&
        animationsDownloaded == old(animationsDownloaded)
      ensures loc !in old(files) && fetch == Fetched ==>
        files == old(files) + {loc} &&
        (assetType == "animation" ==>
          animationsDownloaded == old(animationsDownloaded) + 1 && imagesDownloaded == old(imagesDownloaded)) &&
        (assetType != "animation" ==>
          imagesDownloaded == old(imagesDownloaded) + 1 && animationsDownloaded == old(animationsDownloaded))
      ensures pokemonFound == old(pokemonFound)
    {
      if loc in files {
        return true;
      }
      if fetch.FetchFailed? {
        return false;
      }
      files := files + {loc};
      if assetType == "animation" {
        animationsDownloaded := animationsDownloaded + 1;
      } else {
        imagesDownloaded := imagesDownloaded + 1;
      }
      return true;
    }

    /**
     * The download loop of `extract_pokemon_images_enhanced`: every image
     * whose fetch succeeds is written, and `downloaded` lies between the
     * number of such images and the number of images.
     */
    method DownloadImages(images: seq<PokemonImage>, generation: nat, hash8: string -> string,
                          pathOf: string -> string, fetch: string -> Fetch) returns (downloaded: nat)
      modifies this
      ensures FetchedCount(images, fetch) <= downloaded <= |images|
      ensures old(files) <= files
      ensures ImagesSaved(files, images, |images|, generation, hash8, pathOf, fetch)
      ensures imagesDownloaded + animationsDownloaded <= old(imagesDownloaded + animationsDownloaded) + downloaded
      ensures pokemonFound == old(pokemonFound)
    {
      downloaded := 0;
      var i := 0;
      while i < |images|
        invariant 0 <= i <= |images|
        invariant FetchedCount(images[..i], fetch) <= downloaded <= i
        invariant old(files) <= files
        invariant ImagesSaved(files, images, i, generation, hash8, pathOf, fetch)
        invariant imagesDownloaded + animationsDownloaded <= old(imagesDownloaded + animationsDownloaded) + downloaded
        invariant pokemonFound == old(pokemonFound)
      {
        var p := images[i];
        var loc := ImageLocation(p, generation, hash8, pathOf);
        ghost var files0 := files;
        var ok := DownloadAsset(loc, p.imgType, fetch(p.url));
        if ok {
          downloaded := downloaded + 1;
        }
        ImagesSavedNext(files0, files, images, i, generation, hash8, pathOf, fetch);
        CountFetchedStep(images, i, fetch);
        i := i + 1;
      }
      assert images[..i] == images;
    }

    /**
     * `extract_pokemon_images_enhanced` after the page has loaded: the
     * collected images are downloaded, and `pokemon_found` grows by their
     * number.
     */
    method ExtractPokemonImagesEnhanced(generation: nat, imgs: seq<Img>, hash8: string -> string,
                                        pathOf: string -> string, fetch: string -> Fetch)
      returns (images: seq<PokemonImage>, downloaded: nat)
      modifies this
      ensures images == GenerationImages(imgs, generation)
      ensures FetchedCount(images, fetch) <= downloaded <= |images|
      ensures old(files) <= files && ImagesSaved(files, images, |images|, generation, hash8, pathOf, fetch)
      ensures imagesDownloaded + animationsDownloaded <= old(imagesDownloaded + animationsDownloaded) + downloaded
      ensures pokemonFound == old(pokemonFound) + |images|
    {
      var sources := CollectPokemonAssets(imgs);
      images := MapSeq(sources, (s: Source) => ImageOf(s, generation));
      downloaded := DownloadImages(images, generation, hash8, pathOf, fetch);
      pokemonFound := pokemonFound + |images|;
    }
  }
}
