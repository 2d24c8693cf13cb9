/**
 * The targeted Phygitals scraper (phygitals_targeted_scraper.py): one page
 * per generation at `/pokemon/generation/{n}`, a record per card element
 * that shows an image, text or an identifying attribute, and the images
 * of each record saved under pokemon_animations or pokemon_images.
 *
 * The browser enters as the page title and the (already de-duplicated)
 * elements; the network as `fetch`, what fetching each URL gives; the
 * output directory as the set `files` of locations already written.
 * `hash8(url)` stands for the first eight hex digits of the URL's MD5 and
 * `pathOf(url)` for `urlparse(url).path`.
 */
module TargetedScraper {
  import opened PyText
  import opened ElementScan

  // ---------------------------------------------------------------------
  // classify_image_type

  datatype ImageType = Animation | Sprite | Card | Image

  /** The string `classify_image_type` returns. */
  function TypeName(t: ImageType): string {
    match t
    case Animation => "animation"
    case Sprite => "sprite"
    case Card => "card"
    case Image => "image"
  }

  /** `classify_image_type`, on the lowercased URL. */
  function ClassifyImageType(url: string): (t: ImageType)
  {
    var u := Lower(url);
    if Contains(u, ".gif") then Animation
    else if ContainsAny(u, ["sprite", "pokemon"]) then Sprite
    else if Contains(u, "card") then Card
    else Image
  }

  /** .gif > sprite/pokemon > card > image, whatever the case of the URL. */
  lemma ClassifyImagePrecedence(url: string)
    ensures var u := Lower(url);
      (ClassifyImageType(url) == Animation <==> Contains(u, ".gif")) &&
      (ClassifyImageType(url) == Sprite <==> !Contains(u, ".gif") && ContainsAny(u, ["sprite", "pokemon"])) &&
      (ClassifyImageType(url) == Card <==>
        !Contains(u, ".gif") && !ContainsAny(u, ["sprite", "pokemon"]) && Contains(u, "card")) &&
      (ClassifyImageType(url) == Image <==>
        !Contains(u, ".gif") && !ContainsAny(u, ["sprite", "pokemon"]) && !Contains(u, "card"))
    ensures ClassifyImageType(Lower(url)) == ClassifyImageType(url)
  {
    LowerIdempotent(url);
  }

  // ---------------------------------------------------------------------
  // extract_pokemon_data

  /** The attributes the scraper reads: 'id', 'class', 'data-pokemon' and 'data-id'. */
  datatype AttributeName = Id | Class | DataPokemon | DataId

  /** The attribute's name in the page. */
  function AttributeText(a: AttributeName): string {
    match a
    case Id => "id"
    case Class => "class"
    case DataPokemon => "data-pokemon"
    case DataId => "data-id"
  }

  /** A card element: its images, its text, and the value of each attribute ("" when it is absent or empty). */
  datatype Element = Element(imgs: seq<Img>, text: string, attribute: AttributeName -> string)

  datatype ImageRecord = ImageRecord(url: string, alt: string, kind: ImageType)

  /** The extracted record; `number` is `None` where the dict has no 'number' key. */
  datatype PokemonData = PokemonData(
    generation: nat, sourceUrl: string, textContent: string, number: Option<nat>,
    images: seq<ImageRecord>, attributes: seq<(string, string)>)

  /** The pair for one attribute, or nothing when its value is empty. */
  function KeptAttribute(a: AttributeName, attribute: AttributeName -> string): (r: seq<(string, string)>)
    ensures |r| <= 1 && (|r| == 1 <==> attribute(a) != "")
    ensures forall p :: p in r ==> p == (AttributeText(a), attribute(a))
  {
    if attribute(a) != "" then [(AttributeText(a), attribute(a))] else []
  }

  /** The (name, value) pairs of the attributes whose value is non-empty, in the order
      id, class, data-pokemon, data-id in which they are read. */
  function KeptAttributes(attribute: AttributeName -> string): (r: seq<(string, string)>)
    ensures |r| <= 4
  {
    KeptAttribute(Id, attribute) + KeptAttribute(Class, attribute)
      + KeptAttribute(DataPokemon, attribute) + KeptAttribute(DataId, attribute)
  }

  /** Different attributes have different names (their lengths already differ). */
  lemma AttributeTextInjective(a: AttributeName, b: AttributeName)
    ensures AttributeText(a) == AttributeText(b) ==> a == b
  {
    if a != b {
      assert |AttributeText(a)| != |AttributeText(b)|;
    }
  }

  /** An attribute's pair is kept exactly when its value is non-empty, and every kept pair is such a pair. */
  lemma KeptAttributesMember(attribute: AttributeName -> string)
    ensures forall a: AttributeName :: (AttributeText(a), attribute(a)) in KeptAttributes(attribute) <==> attribute(a) != ""
    ensures forall p :: p in KeptAttributes(attribute) ==> exists a: AttributeName :: p == (AttributeText(a), attribute(a)) && attribute(a) != ""
  {
    forall a: AttributeName, b: AttributeName
      ensures (AttributeText(a), attribute(a)) in KeptAttribute(b, attribute) ==> a == b
    {
      AttributeTextInjective(a, b);
    }
  }

  /** Each collected source typed by `classify_image_type`. */
  function ImageRecords(sources: seq<Source>): (r: seq<ImageRecord>)
    ensures |r| == |sources|
    ensures forall k :: 0 <= k < |r| ==>
      r[k].url == sources[k].url && r[k].alt == sources[k].alt && r[k].kind == ClassifyImageType(sources[k].url)
  {
    seq(|sources|, k requires 0 <= k < |sources| =>
      ImageRecord(sources[k].url, sources[k].alt, ClassifyImageType(sources[k].url)))
  }

  /** `extract_pokemon_data` on an element whose reads do not raise. */
  function ExtractPokemonData(e: Element, generation: nat, sourceUrl: string): (r: Option<PokemonData>)
  {
    var text := Strip(e.text);
    var images := ImageRecords(Sources(e.imgs));
    var attributes := KeptAttributes(e.attribute);
    if |images| == 0 && text == "" && |attributes| == 0 then None
    else Some(PokemonData(generation, sourceUrl, text, NumberIn(text), images, attributes))
  }

  /**
   * `None` exactly when the element has no http image, blank text and none
   * of the four attributes; otherwise the record's number is the first
   * digit run of the stripped text cut to four digits.
   */
  lemma ExtractPokemonDataSpec(e: Element, generation: nat, sourceUrl: string)
    ensures var r := ExtractPokemonData(e, generation, sourceUrl);
      r.None? <==> (|Sources(e.imgs)| == 0 && Strip(e.text) == "" && forall a: AttributeName :: e.attribute(a) == "")
    ensures var r := ExtractPokemonData(e, generation, sourceUrl);
      r.Some? ==>
        r.value.generation == generation && r.value.textContent == Strip(e.text) &&
        (r.value.number.None? <==> forall j :: 0 <= j < |r.value.textContent| ==> !IsDigit(r.value.textContent[j])) &&
        (r.value.number.Some? ==>
          r.value.number.value < 10000 && FirstDigitRun(Strip(e.text)).Some? &&
          r.value.number.value == DigitsValue(Take(FirstDigitRun(Strip(e.text)).value, 4))) &&
        (forall k :: 0 <= k < |r.value.images| ==> StartsWith(r.value.images[k].url, "http")) &&
        (forall a: AttributeName :: (AttributeText(a), e.attribute(a)) in r.value.attributes <==> e.attribute(a) != "")
  {
    var attributes := KeptAttributes(e.attribute);
    KeptAttributesMember(e.attribute);
    if |attributes| != 0 {
      assert attributes[0] in attributes;
    }
  }

  // ---------------------------------------------------------------------
  // download_pokemon_media routing

  /** The name before the generation prefix: the URL path's basename, or `gen{generation}_{md5[:8]}` with .gif or .png. */
  function OriginalFilename(path: string, generation: nat, hash8: string, t: ImageType): string {
    FileNameOr(path, GenFallbackName(NatToString(generation), hash8, t == Animation))
  }

  /** Where an image is saved. */
  function MediaLocation(path: string, generation: nat, hash8: string, t: ImageType): Location {
    GenLocation(t == Animation, NatToString(generation), OriginalFilename(path, generation, hash8, t))
  }

  /** Animations go to pokemon_animations and every other type to pokemon_images, each name prefixed `gen_{generation}_`. */
  lemma MediaLocationSpec(path: string, generation: nat, hash8: string, t: ImageType)
    ensures MediaLocation(path, generation, hash8, t).dir == "pokemon_animations" <==> t == Animation
    ensures MediaLocation(path, generation, hash8, t).dir == "pokemon_images" <==> t != Animation
    ensures StartsWith(MediaLocation(path, generation, hash8, t).file, "gen_" + NatToString(generation) + "_")
    ensures var base := BaseName(path);
      base != "" && HasDot(base) ==> EndsWith(MediaLocation(path, generation, hash8, t).file, base)
    ensures var base := BaseName(path);
      base == "" || !HasDot(base) ==>
        EndsWith(MediaLocation(path, generation, hash8, t).file, if t == Animation then ".gif" else ".png")
  {
    var g := NatToString(generation);
    var name := OriginalFilename(path, generation, hash8, t);
    GenLocationSpec(t == Animation, g, name, hash8);
    var base := BaseName(path);
    if base == "" || !HasDot(base) {
      EndsWithTrans(GenLocation(t == Animation, g, name).file, name, if t == Animation then ".gif" else ".png");
    }
  }

  /** The records that elements yield, in element order. */
  function Extracted(elements: seq<Element>, generation: nat, sourceUrl: string): (r: seq<PokemonData>)
    ensures |r| <= |elements|
    ensures forall k :: 0 <= k < |r| ==> r[k].generation == generation && r[k].sourceUrl == sourceUrl
    decreases |elements|
  {
    if |elements| == 0 then []
    else
      var init := Extracted(elements[..|elements| - 1], generation, sourceUrl);
      match ExtractPokemonData(elements[|elements| - 1], generation, sourceUrl)
      case Some(d) => init + [d]
      case None => init
  }

  /** One more element: its record, if any, is appended. */
  lemma ExtractedStep(elements: seq<Element>, i: nat, generation: nat, sourceUrl: string)
    requires i < |elements|
    ensures Extracted(elements[..i + 1], generation, sourceUrl) ==
      AppendFound(Extracted(elements[..i], generation, sourceUrl), ExtractPokemonData(elements[i], generation, sourceUrl))
  {
    assert elements[..i + 1][..i] == elements[..i];
  }

  /** The generation page: the base URL, then /pokemon/generation/ and the generation number. */
  function GenerationUrl(baseUrl: string, generation: nat): string {
    baseUrl + "/pokemon/generation/" + NatToString(generation)
  }

  /** The location the image of record `img` is saved at. */
  function ImageLocation(img: ImageRecord, generation: nat, hash8: string -> string, pathOf: string -> string): Location {
    MediaLocation(pathOf(img.url), generation, hash8(img.url), img.kind)
  }

  /** The first `n` images of a record are handled. */
  ghost predicate HandledUpTo(files: set<Location>, failed: seq<Failure>, images: seq<ImageRecord>, n: nat,
                              generation: nat, hash8: string -> string, pathOf: string -> string, fetch: string -> Fetch)
    requires n <= |images|
  {
    forall k :: 0 <= k < n ==>
      Handled(files, failed, ImageLocation(images[k], generation, hash8, pathOf),
              images[k].url, TypeName(images[k].kind), fetch(images[k].url))
  }

  /** Handling the next image extends the handled prefix, and growth keeps the earlier ones handled. */
  lemma HandledUpToNext(files: set<Location>, failed: seq<Failure>, files': set<Location>, failed': seq<Failure>,
                        images: seq<ImageRecord>, n: nat,
                        generation: nat, hash8: string -> string, pathOf: string -> string, fetch: string -> Fetch)
    requires n < |images| && HandledUpTo(files, failed, images, n, generation, hash8, pathOf, fetch)
    requires files <= files' && failed <= failed'
    requires Handled(files', failed', ImageLocation(images[n], generation, hash8, pathOf),
                     images[n].url, TypeName(images[n].kind), fetch(images[n].url))
    ensures HandledUpTo(files', failed', images, n + 1, generation, hash8, pathOf, fetch)
  {
    forall k | 0 <= k < n
      ensures Handled(files', failed', ImageLocation(images[k], generation, hash8, pathOf),
                      images[k].url, TypeName(images[k].kind), fetch(images[k].url))
    {
      HandledGrows(files, failed, files', failed', ImageLocation(images[k], generation, hash8, pathOf),
                   images[k].url, TypeName(images[k].kind), fetch(images[k].url));
    }
  }

  /** Growth keeps every image of a handled prefix handled. */
  lemma HandledUpToGrows(files: set<Location>, failed: seq<Failure>, files': set<Location>, failed': seq<Failure>,
                         images: seq<ImageRecord>, n: nat,
                         generation: nat, hash8: string -> string, pathOf: string -> string, fetch: string -> Fetch)
    requires n <= |images| && HandledUpTo(files, failed, images, n, generation, hash8, pathOf, fetch)
    requires files <= files' && failed <= failed'
    ensures HandledUpTo(files', failed', images, n, generation, hash8, pathOf, fetch)
  {
    forall k | 0 <= k < n
      ensures Handled(files', failed', ImageLocation(images[k], generation, hash8, pathOf),
                      images[k].url, TypeName(images[k].kind), fetch(images[k].url))
    {
      HandledGrows(files, failed, files', failed', ImageLocation(images[k], generation, hash8, pathOf),
                   images[k].url, TypeName(images[k].kind), fetch(images[k].url));
    }
  }

  /** The number of images over a list of records. */
  function ImageCount(pokemon: seq<PokemonData>): (n: nat)
    decreases |pokemon|
  {
    if |pokemon| == 0 then 0 else ImageCount(pokemon[..|pokemon| - 1]) + |pokemon[|pokemon| - 1].images|
  }

  /** Every image of every record is handled. */
  ghost predicate AllHandled(files: set<Location>, failed: seq<Failure>, pokemon: seq<PokemonData>,
                             generation: nat, hash8: string -> string, pathOf: string -> string, fetch: string -> Fetch)
    decreases |pokemon|
  {
    |pokemon| == 0 ||
    (AllHandled(files, failed, pokemon[..|pokemon| - 1], generation, hash8, pathOf, fetch) &&
     var last := pokemon[|pokemon| - 1];
     HandledUpTo(files, failed, last.images, |last.images|, generation, hash8, pathOf, fetch))
  }

  /** Each record of a handled list has all its images handled. */
  lemma {:induction false} AllHandledEach(files: set<Location>, failed: seq<Failure>, pokemon: seq<PokemonData>,
                                          generation: nat, hash8: string -> string, pathOf: string -> string,
                                          fetch: string -> Fetch, k: nat)
    requires AllHandled(files, failed, pokemon, generation, hash8, pathOf, fetch) && k < |pokemon|
    ensures HandledUpTo(files, failed, pokemon[k].images, |pokemon[k].images|, generation, hash8, pathOf, fetch)
    decreases |pokemon|
  {
    if k < |pokemon| - 1 {
      AllHandledEach(files, failed, pokemon[..|pokemon| - 1], generation, hash8, pathOf, fetch, k);
    }
  }

  /** Growth keeps a handled list handled. */
  lemma {:induction false} AllHandledGrows(files: set<Location>, failed: seq<Failure>, files': set<Location>,
                                           failed': seq<Failure>, pokemon: seq<PokemonData>,
                                           generation: nat, hash8: string -> string, pathOf: string -> string,
                                           fetch: string -> Fetch)
    requires AllHandled(files, failed, pokemon, generation, hash8, pathOf, fetch)
    requires files <= files' && failed <= failed'
    ensures AllHandled(files', failed', pokemon, generation, hash8, pathOf, fetch)
    decreases |pokemon|
  {
    if |pokemon| != 0 {
      AllHandledGrows(files, failed, files', failed', pokemon[..|pokemon| - 1], generation, hash8, pathOf, fetch);
      var last := pokemon[|pokemon| - 1];
      HandledUpToGrows(files, failed, files', failed', last.images, |last.images|, generation, hash8, pathOf, fetch);
    }
  }

  /** The records after one more element: its record, when it has one, is appended. */
  function AppendFound(pokemon: seq<PokemonData>, data: Option<PokemonData>): (r: seq<PokemonData>)
    ensures data.None? ==> r == pokemon
    ensures data.Some? ==> r == pokemon + [data.value] && ImageCount(r) == ImageCount(pokemon) + |data.value.images|
  {
    match data
    case Some(d) => (assert (pokemon + [d])[..|pokemon|] == pokemon; pokemon + [d])
    case None => pokemon
  }

  /** One more element keeps every record handled once its own images are handled. */
  lemma AllHandledStep(files: set<Location>, failed: seq<Failure>, files': set<Location>, failed': seq<Failure>,
                       pokemon: seq<PokemonData>, data: Option<PokemonData>,
                       generation: nat, hash8: string -> string, pathOf: string -> string, fetch: string -> Fetch)
    requires AllHandled(files, failed, pokemon, generation, hash8, pathOf, fetch)
    requires files <= files' && failed <= failed'
    requires data.Some? ==>
      HandledUpTo(files', failed', data.value.images, |data.value.images|, generation, hash8, pathOf, fetch)
    ensures AllHandled(files', failed', AppendFound(pokemon, data), generation, hash8, pathOf, fetch)
  {
    AllHandledGrows(files, failed, files', failed', pokemon, generation, hash8, pathOf, fetch);
    if data.Some? {
      assert (pokemon + [data.value])[..|pokemon|] == pokemon;
    }
  }

  class Scraper {
    const baseUrl: string
    var generationsScraped: nat
    var pokemonFound: nat
    var imagesDownloaded: nat
    var animationsDownloaded: nat
    var pagesCaptured: nat
    var failedDownloads: seq<Failure>
    /** The locations already written under the output directory. */
    var files: set<Location>

    constructor(files: set<Location>)
      ensures baseUrl == "https://www.phygitals.com" && this.files == files
      ensures generationsScraped == 0 && pokemonFound == 0 && imagesDownloaded == 0
      ensures animationsDownloaded == 0 && pagesCaptured == 0 && failedDownloads == []
    {
      baseUrl := "https://www.phygitals.com";
      generationsScraped := 0;
      pokemonFound := 0;
      imagesDownloaded := 0;
      animationsDownloaded := 0;
      pagesCaptured := 0;
      failedDownloads := [];
      this.files := files;
    }

    /** `download_asset`: an existing file is success with no change; a fetched one is written and counted by type; a failure is logged. */
    method DownloadAsset(url: string, loc: Location, assetType: string, fetch: Fetch) returns (ok: bool)
      modifies this
      ensures ok <==> loc in old(files) || fetch == Fetched
      ensures loc in old(files) ==>
        files == old(files) && imagesDownloaded == old(imagesDownloaded) &&
        animationsDownloaded == old(animationsDownloaded) && failedDownloads == old(failedDownloads)
      ensures loc !in old(files) && fetch == Fetched ==>
        files == old(files) + {loc} && failedDownloads == old(failedDownloads) &&
        (assetType == "animation" ==>
          animationsDownloaded == old(animationsDownloaded) + 1 && imagesDownloaded == old(imagesDownloaded)) &&
        (assetType != "animation" ==>
          imagesDownloaded == old(imagesDownloaded) + 1 && animationsDownloaded == old(animationsDownloaded))
      ensures loc !in old(files) && fetch.FetchFailed? ==>
        files == old(files) && imagesDownloaded == old(imagesDownloaded) &&
        animationsDownloaded == old(animationsDownloaded) &&
        failedDownloads == old(failedDownloads) + [Failure(url, fetch.error, assetType)]
      ensures generationsScraped == old(generationsScraped) && pokemonFound == old(pokemonFound)
      ensures pagesCaptured == old(pagesCaptured)
    {
      if loc in files {
        return true;
      }
      match fetch
      case FetchFailed(error) =>
        failedDownloads := failedDownloads + [Failure(url, error, assetType)];
        return false;
      case Fetched =>
        files := files + {loc};
        if assetType == "animation" {
          animationsDownloaded := animationsDownloaded + 1;
        } else {
          imagesDownloaded := imagesDownloaded + 1;
        }
        return true;
    }

    /**
     * `download_pokemon_media`: every image ends up written at its location
     * or logged as failed; the counters and the failure list grow by at most
     * one per image, and nothing changes for a record without images.
     */
    method DownloadPokemonMedia(data: PokemonData, generation: nat, hash8: string -> string,
                                pathOf: string -> string, fetch: string -> Fetch)
      modifies this
      ensures |data.images| == 0 ==>
        files == old(files) && imagesDownloaded == old(imagesDownloaded) &&
        animationsDownloaded == old(animationsDownloaded) && failedDownloads == old(failedDownloads)
      ensures old(files) <= files && old(failedDownloads) <= failedDownloads
      ensures HandledUpTo(files, failedDownloads, data.images, |data.images|, generation, hash8, pathOf, fetch)
      ensures imagesDownloaded + animationsDownloaded + |failedDownloads| <=
        old(imagesDownloaded + animationsDownloaded + |failedDownloads|) + |data.images|
      ensures generationsScraped == old(generationsScraped) && pokemonFound == old(pokemonFound)
      ensures pagesCaptured == old(pagesCaptured)
    {
      if |data.images| == 0 {
        return;
      }
      var i := 0;
      while i < |data.images|
        invariant 0 <= i <= |data.images|
        invariant old(files) <= files && old(failedDownloads) <= failedDownloads
        invariant HandledUpTo(files, failedDownloads, data.images, i, generation, hash8, pathOf, fetch)
        invariant imagesDownloaded + animationsDownloaded + |failedDownloads| <=
          old(imagesDownloaded + animationsDownloaded + |failedDownloads|) + i
        invariant generationsScraped == old(generationsScraped) && pokemonFound == old(pokemonFound)
        invariant pagesCaptured == old(pagesCaptured)
      {
        var img := data.images[i];
        var loc := ImageLocation(img, generation, hash8, pathOf);
        ghost var files0, failed0 := files, failedDownloads;
        var ok := DownloadAsset(img.url, loc, TypeName(img.kind), fetch(img.url));
        assert failed0 <= failedDownloads;
        assert Handled(files, failedDownloads, loc, img.url, TypeName(img.kind), fetch(img.url)) by {
          if fetch(img.url).FetchFailed? && loc !in files {
            assert failedDownloads[|failedDownloads| - 1] == Failure(img.url, fetch(img.url).error, TypeName(img.kind));
          }
        }
        HandledUpToNext(files0, failed0, files, failedDownloads, data.images, i, generation, hash8, pathOf, fetch);
        i := i + 1;
      }
    }

    /** One element of `scrape_generation`: its record, if it yields one, with that record's media downloaded. */
    method ScrapeElement(e: Element, generation: nat, url: string, hash8: string -> string,
                         pathOf: string -> string, fetch: string -> Fetch) returns (data: Option<PokemonData>)
      modifies this
      ensures data == ExtractPokemonData(e, generation, url)
      ensures generationsScraped == old(generationsScraped) && pokemonFound == old(pokemonFound)
      ensures pagesCaptured == old(pagesCaptured) && old(files) <= files && old(failedDownloads) <= failedDownloads
      ensures data.Some? ==>
        HandledUpTo(files, failedDownloads, data.value.images, |data.value.images|, generation, hash8, pathOf, fetch)
      ensures imagesDownloaded + animationsDownloaded + |failedDownloads| <=
        old(imagesDownloaded + animationsDownloaded + |failedDownloads|) + (if data.Some? then |data.value.images| else 0)
      ensures data.None? ==>
        files == old(files) && failedDownloads == old(failedDownloads) &&
        imagesDownloaded == old(imagesDownloaded) && animationsDownloaded == old(animationsDownloaded)
    {
      data := ExtractPokemonData(e, generation, url);
      if data.Some? {
        DownloadPokemonMedia(data.value, generation, hash8, pathOf, fetch);
      }
    }

    /** One card element scraped after the records so far: its record, if any, is appended with its images handled. */
    method ScrapeNext(pokemon: seq<PokemonData>, e: Element, generation: nat, url: string, hash8: string -> string,
                      pathOf: string -> string, fetch: string -> Fetch) returns (pokemon': seq<PokemonData>)
      requires AllHandled(files, failedDownloads, pokemon, generation, hash8, pathOf, fetch)
      modifies this
      ensures pokemon' == AppendFound(pokemon, ExtractPokemonData(e, generation, url))
      ensures generationsScraped == old(generationsScraped) && pokemonFound == old(pokemonFound)
      ensures pagesCaptured == old(pagesCaptured) && old(files) <= files && old(failedDownloads) <= failedDownloads
      ensures AllHandled(files, failedDownloads, pokemon', generation, hash8, pathOf, fetch)
      ensures imagesDownloaded + animationsDownloaded + |failedDownloads| <=
        old(imagesDownloaded + animationsDownloaded + |failedDownloads|) + ImageCount(pokemon') - ImageCount(pokemon)
    {
      ghost var files0, failed0 := files, failedDownloads;
      var data := ScrapeElement(e, generation, url, hash8, pathOf, fetch);
      AllHandledStep(files0, failed0, files, failedDownloads, pokemon, data, generation, hash8, pathOf, fetch);
      pokemon' := AppendFound(pokemon, data);
    }

    /** The loop over a page's card elements: every record kept in order, the counters untouched. */
    method ScrapeElements(elements: seq<Element>, generation: nat, url: string, hash8: string -> string,
                          pathOf: string -> string, fetch: string -> Fetch) returns (pokemon: seq<PokemonData>)
      modifies this
      ensures pokemon == Extracted(elements, generation, url)
      ensures generationsScraped == old(generationsScraped) && pokemonFound == old(pokemonFound)
      ensures pagesCaptured == old(pagesCaptured) && old(files) <= files && old(failedDownloads) <= failedDownloads
      ensures AllHandled(files, failedDownloads, pokemon, generation, hash8, pathOf, fetch)
      ensures imagesDownloaded + animationsDownloaded + |failedDownloads| <=
        old(imagesDownloaded + animationsDownloaded + |failedDownloads|) + ImageCount(pokemon)
    {
      pokemon := [];
      var i := 0;
      while i < |elements|
        invariant 0 <= i <= |elements|
        invariant pokemon == Extracted(elements[..i], generation, url)
        invariant generationsScraped == old(generationsScraped) && pokemonFound == old(pokemonFound)
        invariant pagesCaptured == old(pagesCaptured)
        invariant old(files) <= files && old(failedDownloads) <= failedDownloads
        invariant AllHandled(files, failedDownloads, pokemon, generation, hash8, pathOf, fetch)
        invariant imagesDownloaded + animationsDownloaded + |failedDownloads| <=
          old(imagesDownloaded + animationsDownloaded + |failedDownloads|) + ImageCount(pokemon)
      {
        ExtractedStep(elements, i, generation, url);
        pokemon := ScrapeNext(pokemon, elements[i], generation, url, hash8, pathOf, fetch);
        i := i + 1;
      }
      assert elements[..i] == elements;
    }

    /**
     * `scrape_generation` after the page has loaded: a title containing
     * "404" gives no records and no change; otherwise every element's
     * record is kept (and its media downloaded), and the generation, page
     * and Pokémon counters advance.
     */
    method ScrapeGeneration(generation: nat, title: string, elements: seq<Element>, hash8: string -> string,
                            pathOf: string -> string, fetch: string -> Fetch) returns (pokemon: seq<PokemonData>)
      modifies this
      ensures Contains(title, "404") ==>
        pokemon == [] && generationsScraped == old(generationsScraped) && pokemonFound == old(pokemonFound) &&
        pagesCaptured == old(pagesCaptured) && files == old(files) && failedDownloads == old(failedDownloads) &&
        imagesDownloaded == old(imagesDownloaded) && animationsDownloaded == old(animationsDownloaded)
      ensures !Contains(title, "404") ==>
        pokemon == Extracted(elements, generation, GenerationUrl(baseUrl, generation)) &&
        generationsScraped == old(generationsScraped) + 1 && pagesCaptured == old(pagesCaptured) + 1 &&
        pokemonFound == old(pokemonFound) + |pokemon| &&
        AllHandled(files, failedDownloads, pokemon, generation, hash8, pathOf, fetch) &&
        imagesDownloaded + animationsDownloaded + |failedDownloads| <=
          old(imagesDownloaded + animationsDownloaded + |failedDownloads|) + ImageCount(pokemon)
      ensures old(files) <= files && old(failedDownloads) <= failedDownloads
    {
      if Contains(title, "404") {
        return [];
      }
      var url := GenerationUrl(baseUrl, generation);
      pokemon := ScrapeElements(elements, generation, url, hash8, pathOf, fetch);
      generationsScraped := generationsScraped + 1;
      pokemonFound := pokemonFound + |pokemon|;
      pagesCaptured := pagesCaptured + 1;
    }
  }
}
