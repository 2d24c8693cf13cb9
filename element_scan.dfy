/**
 * What the Phygitals scrapers read from one rendered card element: the
 * image sources of its `img` children (`src` first, then `data-src`, each
 * kept only when it starts with 'http'), the Pokédex number in its text
 * (the first one to four digits of its first digit run), and the file name an image is saved
 * under. Browser elements are abstracted to their attribute strings, with
 * "" for a missing attribute.
 */
module ElementScan {
  import opened PyText
  import opened Collections

  /** An `img` element: its src, alt and data-src attributes. */
  datatype Img = Img(src: string, alt: string, dataSrc: string)

  /** A collected image source with the alt text of its element. */
  datatype Source = Source(url: string, alt: string)

  /** The sources one `img` contributes: its src, then its data-src, each only when it is non-empty and starts with 'http'. */
  function ImgSources(img: Img): (r: seq<Source>)
    ensures |r| <= 2
    ensures forall k :: 0 <= k < |r| ==> r[k].alt == img.alt && StartsWith(r[k].url, "http")
    ensures StartsWith(img.src, "http") ==> |r| >= 1 && r[0].url == img.src
    ensures StartsWith(img.dataSrc, "http") ==> |r| >= 1 && r[|r| - 1].url == img.dataSrc
    ensures |r| == (if StartsWith(img.src, "http") then 1 else 0) + (if StartsWith(img.dataSrc, "http") then 1 else 0)
  {
    (if StartsWith(img.src, "http") then [Source(img.src, img.alt)] else []) +
    (if StartsWith(img.dataSrc, "http") then [Source(img.dataSrc, img.alt)] else [])
  }

  /** The sources of all images, element by element. */
  function Sources(imgs: seq<Img>): (r: seq<Source>)
    ensures |r| <= 2 * |imgs|
    ensures forall k :: 0 <= k < |r| ==> StartsWith(r[k].url, "http")
    decreases |imgs|
  {
    if |imgs| == 0 then []
    else Sources(imgs[..|imgs| - 1]) + ImgSources(imgs[|imgs| - 1])
  }

  /** Every image's http src and data-src is collected, and both can come from one element. */
  lemma {:induction false} SourcesComplete(imgs: seq<Img>, i: nat)
    requires i < |imgs|
    ensures StartsWith(imgs[i].src, "http") ==> Source(imgs[i].src, imgs[i].alt) in Sources(imgs)
    ensures StartsWith(imgs[i].dataSrc, "http") ==> Source(imgs[i].dataSrc, imgs[i].alt) in Sources(imgs)
    decreases |imgs|
  {
    if i < |imgs| - 1 {
      SourcesComplete(imgs[..|imgs| - 1], i);
    } else {
      var pre := Sources(imgs[..|imgs| - 1]);
      var own := ImgSources(imgs[i]);
      assert Sources(imgs) == pre + own;
      if StartsWith(imgs[i].src, "http") {
        assert own[0] == Source(imgs[i].src, imgs[i].alt);
        assert Sources(imgs)[|pre|] == own[0];
      }
      if StartsWith(imgs[i].dataSrc, "http") {
        assert own[|own| - 1] == Source(imgs[i].dataSrc, imgs[i].alt);
        assert Sources(imgs)[|pre| + |own| - 1] == own[|own| - 1];
      }
    }
  }

  /** The number search of a card's text: the value of the first at most four digits of the first digit run. */
  function NumberIn(text: string): (r: Option<nat>)
    ensures r.None? <==> forall j :: 0 <= j < |text| ==> !IsDigit(text[j])
    ensures r.Some? ==> r.value < 10000
    ensures r.Some? ==> FirstDigitRun(text).Some? && r.value == DigitsValue(Take(FirstDigitRun(text).value, 4))
  {
    match FirstDigitRun(text)
    case None => None
    case Some(run) =>
      var digits := Take(run, 4);
      DigitsBound(digits);
      assert Pow10(|digits|) <= 10000 by {
        assert Pow10(4) == 10000;
        Pow10Monotone(|digits|, 4);
      }
      Some(DigitsValue(digits))
  }

  lemma {:induction false} Pow10Monotone(a: nat, b: nat)
    requires a <= b
    ensures Pow10(a) <= Pow10(b)
    decreases b
  {
    if a < b {
      Pow10Monotone(a, b - 1);
    }
  }

  /** '.' occurs in the name. */
  predicate HasDot(name: string) { exists j :: 0 <= j < |name| && name[j] == '.' }

  /** The basename of the URL path, or the fallback when it is empty or has no '.'. */
  function FileNameOr(path: string, fallback: string): (name: string)
    ensures name == fallback || (name == BaseName(path) && HasDot(name))
  {
    var base := BaseName(path);
    if base == "" || !HasDot(base) then fallback else base
  }
  // ---------------------------------------------------------------------
  // The Pokémon asset loop of the final and image-fix scrapers

  /** The URL mentions pokemon, sprite, card or pkmn, in any case. */
  predicate IsPokemonAsset(s: Source) {
    ContainsAny(Lower(s.url), ["pokemon", "sprite", "card", "pkmn"])
  }

  function UrlOf(s: Source): string { s.url }

  /**
   * The assets the loop keeps: the http sources, src before data-src and
   * image by image, that look like Pokémon assets, each URL once at its
   * first occurrence.
   */
  function PokemonAssets(imgs: seq<Img>): seq<Source> {
    Dedup(Filter(Sources(imgs), IsPokemonAsset), UrlOf)
  }

  /** The kept URLs are distinct, start with 'http' and look like Pokémon assets; none of the page's Pokémon sources is lost. */
  lemma PokemonAssetsSpec(imgs: seq<Img>)
    ensures var a := PokemonAssets(imgs);
      forall k :: 0 <= k < |a| ==> StartsWith(a[k].url, "http") && IsPokemonAsset(a[k]) && a[k] in Sources(imgs)
    ensures DistinctKeys(PokemonAssets(imgs), UrlOf)
    ensures KeySet(PokemonAssets(imgs), UrlOf) == KeySet(Filter(Sources(imgs), IsPokemonAsset), UrlOf)
    ensures forall i :: (0 <= i < |imgs| && StartsWith(imgs[i].src, "http") &&
      IsPokemonAsset(Source(imgs[i].src, imgs[i].alt))) ==> imgs[i].src in KeySet(PokemonAssets(imgs), UrlOf)
  {
    var f := Filter(Sources(imgs), IsPokemonAsset);
    DedupKeys(f, UrlOf);
    DedupFirstOccurrences(f, UrlOf);
    var a := PokemonAssets(imgs);
    forall k | 0 <= k < |a|
      ensures StartsWith(a[k].url, "http") && IsPokemonAsset(a[k]) && a[k] in Sources(imgs)
    {
      var j := FirstIndex(f, UrlOf, UrlOf(a[k]));
      FilterMember(Sources(imgs), IsPokemonAsset, f[j]);
      assert f[j] in Sources(imgs);
    }
    forall i | 0 <= i < |imgs| && StartsWith(imgs[i].src, "http") && IsPokemonAsset(Source(imgs[i].src, imgs[i].alt))
      ensures imgs[i].src in KeySet(a, UrlOf)
    {
      var x := Source(imgs[i].src, imgs[i].alt);
      SourcesComplete(imgs, i);
      FilterMember(Sources(imgs), IsPokemonAsset, x);
      var j :| 0 <= j < |f| && f[j] == x;
      assert UrlOf(f[j]) in KeySet(f, UrlOf);
    }
  }

  /** One more source: kept when it is a Pokémon asset whose URL is not yet in `unique`. */
  lemma DedupStep(before: seq<Source>, src: Source, unique: set<string>)
    requires unique == KeySet(Filter(before, IsPokemonAsset), UrlOf)
    ensures Dedup(Filter(before + [src], IsPokemonAsset), UrlOf) ==
      if IsPokemonAsset(src) && src.url !in unique then Dedup(Filter(before, IsPokemonAsset), UrlOf) + [src]
      else Dedup(Filter(before, IsPokemonAsset), UrlOf)
    ensures KeySet(Filter(before + [src], IsPokemonAsset), UrlOf) ==
      if IsPokemonAsset(src) then unique + {src.url} else unique
  {
    assert (before + [src])[..|before|] == before;
    var fb := Filter(before, IsPokemonAsset);
    if IsPokemonAsset(src) {
      assert Filter(before + [src], IsPokemonAsset) == fb + [src];
      assert (fb + [src])[..|fb|] == fb;
    }
  }

  /** `assets` and `unique` are what the loop holds after visiting `visited`. */
  ghost predicate Collected(visited: seq<Source>, assets: seq<Source>, unique: set<string>) {
    assets == Dedup(Filter(visited, IsPokemonAsset), UrlOf) &&
    unique == KeySet(Filter(visited, IsPokemonAsset), UrlOf)
  }

  /** The inner loop, over an image's src and data-src (those starting with 'http'). */
  method CollectImage(img: Img, assets0: seq<Source>, unique0: set<string>, ghost visited: seq<Source>)
    returns (assets: seq<Source>, unique: set<string>)
    requires Collected(visited, assets0, unique0)
    ensures Collected(visited + ImgSources(img), assets, unique)
  {
    assets, unique := assets0, unique0;
    var candidates := ImgSources(img);
    ghost var done := visited;
    assert visited + candidates[..0] == visited;
    var j := 0;
    while j < |candidates|
      invariant 0 <= j <= |candidates|
      invariant done == visited + candidates[..j]
      invariant Collected(done, assets, unique)
    {
      var src := candidates[j];
      assert candidates[..j + 1] == candidates[..j] + [src];
      assert visited + candidates[..j + 1] == done + [src];
      assets, unique := CollectSource(src, assets, unique, done);
      done := done + [src];
      j := j + 1;
    }
    assert candidates[..j] == candidates;
  }

  /** One candidate URL: a Pokémon asset is kept when its URL is new, and its URL is recorded. */
  method CollectSource(src: Source, assets0: seq<Source>, unique0: set<string>, ghost visited: seq<Source>)
    returns (assets: seq<Source>, unique: set<string>)
    requires Collected(visited, assets0, unique0)
    ensures Collected(visited + [src], assets, unique)
  {
    DedupStep(visited, src, unique0);
    assets, unique := assets0, unique0;
    if src.url !in unique && IsPokemonAsset(src) {
      unique := unique + {src.url};
      assets := assets + [src];
    } else if IsPokemonAsset(src) {
      unique := unique + {src.url};
    }
  }

  /** The loop itself, with its `unique_urls` set. */
  method CollectPokemonAssets(imgs: seq<Img>) returns (assets: seq<Source>)
    ensures assets == PokemonAssets(imgs)
  {
    assets := [];
    var uniqueUrls: set<string> := {};
    var i := 0;
    while i < |imgs|
      invariant 0 <= i <= |imgs|
      invariant Collected(Sources(imgs[..i]), assets, uniqueUrls)
    {
      assert Sources(imgs[..i + 1]) == Sources(imgs[..i]) + ImgSources(imgs[i]) by {
        assert imgs[..i + 1][..i] == imgs[..i];
      }
      assets, uniqueUrls := CollectImage(imgs[i], assets, uniqueUrls, Sources(imgs[..i]));
      i := i + 1;
    }
    assert imgs[..i] == imgs;
  }

  // ---------------------------------------------------------------------
  // Download attempts and two-way routing

  /** What one download attempt finds: the file already there, the file saved, or an exception with its message. */
  datatype Attempt = FileThere | Saved | Raised(error: string)

  /** What fetching a URL and writing it gives: success, or an exception with its message. */
  datatype Fetch = Fetched | FetchFailed(error: string)

  /** A `failed_downloads` entry. */
  datatype Failure = Failure(url: string, error: string, assetType: string)

  /** A file location: its directory under the output directory and its name. */
  datatype Location = Location(dir: string, file: string)

  /** The fallback name `gen{generation}_{md5(url)[:8]}` with .gif for animations and .png otherwise. */
  function GenFallbackName(generation: string, hash8: string, isAnimation: bool): string {
    "gen" + generation + "_" + hash8 + (if isAnimation then ".gif" else ".png")
  }

  /** Animations go to pokemon_animations and everything else to pokemon_images, under the name `gen_{generation}_{name}`. */
  function GenLocation(isAnimation: bool, generation: string, name: string): Location {
    Location(if isAnimation then "pokemon_animations" else "pokemon_images", "gen_" + generation + "_" + name)
  }

  /** The directory is decided by the type alone, every name carries the generation prefix, and a fallback name's extension follows the type. */
  lemma GenLocationSpec(isAnimation: bool, generation: string, name: string, hash8: string)
    ensures GenLocation(isAnimation, generation, name).dir == "pokemon_animations" <==> isAnimation
    ensures StartsWith(GenLocation(isAnimation, generation, name).file, "gen_" + generation + "_")
    ensures EndsWith(GenLocation(isAnimation, generation, name).file, name)
    ensures EndsWith(GenFallbackName(generation, hash8, isAnimation), if isAnimation then ".gif" else ".png")
  {
    var pre := "gen_" + generation + "_";
    var file := GenLocation(isAnimation, generation, name).file;
    assert file[..|pre|] == pre;
    assert file[|file| - |name|..] == name;
    var f := GenFallbackName(generation, hash8, isAnimation);
    var ext := if isAnimation then ".gif" else ".png";
    assert f[|f| - |ext|..] == ext;
  }

  /** After the download of the image at `loc`, it is written or its failure is logged. */
  ghost predicate Handled(files: set<Location>, failed: seq<Failure>, loc: Location, url: string, assetType: string, f: Fetch) {
    loc in files || (f.FetchFailed? && Failure(url, f.error, assetType) in failed)
  }

  /** An image stays handled while files are only added and failures only appended. */
  lemma HandledGrows(files: set<Location>, failed: seq<Failure>, files': set<Location>, failed': seq<Failure>,
                     loc: Location, url: string, assetType: string, f: Fetch)
    requires Handled(files, failed, loc, url, assetType, f)
    requires files <= files' && failed <= failed'
    ensures Handled(files', failed', loc, url, assetType, f)
  {
    if loc !in files {
      var j :| 0 <= j < |failed| && failed[j] == Failure(url, f.error, assetType);
      assert failed'[j] == failed[j];
    }
  }

  /** An animation when the lower-cased source contains '.gif', an image otherwise. */
  function AssetTypeOf(url: string): (t: string)
    ensures t == "animation" <==> Contains(Lower(url), ".gif")
    ensures t == "animation" || t == "image"
  {
    if Contains(Lower(url), ".gif") then "animation" else "image"
  }
}
