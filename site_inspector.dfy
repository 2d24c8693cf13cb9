/*
 * The Phygitals site inspector's analysis of a rendered page: the
 * navigation links gathered under a list of navigation selectors and
 * de-duplicated by href, the Pokémon selectors that match at least one
 * element, and the broader search over the first twenty images.
 *
 * The browser is an oracle: for each selector it yields the anchors found
 * under it (all navigation elements' anchors, in document order), or the
 * number of matching elements, or None where the lookup raised and the
 * selector was skipped.
 */
module SiteInspector {
  import opened PyText
  import opened Collections

  // ---------------------------------------------------------------------
  // Navigation links

  /** An anchor element: its href attribute, absent or a string, and its text. */
  datatype Anchor = Anchor(href: Option<string>, text: string)

  /** A collected navigation link. */
  datatype Link = Link(href: string, text: string)

  /** The navigation selectors, in the order they are tried. */
  const NavSelectors: seq<string> := ["nav", ".navigation", ".nav", ".menu", "header nav", ".header-nav", ".main-nav"]

  /** A href that is present and non-empty. */
  predicate HasHref(a: Anchor) {
    a.href.Some? && a.href.value != ""
  }

  /** The link an anchor contributes: its href and its stripped text. */
  function LinkOf(a: Anchor): Link {
    Link(if a.href.Some? then a.href.value else "", Strip(a.text))
  }

  function HrefOf(l: Link): string { l.href }

  /** The links of the anchors found under one selector, in order. */
  function AnchorLinks(anchors: seq<Anchor>): (r: seq<Link>)
    ensures forall k :: 0 <= k < |r| ==> r[k].href != ""
    decreases |anchors|
  {
    if |anchors| == 0 then []
    else
      var a := anchors[|anchors| - 1];
      AnchorLinks(anchors[..|anchors| - 1]) + (if HasHref(a) then [LinkOf(a)] else [])
  }

  /** The links of one selector are exactly the anchors with an href, each as its link, in order. */
  lemma {:induction false} AnchorLinksSpec(anchors: seq<Anchor>)
    ensures AnchorLinks(anchors) == MapSeq(Filter(anchors, HasHref), LinkOf)
    decreases |anchors|
  {
    if |anchors| > 0 {
      var init := anchors[..|anchors| - 1];
      var a := anchors[|anchors| - 1];
      AnchorLinksSpec(init);
      if HasHref(a) {
        MapSeqSnoc(Filter(init, HasHref), a, LinkOf);
      }
    }
  }

  /** `all_nav_links`: the links of every selector, selector by selector. */
  function NavLinks(found: seq<seq<Anchor>>): seq<Link> {
    FlatMap(found, AnchorLinks)
  }

  /** Every gathered link has a non-empty href. */
  lemma {:induction false} NavLinksHrefs(found: seq<seq<Anchor>>)
    ensures forall k :: 0 <= k < |NavLinks(found)| ==> NavLinks(found)[k].href != ""
    decreases |found|
  {
    if |found| > 0 {
      var init := found[..|found| - 1];
      NavLinksHrefs(init);
      var a: seq<Link> := NavLinks(init);
      var b: seq<Link> := AnchorLinks(found[|found| - 1]);
      assert NavLinks(found) == a + b;
      forall k | 0 <= k < |a + b|
        ensures (a + b)[k].href != ""
      {
        if k >= |a| {
          assert (a + b)[k] == b[k - |a|];
        }
      }
    }
  }

  /** One selector's inner loop, continuing `links`. */
  method CollectAnchors(anchors: seq<Anchor>, links0: seq<Link>) returns (links: seq<Link>)
    ensures links == links0 + AnchorLinks(anchors)
  {
    links := links0;
    var j := 0;
    while j < |anchors|
      invariant 0 <= j <= |anchors|
      invariant links == links0 + AnchorLinks(anchors[..j])
    {
      var a := anchors[j];
      assert anchors[..j + 1][..j] == anchors[..j];
      if a.href.Some? && a.href.value != "" {
        links := links + [Link(a.href.value, Strip(a.text))];
      }
      j := j + 1;
    }
    assert anchors[..j] == anchors;
  }

  /** `analyze_navigation`: the gathering loop, then the seen-set de-duplication by href. */
  method AnalyzeNavigation(found: seq<seq<Anchor>>) returns (unique: seq<Link>)
    ensures unique == Dedup(NavLinks(found), HrefOf)
  {
    var all: seq<Link> := [];
    var i := 0;
    while i < |found|
      invariant 0 <= i <= |found|
      invariant all == NavLinks(found[..i])
    {
      assert found[..i + 1][..i] == found[..i];
      all := CollectAnchors(found[i], all);
      i := i + 1;
    }
    assert found[..i] == found;
    unique := DedupByKey(all, HrefOf);
  }

  /**
   * The unique links: no gathered href is lost and none appears twice;
   * each kept link is the first gathered link with its href, and the kept
   * links keep the order of those first occurrences.
   */
  lemma NavigationUnique(found: seq<seq<Anchor>>)
    ensures var all := NavLinks(found);
            var unique := Dedup(all, HrefOf);
            KeySet(unique, HrefOf) == KeySet(all, HrefOf) && DistinctKeys(unique, HrefOf) &&
            (forall a :: 0 <= a < |unique| ==> unique[a] == all[FirstIndex(all, HrefOf, unique[a].href)]) &&
            (forall a, b :: 0 <= a < b < |unique| ==>
               FirstIndex(all, HrefOf, unique[a].href) < FirstIndex(all, HrefOf, unique[b].href))
  {
    DedupKeys(NavLinks(found), HrefOf);
    DedupFirstOccurrences(NavLinks(found), HrefOf);
  }

  // ---------------------------------------------------------------------
  // Pokémon selectors

  /** A selector matched: its lookup did not raise and found at least one element. */
  predicate Matches(count: string -> Option<nat>, sel: string) {
    count(sel).Some? && count(sel).value > 0
  }

  /** `found_elements`: each matching selector with its number of elements. */
  function FoundElements(selectors: seq<string>, count: string -> Option<nat>): (d: Dict<string, nat>)
    ensures WellFormed(d)
    decreases |selectors|
  {
    if |selectors| == 0 then EmptyDict()
    else
      var prev := FoundElements(selectors[..|selectors| - 1], count);
      var sel := selectors[|selectors| - 1];
      if Matches(count, sel) then Put(prev, sel, count(sel).value) else prev
  }

  /** A selector is recorded exactly when it is tried and matches, with its own element count. */
  lemma {:induction false} FoundElementsAt(selectors: seq<string>, count: string -> Option<nat>, sel: string)
    ensures sel in FoundElements(selectors, count).m <==> sel in selectors && Matches(count, sel)
    ensures sel in FoundElements(selectors, count).m ==> FoundElements(selectors, count).m[sel] == count(sel).value
    decreases |selectors|
  {
    if |selectors| > 0 {
      var init := selectors[..|selectors| - 1];
      FoundElementsAt(init, count, sel);
      assert selectors == init + [selectors[|selectors| - 1]];
    }
  }

  /** The broader search runs exactly when no selector matched. */
  lemma BroaderSearchWhenNoneMatch(selectors: seq<string>, count: string -> Option<nat>)
    ensures FoundElements(selectors, count).m.Keys == {} <==> forall k :: 0 <= k < |selectors| ==> !Matches(count, selectors[k])
  {
    var m := FoundElements(selectors, count).m;
    if m.Keys != {} {
      var sel :| sel in m.Keys;
      FoundElementsAt(selectors, count, sel);
    }
    forall k | 0 <= k < |selectors| && Matches(count, selectors[k])
      ensures selectors[k] in m
    {
      FoundElementsAt(selectors, count, selectors[k]);
    }
  }

  /** The recorded selectors after one more selector. */
  lemma FoundElementsStep(selectors: seq<string>, count: string -> Option<nat>)
    requires |selectors| > 0
    ensures var sel := selectors[|selectors| - 1];
            var prev := FoundElements(selectors[..|selectors| - 1], count);
            FoundElements(selectors, count) == if Matches(count, sel) then Put(prev, sel, count(sel).value) else prev
  {
  }

  /** `analyze_pokemon_content`: the selector loop, and whether the broader search follows. */
  method AnalyzePokemonContent(selectors: seq<string>, count: string -> Option<nat>) returns (found: Dict<string, nat>, broader: bool)
    ensures found == FoundElements(selectors, count)
    ensures broader <==> forall k :: 0 <= k < |selectors| ==> !Matches(count, selectors[k])
  {
    found := EmptyDict();
    var i := 0;
    while i < |selectors|
      invariant 0 <= i <= |selectors|
      invariant found == FoundElements(selectors[..i], count)
    {
      var sel := selectors[i];
      var elements := count(sel);
      assert FoundElements(selectors[..i + 1], count) ==
             if Matches(count, sel) then Put(found, sel, count(sel).value) else found by {
        FoundElementsStep(selectors[..i + 1], count);
        assert selectors[..i + 1][..i] == selectors[..i];
        assert selectors[..i + 1][i] == sel;
      }
      if elements.Some? && elements.value > 0 {
        found := Put(found, sel, elements.value);
      }
      i := i + 1;
    }
    assert selectors[..i] == selectors;
    BroaderSearchWhenNoneMatch(selectors, count);
    broader := found.order == [];
    assert found.order == [] <==> found.m.Keys == {} by {
      if found.order != [] {
        assert found.order[0] in Elements(found.order);
      }
    }
  }

  // ---------------------------------------------------------------------
  // Broader search over images

  /** An `img` element: its src and alt attributes, each absent or a string. */
  datatype ImageTag = ImageTag(src: Option<string>, alt: Option<string>)

  /** A sampled image. */
  datatype ImageRecord = ImageRecord(src: string, alt: Option<string>, isPokemon: bool)

  /** At most this many images are examined. */
  const ImageSample: nat := 20

  /** The terms that mark an image source as Pokémon-related. */
  const PokemonTerms: seq<string> := ["pokemon", "sprite", "animation"]

  /** `if src:` — a present, non-empty src. */
  predicate HasSrc(img: ImageTag) {
    img.src.Some? && img.src.value != ""
  }

  /** An image source is Pokémon-related when its lower-cased text contains one of the terms. */
  predicate IsPokemonSrc(src: string) {
    ContainsAny(Lower(src), PokemonTerms)
  }

  function RecordOf(img: ImageTag): ImageRecord {
    var src := if img.src.Some? then img.src.value else "";
    ImageRecord(src, img.alt, IsPokemonSrc(src))
  }

  /** The records of the images with a src among the first twenty, in order. */
  function SampledImages(images: seq<ImageTag>): seq<ImageRecord> {
    MapSeq(Filter(Take(images, ImageSample), HasSrc), RecordOf)
  }

  /**
   * At most twenty records, one per image with a src among the first
   * twenty; each keeps its image's src and alt and is marked Pokémon-related
   * exactly when its src contains one of the terms.
   */
  lemma SampledImagesSpec(images: seq<ImageTag>)
    ensures var r := SampledImages(images);
            |r| <= ImageSample && |r| == CountWhere(Take(images, ImageSample), HasSrc) &&
            forall k :: 0 <= k < |r| ==>
              r[k].src != "" && (r[k].isPokemon <==> ContainsAny(Lower(r[k].src), PokemonTerms))
    ensures var kept := Filter(Take(images, ImageSample), HasSrc);
            forall k :: 0 <= k < |kept| ==>
              Some(SampledImages(images)[k].src) == kept[k].src && SampledImages(images)[k].alt == kept[k].alt
  {
    var kept := Filter(Take(images, ImageSample), HasSrc);
    assert forall k :: 0 <= k < |kept| ==> HasSrc(kept[k]);
  }

  /** An image past the twentieth is never examined: appending images to twenty changes nothing. */
  lemma SampleIgnoresRest(images: seq<ImageTag>, more: seq<ImageTag>)
    requires |images| >= ImageSample
    ensures SampledImages(images + more) == SampledImages(images)
  {
    assert Take(images + more, ImageSample) == Take(images, ImageSample);
  }

  /** `broader_content_search`'s loop over the first twenty images. */
  method BroaderContentSearch(images: seq<ImageTag>) returns (records: seq<ImageRecord>)
    ensures records == SampledImages(images)
  {
    var sample := Take(images, ImageSample);
    records := [];
    var i := 0;
    while i < |sample|
      invariant 0 <= i <= |sample|
      invariant records == MapSeq(Filter(sample[..i], HasSrc), RecordOf)
    {
      var img := sample[i];
      assert sample[..i + 1][..i] == sample[..i];
      assert sample[..i + 1][i] == img;
      if img.src.Some? && img.src.value != "" {
        MapSeqSnoc(Filter(sample[..i], HasSrc), img, RecordOf);
        records := records + [RecordOf(img)];
      }
      i := i + 1;
    }
    assert sample[..i] == sample;
  }
}
