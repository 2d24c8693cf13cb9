/*
 * The enhanced scraper (enhanced_pokemon_scraper.py): the ten configured
 * sites are sorted by priority and each is scraped in a browser session;
 * the extraction its data type names fills the site's result, its images
 * are downloaded, its hoverable elements captured, and a final report
 * adds the results up.
 *
 * The browser and the network are parameters: for each site key, a
 * `SitePage` says where the session raises, what the page's Pokédex table,
 * type elements, cards, images and hoverable elements give, and `fetchOk`
 * says whether the download of a URL succeeds.
 */
module EnhancedScraper {
  import opened PyText
  import opened Collections
  import opened Json

  // ---------------------------------------------------------------------
  // Configuration and order

  datatype SiteConfig = SiteConfig(key: string, url: string, name: string, requiresJs: bool, dataType: string, priority: int)

  /** `target_sites`, in configuration order. */
  const TargetSites: seq<SiteConfig> := [
    SiteConfig("pokemondb_all", "https://pokemondb.net/pokedex/all", "PokemonDB Complete List", false, "pokemon_database", 1),
    SiteConfig("cardmarket", "https://www.cardmarket.com/en/Pokemon", "Card Market Pokemon", true, "card_marketplace", 2),
    SiteConfig("pokemondb_pokedex", "https://pokemondb.net/pokedex", "PokemonDB Individual Pages", false, "pokemon_database", 1),
    SiteConfig("bulbapedia", "https://bulbapedia.bulbagarden.net/wiki/List_of_Pokémon_by_National_Pokédex_number", "Bulbapedia Pokemon List", false, "wiki_database", 2),
    SiteConfig("serebii", "https://www.serebii.net/pokemon/nationalpokedex.shtml", "Serebii National Pokedex", false, "game_database", 2),
    SiteConfig("portal_pokemon", "https://ph.portal-pokemon.com/play/pokedex", "Portal Pokemon Pokedex", true, "interactive_pokedex", 3),
    SiteConfig("pkmn_pokedex", "https://www.pkmn.gg/pokedex", "PKMN.GG Pokedex", true, "modern_database", 1),
    SiteConfig("pkmn_series", "https://www.pkmn.gg/series", "PKMN.GG Series", true, "series_database", 3),
    SiteConfig("artofpkm", "https://www.artofpkm.com/", "Art of Pokemon", true, "artwork_gallery", 2),
    SiteConfig("tcg_galleries", "https://tcg.pokemon.com/en-us/all-galleries/", "Pokemon TCG Galleries", true, "card_animations", 1)
  ]

  function Priority(s: SiteConfig): int {
    s.priority
  }

  /**
   * `sorted(target_sites, key=priority)`: the sites in non-decreasing
   * priority, those of equal priority in configuration order, and every
   * site exactly as often as configured.
   */
  lemma SortedSitesSpec(sites: seq<SiteConfig>)
    ensures SortedBy(SortByKey(sites, Priority), Priority)
    ensures forall q :: WithKey(SortByKey(sites, Priority), Priority, q) == WithKey(sites, Priority, q)
    ensures multiset(SortByKey(sites, Priority)) == multiset(sites)
  {
    SortSorted(sites, Priority);
    forall q
      ensures WithKey(SortByKey(sites, Priority), Priority, q) == WithKey(sites, Priority, q)
    {
      SortStable(sites, Priority, q);
    }
    SortPermutation(sites, Priority);
  }

  // ---------------------------------------------------------------------
  // Which extraction a data type selects

  datatype Extractor = PokemonDatabase | CardMarketplace | CardAnimations | ArtworkGallery | WikiDatabase | GenericContent

  /** The `data_type` value that selects each named extraction; the generic one has none. */
  function ExtractorName(e: Extractor): string
    requires e != GenericContent
  {
    match e
    case PokemonDatabase => "pokemon_database"
    case CardMarketplace => "card_marketplace"
    case CardAnimations => "card_animations"
    case ArtworkGallery => "artwork_gallery"
    case WikiDatabase => "wiki_database"
  }

  /** The extraction `scrape_site_comprehensive` runs for a data type; any other type gets the generic one. */
  function ExtractorFor(dataType: string): (e: Extractor)
    ensures e != GenericContent ==> dataType == ExtractorName(e)
    ensures e == GenericContent <==>
      dataType !in ["pokemon_database", "card_marketplace", "card_animations", "artwork_gallery", "wiki_database"]
  {
    if dataType == "pokemon_database" then PokemonDatabase
    else if dataType == "card_marketplace" then CardMarketplace
    else if dataType == "card_animations" then CardAnimations
    else if dataType == "artwork_gallery" then ArtworkGallery
    else if dataType == "wiki_database" then WikiDatabase
    else GenericContent
  }

  /** Every named extraction is the one its own data type selects. */
  lemma ExtractorForName(e: Extractor)
    requires e != GenericContent
    ensures ExtractorFor(ExtractorName(e)) == e
  {
    match e
    case PokemonDatabase =>
    case CardMarketplace =>
      assert "card_marketplace"[5] != "card_animations"[5];
    case CardAnimations =>
    case ArtworkGallery =>
    case WikiDatabase =>
  }

  // ---------------------------------------------------------------------
  // The Pokédex table

  datatype Link = Link(text: string, href: Option<string>)
  datatype Img = Img(src: Option<string>, alt: Option<string>)

  /** A `td` cell: its text, its first `img` element if any, and its `a` elements. */
  datatype Cell = Cell(text: string, img: Option<Img>, links: seq<Link>)

  /** A table row: its `td` cells and the texts of its `th` cells. */
  datatype Row = Row(tds: seq<Cell>, ths: seq<string>)

  /** `get_attribute`: the attribute's text, or None. */
  function Attr(a: Option<string>): Value {
    match a
    case Some(s) => Str(s)
    case None => Null
  }

  /** The record of a row before its stat columns: number, sprite, name and types. */
  function RowBase(cells: seq<Cell>): Record
    requires |cells| >= 3
  {
    var r0: Record := match FirstDigitRun(Strip(cells[0].text))
      case Some(run) => map["number" := Str(run)]
      case None => map[];
    var r1 := match cells[0].img
      case Some(img) => r0["sprite_url" := Attr(img.src)]["sprite_alt" := Attr(img.alt)]
      case None => r0;
    var r2 := if |cells[1].links| > 0 then
        r1["name" := Str(Strip(cells[1].links[0].text))]["detail_url" := Attr(cells[1].links[0].href)]
      else r1["name" := Str(Strip(cells[1].text))];
    var links := cells[2].links;
    r2["types" := List(seq(|links|, k requires 0 <= k < |links| => Str(Strip(links[k].text))))]
  }

  predicate IsBlank(c: char) {
    c == ' '
  }

  /** The key a header names: lowercased, each space turned into '_'. */
  function StatKey(header: string): (k: string)
    ensures |k| == |header|
    ensures forall i :: 0 <= i < |k| ==> k[i] != ' '
  {
    ReplaceWhere(Lower(header), IsBlank, '_')
  }

  /** One more column of the stat loop: a column with a header sets that header's key. */
  function AddStat(out: Record, cells: seq<Cell>, headers: seq<string>, j: nat): (next: Record)
    requires j < |cells|
    ensures j < |headers| ==> next == out[StatKey(headers[j]) := Str(Strip(cells[j].text))]
    ensures j >= |headers| ==> next == out
  {
    if j < |headers| then out[StatKey(headers[j]) := Str(Strip(cells[j].text))] else out
  }

  /** The record after the stat loop has seen columns 3 to n - 1: each column with a header sets that header's key. */
  function WithStats(r: Record, cells: seq<Cell>, headers: seq<string>, n: nat): Record
    requires n <= |cells|
    decreases n
  {
    if n <= 3 then r else AddStat(WithStats(r, cells, headers, n - 1), cells, headers, n - 1)
  }

  /** A key is set by the stat loop exactly when some column from 3 on, with a header, names it. */
  lemma {:induction false} WithStatsKeys(r: Record, cells: seq<Cell>, headers: seq<string>, n: nat)
    requires n <= |cells|
    ensures forall k :: k in WithStats(r, cells, headers, n) <==>
      (k in r || exists j :: 3 <= j < n && j < |headers| && StatKey(headers[j]) == k)
    decreases n
  {
    if n > 3 {
      WithStatsKeys(r, cells, headers, n - 1);
    }
  }

  /** A column whose header names another key leaves this key's value alone. */
  lemma AddStatOther(out: Record, cells: seq<Cell>, headers: seq<string>, m: nat, key: string, value: Value)
    requires m < |cells| && key in out && out[key] == value
    requires m < |headers| ==> StatKey(headers[m]) != key
    ensures key in AddStat(out, cells, headers, m) && AddStat(out, cells, headers, m)[key] == value
  {
  }

  /** A stat holds the text of the last column whose header names it. */
  lemma {:induction false} WithStatsLast(r: Record, cells: seq<Cell>, headers: seq<string>, n: nat, j: nat)
    requires 3 <= j < n <= |cells| && j < |headers|
    requires forall j' :: j < j' < n && j' < |headers| ==> StatKey(headers[j']) != StatKey(headers[j])
    ensures StatKey(headers[j]) in WithStats(r, cells, headers, n)
    ensures WithStats(r, cells, headers, n)[StatKey(headers[j])] == Str(Strip(cells[j].text))
    decreases n
  {
    var before := WithStats(r, cells, headers, n - 1);
    assert WithStats(r, cells, headers, n) == AddStat(before, cells, headers, n - 1);
    if n - 1 > j {
      WithStatsLast(r, cells, headers, n - 1, j);
      AddStatOther(before, cells, headers, n - 1, StatKey(headers[j]), Str(Strip(cells[j].text)));
    }
  }

  /** A key no column's header names keeps its value. */
  lemma {:induction false} WithStatsKeeps(r: Record, cells: seq<Cell>, headers: seq<string>, n: nat, k: string)
    requires n <= |cells| && k in r
    requires forall j :: 3 <= j < n && j < |headers| ==> StatKey(headers[j]) != k
    ensures k in WithStats(r, cells, headers, n) && WithStats(r, cells, headers, n)[k] == r[k]
    decreases n
  {
    if n > 3 {
      WithStatsKeeps(r, cells, headers, n - 1, k);
    }
  }

  /** The record of a row with at least three cells, under the headers seen last. */
  function RowRecord(cells: seq<Cell>, headers: seq<string>): Record
    requires |cells| >= 3
  {
    WithStats(RowBase(cells), cells, headers, |cells|)
  }

  /** The stat loop of one row. */
  method AddStats(r: Record, cells: seq<Cell>, headers: seq<string>) returns (out: Record)
    requires |cells| >= 3
    ensures out == WithStats(r, cells, headers, |cells|)
  {
    out := r;
    var j := 3;
    while j < |cells|
      invariant 3 <= j <= |cells|
      invariant out == WithStats(r, cells, headers, j)
    {
      assert WithStats(r, cells, headers, j + 1) == AddStat(out, cells, headers, j);
      out := AddStat(out, cells, headers, j);
      j := j + 1;
    }
  }

  /** The headers seen last and the records so far. */
  datatype TableState = TableState(headers: seq<string>, pokemon: seq<Record>)

  /** One row: a row without `td` cells replaces the headers; one with at least three adds a record. */
  function TableStep(st: TableState, row: Row): TableState {
    if |row.tds| == 0 then TableState(MapSeq(row.ths, Strip), st.pokemon)
    else if |row.tds| >= 3 then TableState(st.headers, st.pokemon + [RowRecord(row.tds, st.headers)])
    else st
  }

  /** The table read row by row from no headers and no records. */
  function ReadTable(rows: seq<Row>): TableState
    decreases |rows|
  {
    if |rows| == 0 then TableState([], []) else TableStep(ReadTable(rows[..|rows| - 1]), rows[|rows| - 1])
  }

  predicate RecordRow(row: Row) {
    |row.tds| >= 3
  }

  /** One record per row with at least three cells. */
  lemma {:induction false} ReadTableCount(rows: seq<Row>)
    ensures |ReadTable(rows).pokemon| == CountWhere(rows, RecordRow)
    decreases |rows|
  {
    if |rows| > 0 {
      ReadTableCount(rows[..|rows| - 1]);
    }
  }

  /** The rows loop of `scrape_pokemon_database`. */
  method ExtractTable(rows: seq<Row>) returns (headers: seq<string>, pokemon: seq<Record>)
    ensures TableState(headers, pokemon) == ReadTable(rows)
  {
    headers := [];
    pokemon := [];
    var i := 0;
    while i < |rows|
      invariant i <= |rows|
      invariant TableState(headers, pokemon) == ReadTable(rows[..i])
    {
      assert rows[..i + 1][..i] == rows[..i];
      var cells := rows[i].tds;
      if |cells| == 0 {
        headers := MapSeq(rows[i].ths, Strip);
      } else if |cells| >= 3 {
        var base := RowBase(cells);
        var record := AddStats(base, cells, headers);
        pokemon := pokemon + [record];
      }
      i := i + 1;
    }
    assert rows[..i] == rows;
  }

  // ---------------------------------------------------------------------
  // The type list

  predicate NonEmptyText(t: string) {
    t != ""
  }

  function Id(t: string): string {
    t
  }

  lemma {:induction false} KeySetId(xs: seq<string>, t: string)
    ensures t in KeySet(xs, Id) <==> t in xs
    decreases |xs|
  {
    if |xs| > 0 {
      KeySetId(xs[..|xs| - 1], t);
      assert xs == xs[..|xs| - 1] + [xs[|xs| - 1]];
    }
  }

  /** The types after one more text. */
  lemma TypesStep(texts: seq<string>, i: nat)
    requires i < |texts|
    ensures var d := Dedup(Filter(MapSeq(texts[..i], Strip), NonEmptyText), Id);
      var t := Strip(texts[i]);
      Dedup(Filter(MapSeq(texts[..i + 1], Strip), NonEmptyText), Id) ==
        if t != "" && t !in d then d + [t] else d
  {
    var t := Strip(texts[i]);
    var xs := Filter(MapSeq(texts[..i], Strip), NonEmptyText);
    var d := Dedup(xs, Id);
    assert texts[..i + 1] == texts[..i] + [texts[i]];
    MapSeqSnoc(texts[..i], texts[i], Strip);
    DedupKeys(xs, Id);
    KeySetId(d, t);
    KeySetId(xs, t);
    if t != "" {
      assert (MapSeq(texts[..i], Strip) + [t])[..|MapSeq(texts[..i], Strip)|] == MapSeq(texts[..i], Strip);
      assert Filter(MapSeq(texts[..i + 1], Strip), NonEmptyText) == xs + [t];
      assert (xs + [t])[..|xs|] == xs;
    } else {
      assert (MapSeq(texts[..i], Strip) + [t])[..|MapSeq(texts[..i], Strip)|] == MapSeq(texts[..i], Strip);
    }
  }

  /** The type loop of `scrape_pokemon_database`: each stripped text that is non-empty and not yet listed is appended. */
  method CollectTypes(texts: seq<string>) returns (types: seq<string>)
    ensures types == Dedup(Filter(MapSeq(texts, Strip), NonEmptyText), Id)
  {
    types := [];
    var i := 0;
    while i < |texts|
      invariant i <= |texts|
      invariant types == Dedup(Filter(MapSeq(texts[..i], Strip), NonEmptyText), Id)
    {
      TypesStep(texts, i);
      var t := Strip(texts[i]);
      if t != "" && t !in types {
        types := types + [t];
      }
      i := i + 1;
    }
    assert texts[..i] == texts;
  }

  /**
   * The types are pairwise distinct and non-empty, are exactly the
   * non-empty stripped texts, and appear in the order each was first seen.
   */
  lemma TypesSpec(texts: seq<string>)
    ensures var types := Dedup(Filter(MapSeq(texts, Strip), NonEmptyText), Id);
      (forall a, b :: 0 <= a < b < |types| ==> types[a] != types[b]) &&
      (forall a :: 0 <= a < |types| ==> types[a] != "") &&
      (forall t :: t in types <==> t != "" && t in MapSeq(texts, Strip))
    ensures var xs := Filter(MapSeq(texts, Strip), NonEmptyText);
      var types := Dedup(xs, Id);
      forall a :: 0 <= a < |types| ==> types[a] in KeySet(xs, Id)
    ensures var xs := Filter(MapSeq(texts, Strip), NonEmptyText);
      var types := Dedup(xs, Id);
      forall a, b :: 0 <= a < b < |types| ==> FirstIndex(xs, Id, types[a]) < FirstIndex(xs, Id, types[b])
  {
    var xs := Filter(MapSeq(texts, Strip), NonEmptyText);
    var types := Dedup(xs, Id);
    DedupKeys(xs, Id);
    DedupFirstOccurrences(xs, Id);
    forall t
      ensures t in types <==> t != "" && t in MapSeq(texts, Strip)
    {
      KeySetId(types, t);
      KeySetId(xs, t);
      FilterMember(MapSeq(texts, Strip), NonEmptyText, t);
    }
    forall a | 0 <= a < |types|
      ensures types[a] != ""
    {
      assert types[a] in types;
    }
  }

  // ---------------------------------------------------------------------
  // Card animations

  /** What the browser does with one card: fails before its record, captures it without the click, or with the click. */
  datatype CardOutcome = CardFails | HoverOnly | Clicked

  datatype Animation = Animation(
    cardIndex: nat,
    initialState: string,
    hoverState: string,
    clickState: Option<string>,
    hasHoverEffect: bool,
    hasClickEffect: bool)

  /** The screenshot path of card `i` in one state. */
  function ShotPath(dir: string, siteKey: string, i: nat, state: string): string {
    dir + "/" + siteKey + "/animations/card_" + NatToString(i) + "_" + state + ".png"
  }

  /** The record of card `i`, if any. */
  function CardRecord(dir: string, siteKey: string, i: nat, o: CardOutcome): seq<Animation> {
    match o
    case CardFails => []
    case HoverOnly =>
      [Animation(i, ShotPath(dir, siteKey, i, "initial"), ShotPath(dir, siteKey, i, "hover"), None, true, false)]
    case Clicked =>
      [Animation(i, ShotPath(dir, siteKey, i, "initial"), ShotPath(dir, siteKey, i, "hover"),
        Some(ShotPath(dir, siteKey, i, "click")), true, true)]
  }

  /** The records of the cards, card `i` having outcome `outcomes[i]`. */
  function CardRecords(dir: string, siteKey: string, outcomes: seq<CardOutcome>): seq<Animation>
    decreases |outcomes|
  {
    if |outcomes| == 0 then []
    else CardRecords(dir, siteKey, outcomes[..|outcomes| - 1]) + CardRecord(dir, siteKey, |outcomes| - 1, outcomes[|outcomes| - 1])
  }

  predicate Captured(o: CardOutcome) {
    o != CardFails
  }

  /** Facts about one card's record. */
  predicate WellFormed(a: Animation, outcomes: seq<CardOutcome>) {
    a.cardIndex < |outcomes| && outcomes[a.cardIndex] != CardFails &&
    a.hasHoverEffect &&
    (a.clickState.Some? <==> a.hasClickEffect) &&
    (a.hasClickEffect <==> outcomes[a.cardIndex] == Clicked)
  }

  /**
   * One record per card that gets through, in card order: card indices
   * strictly increase, every record has a hover effect, and the click
   * state is present exactly when the click succeeded.
   */
  lemma {:induction false} CardRecordsSpec(dir: string, siteKey: string, outcomes: seq<CardOutcome>)
    ensures |CardRecords(dir, siteKey, outcomes)| == CountWhere(outcomes, Captured)
    ensures forall a :: 0 <= a < |CardRecords(dir, siteKey, outcomes)| ==>
      WellFormed(CardRecords(dir, siteKey, outcomes)[a], outcomes)
    ensures forall a, b :: 0 <= a < b < |CardRecords(dir, siteKey, outcomes)| ==>
      CardRecords(dir, siteKey, outcomes)[a].cardIndex < CardRecords(dir, siteKey, outcomes)[b].cardIndex
    decreases |outcomes|
  {
    if |outcomes| > 0 {
      var init := outcomes[..|outcomes| - 1];
      var before := CardRecords(dir, siteKey, init);
      var r := CardRecords(dir, siteKey, outcomes);
      CardRecordsSpec(dir, siteKey, init);
      forall a | 0 <= a < |r|
        ensures WellFormed(r[a], outcomes)
      {
        if a < |before| {
          assert r[a] == before[a];
          assert WellFormed(before[a], init);
        }
      }
      forall a, b | 0 <= a < b < |r|
        ensures r[a].cardIndex < r[b].cardIndex
      {
        assert r[a] == before[a];
        assert WellFormed(before[a], init);
        if b < |before| {
          assert r[b] == before[b];
        }
      }
    }
  }

  /** `scrape_card_animations`: the first ten cards, each captured or skipped. */
  method ScrapeCardAnimations(dir: string, siteKey: string, cards: seq<CardOutcome>) returns (animations: seq<Animation>)
    ensures animations == CardRecords(dir, siteKey, Take(cards, 10))
  {
    var limited := Take(cards, 10);
    animations := [];
    var i := 0;
    while i < |limited|
      invariant i <= |limited|
      invariant animations == CardRecords(dir, siteKey, limited[..i])
    {
      assert limited[..i + 1][..i] == limited[..i];
      match limited[i] {
        case CardFails =>
        case HoverOnly =>
          animations := animations + [Animation(i, ShotPath(dir, siteKey, i, "initial"), ShotPath(dir, siteKey, i, "hover"), None, true, false)];
        case Clicked =>
          animations := animations + [Animation(i, ShotPath(dir, siteKey, i, "initial"), ShotPath(dir, siteKey, i, "hover"),
            Some(ShotPath(dir, siteKey, i, "click")), true, true)];
      }
      i := i + 1;
    }
    assert limited[..i] == limited;
  }

  /** At most ten card records, one per captured card among the first ten. */
  lemma CardAnimationsBound(dir: string, siteKey: string, cards: seq<CardOutcome>)
    ensures |CardRecords(dir, siteKey, Take(cards, 10))| <= 10
    ensures |CardRecords(dir, siteKey, Take(cards, 10))| == CountWhere(Take(cards, 10), Captured)
  {
    CardRecordsSpec(dir, siteKey, Take(cards, 10));
  }

  // ---------------------------------------------------------------------
  // Media downloads and hover captures

  /** An image whose `src` starts with http and whose download succeeds. */
  function Downloaded(fetchOk: string -> bool): Option<string> -> bool {
    (src: Option<string>) => src.Some? && StartsWith(src.value, "http") && fetchOk(src.value)
  }

  predicate IsHttp(src: Option<string>) {
    src.Some? && StartsWith(src.value, "http")
  }

  /** `download_all_media`: the number of images whose download succeeded. */
  method DownloadAllMedia(srcs: seq<Option<string>>, fetchOk: string -> bool) returns (count: nat)
    ensures count == CountWhere(srcs, Downloaded(fetchOk))
  {
    count := 0;
    var i := 0;
    while i < |srcs|
      invariant i <= |srcs|
      invariant count == CountWhere(srcs[..i], Downloaded(fetchOk))
    {
      assert srcs[..i + 1][..i] == srcs[..i];
      var src := srcs[i];
      if src.Some? && StartsWith(src.value, "http") {
        if fetchOk(src.value) {
          count := count + 1;
        }
      }
      i := i + 1;
    }
    assert srcs[..i] == srcs;
  }

  /** Only images with an http `src` can be counted. */
  lemma DownloadedBound(srcs: seq<Option<string>>, fetchOk: string -> bool)
    ensures CountWhere(srcs, Downloaded(fetchOk)) <= CountWhere(srcs, IsHttp)
  {
    CountWhereImplies(srcs, Downloaded(fetchOk), IsHttp);
  }

  predicate Holds(b: bool) {
    b
  }

  /** `capture_animations_and_interactions`: the hover captures that succeed among the first five hoverable elements. */
  method CaptureInteractions(hoverOk: seq<bool>) returns (count: nat)
    ensures count == CountWhere(Take(hoverOk, 5), Holds)
    ensures count <= 5
  {
    var limited := Take(hoverOk, 5);
    count := 0;
    var i := 0;
    while i < |limited|
      invariant i <= |limited|
      invariant count == CountWhere(limited[..i], Holds)
    {
      assert limited[..i + 1][..i] == limited[..i];
      if limited[i] {
        count := count + 1;
      }
      i := i + 1;
    }
    assert limited[..i] == limited;
  }

  // ---------------------------------------------------------------------
  // One site

  /** Where the browser session raises: not at all, before the extraction, or when saving the page source at the end. */
  datatype Failure = NoFailure | FailsLoading(message: string) | FailsSaving(message: string)

  /** What one site's session gives. `otherData` is what the extractions not modelled here return. */
  datatype SitePage = SitePage(
    failure: Failure,
    table: Option<seq<Row>>,
    typeTexts: seq<string>,
    cards: seq<CardOutcome>,
    images: seq<Option<string>>,
    hoverOk: seq<bool>,
    otherData: Value)

  datatype World = World(pages: string -> SitePage, fetchOk: string -> bool, outputDir: string)

  /** `data_extracted`: {} until an extraction fills it. */
  datatype Extracted =
    | NoData
    | PokemonData(pokemon: seq<Record>, types: seq<string>)
    | CardAnimationData(animations: seq<Animation>)
    | OtherData(value: Value)

  datatype SiteResult = SiteResult(
    siteKey: string,
    url: string,
    success: bool,
    data: Extracted,
    filesDownloaded: nat,
    animationsCaptured: nat,
    errors: seq<string>)

  /** The extraction a site's data type selects, over what its page gives. */
  function ExtractedData(site: SiteConfig, w: World): Extracted {
    var p := w.pages(site.key);
    match ExtractorFor(site.dataType)
    case PokemonDatabase | WikiDatabase =>
      var pokemon := match p.table case Some(rows) => ReadTable(rows).pokemon case None => [];
      PokemonData(pokemon, Dedup(Filter(MapSeq(p.typeTexts, Strip), NonEmptyText), Id))
    case CardAnimations => CardAnimationData(CardRecords(w.outputDir, site.key, Take(p.cards, 10)))
    case _ => OtherData(p.otherData)
  }

  /** A wiki site is read exactly as a Pokédex site is: its data is the table records and the type list. */
  lemma WikiAsDatabase(site: SiteConfig, w: World)
    requires site.dataType == "wiki_database"
    ensures ExtractedData(site, w).PokemonData?
    ensures ExtractedData(site, w) == ExtractedData(site.(dataType := "pokemon_database"), w)
  {
  }

  /** The result `scrape_site_comprehensive` returns for a site. */
  function SiteResultOf(site: SiteConfig, w: World): SiteResult {
    var p := w.pages(site.key);
    match p.failure
    case FailsLoading(m) => SiteResult(site.key, site.url, false, NoData, 0, 0, [m])
    case FailsSaving(m) =>
      SiteResult(site.key, site.url, false, ExtractedData(site, w),
        CountWhere(p.images, Downloaded(w.fetchOk)), CountWhere(Take(p.hoverOk, 5), Holds), [m])
    case NoFailure =>
      SiteResult(site.key, site.url, true, ExtractedData(site, w),
        CountWhere(p.images, Downloaded(w.fetchOk)), CountWhere(Take(p.hoverOk, 5), Holds), [])
  }

  /** The result of each site, in order. */
  function SiteResults(sites: seq<SiteConfig>, w: World): (rs: seq<SiteResult>)
    ensures |rs| == |sites| && forall i :: 0 <= i < |sites| ==> rs[i] == SiteResultOf(sites[i], w)
  {
    seq(|sites|, i requires 0 <= i < |sites| => SiteResultOf(sites[i], w))
  }

  lemma SiteResultsStep(sites: seq<SiteConfig>, i: nat, w: World)
    requires i < |sites|
    ensures SiteResults(sites[..i + 1], w) == SiteResults(sites[..i], w) + [SiteResultOf(sites[i], w)]
  {
    var a := SiteResults(sites[..i + 1], w);
    var b := SiteResults(sites[..i], w) + [SiteResultOf(sites[i], w)];
    assert |a| == |b|;
    forall k | 0 <= k < |a|
      ensures a[k] == b[k]
    {
      if k < i {
        assert sites[..i + 1][k] == sites[..i][k];
      }
    }
  }

  /** A site succeeds exactly when no exception was recorded, and then it has no error. */
  lemma SiteResultSpec(site: SiteConfig, w: World)
    ensures SiteResultOf(site, w).success <==> w.pages(site.key).failure == NoFailure
    ensures SiteResultOf(site, w).success <==> |SiteResultOf(site, w).errors| == 0
    ensures |SiteResultOf(site, w).errors| <= 1
    ensures SiteResultOf(site, w).siteKey == site.key
    ensures SiteResultOf(site, w).animationsCaptured <= 5
    ensures SiteResultOf(site, w).filesDownloaded <= CountWhere(w.pages(site.key).images, IsHttp)
  {
    DownloadedBound(w.pages(site.key).images, w.fetchOk);
    CountWhereImplies(Take(w.pages(site.key).hoverOk, 5), Holds, (b: bool) => true);
    CountAll(Take(w.pages(site.key).hoverOk, 5));
  }

  lemma {:induction false} CountAll(xs: seq<bool>)
    ensures CountWhere(xs, (b: bool) => true) == |xs|
    decreases |xs|
  {
    if |xs| > 0 {
      CountAll(xs[..|xs| - 1]);
    }
  }

  predicate Failed(r: SiteResult) {
    !r.success
  }

  predicate Succeeded(r: SiteResult) {
    r.success
  }

  // ---------------------------------------------------------------------
  // The scraper

  class Scraper {
    var sitesProcessed: nat
    var errors: nat

    constructor()
      ensures sitesProcessed == 0 && errors == 0
    {
      sitesProcessed := 0;
      errors := 0;
    }

    /** The Pokédex table and the type elements. */
    method ScrapePokemonDatabase(p: SitePage) returns (data: Extracted)
      ensures data == PokemonData(
        match p.table case Some(rows) => ReadTable(rows).pokemon case None => [],
        Dedup(Filter(MapSeq(p.typeTexts, Strip), NonEmptyText), Id))
    {
      var pokemon: seq<Record> := [];
      if p.table.Some? {
        var _, rows := ExtractTable(p.table.value);
        pokemon := rows;
      }
      var types := CollectTypes(p.typeTexts);
      data := PokemonData(pokemon, types);
    }

    /** The extraction the data type selects. */
    method Extract(site: SiteConfig, w: World) returns (data: Extracted)
      ensures data == ExtractedData(site, w)
    {
      var p := w.pages(site.key);
      match ExtractorFor(site.dataType) {
        case PokemonDatabase =>
          data := ScrapePokemonDatabase(p);
        case CardAnimations =>
          var animations := ScrapeCardAnimations(w.outputDir, site.key, p.cards);
          data := CardAnimationData(animations);
        case CardMarketplace =>
          data := OtherData(p.otherData);
        case ArtworkGallery =>
          data := OtherData(p.otherData);
        case WikiDatabase =>
          data := ScrapePokemonDatabase(p);
        case GenericContent =>
          data := OtherData(p.otherData);
      }
    }

    /** `scrape_site_comprehensive`: an exception is recorded in the result and counted in `errors`. */
    method ScrapeSiteComprehensive(site: SiteConfig, w: World) returns (result: SiteResult)
      modifies this
      ensures result == SiteResultOf(site, w)
      ensures errors == old(errors) + (if result.success then 0 else 1)
      ensures sitesProcessed == old(sitesProcessed)
    {
      var p := w.pages(site.key);
      result := SiteResult(site.key, site.url, false, NoData, 0, 0, []);
      if p.failure.FailsLoading? {
        result := result.(errors := result.errors + [p.failure.message]);
        errors := errors + 1;
        return;
      }
      var data := Extract(site, w);
      var files := DownloadAllMedia(p.images, w.fetchOk);
      var captured := CaptureInteractions(p.hoverOk);
      result := result.(data := data, filesDownloaded := files, animationsCaptured := captured);
      if p.failure.FailsSaving? {
        result := result.(errors := result.errors + [p.failure.message]);
        errors := errors + 1;
      } else {
        result := result.(success := true);
      }
    }

    /**
     * `run_comprehensive_scraping` over a site list: the sites in priority
     * order, one result each, every site counted as processed.
     */
    method RunComprehensiveScraping(sites: seq<SiteConfig>, w: World) returns (results: seq<SiteResult>)
      modifies this
      ensures var sorted := SortByKey(sites, Priority);
        |results| == |sorted| && forall i :: 0 <= i < |results| ==> results[i] == SiteResultOf(sorted[i], w)
      ensures sitesProcessed == old(sitesProcessed) + |sites|
      ensures errors == old(errors) + CountWhere(results, Failed)
    {
      var sorted := SortByKey(sites, Priority);
      results := ScrapeSites(sorted, w);
    }

    /** The site loop: one result per site, in order, each counted as processed. */
    /** One turn of the site loop: the site's result is appended and the site counted as processed. */
    method ScrapeNextSite(site: SiteConfig, w: World, results: seq<SiteResult>) returns (next: seq<SiteResult>)
      modifies this
      ensures next == results + [SiteResultOf(site, w)]
      ensures sitesProcessed == old(sitesProcessed) + 1
      ensures errors + CountWhere(results, Failed) == old(errors) + CountWhere(next, Failed)
    {
      var result := ScrapeSiteComprehensive(site, w);
      CountWhereSnoc(results, result, Failed);
      next := results + [result];
      sitesProcessed := sitesProcessed + 1;
    }

    method ScrapeSites(sites: seq<SiteConfig>, w: World) returns (results: seq<SiteResult>)
      modifies this
      ensures results == SiteResults(sites, w)
      ensures sitesProcessed == old(sitesProcessed) + |sites|
      ensures errors == old(errors) + CountWhere(results, Failed)
    {
      results := [];
      var i := 0;
      while i < |sites|
        invariant i <= |sites|
        invariant results == SiteResults(sites[..i], w)
        invariant sitesProcessed == old(sitesProcessed) + i
        invariant errors == old(errors) + CountWhere(results, Failed)
      {
        results := ScrapeNextSite(sites[i], w, results);
        SiteResultsStep(sites, i, w);
        i := i + 1;
      }
      assert sites[..i] == sites;
    }
  }

  // ---------------------------------------------------------------------
  // The final report

  datatype Summary = Summary(
    sitesProcessed: nat,
    successfulSites: nat,
    totalFilesDownloaded: nat,
    totalAnimationsCaptured: nat,
    totalErrors: nat)

  function TotalFiles(results: seq<SiteResult>): nat
    decreases |results|
  {
    if |results| == 0 then 0 else TotalFiles(results[..|results| - 1]) + results[|results| - 1].filesDownloaded
  }

  function TotalAnimations(results: seq<SiteResult>): nat
    decreases |results|
  {
    if |results| == 0 then 0 else TotalAnimations(results[..|results| - 1]) + results[|results| - 1].animationsCaptured
  }

  /** The totals of two lists of results add up. */
  lemma {:induction false} TotalsConcat(a: seq<SiteResult>, b: seq<SiteResult>)
    ensures TotalFiles(a + b) == TotalFiles(a) + TotalFiles(b)
    ensures TotalAnimations(a + b) == TotalAnimations(a) + TotalAnimations(b)
    ensures CountWhere(a + b, Succeeded) == CountWhere(a, Succeeded) + CountWhere(b, Succeeded)
    decreases |b|
  {
    if |b| == 0 {
      assert a + b == a;
    } else {
      assert (a + b)[..|a + b| - 1] == a + b[..|b| - 1];
      assert (a + b)[|a + b| - 1] == b[|b| - 1];
      TotalsConcat(a, b[..|b| - 1]);
    }
  }

  /** The operation summary of `generate_comprehensive_report`. */
  function Report(sitesProcessed: nat, errors: nat, results: seq<SiteResult>): (s: Summary)
    ensures s.successfulSites <= |results|
  {
    Summary(sitesProcessed, CountWhere(results, Succeeded), TotalFiles(results), TotalAnimations(results), errors)
  }

  /**
   * After a run from fresh counters, every site is processed, and the
   * successful sites and the errors together make up the processed sites.
   */
  lemma RunReportConsistent(sites: seq<SiteConfig>, results: seq<SiteResult>, errors: nat)
    requires |results| == |sites|
    requires errors == CountWhere(results, Failed)
    ensures Report(|sites|, errors, results).sitesProcessed == |sites|
    ensures Report(|sites|, errors, results).successfulSites + Report(|sites|, errors, results).totalErrors == |sites|
  {
    FilterSplit(results, Succeeded, Failed);
  }
}
