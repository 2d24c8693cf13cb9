/*
 * The specialized site scrapers (specialized_site_scrapers.py): one
 * scraper for the complete PokemonDB Pokédex, one for the card market and
 * one for the TCG galleries, run in sequence by an orchestrator that
 * collects their results by name.
 *
 * Parsed HTML is given as values: a table row is its `td` cells, each with
 * the text BeautifulSoup extracts with stripping, its first image and its
 * anchors. The browser session, `urljoin`, the regular expression that
 * pulls a URL out of a CSS `url(...)` and the network are parameters of
 * the `World`.
 */
module SpecializedScrapers {
  import opened PyText
  import opened Collections
  import opened Json

  // ---------------------------------------------------------------------
  // The Pokédex table

  datatype Img = Img(src: Option<string>, alt: Option<string>)
  datatype Anchor = Anchor(text: string, href: Option<string>)

  /** A `td` cell: its stripped text, its first `img` element if any, and its `a` elements. */
  datatype Cell = Cell(text: string, img: Option<Img>, anchors: seq<Anchor>)

  type Row = seq<Cell>

  const BaseUrl: string := "https://pokemondb.net"

  /** The stat columns, in table order, from the fourth cell on. */
  const StatNames: seq<string> := ["total", "hp", "attack", "defense", "sp_attack", "sp_defense", "speed"]

  function OrElse(a: Option<string>, d: string): string {
    match a
    case Some(s) => s
    case None => d
  }

  function Attr(a: Option<string>): Value {
    match a
    case Some(s) => Str(s)
    case None => Null
  }

  /** The record of a row before its stats: sprite, number, name and types. */
  function BaseRecord(cells: Row, join: string -> string -> string): Record
    requires |cells| >= 3
  {
    var r0: Record := match cells[0].img
      case Some(img) => map["sprite_url" := Attr(img.src), "sprite_alt" := Str(OrElse(img.alt, ""))]
      case None => map[];
    var r1 := r0["number" := Str(OrElse(FirstDigitRun(cells[0].text), ""))];
    var name := cells[1].anchors;
    var r2 := if |name| > 0 then r1["name" := Str(name[0].text)]["detail_url" := Str(join(BaseUrl)(OrElse(name[0].href, "")))] else r1;
    var types := cells[2].anchors;
    r2["types" := List(seq(|types|, k requires 0 <= k < |types| => Str(types[k].text)))]
  }

  /** Stat `i` is set from cell `i + 3` when the row has that cell. */
  function AddStat(r: Record, cells: Row, names: seq<string>, i: nat): (next: Record)
    requires i < |names|
    ensures i + 3 < |cells| ==> next == r[names[i] := Str(cells[i + 3].text)]
    ensures i + 3 >= |cells| ==> next == r
  {
    if i + 3 < |cells| then r[names[i] := Str(cells[i + 3].text)] else r
  }

  /** The record after the first `n` stat names have been tried. */
  function WithStats(r: Record, cells: Row, names: seq<string>, n: nat): Record
    requires n <= |names|
    decreases n
  {
    if n == 0 then r else AddStat(WithStats(r, cells, names, n - 1), cells, names, n - 1)
  }

  /** A key is set by the stat loop exactly when it was there or a tried stat name with an existing cell names it. */
  lemma {:induction false} WithStatsKeys(r: Record, cells: Row, names: seq<string>, n: nat)
    requires n <= |names|
    ensures forall k :: k in WithStats(r, cells, names, n) <==>
      (k in r || exists i :: 0 <= i < n && i + 3 < |cells| && names[i] == k)
    decreases n
  {
    if n > 0 {
      WithStatsKeys(r, cells, names, n - 1);
    }
  }

  /** With distinct names, a stat whose cell exists holds that cell's text. */
  lemma {:induction false} WithStatsValue(r: Record, cells: Row, names: seq<string>, n: nat, i: nat)
    requires i < n <= |names| && i + 3 < |cells|
    requires forall a, b :: 0 <= a < b < |names| ==> names[a] != names[b]
    ensures names[i] in WithStats(r, cells, names, n)
    ensures WithStats(r, cells, names, n)[names[i]] == Str(cells[i + 3].text)
    decreases n
  {
    var before := WithStats(r, cells, names, n - 1);
    var after := WithStats(r, cells, names, n);
    assert after == AddStat(before, cells, names, n - 1);
    if n - 1 > i {
      WithStatsValue(r, cells, names, n - 1, i);
      if n + 2 < |cells| {
        assert names[n - 1] != names[i];
        assert after == before[names[n - 1] := Str(cells[n + 2].text)];
      }
    } else {
      assert after == before[names[i] := Str(cells[i + 3].text)];
    }
  }

  /** A key that no tried stat name names keeps its value. */
  lemma {:induction false} WithStatsKeeps(r: Record, cells: Row, names: seq<string>, n: nat, k: string)
    requires n <= |names| && k in r
    requires forall i :: 0 <= i < n ==> names[i] != k
    ensures k in WithStats(r, cells, names, n) && WithStats(r, cells, names, n)[k] == r[k]
    decreases n
  {
    if n > 0 {
      WithStatsKeeps(r, cells, names, n - 1, k);
    }
  }

  /** The record `extract_pokemon_table_data` builds from a row of at least three cells. */
  function RowRecord(cells: Row, join: string -> string -> string): Record
    requires |cells| >= 3
  {
    WithStats(BaseRecord(cells, join), cells, StatNames, |StatNames|)
  }

  /** The stat names are distinct from each other and from the fields set before them. */
  lemma StatNamesFresh()
    ensures forall a, b :: 0 <= a < b < |StatNames| ==> StatNames[a] != StatNames[b]
    ensures forall i :: 0 <= i < |StatNames| ==>
      StatNames[i] !in ["sprite_url", "sprite_alt", "number", "name", "detail_url", "types"]
  {
    assert "total"[1] != "types"[1];
    assert "attack"[0] != "sp_attack"[0];
  }

  /**
   * A wide row's record: its number is the first run of digits of the
   * first cell, or empty; it has a name (and a detail URL) exactly when the
   * name cell has a link; it always has types; and stat `i` is present
   * exactly when cell `i + 3` exists, holding that cell's text.
   */
  lemma RowRecordSpec(cells: Row, join: string -> string -> string)
    requires |cells| >= 8
    ensures var rec := RowRecord(cells, join);
      "number" in rec && rec["number"].Str? &&
      (rec["number"].s == "" <==> forall j :: 0 <= j < |cells[0].text| ==> !IsDigit(cells[0].text[j])) &&
      (rec["number"].s != "" ==> FirstDigitRun(cells[0].text) == Some(rec["number"].s) && IsDigits(rec["number"].s))
    ensures var rec := RowRecord(cells, join);
      "types" in rec && ("name" in rec <==> |cells[1].anchors| > 0)
    ensures var rec := RowRecord(cells, join);
      forall i :: 0 <= i < |StatNames| ==>
        (StatNames[i] in rec <==> i + 3 < |cells|) &&
        (i + 3 < |cells| ==> StatNames[i] in rec && rec[StatNames[i]] == Str(cells[i + 3].text))
  {
    var base := BaseRecord(cells, join);
    StatNamesFresh();
    WithStatsKeys(base, cells, StatNames, |StatNames|);
    assert "number" in base && "types" in base;
    WithStatsKeeps(base, cells, StatNames, |StatNames|, "number");
    WithStatsKeeps(base, cells, StatNames, |StatNames|, "types");
    forall i | 0 <= i < |StatNames| && i + 3 < |cells|
      ensures StatNames[i] in RowRecord(cells, join) && RowRecord(cells, join)[StatNames[i]] == Str(cells[i + 3].text)
    {
      WithStatsValue(base, cells, StatNames, |StatNames|, i);
    }
    assert "name" in base <==> |cells[1].anchors| > 0;
    assert "name" in RowRecord(cells, join) <==> "name" in base by {
      forall i | 0 <= i < |StatNames|
        ensures StatNames[i] != "name"
      {
      }
    }
    forall i | 0 <= i < |StatNames|
      ensures StatNames[i] in RowRecord(cells, join) <==> i + 3 < |cells|
    {
      assert StatNames[i] !in base;
    }
  }

  /** The stat loop over the stat names. */
  method AddStats(r: Record, cells: Row, names: seq<string>) returns (out: Record)
    ensures out == WithStats(r, cells, names, |names|)
  {
    out := r;
    var i := 0;
    while i < |names|
      invariant i <= |names|
      invariant out == WithStats(r, cells, names, i)
    {
      assert WithStats(r, cells, names, i + 1) == AddStat(out, cells, names, i);
      out := AddStat(out, cells, names, i);
      i := i + 1;
    }
  }

  predicate Wide(cells: Row) {
    |cells| >= 8
  }

  /** The records of the rows with at least eight cells, in row order. */
  function Records(rows: seq<Row>, join: string -> string -> string): seq<Record>
    decreases |rows|
  {
    if |rows| == 0 then []
    else
      var last := rows[|rows| - 1];
      Records(rows[..|rows| - 1], join) + (if |last| >= 8 then [RowRecord(last, join)] else [])
  }

  /** There is one record per wide row. */
  lemma {:induction false} RecordsCount(rows: seq<Row>, join: string -> string -> string)
    ensures |Records(rows, join)| == CountWhere(rows, Wide)
    decreases |rows|
  {
    if |rows| > 0 {
      var init := rows[..|rows| - 1];
      RecordsCount(init, join);
      assert rows == init + [rows[|rows| - 1]];
      CountWhereSnoc(init, rows[|rows| - 1], Wide);
    }
  }

  /** The wide row that record `a` comes from. */
  lemma {:induction false} RecordSource(rows: seq<Row>, join: string -> string -> string, a: nat) returns (j: nat)
    requires a < |Records(rows, join)|
    ensures j < |rows| && |rows[j]| >= 8 && Records(rows, join)[a] == RowRecord(rows[j], join)
    decreases |rows|
  {
    var init := rows[..|rows| - 1];
    var last := rows[|rows| - 1];
    if a < |Records(init, join)| {
      j := RecordSource(init, join, a);
      assert rows[j] == init[j];
    } else {
      j := |rows| - 1;
    }
  }

  /** `rec` is the record of some row with at least eight cells. */
  predicate FromWideRow(rows: seq<Row>, join: string -> string -> string, rec: Record) {
    exists j :: 0 <= j < |rows| && |rows[j]| >= 8 && rec == RowRecord(rows[j], join)
  }

  /** One record per wide row, each the record of some wide row. */
  lemma RecordsSpec(rows: seq<Row>, join: string -> string -> string)
    ensures |Records(rows, join)| == CountWhere(rows, Wide)
    ensures forall a :: 0 <= a < |Records(rows, join)| ==> FromWideRow(rows, join, Records(rows, join)[a])
  {
    RecordsCount(rows, join);
    forall a | 0 <= a < |Records(rows, join)|
      ensures FromWideRow(rows, join, Records(rows, join)[a])
    {
      var j := RecordSource(rows, join, a);
    }
  }

  /** What `extract_pokemon_table_data` returns: no table, or the total and the records. */
  datatype TableResult = NoTable | TableData(totalPokemon: nat, pokemon: seq<Record>)

  /** The rows after the header row. */
  function DataRows(table: seq<Row>): seq<Row> {
    if |table| == 0 then [] else table[1..]
  }

  function TableOf(table: Option<seq<Row>>, join: string -> string -> string): TableResult {
    match table
    case None => NoTable
    case Some(rows) =>
      var recs := Records(DataRows(rows), join);
      TableData(|recs|, recs)
  }

  /** No table gives no records; otherwise the total counts the wide rows after the header. */
  lemma TableOfSpec(table: Option<seq<Row>>, join: string -> string -> string)
    ensures TableOf(table, join).NoTable? <==> table.None?
    ensures table.Some? ==>
      TableOf(table, join).totalPokemon == |TableOf(table, join).pokemon| == CountWhere(DataRows(table.value), Wide)
  {
    if table.Some? {
      RecordsSpec(DataRows(table.value), join);
    }
  }

  /** `extract_pokemon_table_data`. */
  method ExtractPokemonTableData(table: Option<seq<Row>>, join: string -> string -> string) returns (result: TableResult)
    ensures result == TableOf(table, join)
  {
    if table.None? {
      return NoTable;
    }
    var rows := DataRows(table.value);
    var pokemon: seq<Record> := [];
    var i := 0;
    while i < |rows|
      invariant i <= |rows|
      invariant pokemon == Records(rows[..i], join)
    {
      assert rows[..i + 1][..i] == rows[..i];
      var cells := rows[i];
      if |cells| >= 8 {
        var base := BaseRecord(cells, join);
        var record := AddStats(base, cells, StatNames);
        pokemon := pokemon + [record];
      }
      i := i + 1;
    }
    assert rows[..i] == rows;
    result := TableData(|pokemon|, pokemon);
  }

  // ---------------------------------------------------------------------
  // Type icons

  /** An `a.type-icon` link: its stripped text and its `style` attribute ("" when absent). */
  datatype TypeLink = TypeLink(text: string, style: string)

  datatype IconDownload = IconDownload(url: string, path: string)

  /** The file a type icon is saved to. */
  function IconPath(dir: string, text: string): string {
    dir + "/images/types/" + Lower(text) + "_icon.png"
  }

  /** The download a link asks for, if its style has a background image with a URL. */
  function IconFor(dir: string, link: TypeLink, cssUrl: string -> Option<string>, join: string -> string -> string): Option<IconDownload> {
    if Contains(link.style, "background-image") then
      match cssUrl(link.style)
      case Some(u) => Some(IconDownload(join(BaseUrl)(u), IconPath(dir, link.text)))
      case None => None
    else None
  }

  /** The downloads the type-icon loop attempts, in link order. */
  function IconTargets(dir: string, links: seq<TypeLink>, cssUrl: string -> Option<string>, join: string -> string -> string): seq<IconDownload>
    decreases |links|
  {
    if |links| == 0 then []
    else
      var last := links[|links| - 1];
      IconTargets(dir, links[..|links| - 1], cssUrl, join) +
        (match IconFor(dir, last, cssUrl, join) case Some(d) => [d] case None => [])
  }

  /**
   * Every attempted icon comes from a link whose style contains
   * background-image, and is saved under the link's lowercased text with
   * the suffix `_icon.png`; a link with a background image and a URL is
   * always attempted.
   */
  lemma {:induction false} IconTargetsSpec(dir: string, links: seq<TypeLink>, cssUrl: string -> Option<string>, join: string -> string -> string)
    ensures |IconTargets(dir, links, cssUrl, join)| <= |links|
    ensures forall a :: 0 <= a < |IconTargets(dir, links, cssUrl, join)| ==>
      exists j :: 0 <= j < |links| && Contains(links[j].style, "background-image") &&
        IconTargets(dir, links, cssUrl, join)[a].path == IconPath(dir, links[j].text)
    ensures forall j :: 0 <= j < |links| && Contains(links[j].style, "background-image") && cssUrl(links[j].style).Some? ==>
      IconDownload(join(BaseUrl)(cssUrl(links[j].style).value), IconPath(dir, links[j].text)) in IconTargets(dir, links, cssUrl, join)
    decreases |links|
  {
    if |links| > 0 {
      var init := links[..|links| - 1];
      var t := IconTargets(dir, links, cssUrl, join);
      var before := IconTargets(dir, init, cssUrl, join);
      IconTargetsSpec(dir, init, cssUrl, join);
      forall a | 0 <= a < |t|
        ensures exists j :: 0 <= j < |links| && Contains(links[j].style, "background-image") && t[a].path == IconPath(dir, links[j].text)
      {
        if a < |before| {
          var j :| 0 <= j < |init| && Contains(init[j].style, "background-image") && before[a].path == IconPath(dir, init[j].text);
          assert links[j] == init[j];
        } else {
          assert t[a].path == IconPath(dir, links[|links| - 1].text);
        }
      }
      forall j | 0 <= j < |links| && Contains(links[j].style, "background-image") && cssUrl(links[j].style).Some?
        ensures IconDownload(join(BaseUrl)(cssUrl(links[j].style).value), IconPath(dir, links[j].text)) in t
      {
        if j < |init| {
          assert links[j] == init[j];
        } else {
          assert t[|t| - 1] == IconDownload(join(BaseUrl)(cssUrl(links[j].style).value), IconPath(dir, links[j].text));
        }
      }
    }
  }

  function Fetches(fetchOk: string -> bool): IconDownload -> bool {
    (d: IconDownload) => fetchOk(d.url)
  }

  /** `extract_type_icons`: the attempted downloads and how many succeeded. */
  method ExtractTypeIcons(dir: string, links: seq<TypeLink>, cssUrl: string -> Option<string>, join: string -> string -> string, fetchOk: string -> bool)
    returns (attempts: seq<IconDownload>, iconsFound: nat)
    ensures attempts == IconTargets(dir, links, cssUrl, join)
    ensures iconsFound == CountWhere(attempts, Fetches(fetchOk))
  {
    attempts := [];
    iconsFound := 0;
    var i := 0;
    while i < |links|
      invariant i <= |links|
      invariant attempts == IconTargets(dir, links[..i], cssUrl, join)
      invariant iconsFound == CountWhere(attempts, Fetches(fetchOk))
    {
      assert links[..i + 1][..i] == links[..i];
      match IconFor(dir, links[i], cssUrl, join) {
        case None =>
        case Some(d) =>
          assert (attempts + [d])[..|attempts|] == attempts;
          attempts := attempts + [d];
          if fetchOk(d.url) {
            iconsFound := iconsFound + 1;
          }
      }
      i := i + 1;
    }
    assert links[..i] == links;
  }

  // ---------------------------------------------------------------------
  // TCG card animations and interactions

  /** What the browser does with one card: fails before its hover screenshot, has a hover screenshot only, or also flips. */
  datatype CardOutcome = CardFails | HoverOnly | Flipped

  datatype CardAnimation = CardAnimation(cardIndex: nat, hoverScreenshot: string, flipScreenshot: Option<string>, animationsFound: bool)

  function AnimationPath(dir: string, kind: string, i: nat): string {
    dir + "/animations/card_" + kind + "_" + NatToString(i) + ".png"
  }

  function CardRecord(dir: string, i: nat, o: CardOutcome): seq<CardAnimation> {
    match o
    case CardFails => []
    case HoverOnly => [CardAnimation(i, AnimationPath(dir, "hover", i), None, false)]
    case Flipped => [CardAnimation(i, AnimationPath(dir, "hover", i), Some(AnimationPath(dir, "flip", i)), true)]
  }

  /** The records of the cards, card `i` having outcome `outcomes[i]`. */
  function CardRecords(dir: string, outcomes: seq<CardOutcome>): seq<CardAnimation>
    decreases |outcomes|
  {
    if |outcomes| == 0 then []
    else CardRecords(dir, outcomes[..|outcomes| - 1]) + CardRecord(dir, |outcomes| - 1, outcomes[|outcomes| - 1])
  }

  predicate Captured(o: CardOutcome) {
    o != CardFails
  }

  predicate WellFormed(a: CardAnimation, dir: string, outcomes: seq<CardOutcome>) {
    a.cardIndex < |outcomes| && outcomes[a.cardIndex] != CardFails &&
    a.hoverScreenshot == AnimationPath(dir, "hover", a.cardIndex) &&
    (a.flipScreenshot.Some? <==> a.animationsFound) &&
    (a.animationsFound <==> outcomes[a.cardIndex] == Flipped)
  }

  /**
   * One record per card that gets past its hover screenshot, in card
   * order; the flip screenshot is present exactly when animations were
   * found, which is exactly when the click succeeded.
   */
  lemma {:induction false} CardRecordsSpec(dir: string, outcomes: seq<CardOutcome>)
    ensures |CardRecords(dir, outcomes)| == CountWhere(outcomes, Captured)
    ensures forall a :: 0 <= a < |CardRecords(dir, outcomes)| ==> WellFormed(CardRecords(dir, outcomes)[a], dir, outcomes)
    ensures forall a, b :: 0 <= a < b < |CardRecords(dir, outcomes)| ==>
      CardRecords(dir, outcomes)[a].cardIndex < CardRecords(dir, outcomes)[b].cardIndex
    decreases |outcomes|
  {
    if |outcomes| > 0 {
      var init := outcomes[..|outcomes| - 1];
      var before := CardRecords(dir, init);
      var r := CardRecords(dir, outcomes);
      CardRecordsSpec(dir, init);
      forall a | 0 <= a < |r|
        ensures WellFormed(r[a], dir, outcomes)
      {
        if a < |before| {
          assert r[a] == before[a];
          assert WellFormed(before[a], dir, init);
        }
      }
      forall a, b | 0 <= a < b < |r|
        ensures r[a].cardIndex < r[b].cardIndex
      {
        assert r[a] == before[a];
        assert WellFormed(before[a], dir, init);
        if b < |before| {
          assert r[b] == before[b];
        }
      }
    }
  }

  /** `capture_card_animations`: the count returned is the number of records. */
  datatype AnimationData = AnimationData(animationsCaptured: nat, details: seq<CardAnimation>)

  method CaptureCardAnimations(dir: string, cards: seq<CardOutcome>) returns (data: AnimationData)
    ensures data.details == CardRecords(dir, Take(cards, 10))
    ensures data.animationsCaptured == |data.details| <= 10
  {
    var limited := Take(cards, 10);
    var details: seq<CardAnimation> := [];
    var i := 0;
    while i < |limited|
      invariant i <= |limited|
      invariant details == CardRecords(dir, limited[..i])
    {
      assert limited[..i + 1][..i] == limited[..i];
      match limited[i] {
        case CardFails =>
        case HoverOnly =>
          details := details + [CardAnimation(i, AnimationPath(dir, "hover", i), None, false)];
        case Flipped =>
          details := details + [CardAnimation(i, AnimationPath(dir, "hover", i), Some(AnimationPath(dir, "flip", i)), true)];
      }
      i := i + 1;
    }
    assert limited[..i] == limited;
    CardRecordsSpec(dir, limited);
    CountWhereImplies(limited, Captured, (o: CardOutcome) => true);
    CountAll(limited);
    data := AnimationData(|details|, details);
  }

  lemma {:induction false} CountAll(xs: seq<CardOutcome>)
    ensures CountWhere(xs, (o: CardOutcome) => true) == |xs|
    decreases |xs|
  {
    if |xs| > 0 {
      CountAll(xs[..|xs| - 1]);
    }
  }

  /** An interactive element: its attributes, its style before and after the hover, and whether reading it raises. */
  datatype Element = Element(
    tag: string,
    cls: Option<string>,
    id: Option<string>,
    onclick: Option<string>,
    originalStyle: Option<string>,
    hoverStyle: Option<string>,
    fails: bool)

  datatype StyleChange = StyleChange(original: Option<string>, hover: Option<string>)

  datatype Interaction = Interaction(
    tag: string,
    cls: Option<string>,
    id: Option<string>,
    hasOnclick: bool,
    hasHoverEffect: bool,
    hoverStyleChange: Option<StyleChange>)

  /** The record of one element that does not raise. */
  function InteractionOf(e: Element): Interaction {
    var changed := e.originalStyle != e.hoverStyle;
    Interaction(e.tag, e.cls, e.id, e.onclick.Some? && e.onclick.value != "", changed,
      if changed then Some(StyleChange(e.originalStyle, e.hoverStyle)) else None)
  }

  /** The hover effect is recorded exactly when the style changed, and the change is kept exactly then. */
  lemma InteractionOfSpec(e: Element)
    ensures InteractionOf(e).hasHoverEffect <==> e.originalStyle != e.hoverStyle
    ensures InteractionOf(e).hoverStyleChange.Some? <==> InteractionOf(e).hasHoverEffect
    ensures InteractionOf(e).hoverStyleChange.Some? ==>
      InteractionOf(e).hoverStyleChange.value == StyleChange(e.originalStyle, e.hoverStyle)
    ensures InteractionOf(e).hasOnclick <==> (e.onclick.Some? && e.onclick.value != "")
  {
  }

  predicate Readable(e: Element) {
    !e.fails
  }

  /** The records of the elements that do not raise, in order. */
  function Interactions(elements: seq<Element>): seq<Interaction>
    decreases |elements|
  {
    if |elements| == 0 then []
    else
      var last := elements[|elements| - 1];
      Interactions(elements[..|elements| - 1]) + (if last.fails then [] else [InteractionOf(last)])
  }

  /** One record per element that does not raise. */
  lemma {:induction false} InteractionsCount(elements: seq<Element>)
    ensures |Interactions(elements)| == CountWhere(elements, Readable)
    decreases |elements|
  {
    if |elements| > 0 {
      InteractionsCount(elements[..|elements| - 1]);
    }
  }

  /** `record_card_interactions`. */
  method RecordCardInteractions(elements: seq<Element>) returns (interactions: seq<Interaction>)
    ensures interactions == Interactions(elements)
  {
    interactions := [];
    var i := 0;
    while i < |elements|
      invariant i <= |elements|
      invariant interactions == Interactions(elements[..i])
    {
      assert elements[..i + 1][..i] == elements[..i];
      var e := elements[i];
      if !e.fails {
        var changed := e.originalStyle != e.hoverStyle;
        var change := if changed then Some(StyleChange(e.originalStyle, e.hoverStyle)) else None;
        interactions := interactions + [Interaction(e.tag, e.cls, e.id, e.onclick.Some? && e.onclick.value != "", changed, change)];
      }
      i := i + 1;
    }
    assert elements[..i] == elements;
  }

  // ---------------------------------------------------------------------
  // The scrapers and the orchestrator

  /** The Pokédex page as parsed: its `table#pokedex` if any and its type-icon links. */
  datatype PokedexPage = PokedexPage(table: Option<seq<Row>>, typeLinks: seq<TypeLink>)

  /** The gallery page in the browser: its cards and its interactive elements. */
  datatype GalleryPage = GalleryPage(cards: seq<CardOutcome>, elements: seq<Element>)

  /**
   * What the outside world gives: each page, or None when loading it
   * raises; the card market's result, which is not modelled here; and the
   * URL helpers and the download outcome.
   */
  datatype World = World(
    pokedex: Option<PokedexPage>,
    gallery: Option<GalleryPage>,
    cardMarket: Value,
    join: string -> string -> string,
    cssUrl: string -> Option<string>,
    fetchOk: string -> bool,
    outputDir: string)

  datatype TcgData = TcgData(animations: AnimationData, interactions: seq<Interaction>)

  /** A scraper's result; a scraper that raises returns an empty dictionary. */
  datatype ScraperResult = EmptyResult | PokedexResult(table: TableResult) | CardMarketResult(value: Value) | TcgResult(data: TcgData)

  /** The three scraper classes. */
  datatype ScraperKind = PokemonDBAll | CardMarket | TcgAnimation

  /** The entry points the orchestrator looks for, in the order it tries them. */
  datatype EntryPoint = ScrapeCompletePokedex | ScrapeCardMarket | ScrapeTcgAnimations

  /** `hasattr`: the entry point each class defines. */
  predicate HasAttr(kind: ScraperKind, m: EntryPoint) {
    match kind
    case PokemonDBAll => m == ScrapeCompletePokedex
    case CardMarket => m == ScrapeCardMarket
    case TcgAnimation => m == ScrapeTcgAnimations
  }

  /** The first entry point, in the orchestrator's order, that the scraper has. */
  function Dispatch(kind: ScraperKind): (m: EntryPoint)
    ensures HasAttr(kind, m)
    ensures forall m' :: HasAttr(kind, m') ==> m' == m
  {
    if HasAttr(kind, ScrapeCompletePokedex) then ScrapeCompletePokedex
    else if HasAttr(kind, ScrapeCardMarket) then ScrapeCardMarket
    else ScrapeTcgAnimations
  }

  /** The result an entry point gives. */
  function RunEntry(m: EntryPoint, dir: string, w: World): ScraperResult {
    match m
    case ScrapeCompletePokedex =>
      (match w.pokedex case None => EmptyResult case Some(p) => PokedexResult(TableOf(p.table, w.join)))
    case ScrapeCardMarket => CardMarketResult(w.cardMarket)
    case ScrapeTcgAnimations =>
      (match w.gallery
       case None => EmptyResult
       case Some(g) =>
         var details := CardRecords(dir, Take(g.cards, 10));
         TcgResult(TcgData(AnimationData(|details|, details), Interactions(g.elements))))
  }

  /** The scrapers the orchestrator runs, by name. */
  const Scrapers: seq<(string, ScraperKind)> := [("pokemondb_all", PokemonDBAll), ("cardmarket", CardMarket), ("tcg_galleries", TcgAnimation)]

  /** The results dictionary after the first scrapers: each name mapped to its scraper's result, a later name overwriting. */
  function RunAll(scrapers: seq<(string, ScraperKind)>, w: World): map<string, ScraperResult>
    decreases |scrapers|
  {
    if |scrapers| == 0 then map[]
    else
      var last := scrapers[|scrapers| - 1];
      RunAll(scrapers[..|scrapers| - 1], w)[last.0 := RunEntry(Dispatch(last.1), w.outputDir + "/" + last.0, w)]
  }

  /** The results are keyed by exactly the scrapers' names; with distinct names, each holds its own scraper's result. */
  lemma {:induction false} RunAllSpec(scrapers: seq<(string, ScraperKind)>, w: World)
    requires forall a, b :: 0 <= a < b < |scrapers| ==> scrapers[a].0 != scrapers[b].0
    ensures forall k :: k in RunAll(scrapers, w) <==> exists j :: 0 <= j < |scrapers| && scrapers[j].0 == k
    ensures forall j :: 0 <= j < |scrapers| ==>
      scrapers[j].0 in RunAll(scrapers, w) &&
      RunAll(scrapers, w)[scrapers[j].0] == RunEntry(Dispatch(scrapers[j].1), w.outputDir + "/" + scrapers[j].0, w)
    decreases |scrapers|
  {
    if |scrapers| > 0 {
      var init := scrapers[..|scrapers| - 1];
      RunAllSpec(init, w);
      forall k
        ensures k in RunAll(scrapers, w) <==> exists j :: 0 <= j < |scrapers| && scrapers[j].0 == k
      {
        if k in RunAll(init, w) {
          var j :| 0 <= j < |init| && init[j].0 == k;
          assert scrapers[j] == init[j];
        }
        if exists j :: 0 <= j < |scrapers| && scrapers[j].0 == k {
          var j :| 0 <= j < |scrapers| && scrapers[j].0 == k;
          if j < |init| {
            assert init[j] == scrapers[j];
          }
        }
      }
      forall j | 0 <= j < |scrapers|
        ensures scrapers[j].0 in RunAll(scrapers, w) &&
          RunAll(scrapers, w)[scrapers[j].0] == RunEntry(Dispatch(scrapers[j].1), w.outputDir + "/" + scrapers[j].0, w)
      {
        if j < |init| {
          assert init[j] == scrapers[j];
          assert scrapers[j].0 != scrapers[|scrapers| - 1].0;
        }
      }
    }
  }

  /** Each of the three configured scrapers reaches its own entry point, and the results have exactly their three names. */
  lemma ConfiguredScrapers(w: World)
    ensures RunAll(Scrapers, w).Keys == {"pokemondb_all", "cardmarket", "tcg_galleries"}
    ensures RunAll(Scrapers, w)["pokemondb_all"] == RunEntry(ScrapeCompletePokedex, w.outputDir + "/" + "pokemondb_all", w)
    ensures RunAll(Scrapers, w)["cardmarket"] == RunEntry(ScrapeCardMarket, w.outputDir + "/" + "cardmarket", w)
    ensures RunAll(Scrapers, w)["tcg_galleries"] == RunEntry(ScrapeTcgAnimations, w.outputDir + "/" + "tcg_galleries", w)
  {
    var scrapers := Scrapers;
    assert scrapers[0].0[0] != scrapers[1].0[0] && scrapers[0].0[0] != scrapers[2].0[0] && scrapers[1].0[0] != scrapers[2].0[0];
    RunAllSpec(scrapers, w);
    var keys := RunAll(scrapers, w).Keys;
    forall k
      ensures k in keys <==> k in {"pokemondb_all", "cardmarket", "tcg_galleries"}
    {
      if k in keys {
        var j :| 0 <= j < |scrapers| && scrapers[j].0 == k;
      }
      assert scrapers[0].0 == "pokemondb_all" && scrapers[1].0 == "cardmarket" && scrapers[2].0 == "tcg_galleries";
    }
    assert scrapers[0] == ("pokemondb_all", PokemonDBAll);
    assert scrapers[1] == ("cardmarket", CardMarket);
    assert scrapers[2] == ("tcg_galleries", TcgAnimation);
  }

  /** `scrape_complete_pokedex`: the table data, after the type icons are fetched; {} when the page cannot be loaded. */
  method ScrapeCompletePokedexMethod(dir: string, w: World) returns (result: ScraperResult)
    ensures result == RunEntry(ScrapeCompletePokedex, dir, w)
  {
    if w.pokedex.None? {
      return EmptyResult;
    }
    var p := w.pokedex.value;
    var table := ExtractPokemonTableData(p.table, w.join);
    var _, _ := ExtractTypeIcons(dir, p.typeLinks, w.cssUrl, w.join, w.fetchOk);
    result := PokedexResult(table);
  }

  /** `scrape_tcg_animations`: the card animations with the interactions attached; {} when the page cannot be loaded. */
  method ScrapeTcgAnimationsMethod(dir: string, w: World) returns (result: ScraperResult)
    ensures result == RunEntry(ScrapeTcgAnimations, dir, w)
  {
    if w.gallery.None? {
      return EmptyResult;
    }
    var g := w.gallery.value;
    var animations := CaptureCardAnimations(dir, g.cards);
    var interactions := RecordCardInteractions(g.elements);
    result := TcgResult(TcgData(animations, interactions));
  }

  /** `run_all_scrapers`: each scraper run through the first entry point it has, its result stored under its name. */
  method RunAllScrapers(scrapers: seq<(string, ScraperKind)>, w: World) returns (results: map<string, ScraperResult>)
    ensures results == RunAll(scrapers, w)
  {
    results := map[];
    var i := 0;
    while i < |scrapers|
      invariant i <= |scrapers|
      invariant results == RunAll(scrapers[..i], w)
    {
      assert scrapers[..i + 1][..i] == scrapers[..i];
      var (name, kind) := scrapers[i];
      var dir := w.outputDir + "/" + name;
      var result: ScraperResult;
      if HasAttr(kind, ScrapeCompletePokedex) {
        result := ScrapeCompletePokedexMethod(dir, w);
      } else if HasAttr(kind, ScrapeCardMarket) {
        result := CardMarketResult(w.cardMarket);
      } else {
        result := ScrapeTcgAnimationsMethod(dir, w);
      }
      results := results[name := result];
      i := i + 1;
    }
    assert scrapers[..i] == scrapers;
  }
}
