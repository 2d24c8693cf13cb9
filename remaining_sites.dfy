/**
 * The scraper for the remaining sites (remaining_sites_scraper.py): Art of
 * Pokémon galleries and artist credits, the PKMN.GG competitive listing and
 * tiers, Serebii's national Pokédex tables, the memoised downloader, and
 * the loop that runs each site's scraper in priority order.
 *
 * The browser and the HTML parser are abstracted: a CSS selector's lookup
 * is given as the elements it finds, or None when the lookup raises; an
 * element is its text, its class and id attributes, and the text of the
 * sub-elements the code looks for (None when that lookup raises); a table
 * row is its cells' stripped texts with the `src` of each cell's image.
 */
module RemainingSites {
  import opened PyText
  import opened Collections

  /** A page element as the scraper reads it. */
  datatype Element = Element(text: string, cls: string, id: string)

  // ---------------------------------------------------------------------
  // find_artwork_galleries

  /**
   * A gallery's title: its text stripped and cut to 100 characters, or
   * "Gallery {i}" when the element has no text.
   */
  function GalleryTitle(text: string, i: nat): (t: string)
    ensures text != "" ==> |t| <= 100 && |t| <= |Strip(text)| && t == Strip(text)[..|t|] && (|Strip(text)| <= 100 ==> t == Strip(text))
    ensures text == "" ==> t == "Gallery " + NatToString(i)
  {
    if text != "" then Take(Strip(text), 100) else "Gallery " + NatToString(i)
  }

  // ---------------------------------------------------------------------
  // extract_artist_information and extract_tier_data

  /** An artist credit or a tier: the stripped text and the element's class. */
  datatype Credit = Credit(name: string, elementClass: string)

  function NameOf(c: Credit): string { c.name }

  /** The credit an element gives: its stripped text when that is non-empty and shorter than `limit`. */
  function CreditFor(e: Element, limit: nat): (r: seq<Credit>)
    ensures |r| <= 1
    ensures forall k :: 0 <= k < |r| ==> r[k].name != "" && |r[k].name| < limit
  {
    var name := Strip(e.text);
    if name != "" && |name| < limit then [Credit(name, e.cls)] else []
  }

  /** The credits one selector contributes, in element order. */
  function CreditsOf(elements: seq<Element>, limit: nat): (r: seq<Credit>)
    ensures forall k :: 0 <= k < |r| ==> r[k].name != "" && |r[k].name| < limit
    decreases |elements|
  {
    if |elements| == 0 then []
    else CreditsOf(elements[..|elements| - 1], limit) + CreditFor(elements[|elements| - 1], limit)
  }

  /** The credits of every selector in turn; a selector whose lookup raises contributes none. */
  function CreditsOfSelectors(lookups: seq<Option<seq<Element>>>, limit: nat): (r: seq<Credit>)
    ensures forall k :: 0 <= k < |r| ==> r[k].name != "" && |r[k].name| < limit
    decreases |lookups|
  {
    if |lookups| == 0 then []
    else
      var last := lookups[|lookups| - 1];
      CreditsOfSelectors(lookups[..|lookups| - 1], limit) + (if last.Some? then CreditsOf(last.value, limit) else [])
  }

  lemma CreditsOfStep(elements: seq<Element>, i: nat, limit: nat)
    requires i < |elements|
    ensures CreditsOf(elements[..i + 1], limit) == CreditsOf(elements[..i], limit) + CreditFor(elements[i], limit)
  {
    assert elements[..i + 1][..i] == elements[..i];
  }

  /** One selector's elements, appended to the credits gathered so far. */
  method CollectCredits(elements: seq<Element>, limit: nat, credits0: seq<Credit>) returns (credits: seq<Credit>)
    ensures credits == credits0 + CreditsOf(elements, limit)
  {
    credits := credits0;
    var i := 0;
    while i < |elements|
      invariant i <= |elements|
      invariant credits == credits0 + CreditsOf(elements[..i], limit)
    {
      CreditsOfStep(elements, i, limit);
      var found := CreditFor(elements[i], limit);
      AppendAssoc(credits0, CreditsOf(elements[..i], limit), found);
      credits := credits + found;
      i := i + 1;
    }
    assert elements[..i] == elements;
  }

  /** `extract_artist_information`: credits under 200 characters from every selector, de-duplicated by name. */
  method ExtractArtistInformation(lookups: seq<Option<seq<Element>>>) returns (artists: seq<Credit>)
    ensures artists == LastWins(CreditsOfSelectors(lookups, 200), NameOf)
  {
    var credits: seq<Credit> := [];
    var s := 0;
    while s < |lookups|
      invariant s <= |lookups|
      invariant credits == CreditsOfSelectors(lookups[..s], 200)
    {
      assert lookups[..s + 1][..s] == lookups[..s];
      match lookups[s] {
        case Some(elements) =>
          credits := CollectCredits(elements, 200, credits);
        case None =>
          assert credits + [] == credits;
      }
      s := s + 1;
    }
    assert lookups[..s] == lookups;
    artists := LastWins(credits, NameOf);
  }

  /** `extract_tier_data`: one lookup; tiers under 50 characters, de-duplicated by name. */
  method ExtractTierData(lookup: Option<seq<Element>>) returns (tiers: seq<Credit>)
    ensures lookup.None? ==> tiers == []
    ensures lookup.Some? ==> tiers == LastWins(CreditsOf(lookup.value, 50), NameOf)
  {
    if lookup.None? {
      return [];
    }
    var found := CollectCredits(lookup.value, 50, []);
    assert [] + CreditsOf(lookup.value, 50) == CreditsOf(lookup.value, 50);
    tiers := LastWins(found, NameOf);
  }

  /**
   * The name dedup: one credit per distinct name, each name non-empty and
   * under the limit, none lost, names in the order of their first
   * occurrence, and each credit the last one seen with its name.
   */
  lemma CreditDedupSpec(credits: seq<Credit>, limit: nat)
    requires forall k :: 0 <= k < |credits| ==> credits[k].name != "" && |credits[k].name| < limit
    ensures var r := LastWins(credits, NameOf);
      (forall a :: 0 <= a < |r| ==> r[a].name != "" && |r[a].name| < limit) &&
      (forall a, b :: 0 <= a < b < |r| ==> r[a].name != r[b].name) &&
      KeySet(r, NameOf) == KeySet(credits, NameOf) &&
      (forall a :: 0 <= a < |r| ==> (r[a].name in KeySet(credits, NameOf) &&
        r[a] == credits[LastIndex(credits, NameOf, r[a].name)])) &&
      (forall a, b :: 0 <= a < b < |r| ==> (r[a].name in KeySet(credits, NameOf) && r[b].name in KeySet(credits, NameOf) &&
        FirstIndex(credits, NameOf, r[a].name) < FirstIndex(credits, NameOf, r[b].name)))
  {
    LastWinsFacts(credits, NameOf);
  }

  /** Artist records: the dedup above, over the credits of every selector, with names under 200 characters. */
  lemma ArtistsSpec(lookups: seq<Option<seq<Element>>>)
    ensures var r := LastWins(CreditsOfSelectors(lookups, 200), NameOf);
      (forall a :: 0 <= a < |r| ==> r[a].name != "" && |r[a].name| < 200) &&
      (forall a, b :: 0 <= a < b < |r| ==> r[a].name != r[b].name) &&
      KeySet(r, NameOf) == KeySet(CreditsOfSelectors(lookups, 200), NameOf)
  {
    CreditDedupSpec(CreditsOfSelectors(lookups, 200), 200);
  }

  /** Tier records: the same dedup with names under 50 characters. */
  lemma TiersSpec(elements: seq<Element>)
    ensures var r := LastWins(CreditsOf(elements, 50), NameOf);
      (forall a :: 0 <= a < |r| ==> r[a].name != "" && |r[a].name| < 50) &&
      (forall a, b :: 0 <= a < b < |r| ==> r[a].name != r[b].name) &&
      KeySet(r, NameOf) == KeySet(CreditsOf(elements, 50), NameOf)
  {
    CreditDedupSpec(CreditsOf(elements, 50), 50);
  }

  // ---------------------------------------------------------------------
  // extract_competitive_pokemon_data

  /**
   * A listing element: its text, and the text of its name, tier and usage
   * sub-elements, each None when the lookup raises.
   */
  datatype Listing = Listing(text: string, nameText: Option<string>, tierText: Option<string>, usageText: Option<string>)

  datatype Competitive = Competitive(name: string, tier: string, usagePercent: string)

  /** The record for one listing: a missing name falls back to the first 50 characters of the stripped text. */
  function CompetitiveOf(e: Listing): (c: Competitive)
    ensures e.nameText.None? ==> |c.name| <= 50
  {
    Competitive(
      if e.nameText.Some? then Strip(e.nameText.value) else Take(Strip(e.text), 50),
      if e.tierText.Some? then Strip(e.tierText.value) else "",
      if e.usageText.Some? then Strip(e.usageText.value) else "")
  }

  /** The named records one selector yields, in element order. */
  function NamedListings(elements: seq<Listing>): (r: seq<Competitive>)
    ensures forall k :: 0 <= k < |r| ==> r[k].name != ""
    decreases |elements|
  {
    if |elements| == 0 then []
    else
      var c := CompetitiveOf(elements[|elements| - 1]);
      NamedListings(elements[..|elements| - 1]) + (if c.name != "" then [c] else [])
  }

  /** What one selector yields: nothing when its lookup raises. */
  function Yield(lookup: Option<seq<Listing>>): seq<Competitive> {
    if lookup.Some? then NamedListings(lookup.value) else []
  }

  /** The yield of the first selector that yields anything, or nothing. */
  function FirstYield(lookups: seq<Option<seq<Listing>>>): (r: seq<Competitive>)
    decreases |lookups|
  {
    if |lookups| == 0 then []
    else if Yield(lookups[0]) != [] then Yield(lookups[0])
    else FirstYield(lookups[1..])
  }

  /** The selectors are tried in order and the first that yields a named record decides; none yielding gives nothing. */
  lemma {:induction false} FirstYieldSpec(lookups: seq<Option<seq<Listing>>>)
    ensures FirstYield(lookups) == [] <==> forall k :: 0 <= k < |lookups| ==> Yield(lookups[k]) == []
    ensures FirstYield(lookups) != [] ==>
      exists k :: 0 <= k < |lookups| && FirstYield(lookups) == Yield(lookups[k]) &&
        forall j :: 0 <= j < k ==> Yield(lookups[j]) == []
    decreases |lookups|
  {
    if |lookups| > 0 && Yield(lookups[0]) == [] {
      var rest := lookups[1..];
      FirstYieldSpec(rest);
      forall k | 0 < k < |lookups| ensures lookups[k] == rest[k - 1] { }
      if FirstYield(lookups) != [] {
        var k :| 0 <= k < |rest| && FirstYield(rest) == Yield(rest[k]) && forall j :: 0 <= j < k ==> Yield(rest[j]) == [];
        assert FirstYield(lookups) == Yield(lookups[k + 1]);
        forall j | 0 <= j < k + 1 ensures Yield(lookups[j]) == [] {
          if j > 0 { assert lookups[j] == rest[j - 1]; }
        }
      } else {
        forall k | 0 <= k < |lookups| ensures Yield(lookups[k]) == [] {
          if k > 0 { assert lookups[k] == rest[k - 1]; }
        }
      }
    }
  }

  lemma NamedListingsStep(elements: seq<Listing>, i: nat)
    requires i < |elements|
    ensures NamedListings(elements[..i + 1]) == NamedListings(elements[..i]) +
      (if CompetitiveOf(elements[i]).name != "" then [CompetitiveOf(elements[i])] else [])
  {
    assert elements[..i + 1][..i] == elements[..i];
  }

  /** One selector's elements: the named records, in order. */
  method CollectListings(elements: seq<Listing>) returns (found: seq<Competitive>)
    ensures found == NamedListings(elements)
  {
    found := [];
    var i := 0;
    while i < |elements|
      invariant i <= |elements|
      invariant found == NamedListings(elements[..i])
    {
      NamedListingsStep(elements, i);
      var c := CompetitiveOf(elements[i]);
      if c.name != "" {
        found := found + [c];
      } else {
        assert found + [] == found;
      }
      i := i + 1;
    }
    assert elements[..i] == elements;
  }

  lemma FirstYieldStep(lookups: seq<Option<seq<Listing>>>, s: nat)
    requires s < |lookups|
    ensures FirstYield(lookups[s..]) == if Yield(lookups[s]) != [] then Yield(lookups[s]) else FirstYield(lookups[s + 1..])
  {
    assert lookups[s..][0] == lookups[s];
    assert lookups[s..][1..] == lookups[s + 1..];
  }

  /** One selector's lookup: its named records, none when it raises. */
  method YieldOf(lookup: Option<seq<Listing>>) returns (found: seq<Competitive>)
    ensures found == Yield(lookup)
  {
    found := [];
    if lookup.Some? {
      found := CollectListings(lookup.value);
    }
  }

  /**
   * `extract_competitive_pokemon_data`: the selectors are tried in order
   * until one yields named records; those records, at most 100 of them.
   */
  method ExtractCompetitivePokemonData(lookups: seq<Option<seq<Listing>>>) returns (data: seq<Competitive>)
    ensures data == Take(FirstYield(lookups), 100)
    ensures |data| <= 100 && forall k :: 0 <= k < |data| ==> data[k].name != ""
  {
    var found: seq<Competitive> := [];
    var s := 0;
    while s < |lookups|
      invariant s <= |lookups|
      invariant found == [] && FirstYield(lookups) == FirstYield(lookups[s..])
    {
      FirstYieldStep(lookups, s);
      found := YieldOf(lookups[s]);
      if found != [] {
        break;
      }
      s := s + 1;
    }
    FirstYieldNamed(lookups);
    data := Take(found, 100);
  }

  lemma {:induction false} FirstYieldNamed(lookups: seq<Option<seq<Listing>>>)
    ensures forall k :: 0 <= k < |FirstYield(lookups)| ==> FirstYield(lookups)[k].name != ""
    decreases |lookups|
  {
    if |lookups| > 0 && Yield(lookups[0]) == [] {
      FirstYieldNamed(lookups[1..]);
    }
  }

  // ---------------------------------------------------------------------
  // extract_serebii_pokemon_data

  /** A table cell: its stripped text and the `src` of its first image ("" when it has none). */
  datatype Cell = Cell(text: string, imgSrc: string)

  datatype SerebiiEntry = SerebiiEntry(number: Option<string>, name: Option<string>, spriteUrl: Option<string>)

  /** `re.match(r'^\d{3}', text)`. */
  predicate StartsWithThreeDigits(t: string) {
    |t| >= 3 && IsDigits(t[..3])
  }

  /** A text that can be a name: non-empty, not all digits and longer than two characters. */
  predicate NameLike(t: string) {
    t != "" && !IsDigits(t) && |t| > 2
  }

  /** The number and name after reading one more cell: a number cell overwrites the number, the first name cell sets the name. */
  function ReadCell(info: SerebiiEntry, t: string): SerebiiEntry {
    if StartsWithThreeDigits(t) then info.(number := Some(t[..3]))
    else if NameLike(t) && info.name.None? then info.(name := Some(t))
    else info
  }

  /** The number and name from the cells, read in order. */
  function ReadCells(cells: seq<Cell>): SerebiiEntry
    decreases |cells|
  {
    if |cells| == 0 then SerebiiEntry(None, None, None)
    else ReadCell(ReadCells(cells[..|cells| - 1]), cells[|cells| - 1].text)
  }

  /** The sprite from the cells: the joined `src` of the last cell with an image. */
  function SpriteOf(cells: seq<Cell>, join: string -> string): Option<string>
    decreases |cells|
  {
    if |cells| == 0 then None
    else if cells[|cells| - 1].imgSrc != "" then Some(join(cells[|cells| - 1].imgSrc))
    else SpriteOf(cells[..|cells| - 1], join)
  }

  /** The record for a row; `join` resolves a `src` against Serebii's base URL. */
  function RowEntry(cells: seq<Cell>, join: string -> string): SerebiiEntry {
    ReadCells(cells).(spriteUrl := SpriteOf(cells, join))
  }

  /** A row is kept when it has at least three cells and a name. */
  predicate KeepsRow(cells: seq<Cell>) {
    |cells| >= 3 && ReadCells(cells).name.Some?
  }

  /** The records of a table's kept rows, in row order. */
  function TableEntries(rows: seq<seq<Cell>>, join: string -> string): seq<SerebiiEntry>
    decreases |rows|
  {
    if |rows| == 0 then []
    else
      var row := rows[|rows| - 1];
      TableEntries(rows[..|rows| - 1], join) + (if KeepsRow(row) then [RowEntry(row, join)] else [])
  }

  /** The records of every table in turn. */
  function SerebiiEntries(tables: seq<seq<seq<Cell>>>, join: string -> string): seq<SerebiiEntry>
    decreases |tables|
  {
    if |tables| == 0 then []
    else SerebiiEntries(tables[..|tables| - 1], join) + TableEntries(tables[|tables| - 1], join)
  }

  /** The number is the first three characters of the LAST cell starting with three digits, and absent when there is none. */
  lemma ReadCellsNumber(cells: seq<Cell>)
    ensures ReadCells(cells).number.None? <==> forall i :: 0 <= i < |cells| ==> !StartsWithThreeDigits(cells[i].text)
    ensures ReadCells(cells).number.Some? ==>
      exists i :: 0 <= i < |cells| && StartsWithThreeDigits(cells[i].text) && ReadCells(cells).number.value == cells[i].text[..3] &&
        forall j :: i < j < |cells| ==> !StartsWithThreeDigits(cells[j].text)
  {
    ReadCellsNoNumber(cells);
    ReadCellsLastNumber(cells);
  }

  lemma {:induction false} ReadCellsNoNumber(cells: seq<Cell>)
    ensures ReadCells(cells).number.None? <==> forall i :: 0 <= i < |cells| ==> !StartsWithThreeDigits(cells[i].text)
    decreases |cells|
  {
    if |cells| > 0 {
      var n := |cells| - 1;
      var init := cells[..n];
      ReadCellsNoNumber(init);
      ReadCellNumber(ReadCells(init), cells[n].text);
      assert ReadCells(cells) == ReadCell(ReadCells(init), cells[n].text);
      forall i | 0 <= i < n ensures cells[i] == init[i] { }
    }
  }

  lemma {:induction false} ReadCellsLastNumber(cells: seq<Cell>)
    ensures ReadCells(cells).number.Some? ==>
      exists i :: 0 <= i < |cells| && StartsWithThreeDigits(cells[i].text) && ReadCells(cells).number.value == cells[i].text[..3] &&
        forall j :: i < j < |cells| ==> !StartsWithThreeDigits(cells[j].text)
    decreases |cells|
  {
    if |cells| > 0 {
      var n := |cells| - 1;
      var init := cells[..n];
      var last := cells[n].text;
      var prev := ReadCells(init);
      ReadCellsLastNumber(init);
      ReadCellNumber(prev, last);
      assert ReadCells(cells) == ReadCell(prev, last);
      if StartsWithThreeDigits(last) {
        assert ReadCells(cells).number == Some(last[..3]);
        assert StartsWithThreeDigits(cells[n].text) && ReadCells(cells).number.value == cells[n].text[..3];
      } else if prev.number.Some? {
        assert ReadCells(cells).number == prev.number;
        var i :| 0 <= i < |init| && StartsWithThreeDigits(init[i].text) && prev.number.value == init[i].text[..3] &&
          forall j :: i < j < |init| ==> !StartsWithThreeDigits(init[j].text);
        assert cells[i] == init[i];
        forall j | i < j < |cells|
          ensures !StartsWithThreeDigits(cells[j].text)
        {
          if j < n {
            assert cells[j] == init[j];
          }
        }
      }
    }
  }

  lemma ReadCellNumber(info: SerebiiEntry, t: string)
    ensures ReadCell(info, t).number == if StartsWithThreeDigits(t) then Some(t[..3]) else info.number
  {
  }

  /** The name is the FIRST cell text that can be a name and does not start with three digits, and absent when there is none. */
  lemma {:induction false} ReadCellsName(cells: seq<Cell>)
    ensures ReadCells(cells).name.None? <==>
      forall i :: 0 <= i < |cells| ==> StartsWithThreeDigits(cells[i].text) || !NameLike(cells[i].text)
    ensures ReadCells(cells).name.Some? ==>
      exists i :: 0 <= i < |cells| && !StartsWithThreeDigits(cells[i].text) && NameLike(cells[i].text) &&
        ReadCells(cells).name.value == cells[i].text &&
        forall j :: 0 <= j < i ==> StartsWithThreeDigits(cells[j].text) || !NameLike(cells[j].text)
    decreases |cells|
  {
    if |cells| > 0 {
      var init := cells[..|cells| - 1];
      ReadCellsName(init);
      if ReadCells(init).name.Some? {
        var i :| 0 <= i < |init| && !StartsWithThreeDigits(init[i].text) && NameLike(init[i].text) &&
          ReadCells(init).name.value == init[i].text &&
          forall j :: 0 <= j < i ==> StartsWithThreeDigits(init[j].text) || !NameLike(init[j].text);
        assert cells[i] == init[i];
        forall j | 0 <= j < i ensures StartsWithThreeDigits(cells[j].text) || !NameLike(cells[j].text) {
          assert cells[j] == init[j];
        }
      } else {
        forall j | 0 <= j < |init| ensures StartsWithThreeDigits(cells[j].text) || !NameLike(cells[j].text) {
          assert cells[j] == init[j];
        }
      }
    }
  }

  /** Every kept record has a name longer than two characters that is not all digits, and rows come from tables in order. */
  lemma {:induction false} SerebiiEntriesNamed(tables: seq<seq<seq<Cell>>>, join: string -> string)
    ensures forall k :: 0 <= k < |SerebiiEntries(tables, join)| ==>
      SerebiiEntries(tables, join)[k].name.Some? && NameLike(SerebiiEntries(tables, join)[k].name.value)
    decreases |tables|
  {
    if |tables| > 0 {
      SerebiiEntriesNamed(tables[..|tables| - 1], join);
      TableEntriesNamed(tables[|tables| - 1], join);
    }
  }

  lemma {:induction false} TableEntriesNamed(rows: seq<seq<Cell>>, join: string -> string)
    ensures forall k :: 0 <= k < |TableEntries(rows, join)| ==>
      TableEntries(rows, join)[k].name.Some? && NameLike(TableEntries(rows, join)[k].name.value)
    decreases |rows|
  {
    if |rows| > 0 {
      TableEntriesNamed(rows[..|rows| - 1], join);
      var row := rows[|rows| - 1];
      if KeepsRow(row) {
        ReadCellsName(row);
      }
    }
  }

  /** The two passes over one row's cells. */
  method ParseRow(cells: seq<Cell>, join: string -> string) returns (info: SerebiiEntry)
    ensures info == RowEntry(cells, join)
  {
    info := SerebiiEntry(None, None, None);
    var i := 0;
    while i < |cells|
      invariant i <= |cells|
      invariant info == ReadCells(cells[..i])
    {
      assert cells[..i + 1][..i] == cells[..i];
      info := ReadCell(info, cells[i].text);
      i := i + 1;
    }
    assert cells[..i] == cells;
    var sprite: Option<string> := None;
    i := 0;
    while i < |cells|
      invariant i <= |cells|
      invariant sprite == SpriteOf(cells[..i], join)
    {
      assert cells[..i + 1][..i] == cells[..i];
      if cells[i].imgSrc != "" {
        sprite := Some(join(cells[i].imgSrc));
      }
      i := i + 1;
    }
    assert cells[..i] == cells;
    info := info.(spriteUrl := sprite);
  }

  /** One table's rows, appended to the records gathered so far. */
  method ParseTable(rows: seq<seq<Cell>>, join: string -> string, data0: seq<SerebiiEntry>) returns (data: seq<SerebiiEntry>)
    ensures data == data0 + TableEntries(rows, join)
  {
    data := data0;
    var r := 0;
    while r < |rows|
      invariant r <= |rows|
      invariant data == data0 + TableEntries(rows[..r], join)
    {
      assert rows[..r + 1][..r] == rows[..r];
      var cells := rows[r];
      if |cells| >= 3 {
        var info := ParseRow(cells, join);
        if info.name.Some? {
          data := data + [info];
        } else {
          assert data + [] == data;
        }
      } else {
        assert data + [] == data;
      }
      r := r + 1;
    }
    assert rows[..r] == rows;
  }

  /** `extract_serebii_pokemon_data`: the kept rows of every table in order, at most 500 of them. */
  method ExtractSerebiiPokemonData(tables: seq<seq<seq<Cell>>>, join: string -> string) returns (data: seq<SerebiiEntry>)
    ensures data == Take(SerebiiEntries(tables, join), 500)
    ensures |data| <= 500 && forall k :: 0 <= k < |data| ==> data[k].name.Some? && NameLike(data[k].name.value)
  {
    var all: seq<SerebiiEntry> := [];
    var t := 0;
    while t < |tables|
      invariant t <= |tables|
      invariant all == SerebiiEntries(tables[..t], join)
    {
      assert tables[..t + 1][..t] == tables[..t];
      all := ParseTable(tables[t], join, all);
      t := t + 1;
    }
    assert tables[..t] == tables;
    SerebiiEntriesNamed(tables, join);
    data := Take(all, 500);
  }

  // ---------------------------------------------------------------------
  // extract_artwork_images and download_serebii_sprites: what is downloaded

  /** An Art of Pokémon image is downloaded when its source is non-empty and mentions art or pokemon, or is among the first 50. */
  predicate IsArtwork(src: string, i: nat) {
    src != "" && (Contains(Lower(src), "art") || Contains(Lower(src), "pokemon") || i < 50)
  }

  /** The sources `extract_artwork_images` passes to `download_file`, in page order. */
  function ArtworkTargets(srcs: seq<string>): (urls: seq<string>)
    ensures |urls| <= |srcs|
    decreases |srcs|
  {
    if |srcs| == 0 then []
    else
      var n := |srcs| - 1;
      ArtworkTargets(srcs[..n]) + (if IsArtwork(srcs[n], n) then [srcs[n]] else [])
  }

  /** A URL is tried exactly when it is the source of an image at a position where the artwork rule holds. */
  lemma {:induction false} ArtworkTargetsMember(srcs: seq<string>, u: string)
    ensures u in ArtworkTargets(srcs) <==> exists i :: 0 <= i < |srcs| && srcs[i] == u && IsArtwork(u, i)
    decreases |srcs|
  {
    if |srcs| > 0 {
      var n := |srcs| - 1;
      ArtworkTargetsMember(srcs[..n], u);
      if exists i :: 0 <= i < |srcs| && srcs[i] == u && IsArtwork(u, i) {
        var i :| 0 <= i < |srcs| && srcs[i] == u && IsArtwork(u, i);
        if i < n {
          assert srcs[..n][i] == u;
        }
      }
      if exists i :: 0 <= i < n && srcs[..n][i] == u && IsArtwork(u, i) {
        var i :| 0 <= i < n && srcs[..n][i] == u && IsArtwork(u, i);
        assert srcs[i] == u;
      }
    }
  }

  /**
   * A Serebii image is downloaded when its source is non-empty, mentions
   * pokemon or pokedex, and the path of its URL (`pathOf`, for
   * `urlparse(src).path`) has a basename.
   */
  predicate IsSprite(src: string, pathOf: string -> string) {
    src != "" && (Contains(Lower(src), "pokemon") || Contains(Lower(src), "pokedex")) && BaseName(pathOf(src)) != ""
  }

  /** The joined sources that `keep` accepts, in order. */
  function JoinWhere(srcs: seq<string>, keep: string -> bool, join: string -> string): (urls: seq<string>)
    ensures |urls| <= |srcs|
    decreases |srcs|
  {
    if |srcs| == 0 then []
    else
      var n := |srcs| - 1;
      JoinWhere(srcs[..n], keep, join) + (if keep(srcs[n]) then [join(srcs[n])] else [])
  }

  lemma {:induction false} JoinWhereMember(srcs: seq<string>, keep: string -> bool, join: string -> string, u: string)
    ensures u in JoinWhere(srcs, keep, join) <==> exists i :: 0 <= i < |srcs| && keep(srcs[i]) && join(srcs[i]) == u
    decreases |srcs|
  {
    if |srcs| > 0 {
      var n := |srcs| - 1;
      var init := srcs[..n];
      JoinWhereMember(init, keep, join, u);
      if exists i :: 0 <= i < |srcs| && keep(srcs[i]) && join(srcs[i]) == u {
        var i :| 0 <= i < |srcs| && keep(srcs[i]) && join(srcs[i]) == u;
        if i < n {
          assert init[i] == srcs[i];
        }
      }
      if exists i :: 0 <= i < n && keep(init[i]) && join(init[i]) == u {
        var i :| 0 <= i < n && keep(init[i]) && join(init[i]) == u;
        assert init[i] == srcs[i];
      }
    }
  }

  /** The joined URLs `download_serebii_sprites` passes to `download_file`, in page order. */
  function SpriteTargets(srcs: seq<string>, join: string -> string, pathOf: string -> string): (urls: seq<string>)
    ensures |urls| <= |srcs|
  {
    JoinWhere(srcs, src => IsSprite(src, pathOf), join)
  }

  /** A URL is tried exactly when it joins the source of an image that meets the sprite rule. */
  lemma SpriteTargetsMember(srcs: seq<string>, join: string -> string, pathOf: string -> string, u: string)
    ensures u in SpriteTargets(srcs, join, pathOf) <==>
      exists i :: 0 <= i < |srcs| && IsSprite(srcs[i], pathOf) && join(srcs[i]) == u
  {
    JoinWhereMember(srcs, src => IsSprite(src, pathOf), join, u);
  }

  lemma SpriteTargetsStep(srcs: seq<string>, i: nat, join: string -> string, pathOf: string -> string)
    requires i < |srcs|
    ensures IsSprite(srcs[i], pathOf) ==>
      SpriteTargets(srcs[..i + 1], join, pathOf) == SpriteTargets(srcs[..i], join, pathOf) + [join(srcs[i])]
    ensures !IsSprite(srcs[i], pathOf) ==> SpriteTargets(srcs[..i + 1], join, pathOf) == SpriteTargets(srcs[..i], join, pathOf)
  {
    var keep := src => IsSprite(src, pathOf);
    assert srcs[..i + 1][..i] == srcs[..i];
    assert JoinWhere(srcs[..i], keep, join) + [] == JoinWhere(srcs[..i], keep, join);
    assert JoinWhere(srcs[..i + 1], keep, join) ==
      JoinWhere(srcs[..i], keep, join) + (if keep(srcs[i]) then [join(srcs[i])] else []);
  }

  lemma ArtworkTargetsStep(srcs: seq<string>, i: nat)
    requires i < |srcs|
    ensures IsArtwork(srcs[i], i) ==> ArtworkTargets(srcs[..i + 1]) == ArtworkTargets(srcs[..i]) + [srcs[i]]
    ensures !IsArtwork(srcs[i], i) ==> ArtworkTargets(srcs[..i + 1]) == ArtworkTargets(srcs[..i])
  {
    assert srcs[..i + 1][..i] == srcs[..i];
    assert ArtworkTargets(srcs[..i]) + [] == ArtworkTargets(srcs[..i]);
  }

  // ---------------------------------------------------------------------
  // download_file

  /** What `download_file` keeps: the URLs saved and `total_files_downloaded`. */
  datatype Downloads = Downloads(saved: set<string>, total: nat)

  /** A URL already saved or a failed fetch changes nothing; a successful fetch saves the URL and counts the file. */
  function Download(d: Downloads, url: string, ok: bool): Downloads {
    if url in d.saved || !ok then d else Downloads(d.saved + {url}, d.total + 1)
  }

  /** `download_file` on each of `urls`, one after the other. */
  function DownloadEach(d: Downloads, urls: seq<string>, fetchOk: string -> bool): Downloads
    decreases |urls|
  {
    if |urls| == 0 then d
    else
      var last := urls[|urls| - 1];
      Download(DownloadEach(d, urls[..|urls| - 1], fetchOk), last, fetchOk(last))
  }

  /** `download_file` returns True for a URL saved before the calls began or fetched now. */
  function Returns(d: Downloads, fetchOk: string -> bool): string -> bool {
    u => u in d.saved || fetchOk(u)
  }

  lemma DownloadEachSnoc(d: Downloads, urls: seq<string>, u: string, fetchOk: string -> bool)
    ensures DownloadEach(d, urls + [u], fetchOk) == Download(DownloadEach(d, urls, fetchOk), u, fetchOk(u))
  {
    assert (urls + [u])[..|urls|] == urls;
  }

  /** One more call: the downloads extend by `u`, and the call returns what `Returns` says of the state before all the calls. */
  lemma DownloadNext(d: Downloads, urls: seq<string>, u: string, fetchOk: string -> bool)
    ensures DownloadEach(d, urls + [u], fetchOk) == Download(DownloadEach(d, urls, fetchOk), u, fetchOk(u))
    ensures (u in DownloadEach(d, urls, fetchOk).saved || fetchOk(u)) == Returns(d, fetchOk)(u)
  {
    DownloadEachSnoc(d, urls, u, fetchOk);
    DownloadEachMember(d, urls, fetchOk, u);
  }

  /** After the calls, a URL is saved exactly when it was saved before or was tried and fetched. */
  lemma {:induction false} DownloadEachMember(d: Downloads, urls: seq<string>, fetchOk: string -> bool, u: string)
    ensures u in DownloadEach(d, urls, fetchOk).saved <==> u in d.saved || (u in urls && fetchOk(u))
    decreases |urls|
  {
    if |urls| > 0 {
      var n := |urls| - 1;
      DownloadEachMember(d, urls[..n], fetchOk, u);
      assert urls == urls[..n] + [urls[n]];
    }
  }

  /** Each saved URL is counted once: `total_files_downloaded` stays the number of saved URLs. */
  lemma {:induction false} DownloadEachCounted(d: Downloads, urls: seq<string>, fetchOk: string -> bool)
    requires d.total == |d.saved|
    ensures DownloadEach(d, urls, fetchOk).total == |DownloadEach(d, urls, fetchOk).saved|
    decreases |urls|
  {
    if |urls| > 0 {
      DownloadEachCounted(d, urls[..|urls| - 1], fetchOk);
    }
  }

  lemma {:induction false} DownloadEachConcat(d: Downloads, a: seq<string>, b: seq<string>, fetchOk: string -> bool)
    ensures DownloadEach(d, a + b, fetchOk) == DownloadEach(DownloadEach(d, a, fetchOk), b, fetchOk)
    decreases |b|
  {
    if |b| == 0 {
      assert a + b == a;
    } else {
      var n := |b| - 1;
      DownloadEachConcat(d, a, b[..n], fetchOk);
      assert (a + b)[..|a + b| - 1] == a + b[..n];
    }
  }

  // ---------------------------------------------------------------------
  // run_remaining_sites_scraping

  /** The sites in the order they are run. */
  const PrioritySites: seq<string> := ["artofpkm", "pkmn_pokedex", "serebii", "pkmn_series", "bulbapedia", "portal_pokemon"]

  /** The configured site keys. */
  const RemainingSiteKeys: set<string> := {"artofpkm", "pkmn_pokedex", "pkmn_series", "serebii", "bulbapedia", "portal_pokemon"}

  /** The site's configured `scraper_method`, when it names a method the class defines. */
  predicate HasScraper(site: string) {
    site in {"artofpkm", "pkmn_pokedex", "serebii"}
  }

  /** A site is run when it is configured and its scraper method exists. */
  predicate Runs(site: string) {
    site in RemainingSiteKeys && HasScraper(site)
  }

  /** Only the Art of Pokémon, PKMN.GG Pokédex and Serebii scrapers exist, and they run in that order. */
  lemma RunSitesSpec()
    ensures Filter(PrioritySites, Runs) == ["artofpkm", "pkmn_pokedex", "serebii"]
  {
    var p := PrioritySites;
    assert p[..6][..5] == p[..5] && p[..5][..4] == p[..4] && p[..4][..3] == p[..3];
    assert p[..3][..2] == p[..2] && p[..2][..1] == p[..1] && p[..1][..0] == [];
    assert Filter(p[..1], Runs) == ["artofpkm"];
    assert Filter(p[..2], Runs) == ["artofpkm", "pkmn_pokedex"];
    assert Filter(p[..3], Runs) == ["artofpkm", "pkmn_pokedex", "serebii"];
    assert Filter(p[..4], Runs) == Filter(p[..3], Runs);
    assert Filter(p[..5], Runs) == Filter(p[..4], Runs);
    assert p[..6] == p;
  }

  /**
   * What the site scrapers meet: the `src` of each image on the Art of
   * Pokémon page and on the Serebii page, `urljoin` against Serebii,
   * `urlparse(src).path`, each URL's fetch outcome, and whether a site's
   * scraper raises. A scraper raises only in the steps before its
   * downloads (driver start, page load, screenshot, page request), since
   * the download loops catch their own exceptions.
   */
  datatype Pages = Pages(
    artwork: seq<string>,
    serebii: seq<string>,
    join: string -> string,
    pathOf: string -> string,
    fetchOk: string -> bool,
    failed: string -> bool)

  /** The URLs a site's scraper passes to `download_file`; PKMN.GG downloads nothing. */
  function SiteDownloads(site: string, p: Pages): seq<string> {
    if p.failed(site) then []
    else if site == "artofpkm" then ArtworkTargets(p.artwork)
    else if site == "serebii" then SpriteTargets(p.serebii, p.join, p.pathOf)
    else []
  }

  /** The statistics the site loop changes. */
  datatype RunState = RunState(files: Downloads, sitesProcessed: nat, imagesDownloaded: nat, errors: nat)

  /**
   * One site's scraper: a raise counts an error; otherwise its downloads,
   * and for Art of Pokémon one `total_images_downloaded` per download that
   * returned True.
   */
  function Scrape(s: RunState, site: string, p: Pages): RunState {
    if p.failed(site) then RunState(s.files, s.sitesProcessed, s.imagesDownloaded, s.errors + 1)
    else
      var images := if site == "artofpkm" then CountWhere(ArtworkTargets(p.artwork), Returns(s.files, p.fetchOk)) else 0;
      RunState(DownloadEach(s.files, SiteDownloads(site, p), p.fetchOk), s.sitesProcessed, s.imagesDownloaded + images, s.errors)
  }

  /** One turn of the site loop: a site with a scraper is scraped and counted as processed. */
  function Visit(s: RunState, site: string, p: Pages): RunState {
    if Runs(site) then
      var t := Scrape(s, site, p);
      RunState(t.files, t.sitesProcessed + 1, t.imagesDownloaded, t.errors)
    else s
  }

  /** The turns for `sites`, one after the other. */
  function VisitAll(s: RunState, sites: seq<string>, p: Pages): RunState
    decreases |sites|
  {
    if |sites| == 0 then s
    else Visit(VisitAll(s, sites[..|sites| - 1], p), sites[|sites| - 1], p)
  }

  /** The URLs the scrapers of `sites` pass to `download_file`, in order. */
  function RunDownloads(sites: seq<string>, p: Pages): seq<string>
    decreases |sites|
  {
    if |sites| == 0 then []
    else
      var last := sites[|sites| - 1];
      RunDownloads(sites[..|sites| - 1], p) + (if Runs(last) then SiteDownloads(last, p) else [])
  }

  /** The loop counts each site that has a scraper as processed, and each such site whose scraper raised as an error. */
  lemma {:induction false} VisitAllCounts(s: RunState, sites: seq<string>, p: Pages)
    ensures VisitAll(s, sites, p).sitesProcessed == s.sitesProcessed + |Filter(sites, Runs)|
    ensures VisitAll(s, sites, p).errors == s.errors + CountWhere(Filter(sites, Runs), p.failed)
    decreases |sites|
  {
    if |sites| > 0 {
      var n := |sites| - 1;
      VisitAllCounts(s, sites[..n], p);
      if Runs(sites[n]) {
        CountWhereSnoc(Filter(sites[..n], Runs), sites[n], p.failed);
      }
    }
  }

  /** The loop's downloads are those of the URLs its scrapers try, in order. */
  lemma {:induction false} VisitAllFiles(s: RunState, sites: seq<string>, p: Pages)
    ensures VisitAll(s, sites, p).files == DownloadEach(s.files, RunDownloads(sites, p), p.fetchOk)
    decreases |sites|
  {
    if |sites| > 0 {
      var n := |sites| - 1;
      VisitAllFiles(s, sites[..n], p);
      var last := sites[n];
      DownloadEachConcat(s.files, RunDownloads(sites[..n], p), if Runs(last) then SiteDownloads(last, p) else [], p.fetchOk);
    }
  }

  /** A site without a scraper changes nothing. */
  lemma VisitSkipped(s: RunState, site: string, p: Pages)
    requires !Runs(site)
    ensures Visit(s, site, p) == s
  {
  }

  /** The priority list runs Art of Pokémon, PKMN.GG and Serebii, in that order, and skips the rest. */
  lemma PriorityVisits(s: RunState, p: Pages)
    ensures VisitAll(s, PrioritySites, p) ==
      Visit(Visit(Visit(s, "artofpkm", p), "pkmn_pokedex", p), "serebii", p)
  {
    var q := PrioritySites;
    assert q[..6][..5] == q[..5] && q[..5][..4] == q[..4] && q[..4][..3] == q[..3];
    assert q[..3][..2] == q[..2] && q[..2][..1] == q[..1] && q[..1][..0] == [];
    assert VisitAll(s, q[..1], p) == Visit(s, "artofpkm", p);
    assert VisitAll(s, q[..3], p) == Visit(Visit(Visit(s, "artofpkm", p), "pkmn_pokedex", p), "serebii", p);
    VisitSkipped(VisitAll(s, q[..3], p), "pkmn_series", p);
    VisitSkipped(VisitAll(s, q[..4], p), "bulbapedia", p);
    VisitSkipped(VisitAll(s, q[..5], p), "portal_pokemon", p);
    assert q[..6] == q;
  }

  /**
   * A run over the priority list: three sites processed, one error per
   * scraper that raised, the downloads of Art of Pokémon then of Serebii,
   * and one downloaded image per Art of Pokémon download that returned True.
   */
  lemma PriorityRun(s: RunState, p: Pages)
    ensures VisitAll(s, PrioritySites, p).sitesProcessed == s.sitesProcessed + 3
    ensures VisitAll(s, PrioritySites, p).errors ==
      s.errors + CountWhere(["artofpkm", "pkmn_pokedex", "serebii"], p.failed)
    ensures VisitAll(s, PrioritySites, p).files ==
      DownloadEach(s.files, SiteDownloads("artofpkm", p) + SiteDownloads("serebii", p), p.fetchOk)
    ensures VisitAll(s, PrioritySites, p).imagesDownloaded ==
      s.imagesDownloaded + (if p.failed("artofpkm") then 0 else CountWhere(ArtworkTargets(p.artwork), Returns(s.files, p.fetchOk)))
  {
    PriorityVisits(s, p);
    var s1 := Visit(s, "artofpkm", p);
    var s2 := Visit(s1, "pkmn_pokedex", p);
    assert s2.files == s1.files;
    DownloadEachConcat(s.files, SiteDownloads("artofpkm", p), SiteDownloads("serebii", p), p.fetchOk);
    var names := ["artofpkm", "pkmn_pokedex", "serebii"];
    assert names[..2][..1] == names[..1] && names[..1][..0] == [] && names[..3] == names && names[..2] == names[..3][..2];
  }

  class Scraper {
    var downloaded: set<string>
    var sitesProcessed: nat
    var totalFilesDownloaded: nat
    var totalImagesDownloaded: nat
    var totalErrors: nat

    /** Each saved URL was counted once in `total_files_downloaded`. */
    ghost predicate Valid()
      reads this`downloaded, this`totalFilesDownloaded
    {
      totalFilesDownloaded == |downloaded|
    }

    function FileState(): Downloads
      reads this`downloaded, this`totalFilesDownloaded
    {
      Downloads(downloaded, totalFilesDownloaded)
    }

    function State(): RunState
      reads this
    {
      RunState(FileState(), sitesProcessed, totalImagesDownloaded, totalErrors)
    }

    constructor()
      ensures Valid()
      ensures downloaded == {} && sitesProcessed == 0 && totalFilesDownloaded == 0
      ensures totalImagesDownloaded == 0 && totalErrors == 0
    {
      downloaded := {};
      sitesProcessed := 0;
      totalFilesDownloaded := 0;
      totalImagesDownloaded := 0;
      totalErrors := 0;
    }

    /** `download_file`: a seen URL succeeds at once; a fetch that succeeds records the URL and counts the file; a failure changes nothing. */
    method DownloadFile(url: string, fetchOk: bool) returns (ok: bool)
      requires Valid()
      modifies this
      ensures Valid()
      ensures url in old(downloaded) ==> ok && downloaded == old(downloaded) && totalFilesDownloaded == old(totalFilesDownloaded)
      ensures url !in old(downloaded) && fetchOk ==>
        ok && downloaded == old(downloaded) + {url} && totalFilesDownloaded == old(totalFilesDownloaded) + 1
      ensures url !in old(downloaded) && !fetchOk ==>
        !ok && downloaded == old(downloaded) && totalFilesDownloaded == old(totalFilesDownloaded)
      ensures FileState() == Download(old(FileState()), url, fetchOk)
      ensures sitesProcessed == old(sitesProcessed) && totalImagesDownloaded == old(totalImagesDownloaded)
      ensures totalErrors == old(totalErrors)
    {
      if url in downloaded {
        return true;
      }
      if !fetchOk {
        return false;
      }
      downloaded := downloaded + {url};
      totalFilesDownloaded := totalFilesDownloaded + 1;
      ok := true;
    }

    /**
     * `extract_artwork_images`: each image meeting the artwork rule is
     * downloaded; those whose download returns True are listed and counted
     * in `total_images_downloaded`.
     */
    method ExtractArtworkImages(srcs: seq<string>, fetchOk: string -> bool) returns (artwork: seq<string>)
      requires Valid()
      modifies this
      ensures Valid()
      ensures FileState() == DownloadEach(old(FileState()), ArtworkTargets(srcs), fetchOk)
      ensures artwork == Filter(ArtworkTargets(srcs), Returns(old(FileState()), fetchOk))
      ensures totalImagesDownloaded == old(totalImagesDownloaded) + |artwork|
      ensures sitesProcessed == old(sitesProcessed) && totalErrors == old(totalErrors)
    {
      ghost var d0 := FileState();
      artwork := [];
      var i := 0;
      while i < |srcs|
        invariant i <= |srcs|
        invariant Valid()
        invariant FileState() == DownloadEach(d0, ArtworkTargets(srcs[..i]), fetchOk)
        invariant artwork == Filter(ArtworkTargets(srcs[..i]), Returns(d0, fetchOk))
        invariant totalImagesDownloaded == old(totalImagesDownloaded) + |artwork|
        invariant sitesProcessed == old(sitesProcessed) && totalErrors == old(totalErrors)
      {
        var src := srcs[i];
        ghost var tried := ArtworkTargets(srcs[..i]);
        ArtworkTargetsStep(srcs, i);
        if IsArtwork(src, i) {
          DownloadNext(d0, tried, src, fetchOk);
          FilterAppendOne(tried, src, Returns(d0, fetchOk));
          var ok := DownloadFile(src, fetchOk(src));
          if ok {
            artwork := artwork + [src];
            totalImagesDownloaded := totalImagesDownloaded + 1;
          }
        }
        i := i + 1;
      }
      assert srcs[..i] == srcs;
    }

    /** `download_serebii_sprites`: each image meeting the sprite rule is downloaded by its joined URL; returns how many downloads returned True. */
    method DownloadSerebiiSprites(srcs: seq<string>, join: string -> string, pathOf: string -> string, fetchOk: string -> bool)
      returns (count: nat)
      requires Valid()
      modifies this
      ensures Valid()
      ensures FileState() == DownloadEach(old(FileState()), SpriteTargets(srcs, join, pathOf), fetchOk)
      ensures count == CountWhere(SpriteTargets(srcs, join, pathOf), Returns(old(FileState()), fetchOk))
      ensures sitesProcessed == old(sitesProcessed) && totalImagesDownloaded == old(totalImagesDownloaded)
      ensures totalErrors == old(totalErrors)
    {
      ghost var d0 := FileState();
      count := 0;
      var i := 0;
      while i < |srcs|
        invariant i <= |srcs|
        invariant Valid()
        invariant FileState() == DownloadEach(d0, SpriteTargets(srcs[..i], join, pathOf), fetchOk)
        invariant count == CountWhere(SpriteTargets(srcs[..i], join, pathOf), Returns(d0, fetchOk))
        invariant sitesProcessed == old(sitesProcessed) && totalImagesDownloaded == old(totalImagesDownloaded)
        invariant totalErrors == old(totalErrors)
      {
        var src := srcs[i];
        ghost var tried := SpriteTargets(srcs[..i], join, pathOf);
        SpriteTargetsStep(srcs, i, join, pathOf);
        if IsSprite(src, pathOf) {
          var url := join(src);
          DownloadNext(d0, tried, url, fetchOk);
          CountWhereSnoc(tried, url, Returns(d0, fetchOk));
          var ok := DownloadFile(url, fetchOk(url));
          if ok {
            count := count + 1;
          }
        }
        i := i + 1;
      }
      assert srcs[..i] == srcs;
    }

    /** The scraper method of a site: a raise counts an error; otherwise it makes its downloads. */
    method RunScraper(site: string, p: Pages)
      requires Valid()
      modifies this
      ensures Valid()
      ensures State() == Scrape(old(State()), site, p)
    {
      if p.failed(site) {
        totalErrors := totalErrors + 1;
      } else if site == "artofpkm" {
        var artwork := ExtractArtworkImages(p.artwork, p.fetchOk);
      } else if site == "serebii" {
        var count := DownloadSerebiiSprites(p.serebii, p.join, p.pathOf, p.fetchOk);
      }
    }

    /** The site loop over a list of site keys; returns the sites run, in order. */
    method RunSites(sites: seq<string>, p: Pages) returns (ran: seq<string>)
      requires Valid()
      modifies this
      ensures Valid()
      ensures ran == Filter(sites, Runs)
      ensures State() == VisitAll(old(State()), sites, p)
    {
      ghost var s0 := State();
      ran := [];
      var i := 0;
      while i < |sites|
        invariant i <= |sites|
        invariant Valid()
        invariant ran == Filter(sites[..i], Runs)
        invariant State() == VisitAll(s0, sites[..i], p)
      {
        var site := sites[i];
        assert sites[..i + 1][..i] == sites[..i];
        if Runs(site) {
          RunScraper(site, p);
          ran := ran + [site];
          sitesProcessed := sitesProcessed + 1;
        }
        i := i + 1;
      }
      assert sites[..i] == sites;
    }

    /**
     * `run_remaining_sites_scraping`: each site in priority order is run
     * when its scraper exists, and counted as processed. Returns the sites
     * run, in order: only three of the six.
     */
    method RunRemainingSitesScraping(p: Pages) returns (ran: seq<string>)
      requires Valid()
      modifies this
      ensures Valid()
      ensures ran == ["artofpkm", "pkmn_pokedex", "serebii"]
      ensures State() == VisitAll(old(State()), PrioritySites, p)
      ensures sitesProcessed == old(sitesProcessed) + 3
      ensures totalErrors == old(totalErrors) + CountWhere(ran, p.failed)
      ensures FileState() == DownloadEach(old(FileState()), SiteDownloads("artofpkm", p) + SiteDownloads("serebii", p), p.fetchOk)
      ensures totalImagesDownloaded == old(totalImagesDownloaded) +
        (if p.failed("artofpkm") then 0 else CountWhere(ArtworkTargets(p.artwork), Returns(old(FileState()), p.fetchOk)))
    {
      ran := RunSites(PrioritySites, p);
      RunSitesSpec();
      PriorityRun(old(State()), p);
    }
  }
}
