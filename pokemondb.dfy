/**
 * The PokemonDB scraper (pokemondb_focused_scraper.py): Pokédex table rows
 * become records, the records of two extraction methods are merged by
 * Pokédex number, and files are downloaded once per URL.
 *
 * A table cell enters as its stripped text and its links (text and href);
 * the network as whether each fetch succeeds.
 */
module PokemonDb {
  import opened PyText
  import opened Collections
  import opened Json

  // ---------------------------------------------------------------------
  // Table rows

  datatype Link = Link(text: string, href: string)

  /** A `td`/`th` cell: `get_text(strip=True)` and its `a` elements. */
  datatype Cell = Cell(text: string, links: seq<Link>)

  /** The n-th of 'total', 'hp', 'attack', 'defense', 'sp_attack', 'sp_defense', 'speed'. */
  function StatName(j: nat): string
    requires j < 7
  {
    match j
    case 0 => "total"
    case 1 => "hp"
    case 2 => "attack"
    case 3 => "defense"
    case 4 => "sp_attack"
    case 5 => "sp_defense"
    case _ => "speed"
  }

  /** A stat cell's value: its number when the text is all digits, the text otherwise. */
  function StatValue(text: string): (v: Value)
    ensures v.Int? <==> IsDigits(text)
    ensures v.Int? ==> v.i == DigitsValue(text)
    ensures v.Str? ==> v.s == text
  {
    if IsDigits(text) then Int(DigitsValue(text)) else Str(text)
  }

  /** The stats of a row: each stat whose column `j + 3` exists, as the cell's int or text. */
  function Stats(cells: seq<Cell>): (stats: Record)
  {
    map j | 0 <= j < 7 && j + 3 < |cells| :: StatName(j) := StatValue(cells[j + 3].text)
  }

  /** The first run of digits in the number cell, as an int and zero-padded to four digits, when the text has a digit. */
  function PutNumber(r: Record, numberText: string): (r': Record) {
    match FirstDigitRun(numberText)
    case None => r
    case Some(run) =>
      r["number" := Int(DigitsValue(run))]["formatted_number" := Str(ZeroPad(DigitsValue(run), 4))]
  }

  /** The name: the first link's text, or the cell's own text. */
  function NameOf(c: Cell): string {
    if |c.links| > 0 then c.links[0].text else c.text
  }

  /** The types: the texts of the cell's links, or else the words of its text. */
  function TypesOf(c: Cell): (types: seq<string>) {
    if |c.links| > 0 then seq(|c.links|, k requires 0 <= k < |c.links| => c.links[k].text) else Words(c.text)
  }

  /** The 'types' list. */
  function TypesValue(c: Cell): (v: Value)
    ensures v.List? && |v.items| == |TypesOf(c)|
  {
    var types := TypesOf(c);
    List(seq(|types|, k requires 0 <= k < |types| => Str(types[k])))
  }

  /** The record before the stat loop. */
  function RowHead(cells: seq<Cell>): Record
    requires |cells| >= 3
  {
    PutNumber(map["extraction_method" := Str("beautifulsoup")], cells[0].text)["name" := Str(NameOf(cells[1]))]["types" := TypesValue(cells[2])]
  }

  /** The record of one table row; rows with fewer than three cells give none. */
  function ParseRow(cells: seq<Cell>): (r: Option<Record>)
    ensures r.None? <==> |cells| < 3
  {
    if |cells| < 3 then None else Some(RowHead(cells) + Stats(cells))
  }

  /** Different indices name different stats. */
  lemma StatNameInjective(i: nat, j: nat)
    requires i < 7 && j < 7
    ensures StatName(i) == StatName(j) ==> i == j
  {
    if i != j {
      assert StatName(i)[1] != StatName(j)[1] || |StatName(i)| != |StatName(j)|;
    }
  }

  /** A stat is present exactly when its column `j + 3` exists. */
  lemma StatsKeys(cells: seq<Cell>)
    ensures forall j :: 0 <= j < 7 ==> (StatName(j) in Stats(cells) <==> j + 3 < |cells|)
  {
    forall j | 0 <= j < 7 && StatName(j) in Stats(cells)
      ensures j + 3 < |cells|
    {
      var i :| 0 <= i < 7 && i + 3 < |cells| && StatName(i) == StatName(j);
      StatNameInjective(i, j);
    }
  }

  /** Each present stat is the int or text of its own column. */
  lemma StatsValues(cells: seq<Cell>)
    ensures forall j :: 0 <= j < 7 && j + 3 < |cells| ==> Stats(cells)[StatName(j)] == StatValue(cells[j + 3].text)
  {
    forall j | 0 <= j < 7 && j + 3 < |cells|
      ensures Stats(cells)[StatName(j)] == StatValue(cells[j + 3].text)
    {
      var i :| 0 <= i < 7 && i + 3 < |cells| && StatName(i) == StatName(j) && Stats(cells)[StatName(j)] == StatValue(cells[i + 3].text);
      StatNameInjective(i, j);
    }
  }

  /** The fields the row head sets are not stat names, so the stats never overwrite them. */
  lemma NotStatName(k: string)
    requires k == "extraction_method" || k == "number" || k == "formatted_number" || k == "name" || k == "types"
    ensures forall j :: 0 <= j < 7 ==> StatName(j) != k
  {
    forall j | 0 <= j < 7
      ensures StatName(j) != k
    {
      assert StatName(j)[1] != k[1] || |StatName(j)| != |k|;
    }
  }

  /**
   * 'number' and 'formatted_number' are set exactly when the text has a
   * digit: the number is the value of the first digit run of the text, and
   * the formatted number zero-pads it to at least four digits.
   */
  lemma PutNumberSpec(r: Record, numberText: string)
    ensures var hasDigit := exists j :: 0 <= j < |numberText| && IsDigit(numberText[j]);
      ("number" in PutNumber(r, numberText) <==> "number" in r || hasDigit) &&
      (hasDigit ==>
        var n := PutNumber(r, numberText)["number"];
        var f := PutNumber(r, numberText)["formatted_number"];
        FirstDigitRun(numberText).Some? && n == Int(DigitsValue(FirstDigitRun(numberText).value)) &&
        f.Str? && |f.s| >= 4 && IsDigits(f.s) && DigitsValue(f.s) == n.i)
    ensures forall k :: k != "number" && k != "formatted_number" ==>
      (k in PutNumber(r, numberText) <==> k in r) && (k in r ==> PutNumber(r, numberText)[k] == r[k])
  {
    match FirstDigitRun(numberText)
    case None =>
    case Some(run) =>
      assert |NatToString(DigitsValue(run))| >= 1;
  }

  /** The head's method and name fields. */
  lemma RowHeadFields(cells: seq<Cell>)
    requires |cells| >= 3
    ensures Get(RowHead(cells), "extraction_method") == Str("beautifulsoup")
    ensures Get(RowHead(cells), "name") == Str(NameOf(cells[1]))
  {
    match FirstDigitRun(cells[0].text)
    case None =>
    case Some(run) =>
  }

  /**
   * The head has a number exactly when the first cell has a digit: the
   * value of the cell's first digit run, zero-padded in 'formatted_number'.
   */
  lemma RowHeadNumber(cells: seq<Cell>)
    requires |cells| >= 3
    ensures var h := RowHead(cells);
      ("number" in h <==> exists j :: 0 <= j < |cells[0].text| && IsDigit(cells[0].text[j])) &&
      ("number" in h ==>
        FirstDigitRun(cells[0].text).Some? && h["number"] == Int(DigitsValue(FirstDigitRun(cells[0].text).value)) &&
        "formatted_number" in h && h["formatted_number"].Str? &&
        |h["formatted_number"].s| >= 4 && IsDigits(h["formatted_number"].s) &&
        DigitsValue(h["formatted_number"].s) == h["number"].i)
  {
    var r0: Record := map["extraction_method" := Str("beautifulsoup")];
    PutNumberSpec(r0, cells[0].text);
  }

  /** The head holds only its five fields. */
  lemma RowHeadKeys(cells: seq<Cell>)
    requires |cells| >= 3
    ensures forall k :: k in RowHead(cells) ==>
      k == "extraction_method" || k == "number" || k == "formatted_number" || k == "name" || k == "types"
  {
    var r0: Record := map["extraction_method" := Str("beautifulsoup")];
    PutNumberSpec(r0, cells[0].text);
  }

  /**
   * A row with at least three cells gives a record whose name and stats
   * come from their columns; 'number' exists exactly when the first cell
   * has a digit, and 'formatted_number' is that number zero-padded to at
   * least four digits.
   */
  lemma ParseRowSpec(cells: seq<Cell>)
    requires |cells| >= 3
    ensures var r := ParseRow(cells).value;
      Get(r, "extraction_method") == Str("beautifulsoup") && Get(r, "name") == Str(NameOf(cells[1])) &&
      ("number" in r <==> exists j :: 0 <= j < |cells[0].text| && IsDigit(cells[0].text[j])) &&
      ("number" in r ==>
        FirstDigitRun(cells[0].text).Some? && r["number"] == Int(DigitsValue(FirstDigitRun(cells[0].text).value)) &&
        "formatted_number" in r && r["formatted_number"].Str? &&
        |r["formatted_number"].s| >= 4 && IsDigits(r["formatted_number"].s) &&
        DigitsValue(r["formatted_number"].s) == r["number"].i)
    ensures var r := ParseRow(cells).value;
      (forall j :: 0 <= j < 7 ==> (StatName(j) in r <==> j + 3 < |cells|)) &&
      (forall j :: 0 <= j < 7 && j + 3 < |cells| ==> r[StatName(j)] == StatValue(cells[j + 3].text))
  {
    var h := RowHead(cells);
    var st := Stats(cells);
    StatsKeys(cells);
    StatsValues(cells);
    RowHeadFields(cells);
    RowHeadNumber(cells);
    RowHeadKeys(cells);
    NotStatName("extraction_method");
    NotStatName("number");
    NotStatName("formatted_number");
    NotStatName("name");
    NotStatName("types");
    forall j | 0 <= j < 7
      ensures StatName(j) !in h
    {
      if StatName(j) in h {
        assert false;
      }
    }
    assert "extraction_method" !in st && "number" !in st && "formatted_number" !in st && "name" !in st;
  }

  /** What one row contributes: its record, when it has one. */
  function RowRecords(cells: seq<Cell>): (r: seq<Record>)
    ensures |r| == (if |cells| >= 3 then 1 else 0)
  {
    match ParseRow(cells)
    case Some(rec) => [rec]
    case None => []
  }

  /** The records of the table's rows, in row order. */
  function ParsedRows(rows: seq<seq<Cell>>): (r: seq<Record>)
    ensures |r| <= |rows|
    decreases |rows|
  {
    if |rows| == 0 then [] else ParsedRows(rows[..|rows| - 1]) + RowRecords(rows[|rows| - 1])
  }

  /** One more row: its record, if any, is appended. */
  lemma ParsedRowsStep(rows: seq<seq<Cell>>, i: nat)
    requires i < |rows|
    ensures ParsedRows(rows[..i + 1]) == ParsedRows(rows[..i]) + RowRecords(rows[i])
  {
    assert rows[..i + 1][..i] == rows[..i];
  }

  /** The rows loop of `extract_pokemon_with_beautifulsoup`, after the header row. */
  method ExtractRows(rows: seq<seq<Cell>>) returns (pokemon: seq<Record>)
    ensures pokemon == ParsedRows(rows)
  {
    pokemon := [];
    var i := 0;
    while i < |rows|
      invariant 0 <= i <= |rows|
      invariant pokemon == ParsedRows(rows[..i])
    {
      ParsedRowsStep(rows, i);
      pokemon := pokemon + RowRecords(rows[i]);
      i := i + 1;
    }
    assert rows[..i] == rows;
  }

  /** One record per row with at least three cells. */
  lemma {:induction false} ParsedRowsCount(rows: seq<seq<Cell>>)
    ensures |ParsedRows(rows)| == CountWhere(rows, (cells: seq<Cell>) => |cells| >= 3)
    decreases |rows|
  {
    if |rows| > 0 {
      ParsedRowsCount(rows[..|rows| - 1]);
    }
  }

  // ---------------------------------------------------------------------
  // merge_pokemon_data

  /** `pokemon.get('number')`. */
  function NumberOf(r: Record): Value {
    Get(r, "number")
  }

  /** `data2_lookup`: each truthy number mapped to the last data2 record carrying it. */
  function Lookup(data2: seq<Record>): (m: map<Value, Record>)
    decreases |data2|
  {
    if |data2| == 0 then map[]
    else
      var last := data2[|data2| - 1];
      var m := Lookup(data2[..|data2| - 1]);
      if Truthy(NumberOf(last)) then m[NumberOf(last) := last] else m
  }

  /** The lookup holds exactly the truthy numbers of data2. */
  lemma {:induction false} LookupKeys(data2: seq<Record>, n: Value)
    ensures n in Lookup(data2) <==> Truthy(n) && exists i :: 0 <= i < |data2| && NumberOf(data2[i]) == n
    decreases |data2|
  {
    if |data2| > 0 {
      var init := data2[..|data2| - 1];
      LookupKeys(init, n);
      if Truthy(n) && (exists i :: 0 <= i < |data2| && NumberOf(data2[i]) == n) {
        var i :| 0 <= i < |data2| && NumberOf(data2[i]) == n;
        if i < |init| {
          assert init[i] == data2[i];
        }
      }
    }
  }

  /** Each truthy number is mapped to the LAST data2 record carrying it. */
  lemma {:induction false} LookupLast(data2: seq<Record>, j: nat)
    requires j < |data2| && Truthy(NumberOf(data2[j]))
    requires forall i :: j < i < |data2| ==> NumberOf(data2[i]) != NumberOf(data2[j])
    ensures NumberOf(data2[j]) in Lookup(data2) && Lookup(data2)[NumberOf(data2[j])] == data2[j]
    decreases |data2|
  {
    var init := data2[..|data2| - 1];
    if j < |init| {
      assert init[j] == data2[j];
      LookupLast(init, j);
    }
  }

  /** A key missing from the record, or falsy in it, takes the source's value. */
  function FilledValue(p: Record, src: Record, k: string): Value
    requires k in p || k in src
  {
    if k in src && !(k in p && Truthy(p[k])) then src[k] else p[k]
  }

  /** The record with `data2_pokemon`'s contents filled in. */
  function Filled(p: Record, src: Record): (r: Record) {
    map k | k in p.Keys + src.Keys :: FilledValue(p, src, k)
  }

  /**
   * After filling, the record has its own keys and the source's; a key of
   * the source keeps the record's value where it was present and truthy
   * and otherwise holds the source's value; every other key is untouched.
   */
  lemma FilledSpec(p: Record, src: Record)
    ensures Filled(p, src).Keys == p.Keys + src.Keys
    ensures forall k :: k in src && k in p && Truthy(p[k]) ==> Filled(p, src)[k] == p[k]
    ensures forall k :: k in src && !(k in p && Truthy(p[k])) ==> Filled(p, src)[k] == src[k]
    ensures forall k :: k in p && k !in src ==> Filled(p, src)[k] == p[k]
  {
  }

  /** `r` is `p` with the keys `done` of `src` filled in. */
  ghost predicate FilledOn(p: Record, src: Record, done: set<string>, r: Record)
    requires done <= src.Keys
  {
    r.Keys == p.Keys + done && forall k :: k in r ==> r[k] == if k in done then FilledValue(p, src, k) else p[k]
  }

  /** Filling one more key of `src`. */
  lemma FillStep(p: Record, src: Record, done: set<string>, r: Record, k: string)
    requires done <= src.Keys && k in src && k !in done && FilledOn(p, src, done, r)
    ensures FilledOn(p, src, done + {k}, if k !in r || !Truthy(r[k]) then r[k := src[k]] else r)
  {
  }

  /** Once every key of `src` is filled, the record is `Filled(p, src)`. */
  lemma FilledOnAll(p: Record, src: Record, r: Record)
    requires FilledOn(p, src, src.Keys, r)
    ensures r == Filled(p, src)
  {
  }

  /** The fill loop: every key of the second record that is missing or falsy in the first takes the second's value. */
  method FillMissing(p: Record, src: Record) returns (r: Record)
    ensures FilledOn(p, src, src.Keys, r)
  {
    r := p;
    ghost var done: set<string> := {};
    var todo := src.Keys;
    while todo != {}
      invariant todo == src.Keys - done && done <= src.Keys
      invariant FilledOn(p, src, done, r)
      decreases todo
    {
      var k :| k in todo;
      FillStep(p, src, done, r, k);
      if k !in r || !Truthy(r[k]) {
        r := r[k := src[k]];
      }
      done := done + {k};
      todo := todo - {k};
    }
  }

  /** What merging does to one data1 record: filled from the lookup when its number is truthy and found. */
  function MergedEntry(p: Record, lookup: map<Value, Record>): (r: Record) {
    var n := NumberOf(p);
    if Truthy(n) && n in lookup then Filled(p, lookup[n]) else p
  }

  /** The set of numbers of the first source's records. */
  function Numbers(data1: seq<Record>): (s: set<Value>)
    ensures forall i :: 0 <= i < |data1| ==> NumberOf(data1[i]) in s
  {
    set i | 0 <= i < |data1| :: NumberOf(data1[i])
  }

  /** The data2 records appended: a truthy number that no data1 record has. */
  predicate OnlyInData2(numbers: set<Value>, p: Record) {
    Truthy(NumberOf(p)) && NumberOf(p) !in numbers
  }

  /** The lookup loop: each data2 record with a truthy number, later ones replacing earlier. */
  method BuildLookup(data2: seq<Record>) returns (lookup: map<Value, Record>)
    ensures lookup == Lookup(data2)
  {
    lookup := map[];
    var i := 0;
    while i < |data2|
      invariant 0 <= i <= |data2|
      invariant lookup == Lookup(data2[..i])
    {
      assert data2[..i + 1][..i] == data2[..i];
      var number := NumberOf(data2[i]);
      if Truthy(number) {
        lookup := lookup[number := data2[i]];
      }
      i := i + 1;
    }
    assert data2[..i] == data2;
  }

  /** The filling loop over data1: each record with a truthy number in the lookup is filled from it. */
  method FillFromLookup(data1: seq<Record>, lookup: map<Value, Record>) returns (merged: seq<Record>)
    ensures |merged| == |data1|
    ensures forall i :: 0 <= i < |data1| ==> merged[i] == MergedEntry(data1[i], lookup)
  {
    merged := data1;
    var i := 0;
    while i < |merged|
      invariant 0 <= i <= |merged| == |data1|
      invariant forall k :: 0 <= k < i ==> merged[k] == MergedEntry(data1[k], lookup)
      invariant forall k :: i <= k < |data1| ==> merged[k] == data1[k]
    {
      var number := NumberOf(merged[i]);
      if Truthy(number) && number in lookup {
        var filled := FillMissing(merged[i], lookup[number]);
        FilledOnAll(merged[i], lookup[number], filled);
        merged := merged[i := filled];
      }
      i := i + 1;
    }
  }

  /** The appending loop: the data2 records whose truthy number is not among `numbers`, in order. */
  method AppendNew(merged0: seq<Record>, data2: seq<Record>, numbers: set<Value>) returns (merged: seq<Record>)
    ensures merged == merged0 + Filter(data2, (p: Record) => OnlyInData2(numbers, p))
  {
    merged := merged0;
    var i := 0;
    while i < |data2|
      invariant 0 <= i <= |data2|
      invariant merged == merged0 + Filter(data2[..i], (p: Record) => OnlyInData2(numbers, p))
    {
      assert data2[..i + 1][..i] == data2[..i];
      var number := NumberOf(data2[i]);
      if Truthy(number) && number !in numbers {
        merged := merged + [data2[i]];
      }
      i := i + 1;
    }
    assert data2[..i] == data2;
  }

  /**
   * `merge_pokemon_data`: data1's records, each filled from the last data2
   * record with the same truthy number, followed by the data2 records
   * whose truthy number no data1 record has, in data2 order.
   */
  method MergePokemonData(data1: seq<Record>, data2: seq<Record>) returns (merged: seq<Record>)
    ensures |merged| == |data1| + CountWhere(data2, (p: Record) => OnlyInData2(Numbers(data1), p))
    ensures forall i :: 0 <= i < |data1| ==> merged[i] == MergedEntry(data1[i], Lookup(data2))
    ensures merged[|data1|..] == Filter(data2, (p: Record) => OnlyInData2(Numbers(data1), p))
  {
    var lookup := BuildLookup(data2);
    var filled := FillFromLookup(data1, lookup);
    var data1Numbers := Numbers(data1);
    merged := AppendNew(filled, data2, data1Numbers);
    assert merged[|data1|..] == Filter(data2, (p: Record) => OnlyInData2(data1Numbers, p));
  }

  /** A merged data1 record keeps every truthy value it had, its number included. */
  lemma MergedEntryKeeps(p: Record, lookup: map<Value, Record>, k: string)
    requires k in p && Truthy(p[k])
    ensures k in MergedEntry(p, lookup) && MergedEntry(p, lookup)[k] == p[k]
  {
    var n := NumberOf(p);
    if Truthy(n) && n in lookup {
      FilledSpec(p, lookup[n]);
    }
  }

  /** A data1 record with a falsy number, or with no match in data2, is unchanged. */
  lemma MergedEntryUnmatched(p: Record, data2: seq<Record>)
    requires !Truthy(NumberOf(p)) || forall i :: 0 <= i < |data2| ==> NumberOf(data2[i]) != NumberOf(p)
    ensures MergedEntry(p, Lookup(data2)) == p
  {
    LookupKeys(data2, NumberOf(p));
  }

  /**
   * A data1 record whose truthy number some data2 record carries takes,
   * for each key of the last such record, that record's value where its
   * own was missing or falsy.
   */
  lemma MergedEntryFilled(p: Record, data2: seq<Record>, j: nat, k: string)
    requires j < |data2| && Truthy(NumberOf(p)) && NumberOf(data2[j]) == NumberOf(p)
    requires forall i :: j < i < |data2| ==> NumberOf(data2[i]) != NumberOf(p)
    requires k in data2[j] && (k !in p || !Truthy(p[k]))
    ensures k in MergedEntry(p, Lookup(data2)) && MergedEntry(p, Lookup(data2))[k] == data2[j][k]
  {
    LookupLast(data2, j);
    FilledSpec(p, data2[j]);
  }

  // ---------------------------------------------------------------------
  // download_file

  class Scraper {
    var downloadedFiles: set<string>
    var totalFilesDownloaded: nat

    /** Every counted download is a distinct URL in the set. */
    ghost predicate Valid()
      reads this
    {
      totalFilesDownloaded == |downloadedFiles|
    }

    constructor()
      ensures Valid() && downloadedFiles == {}
    {
      downloadedFiles := {};
      totalFilesDownloaded := 0;
    }

    /** `download_file`: a URL already downloaded is success without a fetch; a success records the URL and counts it; a failure changes nothing. */
    method DownloadFile(url: string, fetchOk: bool) returns (ok: bool)
      requires Valid()
      modifies this
      ensures Valid()
      ensures ok <==> url in old(downloadedFiles) || fetchOk
      ensures downloadedFiles == if ok then old(downloadedFiles) + {url} else old(downloadedFiles)
      ensures totalFilesDownloaded == old(totalFilesDownloaded) + (if url !in old(downloadedFiles) && fetchOk then 1 else 0)
    {
      if url in downloadedFiles {
        return true;
      }
      if !fetchOk {
        return false;
      }
      downloadedFiles := downloadedFiles + {url};
      totalFilesDownloaded := totalFilesDownloaded + 1;
      return true;
    }
  }
}
