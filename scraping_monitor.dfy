/**
 * The scraping monitor (comprehensive_scraping_monitor.py): it walks the
 * output directories of the other scrapers, sorts what it finds into
 * content categories, pulls Pokémon lists out of loaded JSON, names the
 * site each data file came from, cross-references Pokémon names between
 * sites, and reports which target sites have output and which are pending.
 *
 * The file system enters as the items a directory walk yields (in walk
 * order) and as `hasOutput`, whether a site's directory exists under some
 * monitored directory. Loaded JSON enters as `Json.Value`s. Sizes in MB,
 * timestamps and the written reports are not modelled.
 */
module ScrapingMonitor {
  import opened PyText
  import opened Collections
  import opened Json

  // ---------------------------------------------------------------------
  // extract_pokemon_from_data

  /** What the extraction leaves in `pokemon_list`, or the TypeError/KeyError an ill-shaped value raises. */
  datatype Extracted = Extracted(list: Value) | Raised

  /** The cards that have a 'name', in order; Raised when some card does not support `in`. */
  function NamedCards(cards: seq<Value>): (r: Extracted)
    ensures r.Extracted? ==> r.list.List? && |r.list.items| <= |cards|
    decreases |cards|
  {
    if |cards| == 0 then Extracted(List([]))
    else
      match NamedCards(cards[..|cards| - 1])
      case Raised => Raised
      case Extracted(kept) =>
        var card := cards[|cards| - 1];
        match Member("name", card)
        case None => Raised
        case Some(named) => Extracted(List(kept.items + if named then [card] else []))
  }

  /** The fourth branch: a 'cards' list filtered to the named cards; otherwise an empty list. */
  function FromCards(data: Value): Extracted
    requires data.Object? || data.List? || data.Str?
  {
    if Member("cards", data).value then
      match Index(data, "cards")
      case None => Raised
      case Some(cards) => if cards.List? then NamedCards(cards.items) else Extracted(List([]))
    else Extracted(List([]))
  }

  /** The second and third branches: the 'pokemon' entry of the 'data' dict when it has one; a list as it is. */
  function FromDataKey(data: Value): Extracted
    requires data.Object? || data.List? || data.Str?
  {
    if Member("data", data).value then
      match Index(data, "data")
      case None => Raised
      case Some(inner) =>
        match Member("pokemon", inner)
        case None => Raised
        case Some(holds) =>
          if holds then
            match Index(inner, "pokemon")
            case None => Raised
            case Some(v) => Extracted(v)
          else if data.List? then Extracted(data)
          else FromCards(data)
    else if data.List? then Extracted(data)
    else FromCards(data)
  }

  /** `extract_pokemon_from_data`: the branches tried in order, else an empty list. */
  function ExtractPokemonFromData(data: Value): Extracted {
    match Member("pokemon", data)
    case None => Raised
    case Some(has) =>
      if has then
        match Index(data, "pokemon")
        case None => Raised
        case Some(v) => if v.List? then Extracted(v) else FromDataKey(data)
      else FromDataKey(data)
  }

  /** The named cards of a list of dicts are exactly those with a 'name' key, in order. */
  lemma {:induction false} NamedCardsOfDicts(cards: seq<Value>)
    requires forall i :: 0 <= i < |cards| ==> cards[i].Object?
    ensures NamedCards(cards) == Extracted(List(Filter(cards, (c: Value) => c.Object? && "name" in c.fields)))
    decreases |cards|
  {
    if |cards| > 0 {
      NamedCardsOfDicts(cards[..|cards| - 1]);
    }
  }

  /**
   * A dict is searched in the fixed order 'pokemon' list, 'data' holding
   * 'pokemon', 'cards' list. When `data['data']` is not a dict holding
   * 'pokemon', the search raises if that value does not support `in` or
   * holds 'pokemon' without being a dict (a list or a string cannot be
   * indexed by a string), and otherwise goes on as if 'data' were absent.
   */
  lemma ExtractFromDict(fields: map<string, Value>)
    ensures var r := ExtractPokemonFromData(Object(fields));
      if "pokemon" in fields && fields["pokemon"].List? then r == Extracted(fields["pokemon"])
      else if "data" in fields && fields["data"].Object? && "pokemon" in fields["data"].fields then
        r == Extracted(fields["data"].fields["pokemon"])
      else if "data" in fields then
        (Member("pokemon", fields["data"]) != Some(false) ==> r == Raised) &&
        (Member("pokemon", fields["data"]) == Some(false) ==> r == ExtractPokemonFromData(Object(fields - {"data"})))
      else if "cards" in fields && fields["cards"].List? then
        (forall i :: 0 <= i < |fields["cards"].items| ==> fields["cards"].items[i].Object?) ==>
          r == Extracted(List(Filter(fields["cards"].items, (c: Value) => c.Object? && "name" in c.fields)))
      else r == Extracted(List([]))
  {
    if "pokemon" !in fields || !fields["pokemon"].List? {
      if "data" !in fields && "cards" in fields && fields["cards"].List? &&
        forall i :: 0 <= i < |fields["cards"].items| ==> fields["cards"].items[i].Object?
      {
        NamedCardsOfDicts(fields["cards"].items);
      }
    }
  }

  /** A list without the strings 'pokemon' and 'data' is the Pokémon list itself; with 'pokemon' it raises. */
  lemma ExtractFromList(items: seq<Value>)
    ensures Str("pokemon") in items ==> ExtractPokemonFromData(List(items)) == Raised
    ensures Str("pokemon") !in items && Str("data") !in items ==> ExtractPokemonFromData(List(items)) == Extracted(List(items))
  {
  }

  /** Numbers, booleans and null do not support `in`: extraction raises. */
  lemma ExtractFromScalar(v: Value)
    requires v.Null? || v.Bool? || v.Int?
    ensures ExtractPokemonFromData(v) == Raised
  {
  }

  // ---------------------------------------------------------------------
  // identify_source_site

  datatype Site = PokemonDb | CardMarket | TcgGalleries | Bulbapedia | Serebii | PortalPokemon | PkmnSeries | PkmnPokedex | ArtOfPkm | Unknown

  /** The name the report uses for a site. */
  function SiteName(s: Site): string {
    match s
    case PokemonDb => "pokemondb"
    case CardMarket => "cardmarket"
    case TcgGalleries => "tcg_galleries"
    case Bulbapedia => "bulbapedia"
    case Serebii => "serebii"
    case PortalPokemon => "portal_pokemon"
    case PkmnSeries => "pkmn_series"
    case PkmnPokedex => "pkmn_pokedex"
    case ArtOfPkm => "artofpkm"
    case Unknown => "unknown"
  }

  /** `identify_source_site`: the first keyword the lowercased path contains picks the site. */
  function IdentifySourceSite(path: string): Site {
    var p := Lower(path);
    if Contains(p, "pokemondb") then PokemonDb
    else if Contains(p, "cardmarket") then CardMarket
    else if Contains(p, "tcg") then TcgGalleries
    else if Contains(p, "bulbapedia") then Bulbapedia
    else if Contains(p, "serebii") then Serebii
    else if Contains(p, "portal") then PortalPokemon
    else if Contains(p, "pkmn") then (if Contains(p, "series") then PkmnSeries else PkmnPokedex)
    else if Contains(p, "artofpkm") then ArtOfPkm
    else Unknown
  }

  /** None of the first `k` keywords, in the order they are checked, is in `p`. */
  predicate NoneBefore(p: string, k: nat) {
    (k > 0 ==> !Contains(p, "pokemondb")) && (k > 1 ==> !Contains(p, "cardmarket")) &&
    (k > 2 ==> !Contains(p, "tcg")) && (k > 3 ==> !Contains(p, "bulbapedia")) &&
    (k > 4 ==> !Contains(p, "serebii")) && (k > 5 ==> !Contains(p, "portal")) &&
    (k > 6 ==> !Contains(p, "pkmn")) && (k > 7 ==> !Contains(p, "artofpkm"))
  }

  /** Each site is chosen exactly when its keyword is in the lowercased path and no earlier keyword is. */
  lemma IdentifySourceSiteSpec(path: string)
    ensures var p := Lower(path); var r := IdentifySourceSite(path);
      (r == PokemonDb <==> Contains(p, "pokemondb")) &&
      (r == CardMarket <==> NoneBefore(p, 1) && Contains(p, "cardmarket")) &&
      (r == TcgGalleries <==> NoneBefore(p, 2) && Contains(p, "tcg")) &&
      (r == Bulbapedia <==> NoneBefore(p, 3) && Contains(p, "bulbapedia")) &&
      (r == Serebii <==> NoneBefore(p, 4) && Contains(p, "serebii")) &&
      (r == PortalPokemon <==> NoneBefore(p, 5) && Contains(p, "portal")) &&
      (r == PkmnSeries <==> NoneBefore(p, 6) && Contains(p, "pkmn") && Contains(p, "series")) &&
      (r == PkmnPokedex <==> NoneBefore(p, 6) && Contains(p, "pkmn") && !Contains(p, "series")) &&
      (r == ArtOfPkm <==> NoneBefore(p, 7) && Contains(p, "artofpkm")) &&
      (r == Unknown <==> NoneBefore(p, 8))
  {
  }

  // ---------------------------------------------------------------------
  // analyze_data_fields

  /** `analyze_data_fields` without the percentages: the record count, the fields seen, and each field's completed count. */
  datatype FieldAnalysis = FieldAnalysis(totalRecords: nat, availableFields: set<string>, completed: map<string, nat>)

  /** The keys of the dict records. */
  function FieldsOf(records: seq<Value>): set<string>
    decreases |records|
  {
    if |records| == 0 then {}
    else
      var p := records[|records| - 1];
      FieldsOf(records[..|records| - 1]) + (if p.Object? then p.fields.Keys else {})
  }

  /** A field is available exactly when some dict record has it. */
  lemma {:induction false} FieldsOfSpec(records: seq<Value>, f: string)
    ensures f in FieldsOf(records) <==> exists i :: 0 <= i < |records| && records[i].Object? && f in records[i].fields
    decreases |records|
  {
    if |records| > 0 {
      var init := records[..|records| - 1];
      FieldsOfSpec(init, f);
      if f in FieldsOf(init) {
        var i :| 0 <= i < |init| && init[i].Object? && f in init[i].fields;
        assert records[i] == init[i];
      }
      if exists i :: 0 <= i < |records| && records[i].Object? && f in records[i].fields {
        var i :| 0 <= i < |records| && records[i].Object? && f in records[i].fields;
        if i < |init| { assert init[i] == records[i]; }
      }
    }
  }

  /** A record completes a field when it is a dict holding a truthy value under it. */
  predicate Completes(p: Value, f: string) {
    p.Object? && f in p.fields && Truthy(p.fields[f])
  }

  /** The completed count of a field: how many records complete it. */
  function CompletedCount(records: seq<Value>, f: string): (n: nat)
    ensures n <= |records|
  {
    CountWhere(records, (p: Value) => Completes(p, f))
  }

  /** A field some record completes is an available field. */
  lemma CompletedAvailable(records: seq<Value>, f: string)
    requires CompletedCount(records, f) > 0
    ensures f in FieldsOf(records)
  {
    var done := Filter(records, (p: Value) => Completes(p, f));
    assert done[0] in done;
    FilterMember(records, (p: Value) => Completes(p, f), done[0]);
    var i :| 0 <= i < |records| && records[i] == done[0];
    FieldsOfSpec(records, f);
  }

  /** The fields of the dict records, one record at a time. */
  method CollectFields(records: seq<Value>) returns (fields: set<string>)
    ensures fields == FieldsOf(records)
  {
    fields := {};
    var i := 0;
    while i < |records|
      invariant i <= |records|
      invariant fields == FieldsOf(records[..i])
    {
      assert records[..i + 1][..i] == records[..i];
      var p := records[i];
      if p.Object? {
        fields := fields + p.fields.Keys;
      }
      i := i + 1;
    }
    assert records[..i] == records;
  }

  /** `analyze_data_fields`: every field seen in a dict record gets its completed count. */
  method AnalyzeDataFields(records: seq<Value>) returns (a: FieldAnalysis)
    ensures a.totalRecords == |records|
    ensures a.availableFields == FieldsOf(records)
    ensures a.completed.Keys == a.availableFields
    ensures forall f :: f in a.completed ==> a.completed[f] == CompletedCount(records, f) && a.completed[f] <= |records|
  {
    if |records| == 0 {
      return FieldAnalysis(0, {}, map[]);
    }
    var fields := CollectFields(records);
    var completed: map<string, nat> := map[];
    var todo := fields;
    while todo != {}
      invariant todo <= fields
      invariant completed.Keys == fields - todo
      invariant forall f :: f in completed ==> completed[f] == CompletedCount(records, f)
      decreases todo
    {
      var f :| f in todo;
      completed := completed[f := CompletedCount(records, f)];
      todo := todo - {f};
    }
    a := FieldAnalysis(|records|, fields, completed);
  }

  // ---------------------------------------------------------------------
  // cross_reference_pokemon_data

  /** One entry of `pokemon_collections`: the site a data file came from and its Pokémon list. */
  datatype Collection = Collection(site: string, pokemonData: seq<Value>)

  /** How a record contributes a name: none, a lowercased stripped name, or AttributeError for a name that is not a string. */
  datatype NameOutcome = NoName | Named(name: string) | BadName

  function RecordName(p: Value): NameOutcome {
    if p.Object? && "name" in p.fields then
      match p.fields["name"]
      case Str(s) => Named(Strip(Lower(s)))
      case _ => BadName
    else NoName
  }

  /** The names of one collection's records; None once a record raises. */
  function NamesIn(records: seq<Value>): Option<set<string>>
    decreases |records|
  {
    if |records| == 0 then Some({})
    else
      match NamesIn(records[..|records| - 1])
      case None => None
      case Some(names) =>
        match RecordName(records[|records| - 1])
        case NoName => Some(names)
        case Named(n) => Some(names + {n})
        case BadName => None
  }

  /** `all_pokemon_names` and `site_pokemon` after the collections; a later collection of the same site replaces its names. */
  function SiteNames(collections: seq<Collection>): (r: Option<(set<string>, Dict<string, set<string>>)>)
    ensures r.Some? ==> WellFormed(r.value.1)
    decreases |collections|
  {
    if |collections| == 0 then Some(({}, EmptyDict()))
    else
      var c := collections[|collections| - 1];
      match SiteNames(collections[..|collections| - 1])
      case None => None
      case Some(acc) =>
        match NamesIn(c.pokemonData)
        case None => None
        case Some(names) => Some((acc.0 + names, Put(acc.1, c.site, names)))
  }

  /** Once a collection raises, the cross-reference raises. */
  lemma {:induction false} SiteNamesRaised(collections: seq<Collection>, i: nat)
    requires i <= |collections| && SiteNames(collections[..i]).None?
    ensures SiteNames(collections).None?
    decreases |collections| - i
  {
    if i < |collections| {
      assert collections[..i + 1][..i] == collections[..i];
      SiteNamesRaised(collections, i + 1);
    } else {
      assert collections[..i] == collections;
    }
  }

  /** The sites whose name list holds the name, in site order. */
  function SitesWith(sitePokemon: Dict<string, set<string>>, name: string): seq<string> {
    Filter(sitePokemon.order, (s: string) => s in sitePokemon.m && name in sitePokemon.m[s])
  }

  /** The sites listed for a name are exactly the sites whose names hold it, each once, in first-seen order. */
  lemma SitesWithSpec(sitePokemon: Dict<string, set<string>>, name: string)
    requires WellFormed(sitePokemon)
    ensures forall s :: s in SitesWith(sitePokemon, name) <==> s in sitePokemon.m && name in sitePokemon.m[s]
  {
    forall s
      ensures s in SitesWith(sitePokemon, name) <==> s in sitePokemon.m && name in sitePokemon.m[s]
    {
      FilterMember(sitePokemon.order, (s: string) => s in sitePokemon.m && name in sitePokemon.m[s], s);
      if s in sitePokemon.m {
        var i := ElementsWitness(sitePokemon.order, s);
      }
    }
  }

  /** The cross-reference: collection count, all names, their number and the sites of up to 50 of them. */
  datatype CrossRef = CrossRef(totalCollections: nat, uniquePokemon: set<string>, totalUnique: nat, nameMatches: map<string, seq<string>>)

  /** Once a record raises, the whole collection raises. */
  lemma {:induction false} NamesInRaised(records: seq<Value>, i: nat)
    requires i <= |records| && NamesIn(records[..i]).None?
    ensures NamesIn(records).None?
    decreases |records| - i
  {
    if i < |records| {
      assert records[..i + 1][..i] == records[..i];
      NamesInRaised(records, i + 1);
    } else {
      assert records[..i] == records;
    }
  }

  /** The names of one collection, record by record. */
  method CollectNames(records: seq<Value>) returns (r: Option<set<string>>)
    ensures r == NamesIn(records)
  {
    var names: set<string> := {};
    var i := 0;
    while i < |records|
      invariant i <= |records|
      invariant NamesIn(records[..i]) == Some(names)
    {
      assert records[..i + 1][..i] == records[..i];
      match RecordName(records[i]) {
        case NoName =>
        case Named(n) => names := names + {n};
        case BadName =>
          NamesInRaised(records, i + 1);
          return None;
      }
      i := i + 1;
    }
    assert records[..i] == records;
    r := Some(names);
  }

  /** `cross_reference_pokemon_data`; None when a record's name is not a string (the AttributeError). */
  method CrossReference(collections: seq<Collection>) returns (r: Option<CrossRef>)
    ensures r.None? <==> SiteNames(collections).None?
    ensures r.Some? ==>
      var (all, sitePokemon) := SiteNames(collections).value;
      r.value.totalCollections == |collections| &&
      r.value.uniquePokemon == all && r.value.totalUnique == |all| &&
      r.value.nameMatches.Keys <= all &&
      |r.value.nameMatches.Keys| == Min(50, |all|) &&
      forall n :: n in r.value.nameMatches ==> r.value.nameMatches[n] == SitesWith(sitePokemon, n)
  {
    var all: set<string> := {};
    var sitePokemon: Dict<string, set<string>> := EmptyDict();
    var i := 0;
    while i < |collections|
      invariant i <= |collections|
      invariant SiteNames(collections[..i]) == Some((all, sitePokemon))
    {
      assert collections[..i + 1][..i] == collections[..i];
      var names := CollectNames(collections[i].pokemonData);
      if names.None? {
        SiteNamesRaised(collections, i + 1);
        return None;
      }
      all := all + names.value;
      sitePokemon := Put(sitePokemon, collections[i].site, names.value);
      i := i + 1;
    }
    assert collections[..i] == collections;
    var matches := MatchNames(all, sitePokemon);
    r := Some(CrossRef(|collections|, all, |all|, matches));
  }

  /** The sites of up to 50 names, taken in an order the model leaves open. */
  method MatchNames(all: set<string>, sitePokemon: Dict<string, set<string>>) returns (matches: map<string, seq<string>>)
    ensures matches.Keys <= all && |matches.Keys| == Min(50, |all|)
    ensures forall n :: n in matches ==> matches[n] == SitesWith(sitePokemon, n)
  {
    matches := map[];
    var left := all;
    while |matches.Keys| < 50 && left != {}
      invariant left <= all && matches.Keys == all - left
      invariant |matches.Keys| + |left| == |all|
      invariant |matches.Keys| <= 50
      invariant forall n :: n in matches ==> matches[n] == SitesWith(sitePokemon, n)
      decreases |left|
    {
      var n :| n in left;
      matches := matches[n := SitesWith(sitePokemon, n)];
      left := left - {n};
    }
  }

  // ---------------------------------------------------------------------
  // scan_directory_comprehensive

  /** What a directory walk yields: files, directories, and anything else (neither test holds). */
  datatype Item = File(path: string) | Dir(path: string) | Other(path: string)

  datatype Category = DataFile | ImageFile | AnimationFile | CodeFile | ReferenceFile | Uncategorised

  /** A file's lowercased suffix, the `file_types` key. */
  function SuffixKey(path: string): string {
    Lower(Suffix(path))
  }

  /** The content category: by suffix list in order, then by 'reference'/'readme' in the lowercased path. */
  function CategoryOf(path: string): Category {
    var suffix := SuffixKey(path);
    if suffix in {".json", ".csv", ".xlsx", ".db"} then DataFile
    else if suffix in {".png", ".jpg", ".jpeg", ".gif", ".svg", ".webp"} then ImageFile
    else if suffix in {".mp4", ".webm", ".avi", ".mov"} then AnimationFile
    else if suffix in {".js", ".css", ".html", ".py"} then CodeFile
    else if Contains(Lower(path), "reference") || Contains(Lower(path), "readme") then ReferenceFile
    else Uncategorised
  }

  /** The paths of the files among the items, in walk order. */
  function FilePaths(items: seq<Item>): (r: seq<string>)
    ensures |r| <= |items|
    decreases |items|
  {
    if |items| == 0 then []
    else FilePaths(items[..|items| - 1]) + (if items[|items| - 1].File? then [items[|items| - 1].path] else [])
  }

  /** The paths of the directories among the items, in walk order. */
  function DirPaths(items: seq<Item>): seq<string>
    decreases |items|
  {
    if |items| == 0 then []
    else DirPaths(items[..|items| - 1]) + (if items[|items| - 1].Dir? then [items[|items| - 1].path] else [])
  }

  /** The file paths of one category, in walk order. */
  function InCategory(paths: seq<string>, c: Category): seq<string> {
    Filter(paths, (p: string) => CategoryOf(p) == c)
  }

  /** The result of `scan_directory_comprehensive` without the sizes. */
  datatype DirScan = DirScan(
    totalFiles: nat,
    fileTypes: Dict<string, int>,
    dataFiles: seq<string>,
    imageFiles: seq<string>,
    animationFiles: seq<string>,
    codeFiles: seq<string>,
    referenceFiles: seq<string>,
    subdirectories: seq<string>)

  /** The list a category's files are appended to (none for uncategorised files). */
  function CategoryList(scan: DirScan, c: Category): seq<string> {
    match c
    case DataFile => scan.dataFiles
    case ImageFile => scan.imageFiles
    case AnimationFile => scan.animationFiles
    case CodeFile => scan.codeFiles
    case ReferenceFile => scan.referenceFiles
    case Uncategorised => []
  }

  /** One more file: counted under its suffix and appended to its category's list. */
  function AddFile(scan: DirScan, path: string): DirScan
    requires WellFormed(scan.fileTypes)
  {
    var c := CategoryOf(path);
    scan.(totalFiles := scan.totalFiles + 1,
      fileTypes := AddTo(scan.fileTypes, SuffixKey(path), 1),
      dataFiles := scan.dataFiles + (if c == DataFile then [path] else []),
      imageFiles := scan.imageFiles + (if c == ImageFile then [path] else []),
      animationFiles := scan.animationFiles + (if c == AnimationFile then [path] else []),
      codeFiles := scan.codeFiles + (if c == CodeFile then [path] else []),
      referenceFiles := scan.referenceFiles + (if c == ReferenceFile then [path] else []))
  }

  /** A file is appended to its own category's list and to no other. */
  lemma AddFileList(scan: DirScan, path: string, c: Category)
    requires WellFormed(scan.fileTypes)
    ensures CategoryList(AddFile(scan, path), c) == CategoryList(scan, c) + (if c != Uncategorised && CategoryOf(path) == c then [path] else [])
  {
  }

  /** The scan after the walk's items, one item at a time. */
  function ScanOf(items: seq<Item>): (r: DirScan)
    ensures WellFormed(r.fileTypes)
    decreases |items|
  {
    if |items| == 0 then DirScan(0, EmptyDict(), [], [], [], [], [], [])
    else
      var before := ScanOf(items[..|items| - 1]);
      match items[|items| - 1]
      case File(path) => AddFile(before, path)
      case Dir(path) => before.(subdirectories := before.subdirectories + [path])
      case Other(_) => before
  }

  lemma ScanStep(items: seq<Item>, i: nat)
    requires i < |items|
    ensures var before := ScanOf(items[..i]);
      ScanOf(items[..i + 1]) ==
        match items[i]
        case File(path) => AddFile(before, path)
        case Dir(path) => before.(subdirectories := before.subdirectories + [path])
        case Other(_) => before
  {
    assert items[..i + 1][..i] == items[..i];
  }

  /** `scan_directory_comprehensive` over the walk's items. */
  method ScanDirectory(items: seq<Item>) returns (scan: DirScan)
    ensures scan == ScanOf(items)
    ensures scan.totalFiles == |FilePaths(items)| == Sum(Values(scan.fileTypes))
    ensures scan.fileTypes == Tally(CountEntries(MapSeq(FilePaths(items), SuffixKey)))
    ensures forall c :: c != Uncategorised ==> CategoryList(scan, c) == InCategory(FilePaths(items), c)
    ensures scan.subdirectories == DirPaths(items)
  {
    scan := DirScan(0, EmptyDict(), [], [], [], [], [], []);
    var i := 0;
    while i < |items|
      invariant i <= |items|
      invariant scan == ScanOf(items[..i])
    {
      ScanStep(items, i);
      match items[i] {
        case File(path) => scan := AddFile(scan, path);
        case Dir(path) => scan := scan.(subdirectories := scan.subdirectories + [path]);
        case Other(_) =>
      }
      i := i + 1;
    }
    assert items[..i] == items;
    ScanFileTypes(items);
    ScanCounts(items);
    forall c | c != Uncategorised
      ensures CategoryList(scan, c) == InCategory(FilePaths(items), c)
    {
      ScanCategory(items, c);
    }
    ScanDirs(items);
  }

  /** The file count and the suffix counters count the files. */
  lemma {:induction false} ScanFileTypes(items: seq<Item>)
    ensures ScanOf(items).totalFiles == |FilePaths(items)|
    ensures ScanOf(items).fileTypes == Tally(CountEntries(MapSeq(FilePaths(items), SuffixKey)))
    decreases |items|
  {
    if |items| == 0 {
      assert CountEntries(MapSeq(FilePaths(items), SuffixKey)) == [];
    } else {
      var init := items[..|items| - 1];
      ScanFileTypes(init);
      var files := FilePaths(init);
      if items[|items| - 1].File? {
        var path := items[|items| - 1].path;
        MapSeqSnoc(files, path, SuffixKey);
        TallyCountStep(MapSeq(files, SuffixKey), SuffixKey(path));
      } else {
        assert files + [] == files;
      }
    }
  }

  /** Suffix counts add up to the number of files. */
  lemma ScanCounts(items: seq<Item>)
    ensures Sum(Values(ScanOf(items).fileTypes)) == ScanOf(items).totalFiles
  {
    ScanFileTypes(items);
    TallyCount(MapSeq(FilePaths(items), SuffixKey));
  }

  lemma InCategoryStep(files: seq<string>, path: string, c: Category)
    ensures InCategory(files + [path], c) == InCategory(files, c) + (if CategoryOf(path) == c then [path] else [])
  {
    assert (files + [path])[..|files|] == files;
  }

  /** Each category's list holds that category's files, in walk order. */
  lemma {:induction false} ScanCategory(items: seq<Item>, c: Category)
    requires c != Uncategorised
    ensures CategoryList(ScanOf(items), c) == InCategory(FilePaths(items), c)
    decreases |items|
  {
    if |items| > 0 {
      var init := items[..|items| - 1];
      ScanCategory(init, c);
      var files := FilePaths(init);
      if items[|items| - 1].File? {
        var path := items[|items| - 1].path;
        InCategoryStep(files, path, c);
        AddFileList(ScanOf(init), path, c);
      } else {
        assert files + [] == files;
      }
    }
  }

  lemma {:induction false} ScanDirs(items: seq<Item>)
    ensures ScanOf(items).subdirectories == DirPaths(items)
    decreases |items|
  {
    if |items| > 0 {
      ScanDirs(items[..|items| - 1]);
      assert DirPaths(items[..|items| - 1]) + [] == DirPaths(items[..|items| - 1]);
    }
  }

  /** A path in a category list is one of the walked files, of that category. */
  lemma ScanCategoryMember(items: seq<Item>, path: string, c: Category)
    requires c != Uncategorised
    ensures path in CategoryList(ScanOf(items), c) ==> path in FilePaths(items) && CategoryOf(path) == c
  {
    ScanCategory(items, c);
    FilterMember(FilePaths(items), (p: string) => CategoryOf(p) == c, path);
  }

  /** No file is in two category lists, so together they hold at most all the files. */
  lemma ScanCategoriesBound(items: seq<Item>)
    ensures var s := ScanOf(items);
      |s.dataFiles| + |s.imageFiles| + |s.animationFiles| + |s.codeFiles| + |s.referenceFiles| <= s.totalFiles
  {
    ScanFileTypes(items);
    ScanCategory(items, DataFile);
    ScanCategory(items, ImageFile);
    ScanCategory(items, AnimationFile);
    ScanCategory(items, CodeFile);
    ScanCategory(items, ReferenceFile);
    CategoriesBound(FilePaths(items));
  }

  lemma {:induction false} CategoriesBound(files: seq<string>)
    ensures |InCategory(files, DataFile)| + |InCategory(files, ImageFile)| + |InCategory(files, AnimationFile)| +
      |InCategory(files, CodeFile)| + |InCategory(files, ReferenceFile)| <= |files|
    decreases |files|
  {
    if |files| > 0 {
      CategoriesBound(files[..|files| - 1]);
    }
  }

  // ---------------------------------------------------------------------
  // analyze_animation_directory

  /** A frame or sequence capture, by its file name. */
  predicate IsSequenceName(name: string) {
    Contains(name, "_frame_") || Contains(name, "_sequence_")
  }

  /** A hover or click capture, by its file name. */
  predicate IsInteractionName(name: string) {
    Contains(name, "hover") || Contains(name, "click")
  }

  /** `analyze_animation_directory` without the directory names. */
  datatype AnimationDir = AnimationDir(totalFiles: nat, fileTypes: Dict<string, int>, sequences: seq<string>, interactions: seq<string>)

  function Sequences(files: seq<string>): seq<string> {
    Filter(files, (p: string) => IsSequenceName(PathName(p)))
  }

  function Interactions(files: seq<string>): seq<string> {
    Filter(files, (p: string) => !IsSequenceName(PathName(p)) && IsInteractionName(PathName(p)))
  }

  /** One more directory entry: counted, and a file's suffix counted and its name sorted. */
  function AddEntry(a: AnimationDir, item: Item): AnimationDir
    requires WellFormed(a.fileTypes)
  {
    match item
    case File(path) =>
      var name := PathName(path);
      AnimationDir(a.totalFiles + 1, AddTo(a.fileTypes, SuffixKey(path), 1),
        a.sequences + (if IsSequenceName(name) then [path] else []),
        a.interactions + (if !IsSequenceName(name) && IsInteractionName(name) then [path] else []))
    case _ => a.(totalFiles := a.totalFiles + 1)
  }

  /** The analysis after the directory's entries, one entry at a time. */
  function AnimationOf(items: seq<Item>): (r: AnimationDir)
    ensures WellFormed(r.fileTypes)
    decreases |items|
  {
    if |items| == 0 then AnimationDir(0, EmptyDict(), [], [])
    else AddEntry(AnimationOf(items[..|items| - 1]), items[|items| - 1])
  }

  /** The entry count and suffix counters are those of the directory scan. */
  lemma {:induction false} AnimationOfCounts(items: seq<Item>)
    ensures AnimationOf(items).totalFiles == |items|
    ensures AnimationOf(items).fileTypes == ScanOf(items).fileTypes
    decreases |items|
  {
    if |items| > 0 {
      AnimationOfCounts(items[..|items| - 1]);
    }
  }

  lemma SequencesStep(files: seq<string>, path: string)
    ensures Sequences(files + [path]) == Sequences(files) + (if IsSequenceName(PathName(path)) then [path] else [])
    ensures Interactions(files + [path]) ==
      Interactions(files) + (if !IsSequenceName(PathName(path)) && IsInteractionName(PathName(path)) then [path] else [])
  {
    assert (files + [path])[..|files|] == files;
  }

  /** The sequences and interaction captures are the files so named, in directory order. */
  lemma {:induction false} AnimationOfCaptures(items: seq<Item>)
    ensures AnimationOf(items).sequences == Sequences(FilePaths(items))
    ensures AnimationOf(items).interactions == Interactions(FilePaths(items))
    decreases |items|
  {
    if |items| > 0 {
      var init := items[..|items| - 1];
      AnimationOfCaptures(init);
      var files := FilePaths(init);
      if items[|items| - 1].File? {
        SequencesStep(files, items[|items| - 1].path);
      } else {
        assert files + [] == files;
      }
    }
  }

  lemma AnimationStep(items: seq<Item>, i: nat)
    requires i < |items|
    ensures AnimationOf(items[..i + 1]) == AddEntry(AnimationOf(items[..i]), items[i])
  {
    assert items[..i + 1][..i] == items[..i];
  }

  /**
   * `analyze_animation_directory` over the directory's entries (not
   * recursive): every entry counts towards the total, each file's suffix
   * is counted as in the directory scan, and frame/sequence names go to
   * the sequences, other hover/click names to the interaction captures.
   */
  method AnalyzeAnimationDirectory(items: seq<Item>) returns (a: AnimationDir)
    ensures a == AnimationOf(items)
    ensures a.totalFiles == |items|
    ensures a.fileTypes == ScanOf(items).fileTypes == Tally(CountEntries(MapSeq(FilePaths(items), SuffixKey)))
    ensures a.sequences == Sequences(FilePaths(items))
    ensures a.interactions == Interactions(FilePaths(items))
  {
    a := AnimationDir(0, EmptyDict(), [], []);
    var i := 0;
    while i < |items|
      invariant i <= |items|
      invariant a == AnimationOf(items[..i])
    {
      AnimationStep(items, i);
      a := AddEntry(a, items[i]);
      i := i + 1;
    }
    assert items[..i] == items;
    AnimationOfCounts(items);
    AnimationOfCaptures(items);
    ScanFileTypes(items);
  }

  /** No capture is both a sequence and an interaction; interactions name hover or click. */
  lemma AnimationCapturesExclusive(files: seq<string>, path: string)
    ensures !(path in Sequences(files) && path in Interactions(files))
    ensures path in Sequences(files) <==> path in files && IsSequenceName(PathName(path))
    ensures path in Interactions(files) <==> path in files && !IsSequenceName(PathName(path)) && IsInteractionName(PathName(path))
  {
    FilterMember(files, (p: string) => IsSequenceName(PathName(p)), path);
    FilterMember(files, (p: string) => !IsSequenceName(PathName(p)) && IsInteractionName(PathName(p)), path);
  }

  // ---------------------------------------------------------------------
  // check_completed_sites / check_pending_sites

  /** The keys of `target_sites`, in configuration order. */
  const TargetSites: seq<string> := ["pokemondb_all", "cardmarket", "pokemondb_pokedex", "bulbapedia", "serebii",
    "portal_pokemon", "pkmn_pokedex", "pkmn_series", "artofpkm", "tcg_galleries"]

  /** `check_completed_sites`: the sites with an output directory, in configuration order. */
  function CompletedSites(sites: seq<string>, hasOutput: string -> bool): seq<string> {
    Filter(sites, hasOutput)
  }

  /** `check_pending_sites`: the sites not in the completed list, in configuration order. */
  function PendingSites(sites: seq<string>, hasOutput: string -> bool): seq<string> {
    var completed := CompletedSites(sites, hasOutput);
    Filter(sites, (s: string) => s !in completed)
  }

  /** Completed and pending sites partition the sites: pending are exactly those without output, in order. */
  lemma PendingSitesSpec(sites: seq<string>, hasOutput: string -> bool)
    ensures PendingSites(sites, hasOutput) == Filter(sites, (s: string) => !hasOutput(s))
    ensures |CompletedSites(sites, hasOutput)| + |PendingSites(sites, hasOutput)| == |sites|
    ensures forall s :: s in sites ==> (s in CompletedSites(sites, hasOutput) <==> s !in PendingSites(sites, hasOutput))
  {
    var completed := CompletedSites(sites, hasOutput);
    forall i | 0 <= i < |sites|
      ensures (sites[i] !in completed) == !hasOutput(sites[i])
    {
      FilterMember(sites, hasOutput, sites[i]);
    }
    FilterAgree(sites, (s: string) => s !in completed, (s: string) => !hasOutput(s));
    FilterSplit(sites, hasOutput, (s: string) => !hasOutput(s));
    forall s | s in sites
      ensures s in completed <==> s !in PendingSites(sites, hasOutput)
    {
      FilterMember(sites, hasOutput, s);
      FilterMember(sites, (s: string) => !hasOutput(s), s);
    }
  }

  /** `assess_overall_completeness`'s counts: at most the ten target sites are completed. */
  lemma CompletedBound(hasOutput: string -> bool)
    ensures |CompletedSites(TargetSites, hasOutput)| <= |TargetSites| == 10
  {
  }
}
