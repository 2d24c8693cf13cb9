/**
 * The final report generator (final_comprehensive_report.py): it pulls
 * Pokémon lists out of loaded JSON, names the site a data file came from,
 * measures how completely each field is filled, counts the distinct
 * Pokémon names, inventories the captured animation files by kind, and
 * counts the target sites that left any output.
 *
 * The file system enters as the file paths a recursive walk of each data
 * directory yields, and as `hasFiles(dir, site)`, whether `dir/site`
 * exists and is non-empty. Percentages, timestamps and the written
 * Markdown and JSON reports are not modelled.
 */
module FinalReport {
  import opened PyText
  import opened Collections
  import opened Json
  import opened ScrapingMonitor

  // ---------------------------------------------------------------------
  // extract_pokemon_from_json

  /** `extract_pokemon_from_json`: for a dict the branches in order, a list as it is, anything else an empty list. */
  function ExtractPokemonFromJson(data: Value): Extracted {
    match data
    case Object(fields) =>
      if "pokemon" in fields && fields["pokemon"].List? then Extracted(fields["pokemon"])
      else if "data" in fields && fields["data"].Object? && "pokemon" in fields["data"].fields then
        Extracted(fields["data"].fields["pokemon"])
      else if "results" in fields && fields["results"].List? then Extracted(fields["results"])
      else if "cards" in fields && fields["cards"].List? then NamedCards(fields["cards"].items)
      else Extracted(List([]))
    case List(_) => Extracted(data)
    case _ => Extracted(List([]))
  }

  /** The card filter raises exactly when some card is a number, boolean or null. */
  lemma {:induction false} NamedCardsRaised(cards: seq<Value>)
    ensures NamedCards(cards).Raised? <==> exists i :: 0 <= i < |cards| && Member("name", cards[i]).None?
    decreases |cards|
  {
    if |cards| > 0 {
      var init := cards[..|cards| - 1];
      NamedCardsRaised(init);
      if exists i :: 0 <= i < |init| && Member("name", init[i]).None? {
        var i :| 0 <= i < |init| && Member("name", init[i]).None?;
        assert cards[i] == init[i];
      }
      if exists i :: 0 <= i < |cards| && Member("name", cards[i]).None? {
        var i :| 0 <= i < |cards| && Member("name", cards[i]).None?;
        if i < |init| { assert init[i] == cards[i]; }
      }
    }
  }

  /**
   * A dict is searched in the order 'pokemon' list, 'data' dict holding
   * 'pokemon', 'results' list, 'cards' list (its entries with a 'name');
   * a list is the Pokémon list itself; anything else gives an empty list.
   */
  lemma ExtractPokemonFromJsonSpec(data: Value)
    ensures var r := ExtractPokemonFromJson(data);
      match data
      case Object(fields) =>
        if "pokemon" in fields && fields["pokemon"].List? then r == Extracted(fields["pokemon"])
        else if "data" in fields && fields["data"].Object? && "pokemon" in fields["data"].fields then
          r == Extracted(fields["data"].fields["pokemon"])
        else if "results" in fields && fields["results"].List? then r == Extracted(fields["results"])
        else if "cards" in fields && fields["cards"].List? then
          (r.Raised? <==> exists i :: 0 <= i < |fields["cards"].items| && Member("name", fields["cards"].items[i]).None?) &&
          ((forall i :: 0 <= i < |fields["cards"].items| ==> fields["cards"].items[i].Object?) ==>
            r == Extracted(List(Filter(fields["cards"].items, (c: Value) => c.Object? && "name" in c.fields))))
        else r == Extracted(List([]))
      case List(_) => r == Extracted(data)
      case _ => r == Extracted(List([]))
  {
    if data.Object? {
      var fields := data.fields;
      if !("pokemon" in fields && fields["pokemon"].List?) &&
        !("data" in fields && fields["data"].Object? && "pokemon" in fields["data"].fields) &&
        !("results" in fields && fields["results"].List?) &&
        "cards" in fields && fields["cards"].List?
      {
        var cards := fields["cards"].items;
        NamedCardsRaised(cards);
        if forall i :: 0 <= i < |cards| ==> cards[i].Object? {
          NamedCardsOfDicts(cards);
        }
      }
    }
  }

  // ---------------------------------------------------------------------
  // identify_source_site_from_path

  /** `identify_source_site_from_path`: like the monitor's, but serebii is tried before bulbapedia and any 'art' means artofpkm. */
  function IdentifySourceSiteFromPath(path: string): Site {
    var p := Lower(path);
    if Contains(p, "pokemondb") then PokemonDb
    else if Contains(p, "cardmarket") then CardMarket
    else if Contains(p, "tcg") then TcgGalleries
    else if Contains(p, "serebii") then Serebii
    else if Contains(p, "bulbapedia") then Bulbapedia
    else if Contains(p, "portal") then PortalPokemon
    else if Contains(p, "pkmn") then (if Contains(p, "series") then PkmnSeries else PkmnPokedex)
    else if Contains(p, "artofpkm") || Contains(p, "art") then ArtOfPkm
    else Unknown
  }

  /** None of the first `k` keywords, in the report's order, is in `p`. */
  predicate NoneBeforeInReport(p: string, k: nat) {
    (k > 0 ==> !Contains(p, "pokemondb")) && (k > 1 ==> !Contains(p, "cardmarket")) &&
    (k > 2 ==> !Contains(p, "tcg")) && (k > 3 ==> !Contains(p, "serebii")) &&
    (k > 4 ==> !Contains(p, "bulbapedia")) && (k > 5 ==> !Contains(p, "portal")) &&
    (k > 6 ==> !Contains(p, "pkmn")) && (k > 7 ==> !Contains(p, "art"))
  }

  /** A string holding a word holds each prefix of that word. */
  lemma ContainsPrefix(s: string, sub: string, pre: string)
    requires |pre| <= |sub| && sub[..|pre|] == pre
    ensures Contains(s, sub) ==> Contains(s, pre)
  {
    if Contains(s, sub) {
      var i := ContainsWitness(s, sub);
      assert s[i..i + |pre|] == sub[..|pre|];
      ContainsAt(s, pre, i);
    }
  }

  /** Each site is chosen exactly when its keyword is in the lowercased path and no earlier keyword is; 'artofpkm' adds nothing to 'art'. */
  lemma IdentifySourceSiteFromPathSpec(path: string)
    ensures var p := Lower(path); var r := IdentifySourceSiteFromPath(path);
      (r == PokemonDb <==> Contains(p, "pokemondb")) &&
      (r == CardMarket <==> NoneBeforeInReport(p, 1) && Contains(p, "cardmarket")) &&
      (r == TcgGalleries <==> NoneBeforeInReport(p, 2) && Contains(p, "tcg")) &&
      (r == Serebii <==> NoneBeforeInReport(p, 3) && Contains(p, "serebii")) &&
      (r == Bulbapedia <==> NoneBeforeInReport(p, 4) && Contains(p, "bulbapedia")) &&
      (r == PortalPokemon <==> NoneBeforeInReport(p, 5) && Contains(p, "portal")) &&
      (r == PkmnSeries <==> NoneBeforeInReport(p, 6) && Contains(p, "pkmn") && Contains(p, "series")) &&
      (r == PkmnPokedex <==> NoneBeforeInReport(p, 6) && Contains(p, "pkmn") && !Contains(p, "series")) &&
      (r == ArtOfPkm <==> NoneBeforeInReport(p, 7) && Contains(p, "art")) &&
      (r == Unknown <==> NoneBeforeInReport(p, 8))
  {
    ContainsPrefix(Lower(path), "artofpkm", "art");
  }

  // ---------------------------------------------------------------------
  // analyze_pokemon_data_fields

  /**
   * A truthy value whose printed form is not blank: only a string can print
   * blank (a non-zero number, True and a non-empty list or dict never do).
   */
  predicate NonBlank(v: Value) {
    v.Str? ==> Strip(v.s) != ""
  }

  /** A record completes a field when it is a dict with a truthy, non-blank value under it. */
  predicate CompletesNonBlank(p: Value, f: string) {
    p.Object? && f in p.fields && Truthy(p.fields[f]) && NonBlank(p.fields[f])
  }

  /** The report's completed count: the records completing the field with a non-blank value. */
  function CompletedNonBlank(records: seq<Value>, f: string): (n: nat)
    ensures n <= |records|
  {
    CountWhere(records, (p: Value) => CompletesNonBlank(p, f))
  }

  /** The report's count never exceeds the monitor's, which also counts blank strings. */
  lemma CompletedNonBlankBound(records: seq<Value>, f: string)
    ensures CompletedNonBlank(records, f) <= CompletedCount(records, f)
  {
    CountWhereImplies(records, (p: Value) => CompletesNonBlank(p, f), (p: Value) => Completes(p, f));
  }

  /** `analyze_pokemon_data_fields`: every field seen in a dict record gets its non-blank completed count. */
  method AnalyzePokemonDataFields(records: seq<Value>) returns (a: FieldAnalysis)
    ensures a.totalRecords == |records|
    ensures a.availableFields == FieldsOf(records)
    ensures a.completed.Keys == a.availableFields
    ensures forall f :: f in a.completed ==> a.completed[f] == CompletedNonBlank(records, f) && a.completed[f] <= |records|
  {
    if |records| == 0 {
      return FieldAnalysis(0, {}, map[]);
    }
    var fields := CollectFields(records);
    var completed: map<string, nat> := map[];
    var todo := fields;
    while todo != {}
      invariant todo <= fields
      invariant completed.Keys == fields - todo
      invariant forall f :: f in completed ==> completed[f] == CompletedNonBlank(records, f)
      decreases todo
    {
      var f :| f in todo;
      completed := completed[f := CompletedNonBlank(records, f)];
      todo := todo - {f};
    }
    a := FieldAnalysis(|records|, fields, completed);
  }

  // ---------------------------------------------------------------------
  // analyze_consolidated_pokemon_data

  /** Up to `limit` distinct names of the set, in an order the model leaves open (the first `limit` of the set's listing). */
  method TakeNames(names: set<string>, limit: nat) returns (taken: seq<string>)
    ensures |taken| == Min(limit, |names|)
    ensures forall i :: 0 <= i < |taken| ==> taken[i] in names
    ensures forall i, j :: 0 <= i < j < |taken| ==> taken[i] != taken[j]
  {
    taken := [];
    var left := names;
    while |taken| < limit && left != {}
      invariant left <= names
      invariant |taken| + |left| == |names| && |taken| <= limit
      invariant forall i :: 0 <= i < |taken| ==> taken[i] in names && taken[i] !in left
      invariant forall i, j :: 0 <= i < j < |taken| ==> taken[i] != taken[j]
      decreases |left|
    {
      var n :| n in left;
      taken := taken + [n];
      left := left - {n};
    }
  }

  /** `total_unique_pokemon` and `unique_pokemon_names`. */
  datatype Consolidated = Consolidated(totalUnique: nat, uniqueNames: seq<string>)

  /**
   * `analyze_consolidated_pokemon_data`: the number of distinct lowercased,
   * stripped names, and at most 100 of them; a name that is not a string
   * raises (None).
   */
  method AnalyzeConsolidated(records: seq<Value>) returns (r: Option<Consolidated>)
    ensures r.None? <==> NamesIn(records).None?
    ensures r.Some? ==>
      r.value.totalUnique == |NamesIn(records).value| &&
      |r.value.uniqueNames| == Min(100, r.value.totalUnique) &&
      (forall i :: 0 <= i < |r.value.uniqueNames| ==> r.value.uniqueNames[i] in NamesIn(records).value) &&
      (forall i, j :: 0 <= i < j < |r.value.uniqueNames| ==> r.value.uniqueNames[i] != r.value.uniqueNames[j])
  {
    var names := CollectNames(records);
    if names.None? {
      return None;
    }
    var first := TakeNames(names.value, 100);
    r := Some(Consolidated(|names.value|, first));
  }

  // ---------------------------------------------------------------------
  // categorize_animation_file and create_animation_inventory

  datatype AnimationType = HoverEffects | ClickInteractions | CardOpeningSequences | TransitionEffects | CardAnimations | GeneralAnimations

  /** The key the inventory uses for a kind. */
  function AnimationTypeName(t: AnimationType): string {
    match t
    case HoverEffects => "hover_effects"
    case ClickInteractions => "click_interactions"
    case CardOpeningSequences => "card_opening_sequences"
    case TransitionEffects => "transition_effects"
    case CardAnimations => "card_animations"
    case GeneralAnimations => "general_animations"
  }

  /** `categorize_animation_file`: the first keyword in the lowercased file name picks the kind. */
  function CategorizeAnimationFile(path: string): AnimationType {
    var name := Lower(PathName(path));
    if Contains(name, "hover") then HoverEffects
    else if Contains(name, "click") then ClickInteractions
    else if Contains(name, "opening") then CardOpeningSequences
    else if Contains(name, "transition") then TransitionEffects
    else if Contains(name, "card") then CardAnimations
    else GeneralAnimations
  }

  /** The precedence hover > click > opening > transition > card > general, as an exact condition per kind. */
  lemma CategorizeAnimationFileSpec(path: string)
    ensures var n := Lower(PathName(path)); var t := CategorizeAnimationFile(path);
      (t == HoverEffects <==> Contains(n, "hover")) &&
      (t == ClickInteractions <==> !Contains(n, "hover") && Contains(n, "click")) &&
      (t == CardOpeningSequences <==> !Contains(n, "hover") && !Contains(n, "click") && Contains(n, "opening")) &&
      (t == TransitionEffects <==>
        !Contains(n, "hover") && !Contains(n, "click") && !Contains(n, "opening") && Contains(n, "transition")) &&
      (t == CardAnimations <==>
        !Contains(n, "hover") && !Contains(n, "click") && !Contains(n, "opening") && !Contains(n, "transition") && Contains(n, "card")) &&
      (t == GeneralAnimations <==>
        !Contains(n, "hover") && !Contains(n, "click") && !Contains(n, "opening") && !Contains(n, "transition") && !Contains(n, "card"))
  {
  }

  /** The name patterns the inventory globs for, in order. */
  const AnimationKeywords: seq<string> := ["animation", "hover", "click", "transition", "opening", "card"]

  /** A file the glob for `keyword` yields and the inventory counts: the name holds the keyword and the suffix is an image or video one. */
  predicate CountsFor(path: string, keyword: string) {
    Contains(PathName(path), keyword) && Lower(Suffix(path)) in {".png", ".jpg", ".gif", ".mp4", ".webm"}
  }

  /** The kinds of the files one keyword's glob counts, in walk order. */
  function KeywordHits(files: seq<string>, keyword: string): seq<AnimationType> {
    MapSeq(Filter(files, (f: string) => CountsFor(f, keyword)), CategorizeAnimationFile)
  }

  /** The kinds counted for one directory under each keyword in turn. */
  function DirHits(files: seq<string>, keywords: seq<string>): seq<AnimationType>
    decreases |keywords|
  {
    if |keywords| == 0 then [] else DirHits(files, keywords[..|keywords| - 1]) + KeywordHits(files, keywords[|keywords| - 1])
  }

  /** The kinds counted over the directories, each under every keyword in turn. */
  function AllHits(dirs: seq<seq<string>>): seq<AnimationType>
    decreases |dirs|
  {
    if |dirs| == 0 then [] else AllHits(dirs[..|dirs| - 1]) + DirHits(dirs[|dirs| - 1], AnimationKeywords)
  }

  /** The counter after adding one for each kind in turn. */
  function CountAll(d: Dict<AnimationType, int>, kinds: seq<AnimationType>): (r: Dict<AnimationType, int>)
    requires WellFormed(d)
    ensures WellFormed(r)
    decreases |kinds|
  {
    if |kinds| == 0 then d else AddTo(CountAll(d, kinds[..|kinds| - 1]), kinds[|kinds| - 1], 1)
  }

  /** Counting two lists in turn is counting their concatenation. */
  lemma {:induction false} CountAllConcat(d: Dict<AnimationType, int>, a: seq<AnimationType>, b: seq<AnimationType>)
    requires WellFormed(d)
    ensures CountAll(d, a + b) == CountAll(CountAll(d, a), b)
    decreases |b|
  {
    if |b| == 0 {
      assert a + b == a;
    } else {
      assert (a + b)[..|a + b| - 1] == a + b[..|b| - 1];
      CountAllConcat(d, a, b[..|b| - 1]);
    }
  }

  /** Each kind counted adds one to the sum of the counters. */
  lemma {:induction false} CountAllSum(d: Dict<AnimationType, int>, kinds: seq<AnimationType>)
    requires WellFormed(d)
    ensures Sum(Values(CountAll(d, kinds))) == Sum(Values(d)) + |kinds|
    decreases |kinds|
  {
    if |kinds| > 0 {
      CountAllSum(d, kinds[..|kinds| - 1]);
      AddToTotal(CountAll(d, kinds[..|kinds| - 1]), kinds[|kinds| - 1], 1);
    }
  }

  lemma KeywordHitsStep(files: seq<string>, i: nat, keyword: string)
    requires i < |files|
    ensures KeywordHits(files[..i + 1], keyword) ==
      KeywordHits(files[..i], keyword) + (if CountsFor(files[i], keyword) then [CategorizeAnimationFile(files[i])] else [])
  {
    var p := (f: string) => CountsFor(f, keyword);
    var pre := files[..i];
    assert files[..i + 1][..i] == pre;
    assert files[..i + 1][i] == files[i];
    var kept := Filter(pre, p);
    if p(files[i]) {
      assert Filter(files[..i + 1], p) == kept + [files[i]];
      MapSeqSnoc(kept, files[i], CategorizeAnimationFile);
    } else {
      assert Filter(files[..i + 1], p) == kept;
      assert KeywordHits(pre, keyword) + [] == KeywordHits(pre, keyword);
    }
  }

  /** One keyword's glob over one directory: each counted file adds one to the total and to its kind. */
  method InventoryKeyword(files: seq<string>, keyword: string, total0: nat, types0: Dict<AnimationType, int>)
    returns (total: nat, types: Dict<AnimationType, int>)
    requires WellFormed(types0)
    ensures total == total0 + |KeywordHits(files, keyword)|
    ensures types == CountAll(types0, KeywordHits(files, keyword))
  {
    total, types := total0, types0;
    var i := 0;
    while i < |files|
      invariant i <= |files|
      invariant total == total0 + |KeywordHits(files[..i], keyword)|
      invariant types == CountAll(types0, KeywordHits(files[..i], keyword))
    {
      KeywordHitsStep(files, i, keyword);
      var f := files[i];
      if CountsFor(f, keyword) {
        var kind := CategorizeAnimationFile(f);
        assert KeywordHits(files[..i + 1], keyword) == KeywordHits(files[..i], keyword) + [kind];
        total := total + 1;
        types := AddTo(types, kind, 1);
      } else {
        assert KeywordHits(files[..i], keyword) + [] == KeywordHits(files[..i], keyword);
      }
      i := i + 1;
    }
    assert files[..i] == files;
  }

  /** Every keyword's glob over one directory, in keyword order. */
  method InventoryDir(files: seq<string>, keywords: seq<string>, total0: nat, types0: Dict<AnimationType, int>)
    returns (total: nat, types: Dict<AnimationType, int>)
    requires WellFormed(types0)
    ensures total == total0 + |DirHits(files, keywords)|
    ensures types == CountAll(types0, DirHits(files, keywords))
  {
    total, types := total0, types0;
    var j := 0;
    while j < |keywords|
      invariant j <= |keywords|
      invariant total == total0 + |DirHits(files, keywords[..j])|
      invariant types == CountAll(types0, DirHits(files, keywords[..j]))
    {
      assert keywords[..j + 1][..j] == keywords[..j];
      CountAllConcat(types0, DirHits(files, keywords[..j]), KeywordHits(files, keywords[j]));
      total, types := InventoryKeyword(files, keywords[j], total, types);
      j := j + 1;
    }
    assert keywords[..j] == keywords;
  }

  /**
   * `create_animation_inventory` over the existing data directories: a
   * file matching several keywords is counted once per keyword, so the
   * total is the number of (keyword, file) hits, and the kind counters add
   * up to it.
   */
  method CreateAnimationInventory(dirs: seq<seq<string>>) returns (total: nat, types: Dict<AnimationType, int>)
    ensures total == |AllHits(dirs)|
    ensures types == CountAll(EmptyDict(), AllHits(dirs))
    ensures Sum(Values(types)) == total
  {
    total, types := 0, EmptyDict();
    var i := 0;
    while i < |dirs|
      invariant i <= |dirs|
      invariant total == |AllHits(dirs[..i])|
      invariant types == CountAll(EmptyDict(), AllHits(dirs[..i]))
    {
      assert dirs[..i + 1][..i] == dirs[..i];
      total, types := InventoryDir(dirs[i], AnimationKeywords, total, types);
      CountAllConcat(EmptyDict(), AllHits(dirs[..i]), DirHits(dirs[i], AnimationKeywords));
      i := i + 1;
    }
    assert dirs[..i] == dirs;
    CountAllSum(EmptyDict(), AllHits(dirs));
  }

  // ---------------------------------------------------------------------
  // assess_overall_quality: completed sites

  /** Some data directory holds a non-empty directory for the site. */
  predicate HasData(dataDirs: seq<string>, hasFiles: (string, string) -> bool, site: string) {
    exists j :: 0 <= j < |dataDirs| && hasFiles(dataDirs[j], site)
  }

  /** The inner search over the data directories, stopping at the first that holds the site. */
  method SiteHasData(dataDirs: seq<string>, hasFiles: (string, string) -> bool, site: string) returns (found: bool)
    ensures found == HasData(dataDirs, hasFiles, site)
  {
    found := false;
    var j := 0;
    while j < |dataDirs|
      invariant j <= |dataDirs|
      invariant forall k :: 0 <= k < j ==> !hasFiles(dataDirs[k], site)
    {
      if hasFiles(dataDirs[j], site) {
        found := true;
        break;
      }
      j := j + 1;
    }
  }

  /** The sites counted as completed: each once, when some data directory holds it, so at most all of them. */
  method CountCompletedSites(sites: seq<string>, dataDirs: seq<string>, hasFiles: (string, string) -> bool) returns (completed: nat)
    ensures completed == CountWhere(sites, (s: string) => HasData(dataDirs, hasFiles, s))
    ensures completed <= |sites|
  {
    completed := 0;
    var i := 0;
    while i < |sites|
      invariant i <= |sites|
      invariant completed == CountWhere(sites[..i], (s: string) => HasData(dataDirs, hasFiles, s))
    {
      assert sites[..i + 1][..i] == sites[..i];
      var found := SiteHasData(dataDirs, hasFiles, sites[i]);
      if found {
        completed := completed + 1;
      }
      i := i + 1;
    }
    assert sites[..i] == sites;
  }
}
