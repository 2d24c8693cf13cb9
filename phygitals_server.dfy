/*
 * The local viewer server for the Phygitals capture
 * (phygitals_local_server.py): its Pokémon endpoint gathers the accepted
 * assets of the nine generation files into one list sorted by id, its
 * stats endpoint summarises the capture directories and generation files,
 * and a helper reads a Pokémon id off an animation's file name.
 *
 * The file system is a parameter: `files(g)` is what
 * `generation_{g}.json` gives (missing, unreadable, or its data), and a
 * directory's walk is its list of entries with their sizes.
 */
module PhygitalsServer {
  import opened PyText
  import opened Collections
  import opened Json

  // ---------------------------------------------------------------------
  // Pokémon ids from file names

  /** The longest suffix of `s` made of digits. */
  function TrailingDigits(s: string): (r: string)
    ensures |r| <= |s|
    ensures forall i :: 0 <= i < |r| ==> IsDigit(r[i])
    decreases |s|
  {
    if |s| > 0 && IsDigit(s[|s| - 1]) then TrailingDigits(s[..|s| - 1]) + [s[|s| - 1]] else ""
  }

  /**
   * What precedes `.gif` where the pattern's `$` can match: at the very end
   * of the name, or just before a final newline.
   */
  function GifStem(s: string): Option<string> {
    if EndsWith(s, ".gif") then Some(s[..|s| - 4])
    else if EndsWith(s, ".gif\n") then Some(s[..|s| - 5])
    else None
  }

  /**
   * `extract_pokemon_id`: the value of the maximal run of digits just
   * before a final `.gif`, or 0 when there is none.
   */
  function ExtractPokemonId(filename: string): (id: nat)
    ensures GifStem(filename).None? ==> id == 0
    ensures GifStem(filename).Some? && TrailingDigits(GifStem(filename).value) == "" ==> id == 0
  {
    if filename == "" then 0
    else
      match GifStem(filename)
      case None => 0
      case Some(stem) =>
        var run := TrailingDigits(stem);
        if run == "" then 0 else DigitsValue(run)
  }

  lemma {:induction false} TrailingDigitsAfter(prefix: string, digits: string)
    requires forall i :: 0 <= i < |digits| ==> IsDigit(digits[i])
    requires prefix == "" || !IsDigit(prefix[|prefix| - 1])
    ensures TrailingDigits(prefix + digits) == digits
    decreases |digits|
  {
    if |digits| == 0 {
      assert prefix + digits == prefix;
    } else {
      var init := digits[..|digits| - 1];
      assert (prefix + digits)[..|prefix + digits| - 1] == prefix + init;
      TrailingDigitsAfter(prefix, init);
      assert digits == init + [digits[|digits| - 1]];
    }
  }

  /** A name made of a prefix not ending in a digit, a number and `.gif` gives back that number. */
  lemma ExtractPokemonIdRoundTrip(prefix: string, n: nat)
    requires prefix == "" || !IsDigit(prefix[|prefix| - 1])
    ensures ExtractPokemonId(prefix + NatToString(n) + ".gif") == n
  {
    var digits := NatToString(n);
    var s := prefix + digits + ".gif";
    assert s[|s| - 4..] == ".gif";
    assert s[..|s| - 4] == prefix + digits;
    TrailingDigitsAfter(prefix, digits);
  }

  /** The two name shapes the source expects: `gen_1_25.gif` and `25.gif`. */
  lemma ExtractPokemonIdExamples()
    ensures ExtractPokemonId("gen_1_25.gif") == 25
    ensures ExtractPokemonId("25.gif") == 25
    ensures ExtractPokemonId("pikachu.png") == 0
  {
    ExtractPokemonIdRoundTrip("gen_1_", 25);
    ExtractPokemonIdRoundTrip("", 25);
    assert NatToString(25) == "25" by {
      assert NatToString(2) == "2";
    }
    assert "gen_1_" + "25" + ".gif" == "gen_1_25.gif";
    assert "" + "25" + ".gif" == "25.gif";
    assert !EndsWith("pikachu.png", ".gif") by {
      assert "pikachu.png"[7..][1] != ".gif"[1];
    }
    assert !EndsWith("pikachu.png", ".gif\n") by {
      assert "pikachu.png"[6..][2] != ".gif\n"[2];
    }
  }

  // ---------------------------------------------------------------------
  // The Pokémon endpoint

  /** An entry of a generation file's `pokemon_assets`: its `alt`, `filename` and `type`, each possibly absent. */
  datatype Asset = Asset(alt: Option<string>, filename: Option<string>, kind: Option<string>)

  datatype GenData = GenData(assets: Option<seq<Asset>>, assetsFound: Option<Value>, assetsDownloaded: Option<Value>)

  /** What a generation file gives. */
  datatype GenFile = Missing | Unreadable | Loaded(data: GenData)

  datatype Entry = Entry(name: string, id: nat, generation: nat, filename: string, imagePath: string, kind: string)

  datatype GenSummary = GenSummary(pokemonCount: nat, assetsFound: Value, assetsDownloaded: Value)

  function OrElse(a: Option<string>, d: string): string {
    match a
    case Some(s) => s
    case None => d
  }

  function OrZero(v: Option<Value>): Value {
    match v
    case Some(x) => x
    case None => Int(0)
  }

  function AssetsOf(d: GenData): seq<Asset> {
    match d.assets
    case Some(a) => a
    case None => []
  }

  /** The alt text of a generation's logo. */
  function GenLogo(g: nat): string {
    "Generation " + NatToString(g) + " logo"
  }

  /** An asset becomes an entry when its alt is non-empty and is not its generation's logo. */
  predicate Accepted(a: Asset, g: nat) {
    a.alt.Some? && a.alt.value != "" && a.alt.value != GenLogo(g)
  }

  function AcceptedIn(g: nat): Asset -> bool {
    (a: Asset) => Accepted(a, g)
  }

  function EntryOf(a: Asset, g: nat): Entry
    requires a.alt.Some?
  {
    var filename := OrElse(a.filename, "");
    Entry(a.alt.value, ExtractPokemonId(filename), g, filename,
      "phygitals_FINAL_COMPLETE/pokemon_animations/" + filename, OrElse(a.kind, "animation"))
  }

  /** The entries of one generation's assets, in asset order. */
  function GenEntries(assets: seq<Asset>, g: nat): seq<Entry>
    decreases |assets|
  {
    if |assets| == 0 then []
    else
      var a := assets[|assets| - 1];
      GenEntries(assets[..|assets| - 1], g) + (if Accepted(a, g) then [EntryOf(a, g)] else [])
  }

  /** One entry per accepted asset; an entry is exactly the entry of some accepted asset. */
  lemma {:induction false} GenEntriesSpec(assets: seq<Asset>, g: nat)
    ensures |GenEntries(assets, g)| == CountWhere(assets, AcceptedIn(g))
    ensures forall e :: e in GenEntries(assets, g) <==> exists a :: a in assets && Accepted(a, g) && e == EntryOf(a, g)
    ensures forall e :: e in GenEntries(assets, g) ==> e.generation == g
    decreases |assets|
  {
    if |assets| > 0 {
      var init := assets[..|assets| - 1];
      GenEntriesSpec(init, g);
      assert assets == init + [assets[|assets| - 1]];
    }
  }

  /** The loop over one generation's assets. */
  method LoadGeneration(assets: seq<Asset>, g: nat) returns (entries: seq<Entry>)
    ensures entries == GenEntries(assets, g)
  {
    entries := [];
    var i := 0;
    while i < |assets|
      invariant i <= |assets|
      invariant entries == GenEntries(assets[..i], g)
    {
      assert assets[..i + 1][..i] == assets[..i];
      var a := assets[i];
      if a.alt.Some? && a.alt.value != "" && a.alt.value != GenLogo(g) {
        entries := entries + [EntryOf(a, g)];
      }
      i := i + 1;
    }
    assert assets[..i] == assets;
  }

  /** The entries so far, the number of generation files loaded, and the per-generation summary. */
  datatype ApiState = ApiState(all: seq<Entry>, totalGenerations: nat, byGeneration: map<nat, GenSummary>)

  /** One generation: a missing or unreadable file changes nothing. */
  function LoadStep(st: ApiState, g: nat, f: GenFile): ApiState {
    match f
    case Missing => st
    case Unreadable => st
    case Loaded(d) =>
      var entries := GenEntries(AssetsOf(d), g);
      ApiState(st.all + entries, st.totalGenerations + 1,
        st.byGeneration[g := GenSummary(|entries|, OrZero(d.assetsFound), OrZero(d.assetsDownloaded))])
  }

  /** The state after generations 1 to n. */
  function LoadAll(files: nat -> GenFile, n: nat): ApiState
    decreases n
  {
    if n == 0 then ApiState([], 0, map[]) else LoadStep(LoadAll(files, n - 1), n, files(n))
  }

  /** The per-generation counts of generations 1 to n. */
  function GenTotal(m: map<nat, GenSummary>, n: nat): nat
    decreases n
  {
    if n == 0 then 0 else GenTotal(m, n - 1) + (if n in m then m[n].pokemonCount else 0)
  }

  /** A summary for a later generation does not change the total up to n. */
  lemma {:induction false} GenTotalUpdate(m: map<nat, GenSummary>, k: nat, x: GenSummary, n: nat)
    requires n < k
    ensures GenTotal(m[k := x], n) == GenTotal(m, n)
    decreases n
  {
    if n > 0 {
      GenTotalUpdate(m, k, x, n - 1);
    }
  }

  /** After generations 1 to n exactly the loaded generations have a summary. */
  lemma {:induction false} LoadAllDomain(files: nat -> GenFile, n: nat)
    ensures forall g :: g in LoadAll(files, n).byGeneration <==> 1 <= g <= n && files(g).Loaded?
    decreases n
  {
    if n > 0 {
      LoadAllDomain(files, n - 1);
      if files(n).Loaded? {
        assert LoadAll(files, n).byGeneration.Keys == LoadAll(files, n - 1).byGeneration.Keys + {n};
      }
    }
  }

  /** A generation's summary counts that generation's entries. */
  lemma {:induction false} LoadAllCounts(files: nat -> GenFile, n: nat)
    ensures forall g :: g in LoadAll(files, n).byGeneration ==>
      files(g).Loaded? && LoadAll(files, n).byGeneration[g].pokemonCount == |GenEntries(AssetsOf(files(g).data), g)|
    decreases n
  {
    if n > 0 {
      LoadAllCounts(files, n - 1);
    }
  }

  /** `total_generations` is the number of generation summaries. */
  lemma {:induction false} LoadAllGenerations(files: nat -> GenFile, n: nat)
    ensures LoadAll(files, n).totalGenerations == |LoadAll(files, n).byGeneration.Keys|
    decreases n
  {
    if n > 0 {
      var st := LoadAll(files, n - 1);
      LoadAllGenerations(files, n - 1);
      if files(n).Loaded? {
        assert n !in st.byGeneration by {
          LoadAllDomain(files, n - 1);
        }
        assert LoadAll(files, n).byGeneration.Keys == st.byGeneration.Keys + {n};
      }
    }
  }

  /** The gathered entries add up to the per-generation counts. */
  lemma {:induction false} LoadAllTotal(files: nat -> GenFile, n: nat)
    ensures |LoadAll(files, n).all| == GenTotal(LoadAll(files, n).byGeneration, n)
    decreases n
  {
    if n > 0 {
      var st := LoadAll(files, n - 1);
      LoadAllTotal(files, n - 1);
      if files(n).Loaded? {
        var d := files(n).data;
        var entries := GenEntries(AssetsOf(d), n);
        var x := GenSummary(|entries|, OrZero(d.assetsFound), OrZero(d.assetsDownloaded));
        assert LoadAll(files, n).all == st.all + entries;
        assert LoadAll(files, n).byGeneration == st.byGeneration[n := x];
        GenTotalUpdate(st.byGeneration, n, x, n - 1);
        assert GenTotal(st.byGeneration[n := x], n) == GenTotal(st.byGeneration, n - 1) + |entries|;
      } else {
        assert n !in st.byGeneration by {
          LoadAllDomain(files, n - 1);
        }
      }
    }
  }

  /** An entry is in the list exactly when it is the entry of an accepted asset of a loaded generation. */
  lemma {:induction false} LoadAllMember(files: nat -> GenFile, n: nat, e: Entry)
    ensures e in LoadAll(files, n).all <==>
      exists g :: 1 <= g <= n && files(g).Loaded? && e in GenEntries(AssetsOf(files(g).data), g)
    decreases n
  {
    if n > 0 {
      LoadAllMember(files, n - 1, e);
      if files(n).Loaded? {
        var st := LoadAll(files, n - 1);
        assert LoadAll(files, n).all == st.all + GenEntries(AssetsOf(files(n).data), n);
      }
    }
  }

  datatype PokemonApi = PokemonApi(
    pokemon: seq<Entry>,
    totalPokemon: nat,
    totalGenerations: nat,
    byGeneration: map<nat, GenSummary>,
    success: bool,
    message: string)

  function EntryId(e: Entry): int {
    e.id
  }

  /** The response of `serve_pokemon_api` over generations 1 to 9. */
  function PokemonApiOf(files: nat -> GenFile): PokemonApi {
    var st := LoadAll(files, 9);
    PokemonApi(SortByKey(st.all, EntryId), |st.all|, st.totalGenerations, st.byGeneration, true,
      "Loaded " + NatToString(|st.all|) + " Pokemon from " + NatToString(st.totalGenerations) + " generations")
  }

  /**
   * The list is sorted by id, keeps the gathering order among equal ids and
   * holds every gathered entry exactly once; `total_pokemon` is its length
   * and the sum of the per-generation counts.
   */
  lemma PokemonApiSpec(files: nat -> GenFile)
    ensures var r := PokemonApiOf(files);
      SortedBy(r.pokemon, EntryId) && multiset(r.pokemon) == multiset(LoadAll(files, 9).all)
    ensures var r := PokemonApiOf(files);
      forall q :: WithKey(r.pokemon, EntryId, q) == WithKey(LoadAll(files, 9).all, EntryId, q)
    ensures var r := PokemonApiOf(files);
      r.totalPokemon == |r.pokemon| == GenTotal(r.byGeneration, 9)
  {
    var all := LoadAll(files, 9).all;
    SortSorted(all, EntryId);
    SortPermutation(all, EntryId);
    forall q
      ensures WithKey(SortByKey(all, EntryId), EntryId, q) == WithKey(all, EntryId, q)
    {
      SortStable(all, EntryId, q);
    }
    LoadAllTotal(files, 9);
  }

  /** `serve_pokemon_api`: the generation loop, then the sort. */
  method ServePokemonApi(files: nat -> GenFile) returns (response: PokemonApi)
    ensures response == PokemonApiOf(files)
  {
    var all: seq<Entry> := [];
    var totalGenerations := 0;
    var byGeneration: map<nat, GenSummary> := map[];
    var g := 1;
    while g < 10
      invariant 1 <= g <= 10
      invariant ApiState(all, totalGenerations, byGeneration) == LoadAll(files, g - 1)
    {
      match files(g) {
        case Missing =>
        case Unreadable =>
        case Loaded(d) =>
          var entries := LoadGeneration(AssetsOf(d), g);
          all := all + entries;
          totalGenerations := totalGenerations + 1;
          byGeneration := byGeneration[g := GenSummary(|entries|, OrZero(d.assetsFound), OrZero(d.assetsDownloaded))];
      }
      g := g + 1;
    }
    response := PokemonApi(SortByKey(all, EntryId), |all|, totalGenerations, byGeneration, true,
      "Loaded " + NatToString(|all|) + " Pokemon from " + NatToString(totalGenerations) + " generations");
  }

  // ---------------------------------------------------------------------
  // Directory statistics

  /** An entry of a directory walk: its name, its size and whether it is a regular file. */
  datatype WalkFile = WalkFile(name: string, size: nat, isFile: bool)

  datatype DirStats = DirStats(files: nat, sizeBytes: nat, structure: Dict<string, int>)

  predicate IsRegular(f: WalkFile) {
    f.isFile
  }

  /** The lowercased extension of a file name. */
  function ExtOf(f: WalkFile): string {
    Lower(SplitExt(f.name).1)
  }

  function SizeSum(fs: seq<WalkFile>): nat
    decreases |fs|
  {
    if |fs| == 0 then 0 else SizeSum(fs[..|fs| - 1]) + fs[|fs| - 1].size
  }

  /** The statistics of the entries of a walk, one entry at a time as the walk loop gathers them. */
  function WalkStats(w: seq<WalkFile>): (r: DirStats)
    ensures WellFormed(r.structure)
    decreases |w|
  {
    if |w| == 0 then DirStats(0, 0, EmptyDict())
    else
      var st := WalkStats(w[..|w| - 1]);
      var f := w[|w| - 1];
      if f.isFile then DirStats(st.files + 1, st.sizeBytes + f.size, AddTo(st.structure, ExtOf(f), 1)) else st
  }

  lemma FilterSnoc(w: seq<WalkFile>)
    requires |w| > 0
    ensures w[|w| - 1].isFile ==> Filter(w, IsRegular) == Filter(w[..|w| - 1], IsRegular) + [w[|w| - 1]]
    ensures !w[|w| - 1].isFile ==> Filter(w, IsRegular) == Filter(w[..|w| - 1], IsRegular)
  {
  }

  /** The walk counts the regular files. */
  lemma {:induction false} WalkStatsFiles(w: seq<WalkFile>)
    ensures WalkStats(w).files == CountWhere(w, IsRegular)
    decreases |w|
  {
    if |w| > 0 {
      var init := w[..|w| - 1];
      WalkStatsFiles(init);
      assert WalkStats(w).files == WalkStats(init).files + (if w[|w| - 1].isFile then 1 else 0);
    }
  }

  /** The walk adds up the sizes of the regular files. */
  lemma {:induction false} WalkStatsBytes(w: seq<WalkFile>)
    ensures WalkStats(w).sizeBytes == SizeSum(Filter(w, IsRegular))
    decreases |w|
  {
    if |w| > 0 {
      var init := w[..|w| - 1];
      var f := w[|w| - 1];
      WalkStatsBytes(init);
      var fs := Filter(init, IsRegular);
      if f.isFile {
        assert WalkStats(w).sizeBytes == WalkStats(init).sizeBytes + f.size;
        assert SizeSum(Filter(w, IsRegular)) == SizeSum(fs) + f.size by {
          FilterSnoc(w);
          assert (fs + [f])[..|fs|] == fs;
        }
      } else {
        assert WalkStats(w).sizeBytes == WalkStats(init).sizeBytes;
        assert Filter(w, IsRegular) == fs by {
          FilterSnoc(w);
        }
      }
    }
  }

  /** The walk's per-extension counts are the tally of the regular files' lowercased extensions. */
  lemma {:induction false} WalkStatsStructure(w: seq<WalkFile>)
    ensures WalkStats(w).structure == Tally(CountEntries(MapSeq(Filter(w, IsRegular), ExtOf)))
    decreases |w|
  {
    if |w| > 0 {
      var init := w[..|w| - 1];
      var f := w[|w| - 1];
      WalkStatsStructure(init);
      FilterSnoc(w);
      if f.isFile {
        var fs := Filter(init, IsRegular);
        MapSeqSnoc(fs, f, ExtOf);
        TallyCountStep(MapSeq(fs, ExtOf), ExtOf(f));
      }
    }
  }

  /** `get_directory_stats`: all zeros for a missing directory. */
  function DirStatsOf(walk: Option<seq<WalkFile>>): DirStats {
    match walk
    case None => DirStats(0, 0, EmptyDict())
    case Some(w) => WalkStats(w)
  }

  /** The per-extension counts add up to the number of files, and a missing directory gives zeros. */
  lemma DirStatsSpec(walk: Option<seq<WalkFile>>)
    ensures Sum(Values(DirStatsOf(walk).structure)) == DirStatsOf(walk).files
    ensures walk.None? ==> DirStatsOf(walk).files == 0 && DirStatsOf(walk).sizeBytes == 0 && DirStatsOf(walk).structure.m == map[]
    ensures walk.Some? ==> DirStatsOf(walk).files == CountWhere(walk.value, IsRegular)
  {
    if walk.Some? {
      WalkStatsFiles(walk.value);
      WalkStatsStructure(walk.value);
      TallyCount(MapSeq(Filter(walk.value, IsRegular), ExtOf));
    }
  }

  /** The walk loop of `get_directory_stats`. */
  method GetDirectoryStats(walk: Option<seq<WalkFile>>) returns (stats: DirStats)
    ensures stats == DirStatsOf(walk)
  {
    if walk.None? {
      return DirStats(0, 0, EmptyDict());
    }
    var w := walk.value;
    var files: nat := 0;
    var size: nat := 0;
    var structure: Dict<string, int> := EmptyDict();
    var i := 0;
    while i < |w|
      invariant i <= |w|
      invariant files == WalkStats(w[..i]).files
      invariant size == WalkStats(w[..i]).sizeBytes
      invariant structure == WalkStats(w[..i]).structure
    {
      assert w[..i + 1][..i] == w[..i];
      var f := w[i];
      if f.isFile {
        files := files + 1;
        size := size + f.size;
        structure := AddTo(structure, ExtOf(f), 1);
      }
      i := i + 1;
    }
    assert w[..i] == w;
    stats := DirStats(files, size, structure);
  }

  // ---------------------------------------------------------------------
  // The stats endpoint

  /** An asset the stats endpoint counts: a non-empty alt that does not mention "logo" in any case. */
  predicate NoLogo(a: Asset) {
    a.alt.Some? && a.alt.value != "" && !Contains(Lower(a.alt.value), "logo")
  }

  lemma LogoMentionsLogo(g: nat)
    ensures Contains(Lower(GenLogo(g)), "logo")
  {
    var s := GenLogo(g);
    var l := Lower(s);
    assert s == "Generation " + NatToString(g) + " logo";
    assert s[|s| - 4..] == "logo";
    assert l[|l| - 4..] == "logo";
    ContainsAt(l, "logo", |l| - 4);
  }

  /** Every asset the stats endpoint counts is an entry of the Pokémon endpoint, so its count is never larger. */
  lemma StatsCountBound(assets: seq<Asset>, g: nat)
    ensures CountWhere(assets, NoLogo) <= |GenEntries(assets, g)|
  {
    LogoMentionsLogo(g);
    CountWhereImplies(assets, NoLogo, AcceptedIn(g));
    GenEntriesSpec(assets, g);
  }

  /** The directories the stats endpoint looks at. */
  const Directories: seq<string> := ["phygitals_FINAL_COMPLETE", "phygitals_dynamic_pokemon", "phygitals_with_images"]

  datatype DirEntry = DirEntry(name: string, stats: DirStats)

  /** The entries of the directories that exist, in order. */
  function DirEntries(names: seq<string>, walks: string -> Option<seq<WalkFile>>): seq<DirEntry>
    decreases |names|
  {
    if |names| == 0 then []
    else
      var name := names[|names| - 1];
      DirEntries(names[..|names| - 1], walks) + (if walks(name).Some? then [DirEntry(name, DirStatsOf(walks(name)))] else [])
  }

  function FileTotal(entries: seq<DirEntry>): nat
    decreases |entries|
  {
    if |entries| == 0 then 0 else FileTotal(entries[..|entries| - 1]) + entries[|entries| - 1].stats.files
  }

  /** The summary of generations 1 to n that load. */
  function GenerationsData(files: nat -> GenFile, n: nat): map<nat, GenSummary>
    decreases n
  {
    if n == 0 then map[]
    else
      var m := GenerationsData(files, n - 1);
      match files(n)
      case Loaded(d) =>
        m[n := GenSummary(CountWhere(AssetsOf(d), NoLogo), OrZero(d.assetsFound), OrZero(d.assetsDownloaded))]
      case _ => m
  }

  datatype StatsApi = StatsApi(directories: seq<DirEntry>, totalFiles: nat, generationsData: map<nat, GenSummary>, hasCaptureInfo: bool)

  /** The response of `serve_stats_api`; the capture information is present exactly when the metadata directory exists. */
  function StatsApiOf(walks: string -> Option<seq<WalkFile>>, files: nat -> GenFile, hasMetadata: bool): StatsApi {
    var dirs := DirEntries(Directories, walks);
    StatsApi(dirs, FileTotal(dirs), GenerationsData(files, 9), hasMetadata)
  }

  /** Only existing directories are listed, each with its own statistics. */
  lemma {:induction false} DirEntriesSpec(names: seq<string>, walks: string -> Option<seq<WalkFile>>)
    ensures forall d :: d in DirEntries(names, walks) ==> d.name in names && walks(d.name).Some? && d.stats == DirStatsOf(walks(d.name))
    ensures forall name :: name in names && walks(name).Some? ==> DirEntry(name, DirStatsOf(walks(name))) in DirEntries(names, walks)
    decreases |names|
  {
    if |names| > 0 {
      DirEntriesSpec(names[..|names| - 1], walks);
      assert names == names[..|names| - 1] + [names[|names| - 1]];
    }
  }

  /** The regular files under the named directories that exist. */
  function RegularFiles(names: seq<string>, walks: string -> Option<seq<WalkFile>>): nat
    decreases |names|
  {
    if |names| == 0 then 0
    else
      var walk := walks(names[|names| - 1]);
      RegularFiles(names[..|names| - 1], walks) + (if walk.Some? then CountWhere(walk.value, IsRegular) else 0)
  }

  /** `total_files` counts every regular file under every directory that exists, and no other. */
  lemma {:induction false} TotalFilesSpec(names: seq<string>, walks: string -> Option<seq<WalkFile>>)
    ensures FileTotal(DirEntries(names, walks)) == RegularFiles(names, walks)
    decreases |names|
  {
    if |names| > 0 {
      var prev := DirEntries(names[..|names| - 1], walks);
      var name := names[|names| - 1];
      TotalFilesSpec(names[..|names| - 1], walks);
      if walks(name).Some? {
        var e := DirEntry(name, DirStatsOf(walks(name)));
        assert DirEntries(names, walks) == prev + [e];
        assert (prev + [e])[..|prev|] == prev;
        DirStatsSpec(walks(name));
      } else {
        assert DirEntries(names, walks) == prev;
      }
    }
  }

  /** Exactly the loaded generations have a summary, counting the assets that do not mention a logo. */
  lemma {:induction false} GenerationsDataSpec(files: nat -> GenFile, n: nat)
    ensures forall g :: g in GenerationsData(files, n) <==> 1 <= g <= n && files(g).Loaded?
    ensures forall g :: g in GenerationsData(files, n) ==>
      GenerationsData(files, n)[g].pokemonCount == CountWhere(AssetsOf(files(g).data), NoLogo)
    decreases n
  {
    if n > 0 {
      GenerationsDataSpec(files, n - 1);
    }
  }

  /** A generation's count at the stats endpoint never exceeds its count at the Pokémon endpoint. */
  lemma StatsBelowPokemonApi(files: nat -> GenFile, g: nat)
    requires g in GenerationsData(files, 9)
    ensures g in LoadAll(files, 9).byGeneration
    ensures GenerationsData(files, 9)[g].pokemonCount <= LoadAll(files, 9).byGeneration[g].pokemonCount
  {
    GenerationsDataSpec(files, 9);
    LoadAllDomain(files, 9);
    LoadAllCounts(files, 9);
    StatsCountBound(AssetsOf(files(g).data), g);
  }

  /** The directory loop of `serve_stats_api`. */
  method ListDirectories(names: seq<string>, walks: string -> Option<seq<WalkFile>>)
    returns (dirs: seq<DirEntry>, totalFiles: nat)
    ensures dirs == DirEntries(names, walks)
    ensures totalFiles == FileTotal(dirs)
  {
    dirs := [];
    totalFiles := 0;
    var i := 0;
    while i < |names|
      invariant i <= |names|
      invariant dirs == DirEntries(names[..i], walks)
      invariant totalFiles == FileTotal(dirs)
    {
      assert names[..i + 1][..i] == names[..i];
      var walk := walks(names[i]);
      if walk.Some? {
        var stats := GetDirectoryStats(walk);
        var entry := DirEntry(names[i], stats);
        assert (dirs + [entry])[..|dirs|] == dirs;
        dirs := dirs + [entry];
        totalFiles := totalFiles + stats.files;
      }
      i := i + 1;
    }
    assert names[..i] == names;
  }

  /** `serve_stats_api`: the directories, then the generation loop. */
  method ServeStatsApi(walks: string -> Option<seq<WalkFile>>, files: nat -> GenFile, hasMetadata: bool)
    returns (response: StatsApi)
    ensures response == StatsApiOf(walks, files, hasMetadata)
  {
    var dirs, totalFiles := ListDirectories(Directories, walks);
    var generations: map<nat, GenSummary> := map[];
    var g := 1;
    while g < 10
      invariant 1 <= g <= 10
      invariant generations == GenerationsData(files, g - 1)
    {
      match files(g) {
        case Loaded(d) =>
          var count := CountWhere(AssetsOf(d), NoLogo);
          generations := generations[g := GenSummary(count, OrZero(d.assetsFound), OrZero(d.assetsDownloaded))];
        case Missing =>
        case Unreadable =>
      }
      g := g + 1;
    }
    response := StatsApi(dirs, totalFiles, generations, hasMetadata);
  }
}
