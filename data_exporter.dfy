/*
 * The inventory side of the Pokémon data exporter: the recursive scan of a
 * source directory (file count, byte total and per-extension breakdown), the
 * per-file listing with its md5 integrity hash for files under 10 MiB, the
 * inventory of the four configured sources, the summary totals printed by
 * the command line, the "Included Data Sources" lines of the export README
 * and the entry names of the ZIP archive.
 *
 * The file system is a parameter: `walk(path)` is None when the path does
 * not exist and otherwise the entries a recursive glob yields below it, each
 * with its path relative to the walked directory, its size and whether it is
 * a regular file. `md5(fullPath)` is None when the file cannot be read and
 * otherwise its hex digest.
 */
module DataExporter {
  import opened PyText
  import opened Collections

  /** One entry of a recursive walk. */
  datatype Item = Item(rel: string, size: nat, isFile: bool)

  predicate IsFile(x: Item) { x.isFile }

  function SizeSum(xs: seq<Item>): nat
    decreases |xs|
  {
    if |xs| == 0 then 0 else SizeSum(xs[..|xs| - 1]) + xs[|xs| - 1].size
  }

  /** `str(directory / relative)` for a directory string in normal form. */
  function PathJoin(dir: string, name: string): string {
    if dir == "." then name else dir + "/" + name
  }

  /** The extension key of an entry: its path suffix, lowercased. */
  function ExtOf(x: Item): string {
    Lower(Suffix(x.rel))
  }

  /** An extension key is empty or a dot and at least one more character, and has no upper-case letter. */
  lemma ExtOfShape(x: Item)
    ensures ExtOf(x) == [] || (|ExtOf(x)| >= 2 && ExtOf(x)[0] == '.')
    ensures Lower(ExtOf(x)) == ExtOf(x)
    ensures forall j :: 0 <= j < |ExtOf(x)| ==> !('A' <= ExtOf(x)[j] <= 'Z')
  {
    var s := Suffix(x.rel);
    LowerIdempotent(s);
    if s != [] {
      assert Lower(s)[0] == LowerChar(s[0]);
    }
  }

  // ---------------------------------------------------------------------
  // Directory scan

  /** The per-extension counters of a scan. */
  datatype TypeStat = TypeStat(count: nat, size: nat)

  /** Totals of a scan: regular files, bytes, and the per-extension breakdown in first-seen order. */
  datatype DirScan = DirScan(totalFiles: nat, totalSizeBytes: nat, fileTypes: Dict<string, TypeStat>)

  /** Counting one more file of `size` bytes under extension `ext`. */
  function AddType(d: Dict<string, TypeStat>, ext: string, size: nat): (r: Dict<string, TypeStat>)
    requires WellFormed(d)
    ensures WellFormed(r)
    ensures r.m.Keys == d.m.Keys + {ext}
    ensures r.m[ext].count == (if ext in d.m then d.m[ext].count else 0) + 1
    ensures r.m[ext].size == (if ext in d.m then d.m[ext].size else 0) + size
    ensures forall e :: e in d.m && e != ext ==> r.m[e] == d.m[e]
  {
    var prev := if ext in d.m then d.m[ext] else TypeStat(0, 0);
    Put(d, ext, TypeStat(prev.count + 1, prev.size + size))
  }

  /** The scan of a walk, one entry at a time, directories skipped. */
  function ScanOf(items: seq<Item>): (r: DirScan)
    ensures WellFormed(r.fileTypes)
    decreases |items|
  {
    if |items| == 0 then DirScan(0, 0, EmptyDict())
    else
      var s := ScanOf(items[..|items| - 1]);
      var x := items[|items| - 1];
      if x.isFile then DirScan(s.totalFiles + 1, s.totalSizeBytes + x.size, AddType(s.fileTypes, ExtOf(x), x.size))
      else s
  }

  function CountOf(t: TypeStat): int { t.count }
  function SizeOf(t: TypeStat): int { t.size }

  /** The sum of the per-extension counts. */
  function TypeCountTotal(d: Dict<string, TypeStat>): int
    requires WellFormed(d)
  {
    Sum(MapSeq(Values(d), CountOf))
  }

  /** The sum of the per-extension sizes. */
  function TypeSizeTotal(d: Dict<string, TypeStat>): int
    requires WellFormed(d)
  {
    Sum(MapSeq(Values(d), SizeOf))
  }

  /** Adding a file adds one to the count total and its size to the size total. */
  lemma AddTypeTotals(d: Dict<string, TypeStat>, ext: string, size: nat)
    requires WellFormed(d)
    ensures TypeCountTotal(AddType(d, ext, size)) == TypeCountTotal(d) + 1
    ensures TypeSizeTotal(AddType(d, ext, size)) == TypeSizeTotal(d) + size
  {
    var prev := if ext in d.m then d.m[ext] else TypeStat(0, 0);
    SumMapPut(d, ext, TypeStat(prev.count + 1, prev.size + size), CountOf);
    SumMapPut(d, ext, TypeStat(prev.count + 1, prev.size + size), SizeOf);
  }

  /** The file total is the sum of the per-extension counts, and the byte total the sum of their sizes. */
  lemma {:induction false} ScanTotals(items: seq<Item>)
    ensures ScanOf(items).totalFiles == TypeCountTotal(ScanOf(items).fileTypes)
    ensures ScanOf(items).totalSizeBytes == TypeSizeTotal(ScanOf(items).fileTypes)
    decreases |items|
  {
    if |items| > 0 {
      var init := items[..|items| - 1];
      var x := items[|items| - 1];
      ScanTotals(init);
      var s := ScanOf(init);
      ScanStep(items);
      if x.isFile {
        AddTypeTotals(s.fileTypes, ExtOf(x), x.size);
      }
    }
  }

  lemma FilterSnoc(items: seq<Item>)
    requires |items| > 0
    ensures items[|items| - 1].isFile ==> Filter(items, IsFile) == Filter(items[..|items| - 1], IsFile) + [items[|items| - 1]]
    ensures !items[|items| - 1].isFile ==> Filter(items, IsFile) == Filter(items[..|items| - 1], IsFile)
  {
  }

  /** The scan counts exactly the regular files and adds exactly their sizes. */
  lemma {:induction false} ScanCountsFiles(items: seq<Item>)
    ensures ScanOf(items).totalFiles == CountWhere(items, IsFile)
    ensures ScanOf(items).totalSizeBytes == SizeSum(Filter(items, IsFile))
    decreases |items|
  {
    if |items| > 0 {
      var init := items[..|items| - 1];
      ScanCountsFiles(init);
      FilterSnoc(items);
    }
  }

  /** The regular files whose extension key is `ext`. */
  function OfType(ext: string): Item -> bool {
    (x: Item) => x.isFile && ExtOf(x) == ext
  }

  /** The breakdown after one more entry of the walk. */
  lemma ScanStep(items: seq<Item>)
    requires |items| > 0
    ensures var x := items[|items| - 1];
            ScanOf(items).totalFiles == ScanOf(items[..|items| - 1]).totalFiles + (if x.isFile then 1 else 0)
    ensures var x := items[|items| - 1];
            ScanOf(items).totalSizeBytes == ScanOf(items[..|items| - 1]).totalSizeBytes + (if x.isFile then x.size else 0)
    ensures var x := items[|items| - 1];
            ScanOf(items).fileTypes == if x.isFile then AddType(ScanOf(items[..|items| - 1]).fileTypes, ExtOf(x), x.size)
                                       else ScanOf(items[..|items| - 1]).fileTypes
  {
  }

  /** An extension is a key exactly when some regular file has it. */
  lemma {:induction false} ScanTypeKeys(items: seq<Item>, ext: string)
    ensures ext in ScanOf(items).fileTypes.m <==> CountWhere(items, OfType(ext)) > 0
    decreases |items|
  {
    if |items| > 0 {
      ScanTypeKeys(items[..|items| - 1], ext);
      ScanStep(items);
    }
  }

  /** The regular files of extension `ext` after one more entry of the walk. */
  lemma OfTypeStep(items: seq<Item>, ext: string)
    requires |items| > 0
    ensures var x := items[|items| - 1];
            var f := Filter(items[..|items| - 1], OfType(ext));
            CountWhere(items, OfType(ext)) == CountWhere(items[..|items| - 1], OfType(ext)) + (if OfType(ext)(x) then 1 else 0) &&
            SizeSum(Filter(items, OfType(ext))) == SizeSum(f) + (if OfType(ext)(x) then x.size else 0)
  {
    var x := items[|items| - 1];
    var f := Filter(items[..|items| - 1], OfType(ext));
    if OfType(ext)(x) {
      assert Filter(items, OfType(ext)) == f + [x];
      assert (f + [x])[..|f|] == f;
    }
  }

  /** The counters of an extension are the number and the total size of the regular files that have it. */
  lemma {:induction false} ScanTypeStats(items: seq<Item>, ext: string)
    requires ext in ScanOf(items).fileTypes.m
    ensures ScanOf(items).fileTypes.m[ext] == TypeStat(CountWhere(items, OfType(ext)), SizeSum(Filter(items, OfType(ext))))
    decreases |items|
  {
    var init := items[..|items| - 1];
    var x := items[|items| - 1];
    var before := ScanOf(init).fileTypes;
    var now := ScanOf(items).fileTypes;
    var count := CountWhere(init, OfType(ext));
    var size := SizeSum(Filter(init, OfType(ext)));
    var hit := OfType(ext)(x);
    assert hit == (x.isFile && ExtOf(x) == ext);
    ScanStep(items);
    OfTypeStep(items, ext);
    ScanTypeKeys(init, ext);
    if ext in before.m {
      ScanTypeStats(init, ext);
    } else {
      assert Filter(init, OfType(ext)) == [];
    }
    var prev := if ext in before.m then before.m[ext] else TypeStat(0, 0);
    assert prev.count == count && prev.size == size;
    if hit {
      assert now == AddType(before, ext, x.size);
      TypeStatEta(now.m[ext], count + 1, size + x.size);
    } else if x.isFile {
      assert now == AddType(before, ExtOf(x), x.size);
      assert now.m[ext] == before.m[ext];
    } else {
      assert now == before;
    }
  }

  lemma TypeStatEta(t: TypeStat, count: nat, size: nat)
    requires t.count == count && t.size == size
    ensures t == TypeStat(count, size)
  {
  }

  /** Creating a zero entry for a new extension and then incrementing it is `AddType`. */
  lemma CreateThenIncrement(d: Dict<string, TypeStat>, ext: string, size: nat)
    requires WellFormed(d)
    ensures var d1 := if ext !in d.m then Put(d, ext, TypeStat(0, 0)) else d;
            Put(d1, ext, TypeStat(d1.m[ext].count + 1, d1.m[ext].size + size)) == AddType(d, ext, size)
  {
    var a := AddType(d, ext, size);
    if ext !in d.m {
      var d1 := Put(d, ext, TypeStat(0, 0));
      assert d1.m[ext] == TypeStat(0, 0);
      var r := Put(d1, ext, TypeStat(1, size));
      assert r.order == d.order + [ext] == a.order;
      assert r.m == d.m[ext := TypeStat(1, size)] == a.m;
    }
  }

  /** The loop body's update of the breakdown: a zero entry for a new extension, then both counters incremented. */
  method CountType(fileTypes: Dict<string, TypeStat>, ext: string, size: nat) returns (r: Dict<string, TypeStat>)
    requires WellFormed(fileTypes)
    ensures r == AddType(fileTypes, ext, size)
  {
    CreateThenIncrement(fileTypes, ext, size);
    r := fileTypes;
    if ext !in r.m {
      r := Put(r, ext, TypeStat(0, 0));
    }
    var t := r.m[ext];
    r := Put(r, ext, TypeStat(t.count + 1, t.size + size));
  }

  /** `_scan_directory`'s loop over the walk. */
  method ScanDirectory(items: seq<Item>) returns (scan: DirScan)
    ensures scan == ScanOf(items)
  {
    var totalFiles: nat := 0;
    var totalSize: nat := 0;
    var fileTypes: Dict<string, TypeStat> := EmptyDict();
    var i := 0;
    while i < |items|
      invariant 0 <= i <= |items|
      invariant totalFiles == ScanOf(items[..i]).totalFiles
      invariant totalSize == ScanOf(items[..i]).totalSizeBytes
      invariant fileTypes == ScanOf(items[..i]).fileTypes
    {
      var x := items[i];
      ghost var s := ScanOf(items[..i]);
      ghost var next := ScanOf(items[..i + 1]);
      assert next.totalFiles == s.totalFiles + (if x.isFile then 1 else 0) &&
             next.totalSizeBytes == s.totalSizeBytes + (if x.isFile then x.size else 0) &&
             next.fileTypes == if x.isFile then AddType(s.fileTypes, ExtOf(x), x.size) else s.fileTypes by {
        ScanStep(items[..i + 1]);
        assert items[..i + 1][..i] == items[..i];
        assert items[..i + 1][i] == x;
      }
      if x.isFile {
        totalFiles := totalFiles + 1;
        totalSize := totalSize + x.size;
        fileTypes := CountType(fileTypes, ExtOf(x), x.size);
      }
      i := i + 1;
    }
    assert items[..i] == items;
    DirScanEta(ScanOf(items), totalFiles, totalSize, fileTypes);
    scan := DirScan(totalFiles, totalSize, fileTypes);
  }

  lemma DirScanEta(s: DirScan, totalFiles: nat, totalSize: nat, fileTypes: Dict<string, TypeStat>)
    requires s.totalFiles == totalFiles && s.totalSizeBytes == totalSize && s.fileTypes == fileTypes
    ensures s == DirScan(totalFiles, totalSize, fileTypes)
  {
  }

  // ---------------------------------------------------------------------
  // File listing

  /** Files at or above this many bytes get no md5 hash. */
  const HashLimit: nat := 10 * 1024 * 1024

  /** One listed file; the modification time is not modelled. */
  datatype FileInfo = FileInfo(path: string, fullPath: string, sizeBytes: nat, extension: string, md5Hash: Option<string>)

  /** The listing record of one regular file found under `dir`. */
  function InfoOf(dir: string, x: Item, md5: string -> Option<string>): (r: FileInfo)
    ensures r.path == x.rel && r.fullPath == PathJoin(dir, x.rel) && r.sizeBytes == x.size
    ensures r.extension == ExtOf(x)
    ensures r.md5Hash.Some? <==> x.size < HashLimit && md5(r.fullPath).Some?
    ensures r.md5Hash.Some? ==> r.md5Hash == md5(r.fullPath)
  {
    var full := PathJoin(dir, x.rel);
    var hash := if x.size < HashLimit then md5(full) else None;
    FileInfo(x.rel, full, x.size, ExtOf(x), hash)
  }

  function InfoWith(dir: string, md5: string -> Option<string>): Item -> FileInfo {
    (x: Item) => InfoOf(dir, x, md5)
  }

  /** The listing: one record per regular file, in walk order. */
  function Listing(dir: string, items: seq<Item>, md5: string -> Option<string>): seq<FileInfo> {
    MapSeq(Filter(items, IsFile), InfoWith(dir, md5))
  }

  /** `_get_file_listing`'s loop over the walk. */
  method GetFileListing(dir: string, items: seq<Item>, md5: string -> Option<string>) returns (files: seq<FileInfo>)
    ensures files == Listing(dir, items, md5)
    ensures |files| == CountWhere(items, IsFile)
    ensures forall k :: 0 <= k < |files| ==> files[k].md5Hash.Some? ==> files[k].sizeBytes < HashLimit
  {
    files := [];
    var i := 0;
    while i < |items|
      invariant 0 <= i <= |items|
      invariant files == Listing(dir, items[..i], md5)
    {
      var x := items[i];
      assert items[..i + 1] == items[..i] + [x];
      assert Filter(items[..i + 1], IsFile) == Filter(items[..i], IsFile) + (if x.isFile then [x] else []) by {
        FilterSnoc(items[..i + 1]);
        assert items[..i + 1][..i] == items[..i];
      }
      if x.isFile {
        var full := PathJoin(dir, x.rel);
        var hash: Option<string> := None;
        if x.size < HashLimit {
          hash := md5(full);
        }
        MapSeqSnoc(Filter(items[..i], IsFile), x, InfoWith(dir, md5));
        files := files + [FileInfo(x.rel, full, x.size, ExtOf(x), hash)];
      } else {
        assert Filter(items[..i], IsFile) + [] == Filter(items[..i], IsFile);
      }
      i := i + 1;
    }
    assert items[..i] == items;
  }

  // ---------------------------------------------------------------------
  // Source inventory

  /** A configured source: its inventory name and its directory below the workspace. */
  datatype Source = Source(name: string, dir: string)

  /** The exporter's source table, in configuration order. */
  const DefaultSources: seq<Source> := [
    Source("phygitals_dynamic", "phygitals_dynamic_pokemon"),
    Source("phygitals_complete", "phygitals_pokemon_complete"),
    Source("pokeapi_sprites", "pokemon_sprites"),
    Source("scraped_site", "scraped_pokemon_site")
  ]

  /** The source table is a dict: no name occurs twice. */
  predicate DistinctNames(sources: seq<Source>) {
    forall a, b :: 0 <= a < b < |sources| ==> sources[a].name != sources[b].name
  }

  lemma DefaultSourcesDistinct()
    ensures DistinctNames(DefaultSources)
  {
    assert |DefaultSources[0].name| == 17 && |DefaultSources[1].name| == 18;
    assert |DefaultSources[2].name| == 15 && |DefaultSources[3].name| == 12;
  }

  function NameOf(src: Source): string { src.name }

  /** The names of the sources, in order. */
  function Names(sources: seq<Source>): seq<string> {
    MapSeq(sources, NameOf)
  }

  function SourcePath(root: string, src: Source): string {
    PathJoin(root, src.dir)
  }

  /** An inventory entry: a missing directory, or the scan of an existing one. */
  datatype SourceInfo = NotFound | Found(path: string, scan: DirScan)

  /** The inventory entry of one source. */
  function SourceInfoOf(root: string, src: Source, walk: string -> Option<seq<Item>>): (r: SourceInfo)
    ensures r.NotFound? <==> walk(SourcePath(root, src)).None?
    ensures r.Found? ==> r.path == SourcePath(root, src) && r.scan == ScanOf(walk(SourcePath(root, src)).value)
  {
    match walk(SourcePath(root, src))
    case None => NotFound
    case Some(items) => Found(SourcePath(root, src), ScanOf(items))
  }

  /** The inventory of a source table, entry by entry. */
  function InventoryOf(root: string, sources: seq<Source>, walk: string -> Option<seq<Item>>): (r: Dict<string, SourceInfo>)
    ensures WellFormed(r)
    decreases |sources|
  {
    if |sources| == 0 then EmptyDict()
    else
      var src := sources[|sources| - 1];
      Put(InventoryOf(root, sources[..|sources| - 1], walk), src.name, SourceInfoOf(root, src, walk))
  }

  /** A name is a key of the inventory exactly when it is configured. */
  lemma {:induction false} InventoryKeys(root: string, sources: seq<Source>, walk: string -> Option<seq<Item>>, name: string)
    ensures name in InventoryOf(root, sources, walk).m <==> Lookup(sources, name).Some?
    decreases |sources|
  {
    if |sources| > 0 {
      InventoryKeys(root, sources[..|sources| - 1], walk, name);
    }
  }

  /** The last source is not yet in the inventory of the sources before it. */
  lemma NewSource(root: string, sources: seq<Source>, walk: string -> Option<seq<Item>>)
    requires |sources| > 0 && DistinctNames(sources)
    ensures sources[|sources| - 1].name !in InventoryOf(root, sources[..|sources| - 1], walk).m
    ensures DistinctNames(sources[..|sources| - 1])
  {
    var init := sources[..|sources| - 1];
    InventoryKeys(root, init, walk, sources[|sources| - 1].name);
    assert Lookup(init, sources[|sources| - 1].name).None?;
  }

  /** The names of a non-empty table: those before the last source, then its name. */
  lemma NamesSnoc(sources: seq<Source>)
    requires |sources| > 0
    ensures Names(sources) == Names(sources[..|sources| - 1]) + [sources[|sources| - 1].name]
  {
    MapSeqSnoc(sources[..|sources| - 1], sources[|sources| - 1], NameOf);
    assert sources == sources[..|sources| - 1] + [sources[|sources| - 1]];
  }

  /** Every configured source appears once, in configuration order. */
  lemma {:induction false} InventoryOrder(root: string, sources: seq<Source>, walk: string -> Option<seq<Item>>)
    requires DistinctNames(sources)
    ensures InventoryOf(root, sources, walk).order == Names(sources)
    decreases |sources|
  {
    if |sources| > 0 {
      var init := sources[..|sources| - 1];
      var src := sources[|sources| - 1];
      NewSource(root, sources, walk);
      InventoryOrder(root, init, walk);
      var before := InventoryOf(root, init, walk);
      assert InventoryOf(root, sources, walk) == Put(before, src.name, SourceInfoOf(root, src, walk));
      NamesSnoc(sources);
    }
  }

  /** Each configured name's entry is its source's own: NotFound when the directory is missing, else its scan. */
  lemma {:induction false} InventoryEntry(root: string, sources: seq<Source>, walk: string -> Option<seq<Item>>, name: string)
    requires DistinctNames(sources) && Lookup(sources, name).Some?
    ensures name in InventoryOf(root, sources, walk).m
    ensures InventoryOf(root, sources, walk).m[name] == SourceInfoOf(root, sources[Lookup(sources, name).value], walk)
    decreases |sources|
  {
    var init := sources[..|sources| - 1];
    var src := sources[|sources| - 1];
    if src.name != name {
      assert DistinctNames(init);
      InventoryEntry(root, init, walk, name);
    }
  }

  /** `scan_data_sources`' loop over the source table. */
  method ScanDataSources(root: string, sources: seq<Source>, walk: string -> Option<seq<Item>>) returns (inventory: Dict<string, SourceInfo>)
    ensures inventory == InventoryOf(root, sources, walk)
  {
    inventory := EmptyDict();
    var i := 0;
    while i < |sources|
      invariant 0 <= i <= |sources|
      invariant inventory == InventoryOf(root, sources[..i], walk)
    {
      assert sources[..i + 1][..i] == sources[..i];
      var src := sources[i];
      var path := SourcePath(root, src);
      var info: SourceInfo;
      var listing := walk(path);
      if listing.Some? {
        var scan := ScanDirectory(listing.value);
        info := Found(path, scan);
      } else {
        info := NotFound;
      }
      inventory := Put(inventory, src.name, info);
      i := i + 1;
    }
    assert sources[..i] == sources;
  }

  // ---------------------------------------------------------------------
  // JSON metadata export

  /** A source as the JSON export writes it: the exists flag, and the file listing for an existing source only. */
  datatype ExportedSource = ExportedSource(present: bool, files: Option<seq<FileInfo>>)

  /** The exported entry of one source. */
  function ExportedSourceOf(root: string, src: Source, walk: string -> Option<seq<Item>>, md5: string -> Option<string>): (r: ExportedSource)
    ensures r.present <==> walk(SourcePath(root, src)).Some?
    ensures r.files.Some? <==> r.present
    ensures r.files.Some? ==> r.files.value == Listing(SourcePath(root, src), walk(SourcePath(root, src)).value, md5)
  {
    match walk(SourcePath(root, src))
    case None => ExportedSource(false, None)
    case Some(items) => ExportedSource(true, Some(Listing(SourcePath(root, src), items, md5)))
  }

  /** The `sources` part of the JSON export: the inventory with each existing source's listing added. */
  function ExportedSources(root: string, sources: seq<Source>, walk: string -> Option<seq<Item>>, md5: string -> Option<string>): (r: Dict<string, ExportedSource>)
    ensures WellFormed(r)
    decreases |sources|
  {
    if |sources| == 0 then EmptyDict()
    else
      var src := sources[|sources| - 1];
      Put(ExportedSources(root, sources[..|sources| - 1], walk, md5), src.name, ExportedSourceOf(root, src, walk, md5))
  }

  /** Each configured name's exported entry is its source's own. */
  lemma {:induction false} ExportedEntry(root: string, sources: seq<Source>, walk: string -> Option<seq<Item>>, md5: string -> Option<string>, name: string)
    requires DistinctNames(sources) && Lookup(sources, name).Some?
    ensures name in ExportedSources(root, sources, walk, md5).m
    ensures ExportedSources(root, sources, walk, md5).m[name] == ExportedSourceOf(root, sources[Lookup(sources, name).value], walk, md5)
    decreases |sources|
  {
    var init := sources[..|sources| - 1];
    var src := sources[|sources| - 1];
    if src.name != name {
      assert DistinctNames(init);
      ExportedEntry(root, init, walk, md5, name);
    }
  }

  // ---------------------------------------------------------------------
  // Summary totals

  /** The total files over the inventory entries whose exists flag is set. */
  function FoundFiles(infos: seq<SourceInfo>): nat
    decreases |infos|
  {
    if |infos| == 0 then 0
    else FoundFiles(infos[..|infos| - 1]) + (if infos[|infos| - 1].Found? then infos[|infos| - 1].scan.totalFiles else 0)
  }

  /** The total bytes over the inventory entries whose exists flag is set. */
  function FoundBytes(infos: seq<SourceInfo>): nat
    decreases |infos|
  {
    if |infos| == 0 then 0
    else FoundBytes(infos[..|infos| - 1]) + (if infos[|infos| - 1].Found? then infos[|infos| - 1].scan.totalSizeBytes else 0)
  }

  /** The regular files, and their bytes, in the source directories that exist. */
  function ExistingFiles(root: string, sources: seq<Source>, walk: string -> Option<seq<Item>>): (r: (nat, nat))
    decreases |sources|
  {
    if |sources| == 0 then (0, 0)
    else
      var prev := ExistingFiles(root, sources[..|sources| - 1], walk);
      match walk(SourcePath(root, sources[|sources| - 1]))
      case None => prev
      case Some(items) => (prev.0 + CountWhere(items, IsFile), prev.1 + SizeSum(Filter(items, IsFile)))
  }

  /** The summary totals count each file of each existing source once, and a missing source contributes nothing. */
  lemma {:induction false} SummaryTotals(root: string, sources: seq<Source>, walk: string -> Option<seq<Item>>)
    requires DistinctNames(sources)
    ensures FoundFiles(Values(InventoryOf(root, sources, walk))) == ExistingFiles(root, sources, walk).0
    ensures FoundBytes(Values(InventoryOf(root, sources, walk))) == ExistingFiles(root, sources, walk).1
    decreases |sources|
  {
    if |sources| > 0 {
      var init := sources[..|sources| - 1];
      var src := sources[|sources| - 1];
      NewSource(root, sources, walk);
      SummaryTotals(root, init, walk);
      var prev := InventoryOf(root, init, walk);
      var info := SourceInfoOf(root, src, walk);
      var _ := ValuesPut(prev, src.name, info);
      assert Values(InventoryOf(root, sources, walk)) == Values(prev) + [info];
      FoundSnoc(Values(prev), info);
      match walk(SourcePath(root, src))
      case None =>
      case Some(items) =>
        ScanCountsFiles(items);
    }
  }

  /** One more inventory entry adds its files and bytes when its exists flag is set. */
  lemma FoundSnoc(infos: seq<SourceInfo>, info: SourceInfo)
    ensures FoundFiles(infos + [info]) == FoundFiles(infos) + (if info.Found? then info.scan.totalFiles else 0)
    ensures FoundBytes(infos + [info]) == FoundBytes(infos) + (if info.Found? then info.scan.totalSizeBytes else 0)
  {
    assert (infos + [info])[..|infos|] == infos;
  }

  // ---------------------------------------------------------------------
  // Export README and ZIP archive

  /** `sources[name]`: the position of the first source with that name, None for an unconfigured name. */
  function Lookup(sources: seq<Source>, name: string): (r: Option<nat>)
    ensures r.Some? ==> r.value < |sources| && sources[r.value].name == name
    ensures r.None? ==> forall j :: 0 <= j < |sources| ==> sources[j].name != name
    decreases |sources|
  {
    if |sources| == 0 then None
    else
      var found := Lookup(sources[..|sources| - 1], name);
      if found.Some? then found
      else if sources[|sources| - 1].name == name then Some(|sources| - 1)
      else None
  }

  /** In a table without repeated names, looking up the name at position `j` finds position `j`. */
  lemma LookupDistinct(sources: seq<Source>, j: nat)
    requires DistinctNames(sources) && j < |sources|
    ensures Lookup(sources, sources[j].name) == Some(j)
  {
  }

  /** The "Included Data Sources" line of one source; None (a KeyError) for an unconfigured name. */
  function SourceLine(root: string, sources: seq<Source>, name: string): (r: Option<string>)
    ensures r.Some? <==> Lookup(sources, name).Some?
    ensures r.Some? ==> StartsWith(r.value, "- **" + name + "**: ")
  {
    match Lookup(sources, name)
    case None => None
    case Some(i) =>
      var head := "- **" + name + "**: ";
      assert (head + SourcePath(root, sources[i]))[..|head|] == head;
      Some(head + SourcePath(root, sources[i]))
  }

  /** The lines for the included sources, in the order given; None when one is not configured. */
  function IncludedSourceLines(root: string, sources: seq<Source>, included: seq<string>): (r: Option<seq<string>>)
    decreases |included|
  {
    if |included| == 0 then Some([])
    else
      match (IncludedSourceLines(root, sources, included[..|included| - 1]), SourceLine(root, sources, included[|included| - 1]))
      case (Some(lines), Some(line)) => Some(lines + [line])
      case _ => None
  }

  /** The README lists every included source, one line each, and fails exactly on an unconfigured name. */
  lemma {:induction false} IncludedSourceLinesSpec(root: string, sources: seq<Source>, included: seq<string>)
    ensures IncludedSourceLines(root, sources, included).Some? <==>
              forall k :: 0 <= k < |included| ==> Lookup(sources, included[k]).Some?
    ensures IncludedSourceLines(root, sources, included).Some? ==>
              |IncludedSourceLines(root, sources, included).value| == |included| &&
              forall k :: 0 <= k < |included| ==> StartsWith(IncludedSourceLines(root, sources, included).value[k], "- **" + included[k] + "**: ")
    decreases |included|
  {
    if |included| > 0 {
      var init := included[..|included| - 1];
      IncludedSourceLinesSpec(root, sources, init);
      var r := IncludedSourceLines(root, sources, included);
      if r.Some? {
        var lines := IncludedSourceLines(root, sources, init).value;
        assert r.value == lines + [SourceLine(root, sources, included[|included| - 1]).value];
        assert forall k :: 0 <= k < |init| ==> r.value[k] == lines[k] && included[k] == init[k];
      }
    }
  }

  /** The archive names `_add_directory_to_zip` gives the regular files of a walk. */
  function ZipPaths(prefix: string, items: seq<Item>): (r: seq<string>)
    ensures |r| == CountWhere(items, IsFile)
    decreases |items|
  {
    if |items| == 0 then []
    else
      var x := items[|items| - 1];
      ZipPaths(prefix, items[..|items| - 1]) + (if x.isFile then [prefix + "/" + x.rel] else [])
  }

  /** The archive name of a file of the source `prefix`. */
  function ZipName(prefix: string): Item -> string {
    (x: Item) => prefix + "/" + x.rel
  }

  /** The archive names are the source name, a '/' and the relative path of each regular file, in walk order. */
  lemma {:induction false} ZipPathsSpec(prefix: string, items: seq<Item>)
    ensures ZipPaths(prefix, items) == MapSeq(Filter(items, IsFile), ZipName(prefix))
    decreases |items|
  {
    if |items| > 0 {
      var init := items[..|items| - 1];
      var x := items[|items| - 1];
      ZipPathsSpec(prefix, init);
      FilterSnoc(items);
      if x.isFile {
        MapSeqSnoc(Filter(init, IsFile), x, ZipName(prefix));
      }
    }
  }

  /** `_add_directory_to_zip`'s loop: the names written, in walk order. */
  method AddDirectoryToZip(prefix: string, items: seq<Item>) returns (written: seq<string>)
    ensures written == ZipPaths(prefix, items)
  {
    written := [];
    var i := 0;
    while i < |items|
      invariant 0 <= i <= |items|
      invariant written == ZipPaths(prefix, items[..i])
    {
      assert items[..i + 1][..i] == items[..i];
      if items[i].isFile {
        written := written + [prefix + "/" + items[i].rel];
      }
      i := i + 1;
    }
    assert items[..i] == items;
  }

  /** The archive names added for the included sources; an unconfigured or missing source adds none. */
  function SourceZipPaths(root: string, sources: seq<Source>, included: seq<string>, walk: string -> Option<seq<Item>>): seq<string>
    decreases |included|
  {
    if |included| == 0 then []
    else
      var name := included[|included| - 1];
      var more :=
        match Lookup(sources, name)
        case None => []
        case Some(i) => (match walk(SourcePath(root, sources[i])) case None => [] case Some(items) => ZipPaths(name, items));
      SourceZipPaths(root, sources, included[..|included| - 1], walk) + more
  }

  /**
   * `export_zip_archive`'s entry names: the metadata and README first, then
   * each included source's files; None when the README cannot be written
   * because an included name is not configured.
   */
  function ZipEntries(root: string, sources: seq<Source>, included: seq<string>, walk: string -> Option<seq<Item>>): (r: Option<seq<string>>)
    ensures r.Some? <==> forall k :: 0 <= k < |included| ==> Lookup(sources, included[k]).Some?
    ensures r.Some? ==> |r.value| >= 2 && r.value[0] == "_metadata.json" && r.value[1] == "README.md"
  {
    IncludedSourceLinesSpec(root, sources, included);
    if IncludedSourceLines(root, sources, included).None? then None
    else Some(["_metadata.json", "README.md"] + SourceZipPaths(root, sources, included, walk))
  }

  /**
   * With every source included (the default), the archive holds one entry
   * per regular file of each existing source: as many as the summary total.
   */
  lemma {:induction false} ArchiveMatchesSummary(root: string, sources: seq<Source>, walk: string -> Option<seq<Item>>, n: nat)
    requires DistinctNames(sources) && n <= |sources|
    ensures |SourceZipPaths(root, sources, Names(sources)[..n], walk)| == ExistingFiles(root, sources[..n], walk).0
    decreases n
  {
    if n > 0 {
      ArchiveMatchesSummary(root, sources, walk, n - 1);
      assert Names(sources)[..n][..n - 1] == Names(sources)[..n - 1];
      assert sources[..n][..n - 1] == sources[..n - 1];
      LookupDistinct(sources, n - 1);
    }
  }
}
