/*
 * The PokeAPI sprite downloader (pokemon_sprite_downloader.py): for each
 * Pokémon it fetches, it downloads every sprite and artwork image whose URL
 * is present into a fixed directory layout named after the zero-padded id
 * and the name, optionally saves the Pokémon and species data, and keeps a
 * count of downloads and a list of failed URLs.
 *
 * The network is a parameter: `api(key)` is the Pokémon data for a name or
 * id (or nothing when the request fails), `species(key)` says whether the
 * species data came back, and `fetch(url)` whether an image download
 * succeeds.
 */
module SpriteDownloader {
  import opened PyText
  import opened Collections

  const BaseUrl: string := "https://pokeapi.co/api/v2"

  /** The directories created under the output directory. */
  const Directories: seq<string> := [
    "sprites/front_default", "sprites/front_shiny", "sprites/back_default", "sprites/back_shiny",
    "sprites/front_female", "sprites/front_shiny_female", "sprites/back_female", "sprites/back_shiny_female",
    "artwork/official", "artwork/dream_world", "artwork/home", "data/pokemon", "data/species"]

  /** The basic sprite keys, in the order the sprite table lists them. */
  const SpriteKeys: seq<string> := [
    "front_default", "front_shiny", "back_default", "back_shiny",
    "front_female", "front_shiny_female", "back_female", "back_shiny_female"]

  // ---------------------------------------------------------------------
  // Names and paths

  /** Python's `str` of an integer. */
  function IntToString(n: int): (r: string)
    ensures n >= 0 ==> r == NatToString(n)
    ensures n < 0 ==> |r| > 0 && r[0] == '-'
  {
    if n < 0 then "-" + NatToString(-n) else NatToString(n)
  }

  /** The `{id:03d}_{name}` stem of every file of a Pokémon. */
  function FileStem(id: nat, name: string): (r: string)
    ensures |r| >= 4 + |name|
    ensures r[|r| - |name|..] == name && r[|r| - |name| - 1] == '_'
    ensures IsDigits(r[..|r| - |name| - 1]) && DigitsValue(r[..|r| - |name| - 1]) == id
  {
    var p := ZeroPad(id, 3);
    var r := p + "_" + name;
    assert r[..|r| - |name| - 1] == p;
    assert r[|r| - |name|..] == name;
    r
  }

  /** A directory path and a file name under it. */
  function Under(dir: string, name: string): string {
    dir + "/" + name
  }

  /** A download: the URL and the full path it is saved to. */
  datatype Request = Request(url: string, path: string)

  /** What PokeAPI returns for a Pokémon: its name, id, basic sprite URLs and the `other` artwork sections. */
  datatype PokemonData = PokemonData(name: string, id: nat, sprites: map<string, string>, other: map<string, map<string, string>>)

  /** A URL looked up in a section: absent and empty both count as no URL. */
  function Url(m: map<string, string>, k: string): string {
    if k in m then m[k] else ""
  }

  function Section(other: map<string, map<string, string>>, k: string): map<string, string> {
    if k in other then other[k] else map[]
  }

  /** An image the downloader may fetch: the section and key of its URL, and the folder and file it is saved as. */
  datatype Slot = Slot(urls: map<string, string>, key: string, folder: string, file: string)

  /** The eight basic sprites, in the order of the sprite table. */
  function BasicSlots(d: PokemonData): (r: seq<Slot>)
    ensures |r| == |SpriteKeys|
    ensures forall i :: 0 <= i < |r| ==> r[i] == Slot(d.sprites, SpriteKeys[i], "sprites/" + SpriteKeys[i], FileStem(d.id, d.name) + ".png")
  {
    var stem := FileStem(d.id, d.name);
    seq(|SpriteKeys|, i requires 0 <= i < |SpriteKeys| => Slot(d.sprites, SpriteKeys[i], "sprites/" + SpriteKeys[i], stem + ".png"))
  }

  /** The official, Dream World and Home artwork, in that order. */
  function ArtworkSlots(d: PokemonData): seq<Slot> {
    var stem := FileStem(d.id, d.name);
    var official := Section(d.other, "official-artwork");
    var dream := Section(d.other, "dream_world");
    var home := Section(d.other, "home");
    [Slot(official, "front_default", "artwork/official", stem + ".png"),
     Slot(official, "front_shiny", "artwork/official", stem + "_shiny.png"),
     Slot(dream, "front_default", "artwork/dream_world", stem + ".svg"),
     Slot(dream, "front_female", "artwork/dream_world", stem + "_female.svg"),
     Slot(home, "front_default", "artwork/home", stem + ".png"),
     Slot(home, "front_shiny", "artwork/home", stem + "_shiny.png")]
  }

  /** A slot's download, made only when its section has a URL for its key. */
  function SlotRequest(dir: string, s: Slot): (r: seq<Request>)
    ensures |r| <= 1
    ensures r == [] <==> Url(s.urls, s.key) == ""
  {
    if Url(s.urls, s.key) != "" then [Request(Url(s.urls, s.key), Under(Under(dir, s.folder), s.file))] else []
  }

  function SlotRequests(dir: string, slots: seq<Slot>): seq<Request>
    decreases |slots|
  {
    if |slots| == 0 then [] else SlotRequests(dir, slots[..|slots| - 1]) + SlotRequest(dir, slots[|slots| - 1])
  }

  /** Every download `download_pokemon_sprites` attempts, in order. */
  function SpriteRequests(dir: string, d: PokemonData): seq<Request> {
    SlotRequests(dir, BasicSlots(d) + ArtworkSlots(d))
  }

  predicate Truthy(r: Request) {
    r.url != ""
  }

  /**
   * A slot is downloaded exactly when its section has a URL for its key,
   * and then from that URL to its folder and file; nothing else is
   * downloaded, and no download is made without a URL.
   */
  lemma {:induction false} SlotRequestsSpec(dir: string, slots: seq<Slot>)
    ensures forall i :: 0 <= i < |slots| && Url(slots[i].urls, slots[i].key) != "" ==>
      Request(Url(slots[i].urls, slots[i].key), Under(Under(dir, slots[i].folder), slots[i].file)) in SlotRequests(dir, slots)
    ensures forall r :: r in SlotRequests(dir, slots) ==>
      exists i :: 0 <= i < |slots| && Url(slots[i].urls, slots[i].key) != "" &&
        r == Request(Url(slots[i].urls, slots[i].key), Under(Under(dir, slots[i].folder), slots[i].file))
    ensures forall r :: r in SlotRequests(dir, slots) ==> Truthy(r)
    ensures |SlotRequests(dir, slots)| <= |slots|
    decreases |slots|
  {
    if |slots| > 0 {
      var init := slots[..|slots| - 1];
      SlotRequestsSpec(dir, init);
      assert forall i :: 0 <= i < |init| ==> slots[i] == init[i];
    }
  }

  /** At most fourteen downloads per Pokémon, each with a URL. */
  lemma SpriteRequestsTruthy(dir: string, d: PokemonData)
    ensures forall r :: r in SpriteRequests(dir, d) ==> Truthy(r)
    ensures |SpriteRequests(dir, d)| <= 14
  {
    SlotRequestsSpec(dir, BasicSlots(d) + ArtworkSlots(d));
  }

  /** The first eight directories are the basic sprites' folders, in key order. */
  lemma SpriteFolderNames()
    ensures forall i :: 0 <= i < |SpriteKeys| ==> Directories[i] == "sprites/" + SpriteKeys[i]
  {
    assert Directories[0] == "sprites/" + SpriteKeys[0];
    assert Directories[1] == "sprites/" + SpriteKeys[1];
    assert Directories[2] == "sprites/" + SpriteKeys[2];
    assert Directories[3] == "sprites/" + SpriteKeys[3];
    assert Directories[4] == "sprites/" + SpriteKeys[4];
    assert Directories[5] == "sprites/" + SpriteKeys[5];
    assert Directories[6] == "sprites/" + SpriteKeys[6];
    assert Directories[7] == "sprites/" + SpriteKeys[7];
  }

  /** Every slot's folder is one of the directories created at start-up. */
  lemma SlotFolders(d: PokemonData)
    ensures forall s :: s in BasicSlots(d) + ArtworkSlots(d) ==> s.folder in Directories
  {
    var basic := BasicSlots(d);
    var art := ArtworkSlots(d);
    forall s: Slot | s in basic + art
      ensures s.folder in Directories
    {
      if s in basic {
        var i :| 0 <= i < |basic| && basic[i] == s;
        SpriteFolderNames();
        assert s.folder == Directories[i];
      } else {
        assert s in art;
        assert s.folder == Directories[8] || s.folder == Directories[9] || s.folder == Directories[10];
      }
    }
  }

  /** Every image is saved directly inside one of the directories created at start-up. */
  lemma SpritePathsInDirectories(dir: string, d: PokemonData)
    ensures forall r :: r in SpriteRequests(dir, d) ==>
      exists folder, file :: folder in Directories && r.path == Under(Under(dir, folder), file)
  {
    SlotRequestsSpec(dir, BasicSlots(d) + ArtworkSlots(d));
    SlotFolders(d);
  }

  /** The data files `save_pokemon_data` writes: the Pokémon's, and the species' when that came back. */
  function SavedFiles(dir: string, d: PokemonData, hasSpecies: bool): (r: set<string>)
    ensures Under(dir, "data/pokemon/" + FileStem(d.id, d.name) + ".json") in r
    ensures |r| <= 2
  {
    var stem := FileStem(d.id, d.name);
    {Under(dir, "data/pokemon/" + stem + ".json")} + (if hasSpecies then {Under(dir, "data/species/" + stem + "_species.json")} else {})
  }

  // ---------------------------------------------------------------------
  // Download bookkeeping

  /** The downloader's counters and the files it has written. */
  datatype DlState = DlState(downloadedCount: nat, failedDownloads: seq<string>, files: set<string>)

  /** `download_image`: no URL changes nothing; a success counts and writes the file; a failure records the URL. */
  function Download(st: DlState, r: Request, fetch: string -> bool): DlState {
    if r.url == "" then st
    else if fetch(r.url) then DlState(st.downloadedCount + 1, st.failedDownloads, st.files + {r.path})
    else DlState(st.downloadedCount, st.failedDownloads + [r.url], st.files)
  }

  function RunDownloads(st: DlState, rs: seq<Request>, fetch: string -> bool): DlState
    decreases |rs|
  {
    if |rs| == 0 then st else Download(RunDownloads(st, rs[..|rs| - 1], fetch), rs[|rs| - 1], fetch)
  }

  lemma {:induction false} RunDownloadsConcat(st: DlState, a: seq<Request>, b: seq<Request>, fetch: string -> bool)
    ensures RunDownloads(st, a + b, fetch) == RunDownloads(RunDownloads(st, a, fetch), b, fetch)
    decreases |b|
  {
    if |b| == 0 {
      assert a + b == a;
    } else {
      assert (a + b)[..|a + b| - 1] == a + b[..|b| - 1];
      RunDownloadsConcat(st, a, b[..|b| - 1], fetch);
    }
  }

  lemma {:induction false} SlotRequestsConcat(dir: string, a: seq<Slot>, b: seq<Slot>)
    ensures SlotRequests(dir, a + b) == SlotRequests(dir, a) + SlotRequests(dir, b)
    decreases |b|
  {
    if |b| == 0 {
      assert a + b == a;
    } else {
      assert (a + b)[..|a + b| - 1] == a + b[..|b| - 1];
      SlotRequestsConcat(dir, a, b[..|b| - 1]);
    }
  }

  /** Every call with a URL either counts a download or records a failure, never both. */
  lemma {:induction false} RunDownloadsAccount(st: DlState, rs: seq<Request>, fetch: string -> bool)
    ensures var r := RunDownloads(st, rs, fetch);
      r.downloadedCount + |r.failedDownloads| == st.downloadedCount + |st.failedDownloads| + CountWhere(rs, Truthy)
    decreases |rs|
  {
    if |rs| > 0 {
      RunDownloadsAccount(st, rs[..|rs| - 1], fetch);
    }
  }

  function FailsFetch(fetch: string -> bool): Request -> bool {
    (r: Request) => r.url != "" && !fetch(r.url)
  }

  function UrlOf(r: Request): string {
    r.url
  }

  /** The failed URLs are those of the attempted downloads that fail, in order; the written files are the successful ones. */
  lemma {:induction false} RunDownloadsContents(st: DlState, rs: seq<Request>, fetch: string -> bool)
    ensures RunDownloads(st, rs, fetch).failedDownloads == st.failedDownloads + MapSeq(Filter(rs, FailsFetch(fetch)), UrlOf)
    ensures forall p :: p in RunDownloads(st, rs, fetch).files <==>
      p in st.files || exists r :: r in rs && r.url != "" && fetch(r.url) && r.path == p
    decreases |rs|
  {
    if |rs| > 0 {
      var init := rs[..|rs| - 1];
      var r := rs[|rs| - 1];
      RunDownloadsContents(st, init, fetch);
      var fs := Filter(init, FailsFetch(fetch));
      if FailsFetch(fetch)(r) {
        assert Filter(rs, FailsFetch(fetch)) == fs + [r];
        MapSeqSnoc(fs, r, UrlOf);
      }
      assert rs == init + [r];
    }
  }

  // ---------------------------------------------------------------------
  // Pokémon by Pokémon

  /** One Pokémon: skipped when its data does not come back; otherwise its images, then its data files when asked for. */
  function PokemonStep(st: DlState, dir: string, key: string, api: string -> Option<PokemonData>, species: string -> bool,
                       includeData: bool, fetch: string -> bool): DlState {
    match api(key)
    case None => st
    case Some(d) =>
      var s := RunDownloads(st, SpriteRequests(dir, d), fetch);
      if includeData then DlState(s.downloadedCount, s.failedDownloads, s.files + SavedFiles(dir, d, species(key))) else s
  }

  function RunPokemon(st: DlState, dir: string, keys: seq<string>, api: string -> Option<PokemonData>, species: string -> bool,
                      includeData: bool, fetch: string -> bool): DlState
    decreases |keys|
  {
    if |keys| == 0 then st
    else PokemonStep(RunPokemon(st, dir, keys[..|keys| - 1], api, species, includeData, fetch), dir, keys[|keys| - 1], api, species, includeData, fetch)
  }

  /** The downloads attempted for the Pokémon whose data came back. */
  function Attempts(dir: string, keys: seq<string>, api: string -> Option<PokemonData>): nat
    decreases |keys|
  {
    if |keys| == 0 then 0
    else
      var more := match api(keys[|keys| - 1]) case None => 0 case Some(d) => |SpriteRequests(dir, d)|;
      Attempts(dir, keys[..|keys| - 1], api) + more
  }

  /**
   * Over a run, the downloads plus the failures grow by exactly the number
   * of image downloads attempted, at most fourteen per Pokémon.
   */
  lemma {:induction false} RunPokemonAccount(st: DlState, dir: string, keys: seq<string>, api: string -> Option<PokemonData>,
                                             species: string -> bool, includeData: bool, fetch: string -> bool)
    ensures var r := RunPokemon(st, dir, keys, api, species, includeData, fetch);
      r.downloadedCount + |r.failedDownloads| == st.downloadedCount + |st.failedDownloads| + Attempts(dir, keys, api)
    ensures Attempts(dir, keys, api) <= 14 * |keys|
    decreases |keys|
  {
    if |keys| > 0 {
      var init := keys[..|keys| - 1];
      RunPokemonAccount(st, dir, init, api, species, includeData, fetch);
      match api(keys[|keys| - 1]) {
        case None =>
        case Some(d) =>
          var before := RunPokemon(st, dir, init, api, species, includeData, fetch);
          RunDownloadsAccount(before, SpriteRequests(dir, d), fetch);
          SpriteRequestsTruthy(dir, d);
          FilterAll(SpriteRequests(dir, d), Truthy);
      }
    }
  }

  /** The ids a range download visits. */
  function RangeIds(start: int, end: int): (r: seq<int>)
    decreases end - start
  {
    if end < start then [] else RangeIds(start, end - 1) + [end]
  }

  /** The ids `start` to `end`, ascending and each once: `end - start + 1` of them, or none when the range is empty. */
  lemma {:induction false} RangeIdsSpec(start: int, end: int)
    ensures |RangeIds(start, end)| == if end < start then 0 else end - start + 1
    ensures forall i :: 0 <= i < |RangeIds(start, end)| ==> RangeIds(start, end)[i] == start + i
    decreases end - start
  {
    if end >= start {
      RangeIdsSpec(start, end - 1);
    }
  }

  // ---------------------------------------------------------------------
  // The downloader

  class Downloader {
    const outputDir: string
    var downloadedCount: nat
    var failedDownloads: seq<string>
    var files: set<string>
    var directories: set<string>

    function State(): DlState
      reads this
    {
      DlState(downloadedCount, failedDownloads, files)
    }

    /** A new downloader has counted nothing and has created its directory layout. */
    constructor(output: string, existing: set<string>)
      ensures outputDir == output && State() == DlState(0, [], existing)
      ensures forall i :: 0 <= i < |Directories| ==> Under(output, Directories[i]) in directories
    {
      outputDir := output;
      downloadedCount := 0;
      failedDownloads := [];
      files := existing;
      directories := set i | 0 <= i < |Directories| :: Under(output, Directories[i]);
    }

    /** `download_image`: returns whether the image was saved. */
    method DownloadImage(url: string, filepath: string, fetch: string -> bool) returns (ok: bool)
      modifies this
      ensures ok <==> url != "" && fetch(url)
      ensures State() == Download(old(State()), Request(url, filepath), fetch)
      ensures directories == old(directories)
    {
      if url == "" {
        return false;
      }
      if fetch(url) {
        files := files + {filepath};
        downloadedCount := downloadedCount + 1;
        ok := true;
      } else {
        failedDownloads := failedDownloads + [url];
        ok := false;
      }
    }

    /** One image of the sprite table or the artwork, fetched only when its URL is present. */
    method DownloadSlot(slot: Slot, fetch: string -> bool)
      modifies this
      ensures State() == RunDownloads(old(State()), SlotRequest(outputDir, slot), fetch)
      ensures directories == old(directories)
    {
      var url := Url(slot.urls, slot.key);
      if url != "" {
        var _ := DownloadImage(url, Under(Under(outputDir, slot.folder), slot.file), fetch);
        assert [Request(url, Under(Under(outputDir, slot.folder), slot.file))][..0] == [];
      }
    }

    method DownloadSlots(slots: seq<Slot>, fetch: string -> bool)
      modifies this
      ensures State() == RunDownloads(old(State()), SlotRequests(outputDir, slots), fetch)
      ensures directories == old(directories)
    {
      ghost var s0 := State();
      var i := 0;
      while i < |slots|
        invariant i <= |slots|
        invariant State() == RunDownloads(s0, SlotRequests(outputDir, slots[..i]), fetch)
        invariant directories == old(directories)
      {
        assert slots[..i + 1][..i] == slots[..i];
        DownloadSlot(slots[i], fetch);
        RunDownloadsConcat(s0, SlotRequests(outputDir, slots[..i]), SlotRequest(outputDir, slots[i]), fetch);
        i := i + 1;
      }
      assert slots[..i] == slots;
    }

    /** `download_pokemon_sprites`: the basic sprites, then the artwork. */
    method DownloadPokemonSprites(d: PokemonData, fetch: string -> bool)
      modifies this
      ensures State() == RunDownloads(old(State()), SpriteRequests(outputDir, d), fetch)
      ensures directories == old(directories)
    {
      ghost var s0 := State();
      DownloadSlots(BasicSlots(d), fetch);
      DownloadSlots(ArtworkSlots(d), fetch);
      SlotRequestsConcat(outputDir, BasicSlots(d), ArtworkSlots(d));
      RunDownloadsConcat(s0, SlotRequests(outputDir, BasicSlots(d)), SlotRequests(outputDir, ArtworkSlots(d)), fetch);
    }

    /** `save_pokemon_data`: writes the data files and counts nothing. */
    method SavePokemonData(d: PokemonData, hasSpecies: bool)
      modifies this
      ensures files == old(files) + SavedFiles(outputDir, d, hasSpecies)
      ensures downloadedCount == old(downloadedCount) && failedDownloads == old(failedDownloads)
      ensures directories == old(directories)
    {
      var stem := FileStem(d.id, d.name);
      files := files + {Under(outputDir, "data/pokemon/" + stem + ".json")};
      if hasSpecies {
        files := files + {Under(outputDir, "data/species/" + stem + "_species.json")};
      }
    }

    /** The body of the download loops for one name or id. */
    method ProcessPokemon(key: string, api: string -> Option<PokemonData>, species: string -> bool, includeData: bool, fetch: string -> bool)
      modifies this
      ensures State() == PokemonStep(old(State()), outputDir, key, api, species, includeData, fetch)
      ensures directories == old(directories)
    {
      var data := api(key);
      if data.None? {
        return;
      }
      var d := data.value;
      DownloadPokemonSprites(d, fetch);
      if includeData {
        SavePokemonData(d, species(key));
      }
    }

    /** Runs the given names or ids in order. */
    method ProcessAll(keys: seq<string>, api: string -> Option<PokemonData>, species: string -> bool, includeData: bool, fetch: string -> bool)
      modifies this
      ensures State() == RunPokemon(old(State()), outputDir, keys, api, species, includeData, fetch)
      ensures directories == old(directories)
    {
      ghost var s0 := State();
      var i := 0;
      while i < |keys|
        invariant i <= |keys|
        invariant State() == RunPokemon(s0, outputDir, keys[..i], api, species, includeData, fetch)
        invariant directories == old(directories)
      {
        assert keys[..i + 1][..i] == keys[..i];
        ProcessPokemon(keys[i], api, species, includeData, fetch);
        i := i + 1;
      }
      assert keys[..i] == keys;
    }

    /**
     * `download_pokemon_range`: the ids `start` to `end` in ascending
     * order, each requested by its decimal form; the reported total is
     * `end - start + 1`.
     */
    method DownloadPokemonRange(start: int, end: int, includeData: bool, api: string -> Option<PokemonData>,
                                species: string -> bool, fetch: string -> bool) returns (totalPokemon: int)
      modifies this
      ensures totalPokemon == end - start + 1
      ensures State() == RunPokemon(old(State()), outputDir, MapSeq(RangeIds(start, end), IntToString), api, species, includeData, fetch)
      ensures directories == old(directories)
    {
      totalPokemon := end - start + 1;
      ghost var s0 := State();
      var ids: seq<string> := [];
      var id := start;
      while id < end + 1
        invariant start <= id && (id <= end + 1 || id == start)
        invariant ids == MapSeq(RangeIds(start, id - 1), IntToString)
        invariant State() == RunPokemon(s0, outputDir, ids, api, species, includeData, fetch)
        invariant directories == old(directories)
        decreases end + 1 - id
      {
        ProcessPokemon(IntToString(id), api, species, includeData, fetch);
        MapSeqSnoc(RangeIds(start, id - 1), id, IntToString);
        assert (ids + [IntToString(id)])[..|ids|] == ids;
        ids := ids + [IntToString(id)];
        id := id + 1;
      }
    }

    /** `download_specific_pokemon`: each name or id in order, always with its data files. */
    method DownloadSpecificPokemon(keys: seq<string>, api: string -> Option<PokemonData>, species: string -> bool, fetch: string -> bool)
      modifies this
      ensures State() == RunPokemon(old(State()), outputDir, keys, api, species, true, fetch)
      ensures directories == old(directories)
    {
      ProcessAll(keys, api, species, true, fetch);
    }
  }

  // ---------------------------------------------------------------------
  // Generation shortcuts

  /** The id range of each generation shortcut, first to fifth. */
  const GenerationRanges: seq<(nat, nat)> := [(1, 151), (152, 251), (252, 386), (387, 493), (494, 649)]

  /** The range a run downloads: a generation shortcut wins over the given start and end. */
  function SelectRange(generation: Option<nat>, start: int, end: int): (r: (int, int))
    ensures generation.None? || !(1 <= generation.value <= 5) ==> r == (start, end)
  {
    match generation
    case Some(g) =>
      if 1 <= g <= 5 then (GenerationRanges[g - 1].0 as int, GenerationRanges[g - 1].1 as int) else (start, end)
    case None => (start, end)
  }

  /**
   * The shortcuts are contiguous and cover the ids 1 to 649: the first
   * starts at 1, each starts one past the previous end, the last ends at
   * 649, and no range is empty.
   */
  lemma GenerationRangesContiguous()
    ensures GenerationRanges[0].0 == 1 && GenerationRanges[4].1 == 649
    ensures forall i :: 1 <= i < 5 ==> GenerationRanges[i].0 == GenerationRanges[i - 1].1 + 1
    ensures forall i :: 0 <= i < 5 ==> GenerationRanges[i].0 <= GenerationRanges[i].1
  {
  }

  /** Each id from 1 to 649 lies in exactly one generation's range. */
  lemma {:induction false} GenerationOfId(id: int) returns (g: nat)
    requires 1 <= id <= 649
    ensures 1 <= g <= 5 && GenerationRanges[g - 1].0 <= id <= GenerationRanges[g - 1].1
    ensures forall i :: 0 <= i < 5 && GenerationRanges[i].0 <= id <= GenerationRanges[i].1 ==> i == g - 1
  {
    GenerationRangesContiguous();
    g := if id <= 151 then 1 else if id <= 251 then 2 else if id <= 386 then 3 else if id <= 493 then 4 else 5;
  }

  /** Together the five shortcuts download 649 ids, each once. */
  lemma GenerationTotals()
    ensures |RangeIds(1, 151)| + |RangeIds(152, 251)| + |RangeIds(252, 386)| + |RangeIds(387, 493)| + |RangeIds(494, 649)| == 649
  {
    RangeIdsSpec(1, 151);
    RangeIdsSpec(152, 251);
    RangeIdsSpec(252, 386);
    RangeIdsSpec(387, 493);
    RangeIdsSpec(494, 649);
  }
}
