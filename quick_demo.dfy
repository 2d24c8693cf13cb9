/*
 * The quick demo that reads the exporter's JSON metadata: the selection of
 * animated sprites from the `phygitals_dynamic` source's file listing, the
 * reading of a Pokémon id and a generation out of each sprite's path, the
 * ordering by id, the generation breakdown, and the lookup of one Pokémon
 * by id.
 *
 * `int(...)` raising ValueError and a missing key raising KeyError are
 * outcomes of the model rather than exceptions.
 */
module QuickDemo {
  import opened PyText
  import opened Collections
  import opened DataExporter

  /** One sprite record of the demo. */
  datatype Sprite = Sprite(id: int, name: string, generation: int, spritePath: string, fileSize: nat, hash: Option<string>)

  /** What reading the sprites ends in: the list, a KeyError, or the ValueError raised for the file at `path`. */
  datatype Outcome = Sprites(list: seq<Sprite>) | KeyError | ValueError(path: string)

  /** The source whose listing holds the animated sprites. */
  const DynamicSource: string := "phygitals_dynamic"

  // ---------------------------------------------------------------------
  // Reading numbers out of paths

  /** `s.replace(pat, '')`: every non-overlapping occurrence of `pat` removed, scanning left to right. */
  function RemoveAll(s: string, pat: string): (r: string)
    requires |pat| > 0
    ensures |r| <= |s|
    decreases |s|
  {
    if |s| == 0 then ""
    else if StartsWith(s, pat) then RemoveAll(s[|pat|..], pat)
    else [s[0]] + RemoveAll(s[1..], pat)
  }

  /** A string none of whose characters starts the pattern is left unchanged. */
  lemma {:induction false} RemoveAllAbsent(s: string, pat: string)
    requires |pat| > 0
    requires forall j :: 0 <= j < |s| ==> s[j] != pat[0]
    ensures RemoveAll(s, pat) == s
    decreases |s|
  {
    if |s| > 0 {
      RemoveAllAbsent(s[1..], pat);
      assert [s[0]] + s[1..] == s;
    }
  }

  /** A pattern appended to such a string is removed and the string is left. */
  lemma {:induction false} RemoveAllSuffix(s: string, pat: string)
    requires |pat| > 0
    requires forall j :: 0 <= j < |s| ==> s[j] != pat[0]
    ensures RemoveAll(s + pat, pat) == s
    decreases |s|
  {
    if |s| == 0 {
      assert s + pat == pat;
      assert pat[|pat|..] == "";
    } else {
      assert (s + pat)[1..] == s[1..] + pat;
      RemoveAllSuffix(s[1..], pat);
      assert [s[0]] + s[1..] == s;
    }
  }

  /** A pattern put in front of such a string is removed and the string is left. */
  lemma RemoveAllPrefix(pat: string, s: string)
    requires |pat| > 0
    requires forall j :: 0 <= j < |s| ==> s[j] != pat[0]
    ensures RemoveAll(pat + s, pat) == s
  {
    assert (pat + s)[..|pat|] == pat;
    assert (pat + s)[|pat|..] == s;
    RemoveAllAbsent(s, pat);
  }

  /**
   * `int(s)` for a decimal string: surrounding whitespace, then an optional
   * sign and at least one ASCII digit; None where Python raises ValueError.
   */
  function ParseInt(s: string): (r: Option<int>)
    ensures r.Some? ==> Strip(s) != ""
  {
    var t := Strip(s);
    if IsDigits(t) then Some(DigitsValue(t))
    else if |t| >= 2 && t[0] == '+' && IsDigits(t[1..]) then Some(DigitsValue(t[1..]))
    else if |t| >= 2 && t[0] == '-' && IsDigits(t[1..]) then Some(-(DigitsValue(t[1..]) as int))
    else None
  }

  /** Digits that start and end with a non-space character are not stripped. */
  lemma StripDigits(s: string)
    requires IsDigits(s)
    ensures Strip(s) == s
  {
    assert !IsSpace(s[0]);
    assert LStrip(s) == s;
    assert !IsSpace(s[|s| - 1]);
  }

  /** `int(str(n))` is n. */
  lemma ParseIntNat(n: nat)
    ensures ParseInt(NatToString(n)) == Some(n)
  {
    StripDigits(NatToString(n));
  }

  /** A path segment with no digit-free text around it is rejected. */
  lemma ParseIntRejects()
    ensures ParseInt("") == None
    ensures ParseInt("abc") == None
    ensures ParseInt("-") == None
  {
    assert !IsSpace('a') && !IsSpace('c');
    assert Strip("abc") == "abc" by {
      assert LStrip("abc") == "abc";
    }
    assert !IsDigits("abc") by { assert !IsDigit("abc"[0]); }
    assert Strip("-") == "-" by {
      assert LStrip("-") == "-";
    }
  }

  // ---------------------------------------------------------------------
  // Selecting and reading sprites

  /** A listed file is an animated sprite when its path mentions `pokemon_sprites` and its extension is `.gif`. */
  predicate IsSpriteFile(f: FileInfo) {
    Contains(f.path, "pokemon_sprites") && f.extension == ".gif"
  }

  /** The path's last '/'-separated segment. */
  function LastSegment(path: string): string {
    var parts := Split(path, '/');
    parts[|parts| - 1]
  }

  /** The path's first '/'-separated segment. */
  function FirstSegment(path: string): string {
    Split(path, '/')[0]
  }

  /** The id text of a sprite file: its file name with `.gif` removed. */
  function IdText(path: string): string {
    RemoveAll(LastSegment(path), ".gif")
  }

  /** The generation text of a sprite file: its top directory with `generation_` removed. */
  function GenerationText(path: string): string {
    RemoveAll(FirstSegment(path), "generation_")
  }

  /** The record of a sprite file, or None where one of the two numbers does not parse. */
  function SpriteOf(f: FileInfo): (r: Option<Sprite>)
    ensures r.Some? <==> ParseInt(IdText(f.path)).Some? && ParseInt(GenerationText(f.path)).Some?
    ensures r.Some? ==> r.value.spritePath == f.path && r.value.fileSize == f.sizeBytes && r.value.hash == f.md5Hash
  {
    match (ParseInt(IdText(f.path)), ParseInt(GenerationText(f.path)))
    case (Some(id), Some(gen)) => Some(Sprite(id, "Pokemon #" + IdText(f.path), gen, f.path, f.sizeBytes, f.md5Hash))
    case _ => None
  }

  /** The canonical sprite path `generation_<g>/pokemon_sprites/<n>.gif`. */
  function SpritePath(g: nat, n: nat): string {
    "generation_" + NatToString(g) + "/pokemon_sprites/" + NatToString(n) + ".gif"
  }

  lemma DigitsNoSlash(s: string)
    requires IsDigits(s)
    ensures forall j :: 0 <= j < |s| ==> s[j] != '/' && s[j] != '.' && s[j] != 'g'
  {
  }

  /** The canonical path splits into its three segments. */
  lemma SpritePathSegments(g: nat, n: nat)
    ensures Split(SpritePath(g, n), '/') == ["generation_" + NatToString(g), "pokemon_sprites", NatToString(n) + ".gif"]
  {
    var a := "generation_" + NatToString(g);
    var b := "pokemon_sprites";
    var c := NatToString(n) + ".gif";
    var parts := [a, b, c];
    assert SpritePath(g, n) == Join(parts, "/") by {
      assert Join([b, c], "/") == b + "/" + c;
      assert Join(parts, "/") == a + "/" + Join([b, c], "/");
    }
    assert forall k, j :: 0 <= k < |parts| && 0 <= j < |parts[k]| ==> parts[k][j] != '/' by {
      assert forall j :: 0 <= j < |a| ==> a[j] != '/' by {
        DigitsNoSlash(NatToString(g));
      }
      assert forall j :: 0 <= j < |c| ==> c[j] != '/' by {
        DigitsNoSlash(NatToString(n));
      }
      assert forall j :: 0 <= j < |b| ==> b[j] != '/';
    }
    SplitJoin(parts, '/');
  }

  /** A file at the canonical path reads back the id and the generation it was written with. */
  lemma SpriteOfRoundTrip(f: FileInfo, g: nat, n: nat)
    requires f.path == SpritePath(g, n)
    ensures SpriteOf(f).Some?
    ensures SpriteOf(f).value.id == n && SpriteOf(f).value.generation == g
    ensures SpriteOf(f).value.name == "Pokemon #" + NatToString(n)
  {
    SpritePathSegments(g, n);
    DigitsNoSlash(NatToString(g));
    DigitsNoSlash(NatToString(n));
    assert LastSegment(f.path) == NatToString(n) + ".gif";
    assert FirstSegment(f.path) == "generation_" + NatToString(g);
    RemoveAllSuffix(NatToString(n), ".gif");
    RemoveAllPrefix("generation_", NatToString(g));
    ParseIntNat(n);
    ParseIntNat(g);
  }

  /** The canonical path of a sprite is selected. */
  lemma SpritePathSelected(f: FileInfo, g: nat, n: nat)
    requires f.path == SpritePath(g, n) && f.extension == ".gif"
    ensures IsSpriteFile(f)
  {
    var pre := "generation_" + NatToString(g) + "/";
    var rest := "pokemon_sprites" + ("/" + NatToString(n) + ".gif");
    assert f.path == pre + rest;
    assert rest[0..15] == "pokemon_sprites";
    ContainsAt(rest, "pokemon_sprites", 0);
    ContainsInConcat(pre, rest, "pokemon_sprites");
  }

  /**
   * The loop over the listing, before sorting: the records of the selected
   * files in listing order, or the ValueError of the first selected file
   * whose numbers do not parse.
   */
  function CollectSprites(files: seq<FileInfo>): (r: Outcome)
    ensures !r.KeyError?
    decreases |files|
  {
    if |files| == 0 then Sprites([])
    else
      var f := files[|files| - 1];
      var prev := CollectSprites(files[..|files| - 1]);
      if !prev.Sprites? then prev
      else if !IsSpriteFile(f) then prev
      else if SpriteOf(f).None? then ValueError(f.path)
      else Sprites(prev.list + [SpriteOf(f).value])
  }

  /** The loop succeeds exactly when every selected file parses. */
  lemma {:induction false} CollectSpritesSucceeds(files: seq<FileInfo>)
    ensures CollectSprites(files).Sprites? <==> forall k :: 0 <= k < |files| && IsSpriteFile(files[k]) ==> SpriteOf(files[k]).Some?
    decreases |files|
  {
    if |files| > 0 {
      var init := files[..|files| - 1];
      CollectSpritesSucceeds(init);
      assert forall k :: 0 <= k < |init| ==> init[k] == files[k];
      var f := files[|files| - 1];
      assert CollectSprites(files).Sprites? <==> CollectSprites(init).Sprites? && (IsSpriteFile(f) ==> SpriteOf(f).Some?);
    }
  }

  /** On success the loop holds one record per selected file, in listing order. */
  lemma {:induction false} CollectSpritesRecords(files: seq<FileInfo>)
    requires CollectSprites(files).Sprites?
    ensures var sel := Filter(files, IsSpriteFile);
            |CollectSprites(files).list| == |sel| &&
            forall k :: 0 <= k < |sel| ==> SpriteOf(sel[k]) == Some(CollectSprites(files).list[k])
    decreases |files|
  {
    if |files| > 0 {
      var init := files[..|files| - 1];
      var f := files[|files| - 1];
      assert files == init + [f];
      CollectSpritesRecords(init);
      FilterConcat(init, [f], IsSpriteFile);
    }
  }

  /** On failure the loop names a selected file whose numbers do not parse. */
  lemma {:induction false} CollectSpritesFailure(files: seq<FileInfo>) returns (k: nat)
    requires CollectSprites(files).ValueError?
    ensures k < |files| && IsSpriteFile(files[k]) && SpriteOf(files[k]).None?
    ensures files[k].path == CollectSprites(files).path
    decreases |files|
  {
    var init := files[..|files| - 1];
    if CollectSprites(init).ValueError? {
      k := CollectSpritesFailure(init);
      assert files[k] == init[k];
    } else {
      k := |files| - 1;
    }
  }

  /** An error in a prefix of the listing is the error of the whole listing. */
  lemma {:induction false} CollectSpritesError(files: seq<FileInfo>, i: nat)
    requires i <= |files| && CollectSprites(files[..i]).ValueError?
    ensures CollectSprites(files) == CollectSprites(files[..i])
    decreases |files| - i
  {
    if i < |files| {
      assert files[..i + 1][..i] == files[..i];
      CollectSpritesError(files, i + 1);
    } else {
      assert files[..i] == files;
    }
  }

  function IdOf(s: Sprite): int { s.id }

  /**
   * `get_pokemon_sprites` as written: no `phygitals_dynamic` source gives
   * no sprites, but a source entry without a `files` key raises KeyError.
   */
  function GetPokemonSpritesAsWritten(sources: Dict<string, ExportedSource>): (r: Outcome)
  {
    if DynamicSource !in sources.m then Sprites([])
    else if sources.m[DynamicSource].files.None? then KeyError
    else
      match CollectSprites(sources.m[DynamicSource].files.value)
      case Sprites(list) => Sprites(SortByKey(list, IdOf))
      case other => other
  }

  /** The listing the demo reads: none without a `phygitals_dynamic` entry or without files in it. */
  function DynamicFiles(sources: Dict<string, ExportedSource>): seq<FileInfo> {
    if DynamicSource in sources.m && sources.m[DynamicSource].files.Some? then sources.m[DynamicSource].files.value
    else []
  }

  /** `get_pokemon_sprites` with a source that has no files read as an empty listing. */
  function PokemonSprites(sources: Dict<string, ExportedSource>): (r: Outcome)
    ensures !r.KeyError?
    ensures DynamicSource !in sources.m ==> r == Sprites([])
  {
    match CollectSprites(DynamicFiles(sources))
    case Sprites(list) => Sprites(SortByKey(list, IdOf))
    case other => other
  }

  /** The two agree whenever the exported source carries its listing, or is absent. */
  lemma AsWrittenAgrees(sources: Dict<string, ExportedSource>)
    requires DynamicSource in sources.m ==> sources.m[DynamicSource].files.Some?
    ensures GetPokemonSpritesAsWritten(sources) == PokemonSprites(sources)
  {
  }

  /**
   * When the `phygitals_dynamic` directory is missing, the exporter writes
   * the source with its exists flag off and no `files`; the demo as written
   * then raises KeyError instead of finding no sprites.
   */
  lemma MissingDirectoryKeyError(root: string, walk: string -> Option<seq<Item>>, md5: string -> Option<string>)
    requires walk(SourcePath(root, DefaultSources[0])).None?
    ensures DynamicSource in ExportedSources(root, DefaultSources, walk, md5).m
    ensures GetPokemonSpritesAsWritten(ExportedSources(root, DefaultSources, walk, md5)) == KeyError
    ensures PokemonSprites(ExportedSources(root, DefaultSources, walk, md5)) == Sprites([])
  {
    DefaultSourcesDistinct();
    LookupDistinct(DefaultSources, 0);
    assert DefaultSources[0].name == DynamicSource;
    ExportedEntry(root, DefaultSources, walk, md5, DynamicSource);
  }

  /**
   * The sprites come out ordered by id, as a permutation of the records of
   * the selected files, with the records of each id in listing order.
   */
  lemma PokemonSpritesSorted(sources: Dict<string, ExportedSource>, q: int)
    requires PokemonSprites(sources).Sprites?
    ensures var collected := CollectSprites(DynamicFiles(sources)).list;
            var list := PokemonSprites(sources).list;
            SortedBy(list, IdOf) && multiset(list) == multiset(collected) &&
            WithKey(list, IdOf, q) == WithKey(collected, IdOf, q)
  {
    var collected := CollectSprites(DynamicFiles(sources)).list;
    SortSorted(collected, IdOf);
    SortPermutation(collected, IdOf);
    SortStable(collected, IdOf, q);
  }

  /** `get_pokemon_sprites`' loop over the listing, then the sort by id. */
  method GetPokemonSprites(sources: Dict<string, ExportedSource>) returns (outcome: Outcome)
    ensures outcome == PokemonSprites(sources)
  {
    if DynamicSource !in sources.m {
      return Sprites([]);
    }
    var files := DynamicFiles(sources);
    var sprites: seq<Sprite> := [];
    var i := 0;
    while i < |files|
      invariant 0 <= i <= |files|
      invariant CollectSprites(files[..i]) == Sprites(sprites)
    {
      var f := files[i];
      assert files[..i + 1][..i] == files[..i];
      if IsSpriteFile(f) {
        var sprite := SpriteOf(f);
        if sprite.None? {
          CollectSpritesError(files, i + 1);
          return ValueError(f.path);
        }
        sprites := sprites + [sprite.value];
      }
      i := i + 1;
    }
    assert files[..i] == files;
    outcome := Sprites(SortByKey(sprites, IdOf));
  }

  // ---------------------------------------------------------------------
  // Generation breakdown and lookups

  function GenerationOf(s: Sprite): int { s.generation }

  /** The generation counts: one count per generation, in first-seen order. */
  function GenerationCounts(sprites: seq<Sprite>): (d: Dict<int, int>)
    ensures WellFormed(d)
    decreases |sprites|
  {
    if |sprites| == 0 then EmptyDict()
    else AddTo(GenerationCounts(sprites[..|sprites| - 1]), sprites[|sprites| - 1].generation, 1)
  }

  /** The generation counts add up to the number of sprites. */
  lemma {:induction false} GenerationCountsTotal(sprites: seq<Sprite>)
    ensures Sum(Values(GenerationCounts(sprites))) == |sprites|
    decreases |sprites|
  {
    if |sprites| > 0 {
      var init := sprites[..|sprites| - 1];
      GenerationCountsTotal(init);
      AddToTotal(GenerationCounts(init), sprites[|sprites| - 1].generation, 1);
    }
  }

  function InGeneration(g: int): Sprite -> bool {
    (s: Sprite) => s.generation == g
  }

  /** A generation is counted exactly when some sprite has it, and its count is the number of sprites that do. */
  lemma {:induction false} GenerationCountAt(sprites: seq<Sprite>, g: int)
    ensures g in GenerationCounts(sprites).m <==> CountWhere(sprites, InGeneration(g)) > 0
    ensures g in GenerationCounts(sprites).m ==> GenerationCounts(sprites).m[g] == CountWhere(sprites, InGeneration(g))
    decreases |sprites|
  {
    if |sprites| > 0 {
      GenerationCountAt(sprites[..|sprites| - 1], g);
    }
  }

  /** The counts after one more sprite. */
  lemma GenerationCountsStep(sprites: seq<Sprite>)
    requires |sprites| > 0
    ensures GenerationCounts(sprites) == AddTo(GenerationCounts(sprites[..|sprites| - 1]), sprites[|sprites| - 1].generation, 1)
  {
  }

  /** `demo_basic_usage`'s breakdown loop. */
  method GenerationBreakdown(sprites: seq<Sprite>) returns (counts: Dict<int, int>)
    ensures counts == GenerationCounts(sprites)
  {
    counts := EmptyDict();
    var i := 0;
    while i < |sprites|
      invariant 0 <= i <= |sprites|
      invariant counts == GenerationCounts(sprites[..i])
    {
      var gen := sprites[i].generation;
      assert GenerationCounts(sprites[..i + 1]) == AddTo(counts, gen, 1) by {
        GenerationCountsStep(sprites[..i + 1]);
        assert sprites[..i + 1][..i] == sprites[..i];
        assert sprites[..i + 1][i] == sprites[i];
      }
      counts := AddTo(counts, gen, 1);
      i := i + 1;
    }
    assert sprites[..i] == sprites;
  }

  /** The first sprite with that id, or none. */
  function FindById(sprites: seq<Sprite>, id: int): (r: Option<nat>)
    ensures r.Some? ==> r.value < |sprites| && sprites[r.value].id == id &&
                        forall k :: 0 <= k < r.value ==> sprites[k].id != id
    ensures r.None? ==> forall k :: 0 <= k < |sprites| ==> sprites[k].id != id
    decreases |sprites|
  {
    if |sprites| == 0 then None
    else if sprites[0].id == id then Some(0)
    else
      match FindById(sprites[1..], id)
      case None => None
      case Some(k) => Some(k + 1)
  }

  // ---------------------------------------------------------------------
  // File size statistics

  function FileSizeOf(s: Sprite): int { s.fileSize }

  /** The smallest value of a non-empty sequence. */
  function SeqMin(xs: seq<int>): (r: int)
    requires |xs| > 0
    ensures forall k :: 0 <= k < |xs| ==> r <= xs[k]
    ensures exists k :: 0 <= k < |xs| && r == xs[k]
    decreases |xs|
  {
    if |xs| == 1 then xs[0]
    else
      var rest := SeqMin(xs[..|xs| - 1]);
      assert forall k :: 0 <= k < |xs| - 1 ==> xs[..|xs| - 1][k] == xs[k];
      if xs[|xs| - 1] < rest then xs[|xs| - 1] else rest
  }

  /** The largest value of a non-empty sequence. */
  function SeqMax(xs: seq<int>): (r: int)
    requires |xs| > 0
    ensures forall k :: 0 <= k < |xs| ==> xs[k] <= r
    ensures exists k :: 0 <= k < |xs| && r == xs[k]
    decreases |xs|
  {
    if |xs| == 1 then xs[0]
    else
      var rest := SeqMax(xs[..|xs| - 1]);
      assert forall k :: 0 <= k < |xs| - 1 ==> xs[..|xs| - 1][k] == xs[k];
      if xs[|xs| - 1] > rest then xs[|xs| - 1] else rest
  }

  /**
   * The byte figures behind the size statistics: the sum and number of
   * sizes (the average is their quotient, then scaled to kilobytes), the
   * smallest and the largest.
   */
  datatype SizeStats = SizeStats(total: int, count: nat, smallest: int, largest: int)

  /** What the statistics step ends in: the figures, or ZeroDivisionError. */
  datatype StatsOutcome = StatsOk(stats: SizeStats) | ZeroDivisionError

  function StatsOf(sizes: seq<int>): SizeStats
    requires |sizes| > 0
  {
    SizeStats(Sum(sizes), |sizes|, SeqMin(sizes), SeqMax(sizes))
  }

  /** The statistics as written: with no sprites the average divides by zero. */
  function SizeStatsAsWritten(sprites: seq<Sprite>): (r: StatsOutcome)
    ensures r.ZeroDivisionError? <==> |sprites| == 0
  {
    var sizes := MapSeq(sprites, FileSizeOf);
    if |sizes| == 0 then ZeroDivisionError else StatsOk(StatsOf(sizes))
  }

  /** The statistics with the empty case skipped: none when there are no sprites. */
  function SizeStatsOf(sprites: seq<Sprite>): (r: Option<SizeStats>)
    ensures r.None? <==> |sprites| == 0
    ensures r.Some? ==> r.value.count == |sprites|
  {
    var sizes := MapSeq(sprites, FileSizeOf);
    if |sizes| == 0 then None else Some(StatsOf(sizes))
  }

  /** A sum of values lies between their number times the smallest and times the largest. */
  lemma {:induction false} SumBounds(xs: seq<int>, lo: int, hi: int)
    requires forall k :: 0 <= k < |xs| ==> lo <= xs[k] <= hi
    ensures lo * |xs| <= Sum(xs) <= hi * |xs|
    decreases |xs|
  {
    if |xs| > 0 {
      assert Sum(xs) == Sum(xs[..|xs| - 1]) + xs[|xs| - 1] by {
        SumConcat(xs[..|xs| - 1], [xs[|xs| - 1]]);
        assert xs[..|xs| - 1] + [xs[|xs| - 1]] == xs;
      }
      SumBounds(xs[..|xs| - 1], lo, hi);
    }
  }

  /**
   * The figures describe the sizes: the smallest and largest are sizes of
   * sprites and bound every size, and the total lies between count times
   * the smallest and count times the largest, so the average does too.
   */
  lemma SizeStatsSound(sprites: seq<Sprite>)
    requires |sprites| > 0
    ensures var st := SizeStatsOf(sprites).value;
            st.smallest <= st.largest &&
            (forall k :: 0 <= k < |sprites| ==> st.smallest <= sprites[k].fileSize <= st.largest) &&
            (exists k :: 0 <= k < |sprites| && sprites[k].fileSize == st.smallest) &&
            (exists k :: 0 <= k < |sprites| && sprites[k].fileSize == st.largest) &&
            st.smallest * st.count <= st.total <= st.largest * st.count
  {
    var sizes := MapSeq(sprites, FileSizeOf);
    SumBounds(sizes, SeqMin(sizes), SeqMax(sizes));
  }

  /**
   * A `phygitals_dynamic` listing without a single animated sprite yields no
   * sprites; the statistics as written then divide by zero, where the
   * corrected ones report none.
   */
  lemma NoSpritesDivideByZero(sources: Dict<string, ExportedSource>)
    requires DynamicSource in sources.m && sources.m[DynamicSource].files.Some?
    requires forall k :: 0 <= k < |DynamicFiles(sources)| ==> !IsSpriteFile(DynamicFiles(sources)[k])
    ensures GetPokemonSpritesAsWritten(sources) == Sprites([])
    ensures SizeStatsAsWritten(GetPokemonSpritesAsWritten(sources).list) == ZeroDivisionError
    ensures SizeStatsOf(PokemonSprites(sources).list).None?
  {
    var files := DynamicFiles(sources);
    CollectSpritesSucceeds(files);
    CollectSpritesRecords(files);
    FilterNone(files, IsSpriteFile);
  }

  /** One Pokémon of the simulated list endpoint. */
  datatype ApiPokemon = ApiPokemon(id: int, generation: int, spriteUrl: string, sizeBytes: nat)

  /** The simulated list endpoint: the total, the set of generations, and the first three sprites. */
  datatype ApiResponse = ApiResponse(total: nat, generations: set<int>, pokemon: seq<ApiPokemon>)

  function ApiPokemonOf(s: Sprite): ApiPokemon {
    ApiPokemon(s.id, s.generation, "/sprites/" + s.spritePath, s.fileSize)
  }

  function ApiListing(sprites: seq<Sprite>): (r: ApiResponse)
    ensures r.total == |sprites|
    ensures forall g :: g in r.generations <==> exists k :: 0 <= k < |sprites| && sprites[k].generation == g
    ensures |r.pokemon| == Min(3, |sprites|)
    ensures forall k :: 0 <= k < |r.pokemon| ==> r.pokemon[k].id == sprites[k].id && StartsWith(r.pokemon[k].spriteUrl, "/sprites/")
    ensures forall k :: 0 <= k < |r.pokemon| ==>
      r.pokemon[k] == ApiPokemon(sprites[k].id, sprites[k].generation, "/sprites/" + sprites[k].spritePath, sprites[k].fileSize)
  {
    var shown := MapSeq(Take(sprites, 3), ApiPokemonOf);
    assert forall k :: 0 <= k < |shown| ==> shown[k].spriteUrl[..9] == "/sprites/";
    ApiResponse(|sprites|, set k | 0 <= k < |sprites| :: sprites[k].generation, shown)
  }
}
