/**
 * The card-import bookkeeping of the Pokémon TCG integrator: the table
 * of set codes per generation, set-code parsing of card file names, the
 * scan counters, fixed-size batching, per-batch success/failed/skipped
 * accounting and the master index totals.
 *
 * A generation is written as its number 1..9 (the source's key `gen1`..
 * `gen9` is `GenerationKey`). Files on disk are a set of paths relative
 * to the output directory; card JSON files come in already loaded.
 */
module TcgIntegrator {
  import opened PyText
  import opened Collections
  import opened ElementScan

  // ---------------------------------------------------------------------
  // The generation mapping and get_generation_for_set

  /** The set codes listed for generation `g` (only membership in the list is used). */
  function GenerationSets(g: nat): set<string>
    requires 1 <= g <= 9
  {
    match g
    case 1 => {"base1", "base2", "base3", "base4", "base5", "base6", "basep"}
    case 2 => {"neo1", "neo2", "neo3", "neo4"}
    case 3 => {"ex1", "ex2", "ex3", "ex4", "ex5", "ex6", "ex7", "ex8", "ex9", "ex10", "ex11", "ex12", "ex13", "ex14", "ex15", "ex16", "tk1a", "tk2a"}
    case 4 => {"dp1", "dp2", "dp3", "dp4", "dp5", "dp6", "dp7", "pl1", "pl2", "pl3", "pl4"}
    case 5 => {"bw1", "bw2", "bw3", "bw4", "bw5", "bw6", "bw7", "bw8", "bw9", "bw10", "bw11"}
    case 6 => {"xy0", "xy1", "xy2", "xy3", "xy4", "xy5", "xy6", "xy7", "xy8", "xy9", "xy10", "xy11", "xy12", "xyp", "g1"}
    case 7 => {"sm1", "sm2", "sm3", "sm4", "sm5", "sm6", "sm7", "sm8", "sm9", "sm10", "sm11", "sm12", "smp"}
    case 8 => {"swsh1", "swsh2", "swsh3", "swsh4", "swsh5", "swsh6", "swsh7", "swsh8", "swsh9", "swsh10", "swsh11", "swsh12", "pgo"}
    case _ => {"sv1", "sv2", "sv3", "sv4", "sv5", "sv6", "sv7", "sv8", "sv9", "sv10"}
  }

  /** The mapping's key for generation `g`. */
  function GenerationKey(g: nat): (k: string)
    requires 1 <= g <= 9
    ensures |k| == 4 && k[..3] == "gen" && IsDigit(k[3]) && DigitValue(k[3]) == g
  {
    "gen" + [DigitChar(g)]
  }

  /** Generation `g`'s list holds `code`. */
  predicate Listed(code: string, g: nat)
    requires 1 <= g <= 9
  {
    code in GenerationSets(g)
  }

  /** The search from generation `g` on: the first generation, in mapping order, listing `code`. */
  function GenerationFrom(code: string, g: nat): (r: Option<nat>)
    requires 1 <= g <= 10
    ensures r.Some? ==> g <= r.value <= 9
    decreases 10 - g
  {
    if g == 10 then None
    else if Listed(code, g) then Some(g)
    else GenerationFrom(code, g + 1)
  }

  /** The search finds a generation listing the code, with none listing it before; or finds none when none from `g` on does. */
  lemma {:induction false} GenerationFromSpec(code: string, g: nat)
    requires 1 <= g <= 10
    ensures var r := GenerationFrom(code, g);
      (r.Some? ==> Listed(code, r.value) && forall h :: g <= h < r.value ==> !Listed(code, h)) &&
      (r.None? ==> forall h :: g <= h <= 9 ==> !Listed(code, h))
    decreases 10 - g
  {
    if g < 10 && !Listed(code, g) {
      GenerationFromSpec(code, g + 1);
    }
  }

  /** `get_generation_for_set`: the first generation listing the code, or none. */
  function GenerationForSet(code: string): Option<nat> {
    GenerationFrom(code, 1)
  }

  /** The generation a code's first two characters point to (0 for none). */
  function TagGeneration(code: string): nat {
    if |code| < 2 then 0
    else
      match (code[0], code[1])
      case ('b', 'a') => 1
      case ('n', 'e') => 2
      case ('e', 'x') => 3
      case ('t', 'k') => 3
      case ('d', 'p') => 4
      case ('p', 'l') => 4
      case ('b', 'w') => 5
      case ('x', 'y') => 6
      case ('g', '1') => 6
      case ('s', 'm') => 7
      case ('s', 'w') => 8
      case ('p', 'g') => 8
      case ('s', 'v') => 9
      case _ => 0
  }

  lemma TagAt1(code: string)
    requires code in GenerationSets(1)
    ensures TagGeneration(code) == 1
  {
  }

  lemma TagAt2(code: string)
    requires code in GenerationSets(2)
    ensures TagGeneration(code) == 2
  {
  }

  lemma TagAt3(code: string)
    requires code in GenerationSets(3)
    ensures TagGeneration(code) == 3
  {
  }

  lemma TagAt4(code: string)
    requires code in GenerationSets(4)
    ensures TagGeneration(code) == 4
  {
  }

  lemma TagAt5(code: string)
    requires code in GenerationSets(5)
    ensures TagGeneration(code) == 5
  {
  }

  lemma TagAt6(code: string)
    requires code in GenerationSets(6)
    ensures TagGeneration(code) == 6
  {
  }

  lemma TagAt7(code: string)
    requires code in GenerationSets(7)
    ensures TagGeneration(code) == 7
  {
  }

  lemma TagAt8(code: string)
    requires code in GenerationSets(8)
    ensures TagGeneration(code) == 8
  {
  }

  lemma TagAt9(code: string)
    requires code in GenerationSets(9)
    ensures TagGeneration(code) == 9
  {
  }

  /** Each listed code's first two characters point back to its generation. */
  lemma Tags(code: string, g: nat)
    requires 1 <= g <= 9 && code in GenerationSets(g)
    ensures TagGeneration(code) == g
  {
    match g
    case 1 => TagAt1(code);
    case 2 => TagAt2(code);
    case 3 => TagAt3(code);
    case 4 => TagAt4(code);
    case 5 => TagAt5(code);
    case 6 => TagAt6(code);
    case 7 => TagAt7(code);
    case 8 => TagAt8(code);
    case 9 => TagAt9(code);
  }

  /** No code is listed under two generations. */
  lemma GenerationSetsDisjoint(code: string, g: nat, h: nat)
    requires 1 <= g <= 9 && 1 <= h <= 9
    ensures code in GenerationSets(g) && code in GenerationSets(h) ==> g == h
  {
    if code in GenerationSets(g) && code in GenerationSets(h) {
      Tags(code, g);
      Tags(code, h);
    }
  }

  /** The generation found is the one, and the only one, whose list holds the code. */
  lemma GenerationForSetSpec(code: string, g: nat)
    ensures GenerationForSet(code) == Some(g) <==> 1 <= g <= 9 && code in GenerationSets(g)
  {
    var r := GenerationForSet(code);
    GenerationFromSpec(code, 1);
    if 1 <= g <= 9 && code in GenerationSets(g) {
      assert r.Some?;
      GenerationSetsDisjoint(code, g, r.value);
    }
  }

  // ---------------------------------------------------------------------
  // Set codes of card file names and scan_available_cards

  /** A split on a separator the string contains gives at least two parts. */
  lemma {:induction false} SplitHasSep(s: string, sep: char)
    ensures |Split(s, sep)| >= 2 <==> exists j :: 0 <= j < |s| && s[j] == sep
    decreases |s|
  {
    if |s| > 0 {
      SplitHasSep(s[1..], sep);
      if s[0] != sep {
        assert forall j :: 0 < j < |s| ==> s[j] == s[1..][j - 1];
      }
    }
  }

  /** The set code of a card file stem: the text between the first '_' and the next '-'; none when the stem has no '_'. */
  function SetCodeOf(stem: string): (r: Option<string>)
    ensures r.None? <==> forall j :: 0 <= j < |stem| ==> stem[j] != '_'
    ensures r.Some? ==> forall j :: 0 <= j < |r.value| ==> r.value[j] != '_' && r.value[j] != '-'
  {
    SplitHasSep(stem, '_');
    var parts := Split(stem, '_');
    if |parts| < 2 then None else Some(Split(parts[1], '-')[0])
  }

  /** `card_<code>-<number>_<name>` has set code `<code>`. */
  lemma SetCodeOfCardName(code: string, number: string, name: string)
    requires forall j :: 0 <= j < |code| ==> code[j] != '_' && code[j] != '-'
    requires forall j :: 0 <= j < |number| ==> number[j] != '_'
    ensures SetCodeOf("card_" + code + "-" + number + "_" + name) == Some(code)
  {
    var head := code + "-" + number;
    assert forall j :: 0 <= j < |head| ==> head[j] != '_' by {
      forall j | 0 <= j < |head| ensures head[j] != '_' {
        if j < |code| { assert head[j] == code[j]; }
        else if j > |code| { assert head[j] == number[j - |code| - 1]; }
      }
    }
    SplitHead(head, '_', name);
    SplitHead("card", '_', head + "_" + name);
    assert "card_" + code + "-" + number + "_" + name == "card" + ['_'] + (head + ['_'] + name);
    SplitHead(code, '-', number);
    assert head == code + ['-'] + number;
  }

  /** A stem that parses. */
  predicate Parses(stem: string) {
    SetCodeOf(stem).Some?
  }

  /** The set codes of the stems that parse, in order. */
  function ScanCodes(stems: seq<string>): (codes: seq<string>)
    ensures |codes| == CountWhere(stems, Parses)
    decreases |stems|
  {
    if |stems| == 0 then []
    else
      var last := stems[|stems| - 1];
      ScanCodes(stems[..|stems| - 1]) + (if Parses(last) then [SetCodeOf(last).value] else [])
  }

  /** The generations of the codes that map to one, in order. */
  function ScanGenerations(codes: seq<string>): (gens: seq<nat>)
    ensures |gens| <= |codes|
    ensures forall i :: 0 <= i < |gens| ==> 1 <= gens[i] <= 9
    decreases |codes|
  {
    if |codes| == 0 then []
    else
      var g := GenerationForSet(codes[|codes| - 1]);
      ScanGenerations(codes[..|codes| - 1]) + (if g.Some? then [g.value] else [])
  }

  /** One more stem adds its set code, when it parses, to the end of the codes. */
  lemma ScanStep(stems: seq<string>, i: nat)
    requires i < |stems|
    ensures ScanCodes(stems[..i + 1]) == ScanCodes(stems[..i]) + (if Parses(stems[i]) then [SetCodeOf(stems[i]).value] else [])
  {
    assert stems[..i + 1][..i] == stems[..i];
  }

  lemma ScanGenerationsStep(codes: seq<string>, c: string)
    ensures ScanGenerations(codes + [c]) ==
      ScanGenerations(codes) + (if GenerationForSet(c).Some? then [GenerationForSet(c).value] else [])
  {
    assert (codes + [c])[..|codes|] == codes;
  }

  /** The set counter after one more stem, from the counter before it. */
  lemma SetTallyStep(stems: seq<string>, i: nat)
    requires i < |stems|
    ensures var before := Tally(CountEntries(ScanCodes(stems[..i])));
      Tally(CountEntries(ScanCodes(stems[..i + 1]))) ==
        if Parses(stems[i]) then AddTo(before, SetCodeOf(stems[i]).value, 1) else before
  {
    ScanStep(stems, i);
    var codes := ScanCodes(stems[..i]);
    if Parses(stems[i]) {
      TallyCountStep(codes, SetCodeOf(stems[i]).value);
    } else {
      assert codes + [] == codes;
    }
  }

  /** The generation counter after one more stem, from the counter before it. */
  lemma GenerationTallyStep(stems: seq<string>, i: nat)
    requires i < |stems|
    ensures var before := Tally(CountEntries(ScanGenerations(ScanCodes(stems[..i]))));
      var g := if Parses(stems[i]) then GenerationForSet(SetCodeOf(stems[i]).value) else None;
      Tally(CountEntries(ScanGenerations(ScanCodes(stems[..i + 1])))) ==
        if g.Some? then AddTo(before, g.value, 1) else before
  {
    ScanStep(stems, i);
    var codes := ScanCodes(stems[..i]);
    if Parses(stems[i]) {
      var code := SetCodeOf(stems[i]).value;
      ScanGenerationsStep(codes, code);
      var g := GenerationForSet(code);
      if g.Some? {
        TallyCountStep(ScanGenerations(codes), g.value);
      } else {
        assert ScanGenerations(codes) + [] == ScanGenerations(codes);
      }
    } else {
      assert codes + [] == codes;
    }
  }

  /**
   * `scan_available_cards`: `set_distribution` counts each parsed set code
   * and `generation_stats` each generation those codes map to, both in
   * first-seen key order.
   */
  method ScanAvailableCards(stems: seq<string>) returns (generationStats: Dict<nat, int>, setDistribution: Dict<string, int>)
    ensures setDistribution == Tally(CountEntries(ScanCodes(stems)))
    ensures generationStats == Tally(CountEntries(ScanGenerations(ScanCodes(stems))))
  {
    generationStats := EmptyDict();
    setDistribution := EmptyDict();
    var i := 0;
    while i < |stems|
      invariant 0 <= i <= |stems|
      invariant setDistribution == Tally(CountEntries(ScanCodes(stems[..i])))
      invariant generationStats == Tally(CountEntries(ScanGenerations(ScanCodes(stems[..i]))))
    {
      SetTallyStep(stems, i);
      GenerationTallyStep(stems, i);
      var parsed := SetCodeOf(stems[i]);
      if parsed.Some? {
        var code := parsed.value;
        var generation := GenerationForSet(code);
        if generation.Some? {
          generationStats := AddTo(generationStats, generation.value, 1);
        }
        setDistribution := AddTo(setDistribution, code, 1);
      }
      i := i + 1;
    }
    assert stems[..i] == stems;
  }

  /** The set counts add up to the number of parsed files, and the generation counts to at most that. */
  lemma ScanTotals(stems: seq<string>)
    ensures Sum(Values(Tally(CountEntries(ScanCodes(stems))))) == CountWhere(stems, Parses)
    ensures Sum(Values(Tally(CountEntries(ScanGenerations(ScanCodes(stems)))))) <= CountWhere(stems, Parses)
  {
    TallyCount(ScanCodes(stems));
    TallyCount(ScanGenerations(ScanCodes(stems)));
  }

  // ---------------------------------------------------------------------
  // Test-mode limit and batching in download_all_cards

  /** The file list after the test-mode limit: cut to `max_cards` only in test mode with a non-zero limit. */
  function Limited<T>(files: seq<T>, testMode: bool, maxCards: Option<nat>): (r: seq<T>)
    ensures |r| <= |files| && r == files[..|r|]
    ensures testMode && maxCards.Some? && maxCards.value != 0 ==> |r| == Min(|files|, maxCards.value)
    ensures !(testMode && maxCards.Some? && maxCards.value != 0) ==> r == files
  {
    if testMode && maxCards.Some? && maxCards.value != 0 then Take(files, maxCards.value) else files
  }

  /** The number of batch starts 0, size, 2*size, ... below n. */
  function NumBatches(n: nat, size: nat): nat
    requires size > 0
  {
    (n + size - 1) / size
  }

  lemma MulLe(a: nat, b: nat, c: nat)
    requires a <= b
    ensures a * c <= b * c
  {
  }

  /** Every batch start is inside the list, and the batches reach its end. */
  lemma BatchBounds(n: nat, size: nat)
    requires size > 0
    ensures forall k :: 0 <= k < NumBatches(n, size) ==> k * size < n
    ensures n <= NumBatches(n, size) * size
  {
    var q := NumBatches(n, size);
    var r := (n + size - 1) % size;
    assert n + size - 1 == q * size + r;
    forall k | 0 <= k < q
      ensures k * size < n
    {
      MulLe(k + 1, q, size);
      assert (k + 1) * size == k * size + size;
    }
  }

  /** The slices of `size` consecutive files starting at every multiple of `size`, the last one possibly shorter. */
  function Batches<T>(files: seq<T>, size: nat): (b: seq<seq<T>>)
    requires size > 0
    ensures |b| == NumBatches(|files|, size)
  {
    BatchBounds(|files|, size);
    seq(NumBatches(|files|, size), k requires 0 <= k < NumBatches(|files|, size) =>
      files[k * size .. Min(k * size + size, |files|)])
  }

  /** The concatenation of a list of lists. */
  function Concat<T>(bs: seq<seq<T>>): (r: seq<T>)
    decreases |bs|
  {
    if |bs| == 0 then [] else Concat(bs[..|bs| - 1]) + bs[|bs| - 1]
  }

  /** One batch: the slice from its start, of `size` elements or up to the end. */
  lemma BatchAt<T>(files: seq<T>, size: nat, k: nat)
    requires size > 0 && k < |Batches(files, size)|
    ensures k * size < |files|
    ensures Batches(files, size)[k] == files[k * size .. Min(k * size + size, |files|)]
  {
    BatchBounds(|files|, size);
  }

  lemma MulPred(k: nat, size: nat)
    requires k > 0
    ensures (k - 1) * size + size == k * size
  {
  }

  lemma {:induction false} BatchesPrefix<T>(files: seq<T>, size: nat, k: nat)
    requires size > 0 && k <= |Batches(files, size)|
    ensures Concat(Batches(files, size)[..k]) == files[..Min(k * size, |files|)]
    decreases k
  {
    var b := Batches(files, size);
    if k > 0 {
      BatchesPrefix(files, size, k - 1);
      BatchAt(files, size, k - 1);
      MulPred(k, size);
      var lo := (k - 1) * size;
      var hi := Min(k * size, |files|);
      assert b[..k][..k - 1] == b[..k - 1];
      assert Concat(b[..k]) == Concat(b[..k - 1]) + b[k - 1];
      assert files[..lo] + files[lo..hi] == files[..hi];
    }
  }

  /**
   * The batches cut the list into consecutive non-empty pieces of at most
   * `size` elements, all but the last of exactly `size`, whose
   * concatenation is the list.
   */
  lemma BatchesSpec<T>(files: seq<T>, size: nat)
    requires size > 0
    ensures forall k :: 0 <= k < |Batches(files, size)| ==> 0 < |Batches(files, size)[k]| <= size
    ensures forall k :: 0 <= k < |Batches(files, size)| - 1 ==> |Batches(files, size)[k]| == size
    ensures Concat(Batches(files, size)) == files
  {
    var b := Batches(files, size);
    BatchBounds(|files|, size);
    forall k | 0 <= k < |b| - 1
      ensures |b[k]| == size
    {
      assert (k + 1) * size == k * size + size;
    }
    BatchesPrefix(files, size, |b|);
    assert b[..|b|] == b;
  }

  // ---------------------------------------------------------------------
  // process_card_batch

  /** A card file: unreadable (its load raises), or the loaded fields used, with the outcome of fetching its image. */
  datatype CardFile =
    | Unreadable
    | CardFile(setCode: string, cardId: string, name: string, large: string, small: string, fetch: Fetch)

  datatype CardOutcome = Success | Failed | Skipped

  /** The `results` counters of a batch. */
  datatype BatchResults = BatchResults(success: nat, failed: nat, skipped: nat)

  /** The file stem of a card: its id, '_', and its name with spaces made '_'. */
  function CardStem(c: CardFile): string
    requires c.CardFile?
  {
    c.cardId + "_" + ReplaceWhere(c.name, (ch: char) => ch == ' ', '_')
  }

  function ImagePath(g: nat, c: CardFile): string
    requires 1 <= g <= 9 && c.CardFile?
  {
    GenerationKey(g) + "/cards/" + CardStem(c) + ".png"
  }

  function MetadataPath(g: nat, c: CardFile): string
    requires 1 <= g <= 9 && c.CardFile?
  {
    GenerationKey(g) + "/metadata/" + CardStem(c) + ".json"
  }

  /** The large image URL, or the small one when the large is missing or empty. */
  function ImageUrl(c: CardFile): string
    requires c.CardFile?
  {
    if c.large != "" then c.large else c.small
  }

  /** What one card does: its outcome, the files on disk after it, and the failure entries it appends. */
  datatype CardStep = CardStep(outcome: CardOutcome, disk: set<string>, failures: seq<string>)

  /** One iteration of the batch loop, on the files present on disk. */
  function ProcessCard(c: CardFile, disk: set<string>): (r: CardStep)
    ensures r.outcome != Success ==> r.disk == disk
    ensures disk <= r.disk
    ensures |r.failures| <= 1 && (|r.failures| == 1 ==> r.outcome == Failed)
  {
    match c
    case Unreadable => CardStep(Failed, disk, [])
    case CardFile(_, _, _, _, _, _) =>
      match GenerationForSet(c.setCode)
      case None => CardStep(Skipped, disk, [])
      case Some(g) =>
        if ImagePath(g, c) in disk && MetadataPath(g, c) in disk then CardStep(Skipped, disk, [])
        else if ImageUrl(c) == "" then CardStep(Failed, disk, [])
        else
          match c.fetch
          case Fetched => CardStep(Success, disk + {ImagePath(g, c), MetadataPath(g, c)}, [])
          case FetchFailed(e) => CardStep(Failed, disk, [ImagePath(g, c) + ": " + e])
  }

  /**
   * A card is skipped, with no download, exactly when it loads and its set
   * maps to no generation, or both its image and metadata files exist.
   */
  lemma SkippedSpec(c: CardFile, disk: set<string>)
    ensures ProcessCard(c, disk).outcome == Skipped <==>
      c.CardFile? &&
      (GenerationForSet(c.setCode).None? ||
       (ImagePath(GenerationForSet(c.setCode).value, c) in disk && MetadataPath(GenerationForSet(c.setCode).value, c) in disk))
  {
  }

  /** A card succeeds exactly when it gets past the skips, has an image URL and its fetch succeeds; both its files then exist. */
  lemma SuccessSpec(c: CardFile, disk: set<string>)
    ensures ProcessCard(c, disk).outcome == Success <==>
      c.CardFile? && GenerationForSet(c.setCode).Some? &&
      !(ImagePath(GenerationForSet(c.setCode).value, c) in disk && MetadataPath(GenerationForSet(c.setCode).value, c) in disk) &&
      ImageUrl(c) != "" && c.fetch.Fetched?
    ensures ProcessCard(c, disk).outcome == Success ==>
      ImagePath(GenerationForSet(c.setCode).value, c) in ProcessCard(c, disk).disk &&
      MetadataPath(GenerationForSet(c.setCode).value, c) in ProcessCard(c, disk).disk
  {
  }

  function Counted(r: BatchResults, o: CardOutcome): BatchResults {
    match o
    case Success => r.(success := r.success + 1)
    case Failed => r.(failed := r.failed + 1)
    case Skipped => r.(skipped := r.skipped + 1)
  }

  /** What a run over several cards does: the counters, the files on disk after it, and the failure entries appended. */
  datatype Run = Run(results: BatchResults, disk: set<string>, failures: seq<string>)

  /** The cards processed in order, each on the disk the previous ones left. */
  function RunCards(cards: seq<CardFile>, disk: set<string>): (r: Run)
    ensures r.results.success + r.results.failed + r.results.skipped == |cards|
    ensures |r.failures| <= r.results.failed
    ensures disk <= r.disk
    decreases |cards|
  {
    if |cards| == 0 then Run(BatchResults(0, 0, 0), disk, [])
    else
      var prev := RunCards(cards[..|cards| - 1], disk);
      var step := ProcessCard(cards[|cards| - 1], prev.disk);
      Run(Counted(prev.results, step.outcome), step.disk, prev.failures + step.failures)
  }

  function AddResults(a: BatchResults, b: BatchResults): BatchResults {
    BatchResults(a.success + b.success, a.failed + b.failed, a.skipped + b.skipped)
  }

  lemma AddZero(x: BatchResults)
    ensures AddResults(x, BatchResults(0, 0, 0)) == x
  {
  }

  lemma CountedAdd(x: BatchResults, y: BatchResults, o: CardOutcome)
    ensures Counted(AddResults(x, y), o) == AddResults(x, Counted(y, o))
  {
  }

  /** The last card's step of a non-empty run. */
  lemma RunLast(cards: seq<CardFile>, disk: set<string>)
    requires |cards| > 0
    ensures var prev := RunCards(cards[..|cards| - 1], disk);
      var step := ProcessCard(cards[|cards| - 1], prev.disk);
      RunCards(cards, disk) == Run(Counted(prev.results, step.outcome), step.disk, prev.failures + step.failures)
  {
  }

  /** The run of `a` then `b` from `disk`, as one run: counters add, failures concatenate. */
  ghost predicate ConcatRuns(a: seq<CardFile>, b: seq<CardFile>, disk: set<string>) {
    var ra := RunCards(a, disk);
    var rb := RunCards(b, ra.disk);
    RunCards(a + b, disk) == Run(AddResults(ra.results, rb.results), rb.disk, ra.failures + rb.failures)
  }

  /** Running two lists one after the other is running their concatenation: counters add, failures concatenate. */
  lemma {:induction false} RunConcat(a: seq<CardFile>, b: seq<CardFile>, disk: set<string>)
    ensures var ra := RunCards(a, disk);
      var rb := RunCards(b, ra.disk);
      RunCards(a + b, disk) == Run(AddResults(ra.results, rb.results), rb.disk, ra.failures + rb.failures)
    decreases |b|
  {
    if |b| == 0 {
      RunConcatEmpty(a, disk);
      assert a + b == a;
    } else {
      RunConcat(a, b[..|b| - 1], disk);
      RunConcatStep(a, b, disk);
    }
  }

  lemma RunConcatEmpty(a: seq<CardFile>, disk: set<string>)
    ensures ConcatRuns(a, [], disk)
  {
    var ra := RunCards(a, disk);
    assert a + [] == a;
    AddZero(ra.results);
    assert ra.failures + [] == ra.failures;
  }

  lemma RunConcatStep(a: seq<CardFile>, b: seq<CardFile>, disk: set<string>)
    requires |b| > 0 && ConcatRuns(a, b[..|b| - 1], disk)
    ensures ConcatRuns(a, b, disk)
  {
    var ra := RunCards(a, disk);
    var rb := RunCards(b, ra.disk);
    var b' := b[..|b| - 1];
    var rb' := RunCards(b', ra.disk);
    var step := ProcessCard(b[|b| - 1], rb'.disk);
    assert (a + b)[..|a + b| - 1] == a + b';
    assert (a + b)[|a + b| - 1] == b[|b| - 1];
    RunLast(a + b, disk);
    RunLast(b, ra.disk);
    RunCombine(ra, rb', rb, RunCards(a + b, disk), step);
  }

  /** One more step after `ra` then `rb'` is `ra` then (`rb'` plus that step). */
  lemma RunCombine(ra: Run, rb': Run, rb: Run, whole: Run, step: CardStep)
    requires whole == Run(Counted(AddResults(ra.results, rb'.results), step.outcome), step.disk, ra.failures + rb'.failures + step.failures)
    requires rb == Run(Counted(rb'.results, step.outcome), step.disk, rb'.failures + step.failures)
    ensures whole == Run(AddResults(ra.results, rb.results), rb.disk, ra.failures + rb.failures)
  {
    CountedAdd(ra.results, rb'.results, step.outcome);
    AppendAssoc(ra.failures, rb'.failures, step.failures);
  }

  lemma RunStep(cards: seq<CardFile>, i: nat, disk: set<string>)
    requires i < |cards|
    ensures var prev := RunCards(cards[..i], disk);
      var step := ProcessCard(cards[i], prev.disk);
      RunCards(cards[..i + 1], disk) == Run(Counted(prev.results, step.outcome), step.disk, prev.failures + step.failures)
  {
    assert cards[..i + 1][..i] == cards[..i];
  }

  lemma RunBatches(bs: seq<seq<CardFile>>, k: nat, disk: set<string>)
    requires k < |bs|
    ensures var ra := RunCards(Concat(bs[..k]), disk);
      var rb := RunCards(bs[k], ra.disk);
      RunCards(Concat(bs[..k + 1]), disk) == Run(AddResults(ra.results, rb.results), rb.disk, ra.failures + rb.failures)
  {
    assert bs[..k + 1][..k] == bs[..k];
    RunConcat(Concat(bs[..k]), bs[k], disk);
  }

  /** The integrator's state: the download counter, the failure list and the files under the output directory. */
  class Integrator {
    var downloadedCount: nat
    var failedDownloads: seq<string>
    var disk: set<string>

    constructor(files: set<string>)
      ensures downloadedCount == 0 && failedDownloads == [] && disk == files
    {
      downloadedCount := 0;
      failedDownloads := [];
      disk := files;
    }

    /** `download_card_image`: no URL is a plain failure; a failed fetch also records the target path and the error. */
    method DownloadCardImage(c: CardFile, target: string) returns (ok: bool)
      requires c.CardFile?
      modifies this
      ensures ok <==> ImageUrl(c) != "" && c.fetch.Fetched?
      ensures disk == if ok then old(disk) + {target} else old(disk)
      ensures failedDownloads == old(failedDownloads) +
        (if ImageUrl(c) != "" && c.fetch.FetchFailed? then [target + ": " + c.fetch.error] else [])
      ensures downloadedCount == old(downloadedCount)
    {
      var url := ImageUrl(c);
      if url == "" {
        return false;
      }
      match c.fetch
      case Fetched =>
        disk := disk + {target};
        ok := true;
      case FetchFailed(e) =>
        failedDownloads := failedDownloads + [target + ": " + e];
        ok := false;
    }

    /** One card of `process_card_batch`. */
    method ProcessCardFile(c: CardFile) returns (outcome: CardOutcome)
      modifies this
      ensures var step := ProcessCard(c, old(disk));
        outcome == step.outcome && disk == step.disk && failedDownloads == old(failedDownloads) + step.failures &&
        downloadedCount == old(downloadedCount) + (if outcome == Success then 1 else 0)
    {
      if c.Unreadable? {
        return Failed;
      }
      var generation := GenerationForSet(c.setCode);
      if generation.None? {
        return Skipped;
      }
      var g := generation.value;
      var imagePath := ImagePath(g, c);
      var metadataPath := MetadataPath(g, c);
      if imagePath in disk && metadataPath in disk {
        return Skipped;
      }
      var ok := DownloadCardImage(c, imagePath);
      if ok {
        disk := disk + {metadataPath};
        downloadedCount := downloadedCount + 1;
        outcome := Success;
      } else {
        outcome := Failed;
      }
    }

    /** `process_card_batch`: the counters, the disk and the failures are those of running the cards in order; `downloaded_count` grows by the successes. */
    method ProcessCardBatch(batch: seq<CardFile>) returns (results: BatchResults)
      modifies this
      ensures var run := RunCards(batch, old(disk));
        results == run.results && disk == run.disk && failedDownloads == old(failedDownloads) + run.failures &&
        downloadedCount == old(downloadedCount) + results.success
    {
      results := BatchResults(0, 0, 0);
      var i := 0;
      while i < |batch|
        invariant 0 <= i <= |batch|
        invariant var run := RunCards(batch[..i], old(disk));
          results == run.results && disk == run.disk && failedDownloads == old(failedDownloads) + run.failures &&
          downloadedCount == old(downloadedCount) + results.success
      {
        RunStep(batch, i, old(disk));
        var outcome := ProcessCardFile(batch[i]);
        results := Counted(results, outcome);
        i := i + 1;
      }
      assert batch[..i] == batch;
    }

    /**
     * `download_all_cards`, with the batches run one after another: the
     * totals are the per-key sums of the batch results, which are those of
     * running the (test-mode-limited) card list in order.
     */
    method DownloadAllCards(cards: seq<CardFile>, testMode: bool, maxCards: Option<nat>, batchSize: nat) returns (totals: BatchResults)
      requires batchSize > 0
      modifies this
      ensures var run := RunCards(Limited(cards, testMode, maxCards), old(disk));
        totals == run.results && disk == run.disk && failedDownloads == old(failedDownloads) + run.failures &&
        downloadedCount == old(downloadedCount) + totals.success
    {
      var files := Limited(cards, testMode, maxCards);
      var batches := Batches(files, batchSize);
      BatchesSpec(files, batchSize);
      totals := BatchResults(0, 0, 0);
      var k := 0;
      while k < |batches|
        invariant 0 <= k <= |batches|
        invariant var run := RunCards(Concat(batches[..k]), old(disk));
          totals == run.results && disk == run.disk && failedDownloads == old(failedDownloads) + run.failures &&
          downloadedCount == old(downloadedCount) + totals.success
      {
        RunBatches(batches, k, old(disk));
        ghost var before := RunCards(Concat(batches[..k]), old(disk));
        var results := ProcessCardBatch(batches[k]);
        AppendAssoc(old(failedDownloads), before.failures, RunCards(batches[k], before.disk).failures);
        totals := AddResults(totals, results);
        k := k + 1;
      }
      assert batches[..k] == batches;
    }
  }

  // ---------------------------------------------------------------------
  // create_master_index

  /** One indexed card: its id (the image's stem), its image path, and its metadata path when that file exists. */
  datatype CardEntry = CardEntry(id: string, imagePath: string, metadataPath: Option<string>)

  /** A generation's index entry; its era, description and sets are the mapping's. */
  datatype GenerationIndex = GenerationIndex(cardCount: nat, cards: seq<CardEntry>)

  datatype MasterIndex = MasterIndex(totalCards: nat, totalGenerations: nat, summary: map<nat, nat>, generations: map<nat, GenerationIndex>)

  /** The stem of a file name: the name without its last suffix. */
  function Stem(name: string): (r: string)
    ensures |r| <= |name| && r == name[..|r|]
  {
    var i := RFind(name, '.');
    if 0 < i < |name| - 1 then name[..i] else name
  }

  function CardEntryOf(g: nat, name: string, disk: set<string>): (e: CardEntry)
    requires 1 <= g <= 9
  {
    var id := Stem(name);
    var metadata := GenerationKey(g) + "/metadata/" + id + ".json";
    CardEntry(id, GenerationKey(g) + "/cards/" + name, if metadata in disk then Some(metadata) else None)
  }

  /** The entries of the first 50 card images, in listing order. */
  function CardEntries(g: nat, names: seq<string>, disk: set<string>): (cards: seq<CardEntry>)
    requires 1 <= g <= 9
    ensures |cards| <= 50 && |cards| <= |names|
    ensures forall i :: 0 <= i < |cards| ==> cards[i] == CardEntryOf(g, names[i], disk)
  {
    MapSeq(Take(names, 50), (name: string) => CardEntryOf(g, name, disk))
  }

  /** The sum of a summary's counts over generations 1..n. */
  function SummaryTotal(summary: map<nat, nat>, n: nat): nat {
    if n == 0 then 0 else SummaryTotal(summary, n - 1) + (if n in summary then summary[n] else 0)
  }

  lemma {:induction false} SummaryTotalAbove(summary: map<nat, nat>, k: nat, v: nat, n: nat)
    requires n < k
    ensures SummaryTotal(summary[k := v], n) == SummaryTotal(summary, n)
  {
    if n > 0 {
      SummaryTotalAbove(summary, k, v, n - 1);
    }
  }

  /** The card-entry loop of one generation. */
  method ListCards(g: nat, names: seq<string>, disk: set<string>) returns (cards: seq<CardEntry>)
    requires 1 <= g <= 9
    ensures cards == CardEntries(g, names, disk)
  {
    cards := [];
    var limited := Take(names, 50);
    var i := 0;
    while i < |limited|
      invariant 0 <= i <= |limited|
      invariant cards == CardEntries(g, names, disk)[..i]
    {
      cards := cards + [CardEntryOf(g, limited[i], disk)];
      i := i + 1;
    }
  }

  /** The summary and generation entries hold exactly the generations below `g` whose cards directory exists. */
  ghost predicate IndexedBelow(summary: map<nat, nat>, generations: map<nat, GenerationIndex>, cardsDirs: map<nat, seq<string>>, disk: set<string>, g: nat) {
    summary == (map h | h in cardsDirs && 1 <= h < g :: |cardsDirs[h]|) &&
    generations.Keys == summary.Keys &&
    forall h :: h in generations ==>
      1 <= h <= 9 && h in cardsDirs &&
      generations[h] == GenerationIndex(|cardsDirs[h]|, CardEntries(h, cardsDirs[h], disk))
  }

  lemma IndexedNext(summary: map<nat, nat>, generations: map<nat, GenerationIndex>, cardsDirs: map<nat, seq<string>>, disk: set<string>, g: nat)
    requires 1 <= g <= 9 && IndexedBelow(summary, generations, cardsDirs, disk, g)
    ensures g !in cardsDirs ==> IndexedBelow(summary, generations, cardsDirs, disk, g + 1)
    ensures g in cardsDirs ==> IndexedBelow(summary[g := |cardsDirs[g]|],
      generations[g := GenerationIndex(|cardsDirs[g]|, CardEntries(g, cardsDirs[g], disk))], cardsDirs, disk, g + 1)
  {
  }

  lemma IndexedAll(summary: map<nat, nat>, generations: map<nat, GenerationIndex>, cardsDirs: map<nat, seq<string>>, disk: set<string>)
    requires IndexedBelow(summary, generations, cardsDirs, disk, 10)
    ensures summary == map g | g in cardsDirs && 1 <= g <= 9 :: |cardsDirs[g]|
    ensures generations.Keys == summary.Keys
    ensures forall g :: g in generations ==>
      1 <= g <= 9 && g in cardsDirs &&
      generations[g] == GenerationIndex(|cardsDirs[g]|, CardEntries(g, cardsDirs[g], disk))
  {
  }

  /**
   * `create_master_index`: generations 1..9 in order, each whose cards
   * directory exists (`cards_dirs` maps it to its .png names) counted in
   * full, with at most its first 50 cards listed; `total_cards` is the sum
   * of the summary's counts.
   */
  method CreateMasterIndex(cardsDirs: map<nat, seq<string>>, disk: set<string>) returns (index: MasterIndex)
    ensures index.totalGenerations == 9
    ensures index.summary == map g | g in cardsDirs && 1 <= g <= 9 :: |cardsDirs[g]|
    ensures index.generations.Keys == index.summary.Keys
    ensures forall g :: g in index.generations ==>
      1 <= g <= 9 && g in cardsDirs &&
      index.generations[g] == GenerationIndex(|cardsDirs[g]|, CardEntries(g, cardsDirs[g], disk))
    ensures index.totalCards == SummaryTotal(index.summary, 9)
  {
    var summary: map<nat, nat> := map[];
    var generations: map<nat, GenerationIndex> := map[];
    var total := 0;
    var g := 1;
    while g <= 9
      invariant 1 <= g <= 10
      invariant IndexedBelow(summary, generations, cardsDirs, disk, g)
      invariant total == SummaryTotal(summary, g - 1)
    {
      IndexedNext(summary, generations, cardsDirs, disk, g);
      if g in cardsDirs {
        var names := cardsDirs[g];
        var cards := ListCards(g, names, disk);
        SummaryTotalAbove(summary, g, |names|, g - 1);
        generations := generations[g := GenerationIndex(|names|, cards)];
        summary := summary[g := |names|];
        total := total + |names|;
      }
      g := g + 1;
    }
    IndexedAll(summary, generations, cardsDirs, disk);
    index := MasterIndex(total, 9, summary, generations);
  }
}
