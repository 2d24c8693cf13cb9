/*
 * The animation-probe bookkeeping of the TCG galleries scraper
 * (tcg_animation_focused_scraper.py).
 *
 * The browser is reduced to a Driver that answers each action (a
 * screenshot, a click, a hover move, an element lookup, a scroll) with
 * success or failure, read from a fixed script of outcomes. What remains
 * is the sequencing of the probes, the records they return and the
 * counters in `stats`.
 */
module TcgAnimation {
  import opened Collections
  import PyText

  /** The outcome of action number `j` of the script; past its end, actions fail. */
  predicate Ok(outs: seq<bool>, j: nat) { j < |outs| && outs[j] }

  /** How many of the `n` actions starting at `from` succeed before the first failure. */
  function Run(outs: seq<bool>, from: nat, n: nat): (k: nat)
    ensures k <= n
    decreases n
  {
    if n == 0 || !Ok(outs, from) then 0 else 1 + Run(outs, from + 1, n - 1)
  }

  /** A run of `n` actions that stops at its first failure performs this many actions. */
  function Used(outs: seq<bool>, from: nat, n: nat): (u: nat)
    ensures u <= n
  {
    if Run(outs, from, n) == n then n else Run(outs, from, n) + 1
  }

  lemma {:induction false} RunExtend(outs: seq<bool>, from: nat, i: nat)
    requires Run(outs, from, i) == i
    ensures Run(outs, from, i + 1) == if Ok(outs, from + i) then i + 1 else i
    decreases i
  {
    if i > 0 {
      RunExtend(outs, from + 1, i - 1);
    }
  }

  lemma {:induction false} RunStops(outs: seq<bool>, from: nat, i: nat, n: nat)
    requires i < n && Run(outs, from, i) == i && !Ok(outs, from + i)
    ensures Run(outs, from, n) == i
    decreases i
  {
    if i > 0 {
      RunStops(outs, from + 1, i - 1, n - 1);
    }
  }

  /** A run succeeds entirely exactly when each of its actions succeeds. */
  lemma {:induction false} RunAll(outs: seq<bool>, from: nat, n: nat)
    ensures Run(outs, from, n) == n <==> forall j :: from <= j < from + n ==> Ok(outs, j)
    decreases n
  {
    if n > 0 {
      RunAll(outs, from + 1, n - 1);
    }
  }

  /** The browser: each action consumes the next outcome of the script. */
  class Driver {
    const outcomes: seq<bool>
    var pos: nat

    constructor (outcomes: seq<bool>)
      ensures this.outcomes == outcomes && pos == 0
    {
      this.outcomes := outcomes;
      pos := 0;
    }

    method Act() returns (ok: bool)
      modifies this
      ensures pos == old(pos) + 1
      ensures ok == Ok(outcomes, old(pos))
    {
      ok := pos < |outcomes| && outcomes[pos];
      pos := pos + 1;
    }
  }

  /** Sleeps of the opening sequence, in tenths of a second (0, 0.5, ..., 4.0 s). */
  const Intervals: seq<nat> := [0, 5, 10, 15, 20, 30, 40]
  /** Frames captured after a click. */
  const ClickFrames: nat := 5
  /** Frames of the continuous probe: int(6 / 0.3). */
  const ContinuousFrames: nat := 20
  /** Galleries and cards probed at most. */
  const GalleryLimit: nat := 5
  const CardLimit: nat := 10

  /** One entry of `animation_data['animations_captured']`; frame paths are kept as their indices. */
  datatype Record =
    | Opening(cardIndex: nat, step: nat, offset: nat)
    | Hover(cardIndex: nat)
    | Click(cardIndex: nat, frameCount: nat)
    | Continuous(cardIndex: nat, frameCount: nat)
    | Gallery(galleryIndex: nat, title: string, clicked: bool)

  /** The counters of `self.stats`. */
  datatype Stats = Stats(
    cardsFound: int, animationsCaptured: int, hoverEffectsRecorded: int,
    clickInteractionsRecorded: int, videosRecorded: int, screenshotsTaken: int,
    cssAnimationsExtracted: int, javascriptInteractionsFound: int,
    totalFilesCreated: int, errors: int)

  /** The screenshots that `screenshots_taken` counts for a record (gallery shots are not counted). */
  function Shots(r: Record): nat {
    match r
    case Opening(_, _, _) => 1
    case Hover(_) => 3
    case Click(_, n) => 1 + n
    case Continuous(_, n) => n
    case Gallery(_, _, _) => 0
  }

  function TotalShots(rs: seq<Record>): nat
    decreases |rs|
  {
    if |rs| == 0 then 0 else TotalShots(rs[..|rs| - 1]) + Shots(rs[|rs| - 1])
  }

  lemma {:induction false} TotalShotsConcat(a: seq<Record>, b: seq<Record>)
    ensures TotalShots(a + b) == TotalShots(a) + TotalShots(b)
    decreases |b|
  {
    if |b| > 0 {
      assert (a + b)[..|a + b| - 1] == a + b[..|b| - 1];
      TotalShotsConcat(a, b[..|b| - 1]);
    } else {
      assert a + b == a;
    }
  }

  predicate IsHover(r: Record) { r.Hover? }
  predicate IsClick(r: Record) { r.Click? }
  predicate IsClickedGallery(r: Record) { r.Gallery? && r.clicked }

  /**
   * The counters that a sequence of records accounts for: the screenshots
   * behind them, the hover and click records, and the clicked galleries
   * (`animations_captured`). Every other counter is left as it is.
   */
  function Ledger(s: Stats, rs: seq<Record>): Stats {
    s.(screenshotsTaken := s.screenshotsTaken + TotalShots(rs),
       hoverEffectsRecorded := s.hoverEffectsRecorded + CountWhere(rs, IsHover),
       clickInteractionsRecorded := s.clickInteractionsRecorded + CountWhere(rs, IsClick),
       animationsCaptured := s.animationsCaptured + CountWhere(rs, IsClickedGallery))
  }

  lemma LedgerConcat(s: Stats, a: seq<Record>, b: seq<Record>)
    ensures Ledger(Ledger(s, a), b) == Ledger(s, a + b)
  {
    CountsConcat(a, b);
  }

  lemma SingleCounts(r: Record)
    ensures TotalShots([r]) == Shots(r)
    ensures CountWhere([r], IsHover) == (if r.Hover? then 1 else 0)
    ensures CountWhere([r], IsClick) == (if r.Click? then 1 else 0)
    ensures CountWhere([r], IsClickedGallery) == (if r.Gallery? && r.clicked then 1 else 0)
  {
    assert [r][..0] == [];
  }

  /** The records' ledger leaves the extraction counters alone, so overwriting them commutes with it. */
  lemma LedgerOverwrite(s: Stats, rs: seq<Record>, css: int, js: int)
    ensures Ledger(s, rs).(cssAnimationsExtracted := css, javascriptInteractionsFound := js) ==
      Ledger(s.(cssAnimationsExtracted := css, javascriptInteractionsFound := js), rs)
  {
  }

  /** What one record adds to the counters. */
  lemma LedgerSingle(s: Stats, r: Record)
    ensures Ledger(s, [r]) == s.(
      screenshotsTaken := s.screenshotsTaken + Shots(r),
      hoverEffectsRecorded := s.hoverEffectsRecorded + (if r.Hover? then 1 else 0),
      clickInteractionsRecorded := s.clickInteractionsRecorded + (if r.Click? then 1 else 0),
      animationsCaptured := s.animationsCaptured + (if r.Gallery? && r.clicked then 1 else 0))
  {
    SingleCounts(r);
  }

  /** A counter that an extraction overwrites with its item count, unless it raised (`None`). */
  function Overwritten(count: int, found: PyText.Option<nat>): (r: int)
    ensures found.Some? ==> r == found.value
    ensures found.None? ==> r == count
  {
    match found
    case Some(n) => n
    case None => count
  }

  /** The first `k` records of a card's opening sequence. */
  function OpeningRecords(cardIndex: nat, k: nat): (rs: seq<Record>)
    requires k <= |Intervals|
    ensures |rs| == k
    ensures forall i :: 0 <= i < k ==> rs[i] == Opening(cardIndex, i, Intervals[i])
    decreases k
  {
    if k == 0 then []
    else OpeningRecords(cardIndex, k - 1) + [Opening(cardIndex, k - 1, Intervals[k - 1])]
  }

  /** Opening records account for one screenshot each and nothing else. */
  lemma {:induction false} OpeningOnlyCounts(rs: seq<Record>)
    requires forall i :: 0 <= i < |rs| ==> rs[i].Opening?
    ensures TotalShots(rs) == |rs| && CountWhere(rs, IsHover) == 0 && CountWhere(rs, IsClick) == 0 &&
      CountWhere(rs, IsClickedGallery) == 0
    decreases |rs|
  {
    if |rs| > 0 {
      OpeningOnlyCounts(rs[..|rs| - 1]);
    }
  }

  /** An opening sequence only adds its screenshots, one per step. */
  lemma OpeningCounts(cardIndex: nat, k: nat)
    requires k <= |Intervals|
    ensures var rs := OpeningRecords(cardIndex, k);
      TotalShots(rs) == k && CountWhere(rs, IsHover) == 0 && CountWhere(rs, IsClick) == 0 &&
      CountWhere(rs, IsClickedGallery) == 0
  {
    OpeningOnlyCounts(OpeningRecords(cardIndex, k));
  }

  /**
   * The records of one card: the first `k` opening steps, then the hover,
   * click and continuous records for the probes that succeeded.
   */
  function CardRecords(ci: nat, k: nat, hover: bool, click: bool, continuous: bool): seq<Record>
    requires k <= |Intervals|
  {
    OpeningRecords(ci, k)
    + (if hover then [Hover(ci)] else [])
    + (if click then [Click(ci, ClickFrames)] else [])
    + (if continuous then [Continuous(ci, ContinuousFrames)] else [])
  }

  /** The record a probe returned, if any, kept only when the probe returned one. */
  function Present(r: PyText.Option<Record>): (rs: seq<Record>)
    ensures |rs| <= 1
  {
    if r.Some? then [r.value] else []
  }

  /** The outcome of the four probes of one card, and the script position after them. */
  datatype Probes = Probes(openingSteps: nat, hover: bool, click: bool, continuous: bool, end: nat)

  /** The probes of a card whose element was found and scrolled to, from script position `p1`. */
  function CardProbes(outs: seq<bool>, p1: nat): (r: Probes)
    ensures r.openingSteps <= |Intervals|
  {
    var p2 := p1 + Used(outs, p1, |Intervals|);
    var p3 := p2 + Used(outs, p2, 5);
    var p4 := p3 + Used(outs, p3, 2 + ClickFrames);
    Probes(Run(outs, p1, |Intervals|), Run(outs, p2, 5) == 5,
           Run(outs, p3, 2 + ClickFrames) == 2 + ClickFrames,
           Run(outs, p4, ContinuousFrames) == ContinuousFrames,
           p4 + Used(outs, p4, ContinuousFrames))
  }

  /** The probe outcomes, given the script positions at which the probes start and end. */
  lemma ProbesAt(outs: seq<bool>, p1: nat, p2: nat, p3: nat, p4: nat, p5: nat)
    requires p2 == p1 + Used(outs, p1, |Intervals|)
    requires p3 == p2 + Used(outs, p2, 5)
    requires p4 == p3 + Used(outs, p3, 2 + ClickFrames)
    requires p5 == p4 + Used(outs, p4, ContinuousFrames)
    ensures CardProbes(outs, p1) == Probes(Run(outs, p1, |Intervals|), Run(outs, p2, 5) == 5,
      Run(outs, p3, 2 + ClickFrames) == 2 + ClickFrames, Run(outs, p4, ContinuousFrames) == ContinuousFrames, p5)
  {
  }

  /** What the probes of one card yield, and the script position after them. */
  function CardRun(outs: seq<bool>, p0: nat, ci: nat): (seq<Record>, nat)
  {
    // locate the card element, then scroll it into view
    if Run(outs, p0, 2) < 2 then ([], p0 + Used(outs, p0, 2))
    else
      var r := CardProbes(outs, p0 + 2);
      (CardRecords(ci, r.openingSteps, r.hover, r.click, r.continuous), r.end)
  }

  /** Every record is a card record about card `ci`. */
  predicate AllAbout(rs: seq<Record>, ci: nat) {
    forall i :: 0 <= i < |rs| ==> !rs[i].Gallery? && rs[i].cardIndex == ci
  }

  lemma AllAboutConcat(a: seq<Record>, b: seq<Record>, ci: nat)
    requires AllAbout(a, ci) && AllAbout(b, ci)
    ensures AllAbout(a + b, ci)
  {
    forall i | 0 <= i < |a + b|
      ensures !(a + b)[i].Gallery? && (a + b)[i].cardIndex == ci
    {
      if i >= |a| { assert (a + b)[i] == b[i - |a|]; }
    }
  }

  /** The records of a card are all about that card. */
  lemma CardRecordsAbout(ci: nat, k: nat, hover: bool, click: bool, continuous: bool)
    requires k <= |Intervals|
    ensures AllAbout(CardRecords(ci, k, hover, click, continuous), ci)
  {
    var opening := OpeningRecords(ci, k);
    var hs: seq<Record> := if hover then [Hover(ci)] else [];
    var cs: seq<Record> := if click then [Click(ci, ClickFrames)] else [];
    var ns: seq<Record> := if continuous then [Continuous(ci, ContinuousFrames)] else [];
    AllAboutConcat(opening, hs, ci);
    AllAboutConcat(opening + hs, cs, ci);
    AllAboutConcat(opening + hs + cs, ns, ci);
  }

  /**
   * A card yields at most 7 + 3 records, starting with its opening steps
   * 0, 1, ... in order.
   */
  lemma CardRecordsShape(ci: nat, k: nat, hover: bool, click: bool, continuous: bool)
    requires k <= |Intervals|
    ensures var rs := CardRecords(ci, k, hover, click, continuous);
      |rs| <= |Intervals| + 3 &&
      (forall i :: 0 <= i < |rs| && rs[i].Opening? ==> rs[i] == Opening(ci, i, Intervals[i]))
  {
  }

  /** The screenshots the records of a card account for. */
  lemma CardShots(ci: nat, k: nat, hover: bool, click: bool, continuous: bool)
    requires k <= |Intervals|
    ensures TotalShots(CardRecords(ci, k, hover, click, continuous)) ==
      k + (if hover then 3 else 0) + (if click then 1 + ClickFrames else 0) + (if continuous then ContinuousFrames else 0)
  {
    var opening := OpeningRecords(ci, k);
    var hs: seq<Record> := if hover then [Hover(ci)] else [];
    var cs: seq<Record> := if click then [Click(ci, ClickFrames)] else [];
    var ns: seq<Record> := if continuous then [Continuous(ci, ContinuousFrames)] else [];
    OpeningCounts(ci, k);
    SingleCounts(Hover(ci));
    SingleCounts(Click(ci, ClickFrames));
    SingleCounts(Continuous(ci, ContinuousFrames));
    TotalShotsConcat(opening, hs);
    TotalShotsConcat(opening + hs, cs);
    TotalShotsConcat(opening + hs + cs, ns);
  }

  /** The hover and click records of a card, and no clicked gallery. */
  lemma CardTallies(ci: nat, k: nat, hover: bool, click: bool, continuous: bool)
    requires k <= |Intervals|
    ensures var rs := CardRecords(ci, k, hover, click, continuous);
      CountWhere(rs, IsHover) == (if hover then 1 else 0) &&
      CountWhere(rs, IsClick) == (if click then 1 else 0) &&
      CountWhere(rs, IsClickedGallery) == 0
  {
    var opening := OpeningRecords(ci, k);
    var hs: seq<Record> := if hover then [Hover(ci)] else [];
    var cs: seq<Record> := if click then [Click(ci, ClickFrames)] else [];
    var ns: seq<Record> := if continuous then [Continuous(ci, ContinuousFrames)] else [];
    OpeningCounts(ci, k);
    SingleCounts(Hover(ci));
    SingleCounts(Click(ci, ClickFrames));
    SingleCounts(Continuous(ci, ContinuousFrames));
    FilterConcat(opening, hs, IsHover);
    FilterConcat(opening + hs, cs, IsHover);
    FilterConcat(opening + hs + cs, ns, IsHover);
    FilterConcat(opening, hs, IsClick);
    FilterConcat(opening + hs, cs, IsClick);
    FilterConcat(opening + hs + cs, ns, IsClick);
    FilterConcat(opening, hs, IsClickedGallery);
    FilterConcat(opening + hs, cs, IsClickedGallery);
    FilterConcat(opening + hs + cs, ns, IsClickedGallery);
  }

  /** The records `capture_card_animations` assembles are those its spec function describes. */
  lemma CardAssembled(outs: seq<bool>, p0: nat, ci: nat, opening: seq<Record>, hover: PyText.Option<Record>,
                      click: PyText.Option<Record>, continuous: PyText.Option<Record>, end: nat)
    requires Run(outs, p0, 2) == 2
    requires CardProbes(outs, p0 + 2) == Probes(|opening|, hover.Some?, click.Some?, continuous.Some?, end)
    requires |opening| <= |Intervals| && opening == OpeningRecords(ci, |opening|)
    requires hover.Some? ==> hover.value == Hover(ci)
    requires click.Some? ==> click.value == Click(ci, ClickFrames)
    requires continuous.Some? ==> continuous.value == Continuous(ci, ContinuousFrames)
    ensures CardRun(outs, p0, ci) == (opening + Present(hover) + Present(click) + Present(continuous), end)
  {
  }

  /** What the probes of a card add to the counters. */
  lemma CardLedger(ci: nat, opening: seq<Record>, hover: PyText.Option<Record>,
                   click: PyText.Option<Record>, continuous: PyText.Option<Record>)
    requires |opening| <= |Intervals| && opening == OpeningRecords(ci, |opening|)
    requires hover.Some? ==> hover.value == Hover(ci)
    requires click.Some? ==> click.value == Click(ci, ClickFrames)
    requires continuous.Some? ==> continuous.value == Continuous(ci, ContinuousFrames)
    ensures var rs := opening + Present(hover) + Present(click) + Present(continuous);
      TotalShots(rs) == |opening| + (if hover.Some? then 3 else 0)
        + (if click.Some? then 1 + ClickFrames else 0) + (if continuous.Some? then ContinuousFrames else 0) &&
      CountWhere(rs, IsHover) == (if hover.Some? then 1 else 0) &&
      CountWhere(rs, IsClick) == (if click.Some? then 1 else 0) &&
      CountWhere(rs, IsClickedGallery) == 0
  {
    assert opening + Present(hover) + Present(click) + Present(continuous)
        == CardRecords(ci, |opening|, hover.Some?, click.Some?, continuous.Some?);
    CardShots(ci, |opening|, hover.Some?, click.Some?, continuous.Some?);
    CardTallies(ci, |opening|, hover.Some?, click.Some?, continuous.Some?);
  }

  lemma CountsConcat(a: seq<Record>, b: seq<Record>)
    ensures TotalShots(a + b) == TotalShots(a) + TotalShots(b)
    ensures CountWhere(a + b, IsHover) == CountWhere(a, IsHover) + CountWhere(b, IsHover)
    ensures CountWhere(a + b, IsClick) == CountWhere(a, IsClick) + CountWhere(b, IsClick)
    ensures CountWhere(a + b, IsClickedGallery) == CountWhere(a, IsClickedGallery) + CountWhere(b, IsClickedGallery)
  {
    TotalShotsConcat(a, b);
    FilterConcat(a, b, IsHover);
    FilterConcat(a, b, IsClick);
    FilterConcat(a, b, IsClickedGallery);
  }

  lemma CardRunShape(outs: seq<bool>, p0: nat, ci: nat)
    ensures var rs := CardRun(outs, p0, ci).0;
      |rs| <= |Intervals| + 3 &&
      AllAbout(rs, ci) &&
      (forall i :: 0 <= i < |rs| && rs[i].Opening? ==> rs[i] == Opening(ci, i, Intervals[i])) &&
      TotalShots(rs) <= |Intervals| + 3 + 6 + ContinuousFrames
  {
    if Run(outs, p0, 2) == 2 {
      var r := CardProbes(outs, p0 + 2);
      CardRecordsShape(ci, r.openingSteps, r.hover, r.click, r.continuous);
      CardRecordsAbout(ci, r.openingSteps, r.hover, r.click, r.continuous);
      CardShots(ci, r.openingSteps, r.hover, r.click, r.continuous);
    }
  }

  function Trues(n: nat): (r: seq<bool>)
    ensures |r| == n && forall i :: 0 <= i < n ==> r[i]
  {
    seq(n, i => true)
  }

  lemma RunAllTrue(outs: seq<bool>, from: nat, n: nat)
    requires from + n <= |outs| && forall j :: from <= j < from + n ==> outs[j]
    ensures Run(outs, from, n) == n && Used(outs, from, n) == n
  {
    RunAll(outs, from, n);
  }

  /**
   * An illustration on one fixed script, not a general property: the hover
   * probe fails at its first action, yet the click and continuous probes
   * that follow still record.
   */
  lemma HoverFailureIsolated()
    ensures var outs := [true, true] + Trues(7) + [false] + Trues(7 + 20);
      CardRun(outs, 0, 3).0 ==
        OpeningRecords(3, 7) + [Click(3, 5), Continuous(3, 20)]
  {
    var outs := [true, true] + Trues(7) + [false] + Trues(7 + 20);
    RunAllTrue(outs, 0, 2);
    RunAllTrue(outs, 2, 7);
    assert Run(outs, 9, 5) == 0;
    RunAllTrue(outs, 10, 7);
    RunAllTrue(outs, 17, 20);
    ProbesAt(outs, 2, 9, 10, 17, 37);
  }

  /** A unique card element, identified as Python's `id(card)` identifies it. */
  datatype Element = Element(ident: int)

  function Ident(e: Element): int { e.ident }

  /** An analysed card: its position among the unique elements, and its identity. */
  datatype Card = Card(index: nat, ident: int)

  /** The cards kept from the unique elements, given the outcome of each one's analysis. */
  function Analyzed(unique: seq<Element>, outs: seq<bool>, p0: nat): (cards: seq<Card>)
    ensures |cards| <= |unique|
    ensures forall k :: 0 <= k < |cards| ==>
      cards[k].index < |unique| && cards[k].ident == unique[cards[k].index].ident
    decreases |unique|
  {
    if |unique| == 0 then []
    else
      var i := |unique| - 1;
      Analyzed(unique[..i], outs, p0) + (if Ok(outs, p0 + i) then [Card(i, unique[i].ident)] else [])
  }

  predicate Ordered(cards: seq<Card>) {
    forall a, b :: 0 <= a < b < |cards| ==> cards[a].index < cards[b].index
  }

  /** The kept cards are in the order of the unique elements. */
  lemma {:induction false} AnalyzedOrdered(unique: seq<Element>, outs: seq<bool>, p0: nat)
    ensures Ordered(Analyzed(unique, outs, p0))
    decreases |unique|
  {
    if |unique| > 0 {
      var i := |unique| - 1;
      var prev := Analyzed(unique[..i], outs, p0);
      AnalyzedOrdered(unique[..i], outs, p0);
      var tail := if Ok(outs, p0 + i) then [Card(i, unique[i].ident)] else [];
      var cards := Analyzed(unique, outs, p0);
      assert cards == prev + tail;
      forall a, b | 0 <= a < b < |cards|
        ensures cards[a].index < cards[b].index
      {
        assert cards[a] == prev[a];
        if b >= |prev| {
          assert prev[a].index < |unique[..i]|;
          assert cards[b] == Card(i, unique[i].ident);
        } else {
          assert cards[b] == prev[b];
          assert prev[a].index < prev[b].index;
        }
      }
    }
  }

  /** A unique element is kept exactly when its analysis succeeds. */
  lemma {:induction false} AnalyzedMember(unique: seq<Element>, outs: seq<bool>, p0: nat, j: nat)
    requires j < |unique|
    ensures Card(j, unique[j].ident) in Analyzed(unique, outs, p0) <==> Ok(outs, p0 + j)
    decreases |unique|
  {
    var i := |unique| - 1;
    var prev := Analyzed(unique[..i], outs, p0);
    if j < i {
      AnalyzedMember(unique[..i], outs, p0, j);
    }
    assert Card(i, unique[i].ident) !in prev by {
      forall k | 0 <= k < |prev|
        ensures prev[k] != Card(i, unique[i].ident)
      {
        assert prev[k].index < i;
      }
    }
  }

  /** No card record comes before a gallery record. */
  predicate GalleriesFirst(rs: seq<Record>) {
    forall i, j :: 0 <= i < j < |rs| && rs[j].Gallery? ==> rs[i].Gallery?
  }

  /** Gallery records followed by card records keep galleries first, each record within its own bounds. */
  lemma CapturedShape(fromGalleries: seq<Record>, fromCards: seq<Record>, galleries: nat, cards: nat)
    requires forall i :: 0 <= i < |fromGalleries| ==>
      fromGalleries[i].Gallery? && fromGalleries[i].galleryIndex < GalleryLimit && fromGalleries[i].galleryIndex < galleries
    requires forall i :: 0 <= i < |fromCards| ==>
      !fromCards[i].Gallery? && fromCards[i].cardIndex < CardLimit && fromCards[i].cardIndex < cards
    ensures GalleriesFirst(fromGalleries + fromCards)
    ensures forall i :: 0 <= i < |fromGalleries + fromCards| ==>
      var r := (fromGalleries + fromCards)[i];
      (r.Gallery? ==> r.galleryIndex < GalleryLimit && r.galleryIndex < galleries) &&
      (!r.Gallery? ==> r.cardIndex < CardLimit && r.cardIndex < cards)
  {
    var rs := fromGalleries + fromCards;
    forall i | 0 <= i < |rs|
      ensures rs[i].Gallery? <==> i < |fromGalleries|
      ensures rs[i].Gallery? ==> rs[i].galleryIndex < GalleryLimit && rs[i].galleryIndex < galleries
      ensures !rs[i].Gallery? ==> rs[i].cardIndex < CardLimit && rs[i].cardIndex < cards
    {
      if i >= |fromGalleries| {
        assert rs[i] == fromCards[i - |fromGalleries|];
      }
    }
  }

  datatype AnimationData = AnimationData(
    galleriesFound: seq<string>, cardsAnalyzed: seq<Card>, animationsCaptured: seq<Record>)

  class Scraper {
    var stats: Stats

    constructor ()
      ensures stats == Stats(0, 0, 0, 0, 0, 0, 0, 0, 0, 0)
    {
      stats := Stats(0, 0, 0, 0, 0, 0, 0, 0, 0, 0);
    }

    /** Opening sequence: one screenshot per interval until the first failure. */
    method CaptureOpeningSequence(d: Driver, cardIndex: nat) returns (sequence: seq<Record>)
      modifies this, d
      ensures |sequence| == Run(d.outcomes, old(d.pos), |Intervals|)
      ensures sequence == OpeningRecords(cardIndex, |sequence|)
      ensures d.pos == old(d.pos) + Used(d.outcomes, old(d.pos), |Intervals|)
      ensures stats == old(stats).(screenshotsTaken := old(stats.screenshotsTaken) + |sequence|)
    {
      var p0 := d.pos;
      sequence := [];
      var i := 0;
      while i < |Intervals|
        invariant 0 <= i <= |Intervals|
        invariant Run(d.outcomes, p0, i) == i
        invariant sequence == OpeningRecords(cardIndex, i)
        invariant d.pos == p0 + i
        invariant stats == old(stats).(screenshotsTaken := old(stats.screenshotsTaken) + i)
      {
        RunExtend(d.outcomes, p0, i);
        var ok := d.Act();
        if !ok {
          RunStops(d.outcomes, p0, i, |Intervals|);
          return;
        }
        sequence := sequence + [Opening(cardIndex, i, Intervals[i])];
        stats := stats.(screenshotsTaken := stats.screenshotsTaken + 1);
        i := i + 1;
      }
    }

    /** Performs up to `n` driver actions, stopping at the first failure. */
    method Attempt(d: Driver, n: nat) returns (ok: bool)
      modifies d
      ensures ok <==> Run(d.outcomes, old(d.pos), n) == n
      ensures d.pos == old(d.pos) + Used(d.outcomes, old(d.pos), n)
    {
      var p0 := d.pos;
      var i := 0;
      while i < n
        invariant 0 <= i <= n
        invariant Run(d.outcomes, p0, i) == i
        invariant d.pos == p0 + i
      {
        RunExtend(d.outcomes, p0, i);
        ok := d.Act();
        if !ok {
          RunStops(d.outcomes, p0, i, n);
          return;
        }
        i := i + 1;
      }
      ok := true;
    }

    /** Hover probe: screenshot, move, screenshot, move away, screenshot; all or nothing. */
    method CaptureHoverAnimation(d: Driver, cardIndex: nat) returns (r: PyText.Option<Record>)
      modifies this, d
      ensures r.Some? <==> Run(d.outcomes, old(d.pos), 5) == 5
      ensures r.Some? ==> r.value == Hover(cardIndex)
      ensures d.pos == old(d.pos) + Used(d.outcomes, old(d.pos), 5)
      ensures r.Some? ==> stats == old(stats).(hoverEffectsRecorded := old(stats.hoverEffectsRecorded) + 1,
                                                screenshotsTaken := old(stats.screenshotsTaken) + 3)
      ensures r.None? ==> stats == old(stats)
    {
      var ok := Attempt(d, 5);
      if !ok {
        return PyText.None;
      }
      stats := stats.(hoverEffectsRecorded := stats.hoverEffectsRecorded + 1,
                      screenshotsTaken := stats.screenshotsTaken + 3);
      r := PyText.Some(Hover(cardIndex));
    }

    /** Click probe: screenshot, click, then five frames; all or nothing. */
    method CaptureClickAnimation(d: Driver, cardIndex: nat) returns (r: PyText.Option<Record>)
      modifies this, d
      ensures r.Some? <==> Run(d.outcomes, old(d.pos), 2 + ClickFrames) == 2 + ClickFrames
      ensures r.Some? ==> r.value == Click(cardIndex, ClickFrames)
      ensures d.pos == old(d.pos) + Used(d.outcomes, old(d.pos), 2 + ClickFrames)
      ensures r.Some? ==> stats == old(stats).(clickInteractionsRecorded := old(stats.clickInteractionsRecorded) + 1,
                                                screenshotsTaken := old(stats.screenshotsTaken) + 6)
      ensures r.None? ==> stats == old(stats)
    {
      var ok := Attempt(d, 2 + ClickFrames);
      if !ok {
        return PyText.None;
      }
      stats := stats.(clickInteractionsRecorded := stats.clickInteractionsRecorded + 1,
                      screenshotsTaken := stats.screenshotsTaken + 6);
      r := PyText.Some(Click(cardIndex, ClickFrames));
    }

    /** Continuous probe: twenty frames; counted only once all were taken. */
    method CaptureContinuousAnimation(d: Driver, cardIndex: nat) returns (r: PyText.Option<Record>)
      modifies this, d
      ensures r.Some? <==> Run(d.outcomes, old(d.pos), ContinuousFrames) == ContinuousFrames
      ensures r.Some? ==> r.value == Continuous(cardIndex, ContinuousFrames)
      ensures d.pos == old(d.pos) + Used(d.outcomes, old(d.pos), ContinuousFrames)
      ensures r.Some? ==> stats == old(stats).(screenshotsTaken := old(stats.screenshotsTaken) + r.value.frameCount)
      ensures r.None? ==> stats == old(stats)
    {
      var p0 := d.pos;
      var frames := 0;
      var i := 0;
      while i < ContinuousFrames
        invariant 0 <= i <= ContinuousFrames
        invariant Run(d.outcomes, p0, i) == i
        invariant d.pos == p0 + i
        invariant frames == i
        invariant stats == old(stats)
      {
        RunExtend(d.outcomes, p0, i);
        var ok := d.Act();
        if !ok {
          RunStops(d.outcomes, p0, i, ContinuousFrames);
          return PyText.None;
        }
        frames := frames + 1;
        i := i + 1;
      }
      stats := stats.(screenshotsTaken := stats.screenshotsTaken + frames);
      r := PyText.Some(Continuous(cardIndex, frames));
    }

    /** The four probes of a card whose element was found, in order; a failing probe does not stop the later ones. */
    method RunProbes(d: Driver, cardIndex: nat)
      returns (opening: seq<Record>, hover: PyText.Option<Record>, click: PyText.Option<Record>,
               continuous: PyText.Option<Record>)
      modifies this, d
      ensures CardProbes(d.outcomes, old(d.pos)) == Probes(|opening|, hover.Some?, click.Some?, continuous.Some?, d.pos)
      ensures |opening| <= |Intervals| && opening == OpeningRecords(cardIndex, |opening|)
      ensures hover.Some? ==> hover.value == Hover(cardIndex)
      ensures click.Some? ==> click.value == Click(cardIndex, ClickFrames)
      ensures continuous.Some? ==> continuous.value == Continuous(cardIndex, ContinuousFrames)
      ensures stats == old(stats).(
        screenshotsTaken := old(stats.screenshotsTaken) + |opening| + (if hover.Some? then 3 else 0)
          + (if click.Some? then 1 + ClickFrames else 0) + (if continuous.Some? then ContinuousFrames else 0),
        hoverEffectsRecorded := old(stats.hoverEffectsRecorded) + (if hover.Some? then 1 else 0),
        clickInteractionsRecorded := old(stats.clickInteractionsRecorded) + (if click.Some? then 1 else 0))
    {
      ghost var p1 := d.pos;
      opening := CaptureOpeningSequence(d, cardIndex);
      ghost var p2 := d.pos;
      hover := CaptureHoverAnimation(d, cardIndex);
      ghost var p3 := d.pos;
      click := CaptureClickAnimation(d, cardIndex);
      ghost var p4 := d.pos;
      continuous := CaptureContinuousAnimation(d, cardIndex);
      ProbesAt(d.outcomes, p1, p2, p3, p4, d.pos);
    }

    /**
     * `capture_card_animations`: locate the card and scroll to it, then run
     * its probes. The counters grow by exactly what the returned records
     * account for.
     */
    method CaptureCardAnimations(d: Driver, cardIndex: nat) returns (animations: seq<Record>)
      modifies this, d
      ensures (animations, d.pos) == CardRun(d.outcomes, old(d.pos), cardIndex)
      ensures stats == Ledger(old(stats), animations)
    {
      animations := [];
      var ok := Attempt(d, 2);      // locate the card element, scroll it into view
      if !ok {
        assert Ledger(stats, []) == stats by { assert TotalShots([]) == 0; }
        return;
      }
      ghost var p1 := d.pos;
      var opening, hover, click, continuous := RunProbes(d, cardIndex);
      animations := opening + Present(hover) + Present(click) + Present(continuous);
      CardAssembled(d.outcomes, old(d.pos), cardIndex, opening, hover, click, continuous, d.pos);
      CardLedger(cardIndex, opening, hover, click, continuous);
    }

    /**
     * Gallery probe: locate, scroll, screenshot, hover, screenshot; then a
     * click and a screenshot. A failed click still yields a record, marked
     * as not clicked (it carries the click error), and leaves
     * `animations_captured` unchanged.
     */
    method CaptureGalleryAnimations(d: Driver, title: string, galleryIndex: nat) returns (animations: seq<Record>)
      modifies this, d
      ensures Run(d.outcomes, old(d.pos), 5) < 5 ==> animations == [] && stats == old(stats)
      ensures Run(d.outcomes, old(d.pos), 5) == 5 ==>
        var clicked := Run(d.outcomes, old(d.pos) + 5, 2) == 2;
        animations == [Gallery(galleryIndex, title, clicked)] &&
        stats == old(stats).(animationsCaptured := old(stats.animationsCaptured) + (if clicked then 1 else 0))
      ensures d.pos == old(d.pos) + Used(d.outcomes, old(d.pos), 5) +
        (if Run(d.outcomes, old(d.pos), 5) == 5 then Used(d.outcomes, old(d.pos) + 5, 2) else 0)
    {
      animations := [];
      var ok := Attempt(d, 5);
      if !ok {
        return;
      }
      ok := Attempt(d, 2);          // the click and its screenshot
      if ok {
        animations := [Gallery(galleryIndex, title, true)];
        stats := stats.(animationsCaptured := stats.animationsCaptured + 1);
      } else {
        animations := [Gallery(galleryIndex, title, false)];
      }
    }

    /**
     * `find_individual_cards`: the elements found by all selectors are
     * de-duplicated by identity, then each unique element is analysed; one
     * whose analysis fails is skipped.
     */
    method FindIndividualCards(d: Driver, found: seq<Element>) returns (cards: seq<Card>)
      modifies d
      ensures cards == Analyzed(Dedup(found, Ident), d.outcomes, old(d.pos))
      ensures d.pos == old(d.pos) + |Dedup(found, Ident)|
    {
      var unique := DedupByKey(found, Ident);
      var p0 := d.pos;
      cards := [];
      var i := 0;
      while i < |unique|
        invariant 0 <= i <= |unique|
        invariant d.pos == p0 + i
        invariant cards == Analyzed(unique[..i], d.outcomes, p0)
      {
        assert unique[..i + 1][..i] == unique[..i];
        var ok := d.Act();
        if ok {
          cards := cards + [Card(i, unique[i].ident)];
        }
        i := i + 1;
      }
      assert unique[..i] == unique;
    }

    /** The gallery loop: the first five galleries, each probed in turn. */
    method ProbeGalleries(d: Driver, galleries: seq<string>) returns (captured: seq<Record>)
      modifies this, d
      ensures stats == Ledger(old(stats), captured)
      ensures |captured| <= |galleries| && |captured| <= GalleryLimit
      ensures forall i :: 0 <= i < |captured| ==>
        captured[i].Gallery? && captured[i].galleryIndex < GalleryLimit && captured[i].galleryIndex < |galleries|
    {
      ghost var base := stats;
      captured := [];
      assert Ledger(base, []) == base by { assert TotalShots([]) == 0; }
      var probe := PyText.Take(galleries, GalleryLimit);
      var g := 0;
      while g < |probe|
        invariant 0 <= g <= |probe|
        invariant stats == Ledger(base, captured)
        invariant |captured| <= g
        invariant forall i :: 0 <= i < |captured| ==> captured[i].Gallery? && captured[i].galleryIndex < g
      {
        ghost var before := stats;
        var rs := CaptureGalleryAnimations(d, probe[g], g);
        LedgerConcat(base, captured, rs);
        if rs != [] {
          LedgerSingle(before, rs[0]);
        }
        captured := captured + rs;
        g := g + 1;
      }
    }

    /** The card loop: the first ten analysed cards, each probed in turn. */
    method ProbeCards(d: Driver, count: nat) returns (captured: seq<Record>)
      modifies this, d
      ensures stats == Ledger(old(stats), captured)
      ensures forall i :: 0 <= i < |captured| ==> !captured[i].Gallery? && captured[i].cardIndex < count
    {
      ghost var base := stats;
      captured := [];
      assert Ledger(base, []) == base by { assert TotalShots([]) == 0; }
      var c := 0;
      while c < count
        invariant 0 <= c <= count
        invariant stats == Ledger(base, captured)
        invariant forall i :: 0 <= i < |captured| ==> !captured[i].Gallery? && captured[i].cardIndex < c
      {
        ghost var p := d.pos;
        var rs := CaptureCardAnimations(d, c);
        CardRunShape(d.outcomes, p, c);
        LedgerConcat(base, captured, rs);
        captured := captured + rs;
        c := c + 1;
      }
    }

    /** After the page has loaded: the galleries are probed, then the cards are found and the first ten probed. */
    method ProbePage(d: Driver, galleries: seq<string>, found: seq<Element>) returns (data: AnimationData)
      modifies this, d
      ensures data.galleriesFound == galleries
      ensures exists p: nat :: data.cardsAnalyzed == Analyzed(Dedup(found, Ident), d.outcomes, p)
      ensures GalleriesFirst(data.animationsCaptured)
      ensures stats == Ledger(old(stats), data.animationsCaptured)
      ensures forall i :: 0 <= i < |data.animationsCaptured| ==>
        var r := data.animationsCaptured[i];
        (r.Gallery? ==> r.galleryIndex < GalleryLimit && r.galleryIndex < |galleries|) &&
        (!r.Gallery? ==> r.cardIndex < CardLimit && r.cardIndex < |data.cardsAnalyzed|)
    {
      ghost var base := stats;
      var fromGalleries := ProbeGalleries(d, galleries);
      ghost var p := d.pos;
      var cards := FindIndividualCards(d, found);
      var chosen := PyText.Take(cards, CardLimit);
      var fromCards := ProbeCards(d, |chosen|);
      LedgerConcat(base, fromGalleries, fromCards);
      data := AnimationData(galleries, cards, fromGalleries + fromCards);
      assert data.cardsAnalyzed == Analyzed(Dedup(found, Ident), d.outcomes, p);
      CapturedShape(fromGalleries, fromCards, |galleries|, |cards|);
    }

    /**
     * `extract_css_animations` and `extract_javascript_interactions`: an
     * extraction that returns `n` items sets its counter to `n`; one that
     * raises is caught and leaves the counter as it was.
     */
    method RecordExtractions(css: PyText.Option<nat>, js: PyText.Option<nat>)
      modifies this
      ensures stats == old(stats).(cssAnimationsExtracted := Overwritten(old(stats.cssAnimationsExtracted), css),
                                   javascriptInteractionsFound := Overwritten(old(stats.javascriptInteractionsFound), js))
    {
      if css.Some? {
        stats := stats.(cssAnimationsExtracted := css.value);
      }
      if js.Some? {
        stats := stats.(javascriptInteractionsFound := js.value);
      }
    }

    /** After the page has loaded and been shot: the galleries and cards are probed, then the CSS and JavaScript extracted. */
    method ScrapeLoaded(d: Driver, galleries: seq<string>, found: seq<Element>,
                        css: PyText.Option<nat>, js: PyText.Option<nat>) returns (data: AnimationData)
      modifies this, d
      ensures data.galleriesFound == galleries
      ensures exists p: nat :: data.cardsAnalyzed == Analyzed(Dedup(found, Ident), d.outcomes, p)
      ensures GalleriesFirst(data.animationsCaptured)
      ensures stats == Ledger(old(stats).(cssAnimationsExtracted := Overwritten(old(stats.cssAnimationsExtracted), css),
                                          javascriptInteractionsFound := Overwritten(old(stats.javascriptInteractionsFound), js)),
                              data.animationsCaptured)
      ensures forall i :: 0 <= i < |data.animationsCaptured| ==>
        var r := data.animationsCaptured[i];
        (r.Gallery? ==> r.galleryIndex < GalleryLimit && r.galleryIndex < |galleries|) &&
        (!r.Gallery? ==> r.cardIndex < CardLimit && r.cardIndex < |data.cardsAnalyzed|)
    {
      ghost var base := stats;
      data := ProbePage(d, galleries, found);
      RecordExtractions(css, js);
      LedgerOverwrite(base, data.animationsCaptured, Overwritten(base.cssAnimationsExtracted, css),
                      Overwritten(base.javascriptInteractionsFound, js));
    }

    /**
     * `scrape_tcg_galleries_comprehensive`: load the page and take the
     * initial screenshot (a failure there is the one top-level error), then
     * probe the first five galleries and the first ten analysed cards.
     */
    method ScrapeGalleries(d: Driver, galleries: seq<string>, found: seq<Element>,
                           css: PyText.Option<nat>, js: PyText.Option<nat>) returns (data: AnimationData)
      modifies this, d
      ensures Run(d.outcomes, old(d.pos), 2) < 2 ==>
        data == AnimationData([], [], []) && stats == old(stats).(errors := old(stats.errors) + 1)
      ensures Run(d.outcomes, old(d.pos), 2) == 2 ==>
        data.galleriesFound == galleries &&
        (exists p: nat :: data.cardsAnalyzed == Analyzed(Dedup(found, Ident), d.outcomes, p)) &&
        GalleriesFirst(data.animationsCaptured) &&
        stats == Ledger(old(stats).(screenshotsTaken := old(stats.screenshotsTaken) + 1, cardsFound := |galleries|,
                                    cssAnimationsExtracted := Overwritten(old(stats.cssAnimationsExtracted), css),
                                    javascriptInteractionsFound := Overwritten(old(stats.javascriptInteractionsFound), js)),
                        data.animationsCaptured)
      ensures forall i :: 0 <= i < |data.animationsCaptured| ==>
        var r := data.animationsCaptured[i];
        (r.Gallery? ==> r.galleryIndex < GalleryLimit && r.galleryIndex < |galleries|) &&
        (!r.Gallery? ==> r.cardIndex < CardLimit && r.cardIndex < |data.cardsAnalyzed|)
    {
      data := AnimationData([], [], []);
      var ok := Attempt(d, 2);      // load the page, then the initial screenshot
      if !ok {
        stats := stats.(errors := stats.errors + 1);
        return;
      }
      stats := stats.(screenshotsTaken := stats.screenshotsTaken + 1, cardsFound := |galleries|);
      data := ScrapeLoaded(d, galleries, found, css, js);
    }
  }
}
