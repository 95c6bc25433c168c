/**
 * The gallery block's front-end script (js/blocks/gallery.js): the lightbox,
 * the carousel with its dots and swipe gesture, the masonry layout and the
 * `data-columns` check. Pixel geometry is left to the browser; the masonry
 * layout is modelled by column index and integer heights.
 */
module Gallery {
  import opened Wrappers
  import Strings
  import Dom

  /** JavaScript's `%` on integers: it truncates toward zero, so the remainder takes the dividend's sign. */
  function JsRem(a: int, n: int): (r: int)
    requires n > 0
    ensures a >= 0 ==> r == a % n && 0 <= r < n
    ensures a < 0 ==> r == -((-a) % n) && -n < r <= 0
  {
    if a >= 0 then a % n else -((-a) % n)
  }

  /** `(i - 1 + n) % n`. */
  function PrevIndex(i: int, n: int): int
    requires n > 0
  {
    JsRem(i - 1 + n, n)
  }

  /** `(i + 1) % n`. */
  function NextIndex(i: int, n: int): int
    requires n > 0
  {
    JsRem(i + 1, n)
  }

  /** From any non-negative index both steps land in range; from an index in range they undo each other. */
  lemma WrapAround(i: int, n: int)
    requires n > 0 && i >= 0
    ensures 0 <= PrevIndex(i, n) < n && 0 <= NextIndex(i, n) < n
    ensures i < n ==> PrevIndex(NextIndex(i, n), n) == i
    ensures i < n ==> NextIndex(PrevIndex(i, n), n) == i
    ensures n > 1 && i == n - 1 ==> NextIndex(i, n) == 0
    ensures n > 1 && i == 0 ==> PrevIndex(i, n) == n - 1
  {
    if i < n {
      ModBelowTwice(i + 1, n);
      ModBelowTwice(i - 1 + n, n);
      var next := NextIndex(i, n);
      var prev := PrevIndex(i, n);
      ModBelowTwice(next - 1 + n, n);
      ModBelowTwice(prev + 1, n);
    }
  }

  /** `x % n` for `0 <= x < 2n`: at most one subtraction of `n`. */
  lemma ModBelowTwice(x: int, n: int)
    requires n > 0 && 0 <= x < 2 * n
    ensures x % n == if x < n then x else x - n
  {
    if x >= n {
      assert x == n + (x - n);
    }
  }

  // ---------------------------------------------------------------------------
  // Lightbox
  // ---------------------------------------------------------------------------

  /** One lightbox slide: the link's `href` and its caption text. */
  datatype Slide = Slide(src: string, caption: string)

  /** The number of gallery links on the page before the given galleries end. */
  function TotalLinks(page: seq<seq<Slide>>): nat {
    if page == [] then 0 else TotalLinks(page[..|page| - 1]) + |page[|page| - 1]|
  }

  /**
   * `$(this).index('.kawaii-gallery__link')`: the position of the clicked link
   * among every gallery link on the page, not within its own gallery.
   */
  function PageWideIndex(page: seq<seq<Slide>>, gallery: nat, link: nat): (r: nat)
    requires gallery < |page|
    ensures r >= link
  {
    TotalLinks(page[..gallery]) + link
  }

  /** The page-wide index is the in-gallery index exactly when no earlier gallery has links. */
  lemma PageWideIndexIsLocalIff(page: seq<seq<Slide>>, gallery: nat, link: nat)
    requires gallery < |page|
    ensures PageWideIndex(page, gallery, link) == link <==> forall g :: 0 <= g < gallery ==> page[g] == []
  {
    EmptyPrefixIff(page[..gallery]);
  }

  lemma {:induction false} EmptyPrefixIff(galleries: seq<seq<Slide>>)
    ensures TotalLinks(galleries) == 0 <==> forall g :: 0 <= g < |galleries| ==> galleries[g] == []
  {
    if galleries != [] {
      var init := galleries[..|galleries| - 1];
      EmptyPrefixIff(init);
      assert forall g :: 0 <= g < |init| ==> init[g] == galleries[g];
    }
  }

  /**
   * Two galleries of two links each: opening the second gallery's first link sets
   * the index to 2, past the end of that gallery's two slides, so nothing is shown.
   */
  lemma LightboxIndexCounterexample(a: Slide, b: Slide, c: Slide, d: Slide)
    ensures var page := [[a, b], [c, d]];
      PageWideIndex(page, 1, 0) == 2 && !(PageWideIndex(page, 1, 0) < |page[1]|)
  {
    var page := [[a, b], [c, d]];
    assert page[..1] == [[a, b]];
    assert [[a, b]][..0] == [];
    assert TotalLinks([]) == 0;
    assert TotalLinks([[a, b]]) == TotalLinks([]) + 2;
  }

  /** What a key press does while the lightbox may be open. */
  datatype KeyAction = NoKeyAction | CloseKey | PrevKey | NextKey

  /** The keydown handler: only while visible, Escape (27), Left (37) and Right (39). */
  function LightboxKey(visible: bool, keyCode: int): (r: KeyAction)
    ensures !visible ==> r == NoKeyAction
    ensures r == CloseKey <==> visible && keyCode == 27
    ensures r == PrevKey <==> visible && keyCode == 37
    ensures r == NextKey <==> visible && keyCode == 39
  {
    if !visible then NoKeyAction
    else if keyCode == 27 then CloseKey
    else if keyCode == 37 then PrevKey
    else if keyCode == 39 then NextKey
    else NoKeyAction
  }

  /** The lightbox's closure state: visibility, the opened gallery's slides, the index and what is displayed. */
  class Lightbox {
    var visible: bool
    var images: seq<Slide>
    var currentIndex: int
    var shown: Slide

    constructor ()
      ensures !visible && images == [] && currentIndex == 0 && shown == Slide("", "")
    {
      visible := false;
      images := [];
      currentIndex := 0;
      shown := Slide("", "");
    }

    /** `showImage(index)`: the display changes only for an index in range. */
    method ShowImage(index: int)
      modifies this
      ensures 0 <= index < |images| ==> shown == images[index]
      ensures !(0 <= index < |images|) ==> shown == old(shown)
      ensures visible == old(visible) && images == old(images) && currentIndex == old(currentIndex)
    {
      if 0 <= index < |images| {
        shown := images[index];
      }
    }

    /** The click handler as written: the gallery's slides, but the page-wide index. */
    method OpenAsWritten(page: seq<seq<Slide>>, gallery: nat, link: nat)
      requires gallery < |page| && link < |page[gallery]|
      modifies this
      ensures visible && images == page[gallery]
      ensures currentIndex == PageWideIndex(page, gallery, link)
      ensures currentIndex < |images| ==> shown == images[currentIndex]
      ensures currentIndex >= |images| ==> shown == old(shown)
    {
      images := page[gallery];
      currentIndex := PageWideIndex(page, gallery, link);
      ShowImage(currentIndex);
      visible := true;
    }

    /** The click handler with the index taken within the clicked gallery: the clicked slide is shown. */
    method Open(page: seq<seq<Slide>>, gallery: nat, link: nat)
      requires gallery < |page| && link < |page[gallery]|
      modifies this
      ensures visible && images == page[gallery]
      ensures currentIndex == link && shown == page[gallery][link]
    {
      images := page[gallery];
      currentIndex := link;
      ShowImage(currentIndex);
      visible := true;
    }

    /** The close button, the overlay and Escape fade the lightbox out. */
    method Close()
      modifies this
      ensures !visible
      ensures images == old(images) && currentIndex == old(currentIndex) && shown == old(shown)
    {
      visible := false;
    }

    method Prev()
      requires |images| > 0
      modifies this
      ensures visible == old(visible) && images == old(images)
      ensures currentIndex == PrevIndex(old(currentIndex), |images|)
      ensures old(currentIndex) >= 0 ==> 0 <= currentIndex < |images|
      ensures 0 <= currentIndex < |images| ==> shown == images[currentIndex]
      ensures !(0 <= currentIndex < |images|) ==> shown == old(shown)
    {
      if currentIndex >= 0 {
        WrapAround(currentIndex, |images|);
      }
      currentIndex := PrevIndex(currentIndex, |images|);
      ShowImage(currentIndex);
    }

    method Next()
      requires |images| > 0
      modifies this
      ensures visible == old(visible) && images == old(images)
      ensures currentIndex == NextIndex(old(currentIndex), |images|)
      ensures old(currentIndex) >= 0 ==> 0 <= currentIndex < |images|
      ensures 0 <= currentIndex < |images| ==> shown == images[currentIndex]
      ensures !(0 <= currentIndex < |images|) ==> shown == old(shown)
    {
      if currentIndex >= 0 {
        WrapAround(currentIndex, |images|);
      }
      currentIndex := NextIndex(currentIndex, |images|);
      ShowImage(currentIndex);
    }

    /** The document's keydown handler. */
    method KeyDown(keyCode: int)
      requires visible ==> |images| > 0
      modifies this
      ensures images == old(images)
      ensures LightboxKey(old(visible), keyCode) == NoKeyAction ==>
        visible == old(visible) && currentIndex == old(currentIndex) && shown == old(shown)
      ensures LightboxKey(old(visible), keyCode) == CloseKey ==>
        !visible && currentIndex == old(currentIndex) && shown == old(shown)
      ensures LightboxKey(old(visible), keyCode) == PrevKey ==>
        visible && currentIndex == PrevIndex(old(currentIndex), |images|) &&
        (old(currentIndex) >= 0 ==> 0 <= currentIndex < |images| && shown == images[currentIndex])
      ensures LightboxKey(old(visible), keyCode) == NextKey ==>
        visible && currentIndex == NextIndex(old(currentIndex), |images|) &&
        (old(currentIndex) >= 0 ==> 0 <= currentIndex < |images| && shown == images[currentIndex])
    {
      match LightboxKey(visible, keyCode)
      case NoKeyAction =>
      case CloseKey => Close();
      case PrevKey => Prev();
      case NextKey => Next();
    }
  }

  // ---------------------------------------------------------------------------
  // Carousel
  // ---------------------------------------------------------------------------

  /** Exactly the dot at `i` carries the `active` class. */
  predicate ActiveOnlyAt(dots: seq<bool>, i: int) {
    forall k :: 0 <= k < |dots| ==> dots[k] == (k == i)
  }

  function CountActive(dots: seq<bool>): nat {
    if dots == [] then 0 else CountActive(dots[..|dots| - 1]) + (if dots[|dots| - 1] then 1 else 0)
  }

  /** With an index in range, `ActiveOnlyAt` means exactly one active dot. */
  lemma {:induction false} ExactlyOneActiveDot(dots: seq<bool>, i: int)
    requires 0 <= i < |dots| && ActiveOnlyAt(dots, i)
    ensures CountActive(dots) == 1
  {
    var last := |dots| - 1;
    var init := dots[..last];
    if i == last {
      NoActiveDot(init);
    } else {
      assert ActiveOnlyAt(init, i);
      ExactlyOneActiveDot(init, i);
    }
  }

  lemma {:induction false} NoActiveDot(dots: seq<bool>)
    requires forall k :: 0 <= k < |dots| ==> !dots[k]
    ensures CountActive(dots) == 0
  {
    if dots != [] {
      NoActiveDot(dots[..|dots| - 1]);
    }
  }

  datatype Swipe = NoSwipe | SwipeNext | SwipePrev

  /** The release handler's decision: a drag of more than 50 units, leftward going next. */
  function SwipeOf(startX: int, endX: int): (r: Swipe)
    ensures r == NoSwipe <==> -50 <= startX - endX <= 50
    ensures r == SwipeNext <==> startX - endX > 50
    ensures r == SwipePrev <==> startX - endX < -50
  {
    var diff := startX - endX;
    if (if diff < 0 then -diff else diff) > 50 then (if diff > 0 then SwipeNext else SwipePrev) else NoSwipe
  }

  /** One carousel gallery: its slide count, current slide, item offset, dots and drag state. */
  class Carousel {
    const totalSlides: nat
    const dots: array<bool>
    var currentSlide: int
    var offset: int
    var startX: int
    var isDragging: bool

    ghost predicate Valid()
      reads this, dots
    {
      dots.Length == totalSlides && totalSlides > 1 &&
      0 <= currentSlide < totalSlides && offset == -100 * currentSlide &&
      ActiveOnlyAt(dots[..], currentSlide)
    }

    /** The set-up after the `length <= 1` guard: one dot per item, then `goToSlide(0)`. */
    constructor (itemCount: nat)
      requires itemCount > 1
      ensures Valid() && fresh(dots)
      ensures totalSlides == itemCount && currentSlide == 0 && !isDragging && startX == 0
    {
      totalSlides := itemCount;
      dots := new bool[itemCount](_ => false);
      currentSlide := 0;
      offset := 0;
      startX := 0;
      isDragging := false;
      new;
      GoToSlide(0);
    }

    /** `goToSlide(index)`: move the items and leave only the dot whose `data-index` is `index` active. */
    method GoToSlide(index: int)
      requires dots.Length == totalSlides
      modifies this, dots
      ensures currentSlide == index && offset == -100 * index
      ensures ActiveOnlyAt(dots[..], index)
      ensures startX == old(startX) && isDragging == old(isDragging)
    {
      currentSlide := index;
      offset := -currentSlide * 100;
      for k := 0 to dots.Length
        invariant currentSlide == index && offset == -100 * index
        invariant startX == old(startX) && isDragging == old(isDragging)
        invariant forall j :: 0 <= j < k ==> dots[j] == (j == index)
      {
        dots[k] := k == index;
      }
    }

    method Prev()
      requires Valid()
      modifies this, dots
      ensures Valid()
      ensures currentSlide == PrevIndex(old(currentSlide), totalSlides)
      ensures startX == old(startX) && isDragging == old(isDragging)
    {
      WrapAround(currentSlide, totalSlides);
      GoToSlide(PrevIndex(currentSlide, totalSlides));
    }

    method Next()
      requires Valid()
      modifies this, dots
      ensures Valid()
      ensures currentSlide == NextIndex(old(currentSlide), totalSlides)
      ensures startX == old(startX) && isDragging == old(isDragging)
    {
      WrapAround(currentSlide, totalSlides);
      GoToSlide(NextIndex(currentSlide, totalSlides));
    }

    /** A dot's click handler: `parseInt` of its `data-index`, which is its position. */
    method DotClick(k: nat)
      requires Valid() && k < totalSlides
      modifies this, dots
      ensures Valid() && currentSlide == k
    {
      GoToSlide(k);
    }

    /** `touchstart` / `mousedown`. */
    method PointerDown(x: int)
      modifies this
      ensures startX == x && isDragging
      ensures currentSlide == old(currentSlide) && offset == old(offset)
    {
      startX := x;
      isDragging := true;
    }

    /** `touchend` / `mouseup`: ends a drag and navigates when the swipe is long enough. */
    method PointerUp(endX: int)
      requires Valid()
      modifies this, dots
      ensures Valid() && !isDragging
      ensures !old(isDragging) ==> currentSlide == old(currentSlide)
      ensures old(isDragging) && SwipeOf(old(startX), endX) == NoSwipe ==> currentSlide == old(currentSlide)
      ensures old(isDragging) && SwipeOf(old(startX), endX) == SwipeNext ==> currentSlide == NextIndex(old(currentSlide), totalSlides)
      ensures old(isDragging) && SwipeOf(old(startX), endX) == SwipePrev ==> currentSlide == PrevIndex(old(currentSlide), totalSlides)
    {
      if !isDragging {
        return;
      }
      isDragging := false;
      match SwipeOf(startX, endX)
      case NoSwipe =>
      case SwipeNext => Next();
      case SwipePrev => Prev();
    }
  }

  /** `initCarousel` for one gallery: no carousel at all for one item or none. */
  method InitCarousel(itemCount: nat) returns (c: Carousel?)
    ensures c == null <==> itemCount <= 1
    ensures c != null ==> fresh(c) && c.Valid() && c.currentSlide == 0 && c.totalSlides == itemCount
    ensures c != null ==> CountActive(c.dots[..]) == 1 && c.dots[0]
  {
    if itemCount <= 1 {
      return null;
    }
    c := new Carousel(itemCount);
    ExactlyOneActiveDot(c.dots[..], 0);
  }

  // ---------------------------------------------------------------------------
  // Repeated initialisation
  // ---------------------------------------------------------------------------

  /*
   * The script re-runs `initKawaiiGalleries` on every `DOMNodeInserted` event,
   * and `initCarousel` has no guard against a gallery it has already set up.
   * Each dots container of a gallery is modelled by the `data-index` values of
   * its dots, in order.
   */

  /** The `data-index` values `0 .. n-1` of the dots one run appends to a container. */
  function DotIndices(n: nat): (r: seq<int>)
    ensures |r| == n && forall k :: 0 <= k < n ==> r[k] == k
  {
    if n == 0 then [] else DotIndices(n - 1) + [n - 1]
  }

  /** `$dots.append(...)` for every item: `$dots` matches every container of the gallery, and each gets a full row of dots. */
  function AppendDotsToEach(containers: seq<seq<int>>, n: nat): (r: seq<seq<int>>)
    ensures |r| == |containers|
    ensures forall c :: 0 <= c < |r| ==> r[c] == containers[c] + DotIndices(n)
  {
    seq(|containers|, c requires 0 <= c < |containers| => containers[c] + DotIndices(n))
  }

  /** One run of the carousel set-up as written: another container is appended, then dots go into all of them. */
  function InitRunAsWritten(containers: seq<seq<int>>, n: nat): seq<seq<int>> {
    AppendDotsToEach(containers + [[]], n)
  }

  /** The dot containers of a gallery of `n` items after `runs` unguarded set-ups. */
  function ContainersAfterRunsAsWritten(runs: nat, n: nat): (r: seq<seq<int>>)
    ensures |r| == runs
  {
    if runs == 0 then [] else InitRunAsWritten(ContainersAfterRunsAsWritten(runs - 1, n), n)
  }

  /** One run of a set-up that skips a gallery which already has its dots container, and otherwise runs as written. */
  function InitRunGuarded(containers: seq<seq<int>>, n: nat): seq<seq<int>> {
    if |containers| > 0 then containers else InitRunAsWritten(containers, n)
  }

  /** The dot containers of a gallery of `n` items after `runs` guarded set-ups. */
  function ContainersAfterRunsGuarded(runs: nat, n: nat): seq<seq<int>> {
    if runs == 0 then [] else InitRunGuarded(ContainersAfterRunsGuarded(runs - 1, n), n)
  }

  /** From the first guarded run on, the gallery has exactly one container holding one row of dots. */
  lemma {:induction false} GuardedRunsKeepOneRow(runs: nat, n: nat)
    requires runs > 0
    ensures ContainersAfterRunsGuarded(runs, n) == [DotIndices(n)]
  {
    if runs == 1 {
      var none: seq<seq<int>> := [];
      assert ContainersAfterRunsGuarded(0, n) == none;
      var empty: seq<int> := [];
      assert none + [empty] == [empty];
      assert AppendDotsToEach([empty], n)[0] == empty + DotIndices(n) == DotIndices(n);
    } else {
      GuardedRunsKeepOneRow(runs - 1, n);
    }
  }

  function Occurrences(s: seq<int>, i: int): nat {
    if s == [] then 0 else Occurrences(s[..|s| - 1], i) + (if s[|s| - 1] == i then 1 else 0)
  }

  /**
   * The dots `goToSlide(i)` marks active: it removes `active` from every dot the
   * gallery's `$dots` holds and adds it to each whose `data-index` is `i`.
   */
  function ActiveDotsAt(containers: seq<seq<int>>, i: int): nat {
    if containers == [] then 0
    else ActiveDotsAt(containers[..|containers| - 1], i) + Occurrences(containers[|containers| - 1], i)
  }

  lemma {:induction false} OccurrencesAppend(a: seq<int>, b: seq<int>, i: int)
    ensures Occurrences(a + b, i) == Occurrences(a, i) + Occurrences(b, i)
  {
    if b != [] {
      var init := b[..|b| - 1];
      assert (a + b)[..|a + b| - 1] == a + init;
      OccurrencesAppend(a, init, i);
    } else {
      assert a + b == a;
    }
  }

  lemma {:induction false} OccurrencesOfDotIndices(n: nat, i: int)
    requires 0 <= i < n
    ensures Occurrences(DotIndices(n), i) == 1
  {
    var init := DotIndices(n - 1);
    assert DotIndices(n)[..n - 1] == init;
    if i < n - 1 {
      OccurrencesOfDotIndices(n - 1, i);
    } else {
      NoOccurrenceBelow(n - 1, i);
    }
  }

  lemma {:induction false} NoOccurrenceBelow(n: nat, i: int)
    requires i >= n
    ensures Occurrences(DotIndices(n), i) == 0
  {
    if n > 0 {
      assert DotIndices(n)[..n - 1] == DotIndices(n - 1);
      NoOccurrenceBelow(n - 1, i);
    }
  }

  /** Appending a row of dots to each container adds one dot with index `i` per container. */
  lemma {:induction false} AppendDotsToEachCount(containers: seq<seq<int>>, n: nat, i: int)
    requires 0 <= i < n
    ensures ActiveDotsAt(AppendDotsToEach(containers, n), i) == ActiveDotsAt(containers, i) + |containers|
  {
    if containers != [] {
      var last := |containers| - 1;
      var r := AppendDotsToEach(containers, n);
      assert r[..last] == AppendDotsToEach(containers[..last], n);
      AppendDotsToEachCount(containers[..last], n, i);
      OccurrencesAppend(containers[last], DotIndices(n), i);
      OccurrencesOfDotIndices(n, i);
    }
  }

  /** `1 + 2 + ... + k`. */
  function Triangle(k: nat): nat {
    if k == 0 then 0 else Triangle(k - 1) + k
  }

  lemma {:induction false} TriangleClosedForm(k: nat)
    ensures 2 * Triangle(k) == k * (k + 1)
  {
    if k > 0 {
      TriangleClosedForm(k - 1);
      assert k * (k + 1) == (k - 1) * k + 2 * k;
    }
  }

  /** An empty container adds no active dot. */
  lemma ActiveDotsOfEmptyAppended(containers: seq<seq<int>>, i: int)
    ensures ActiveDotsAt(containers + [[]], i) == ActiveDotsAt(containers, i)
  {
    var grown := containers + [[]];
    assert grown[..|grown| - 1] == containers;
  }

  /**
   * As written, after `runs` set-ups of a gallery of two or more items, the
   * first run's container holds `runs` rows of dots, the next one fewer, and
   * so on; `goToSlide` then leaves `runs * (runs + 1) / 2` dots active, not one.
   */
  lemma RepeatedInitActiveDots(runs: nat, n: nat, i: int)
    requires n > 1 && 0 <= i < n
    ensures 2 * ActiveDotsAt(ContainersAfterRunsAsWritten(runs, n), i) == runs * (runs + 1)
  {
    ActiveDotsTriangle(runs, n, i);
    TriangleClosedForm(runs);
  }

  lemma {:induction false} ActiveDotsTriangle(runs: nat, n: nat, i: int)
    requires n > 1 && 0 <= i < n
    ensures ActiveDotsAt(ContainersAfterRunsAsWritten(runs, n), i) == Triangle(runs)
  {
    if runs > 0 {
      var before := ContainersAfterRunsAsWritten(runs - 1, n);
      ActiveDotsTriangle(runs - 1, n, i);
      var grown := before + [[]];
      ActiveDotsOfEmptyAppended(before, i);
      AppendDotsToEachCount(grown, n, i);
      assert ContainersAfterRunsAsWritten(runs, n) == AppendDotsToEach(grown, n);
    }
  }

  /** Two set-ups of a two-item gallery already leave three dots active after `goToSlide(0)`. */
  lemma RepeatedInitCounterexample()
    ensures ActiveDotsAt(ContainersAfterRunsAsWritten(2, 2), 0) == 3
  {
    RepeatedInitActiveDots(2, 2, 0);
  }

  /** With a guard that skips an initialised gallery, any number of runs leaves exactly one active dot. */
  lemma GuardedInitOneActiveDot(runs: nat, n: nat, i: int)
    requires runs > 0 && n > 1 && 0 <= i < n
    ensures ActiveDotsAt(ContainersAfterRunsGuarded(runs, n), i) == 1
  {
    GuardedRunsKeepOneRow(runs, n);
    var cs := ContainersAfterRunsGuarded(runs, n);
    assert cs[..0] == [];
    OccurrencesOfDotIndices(n, i);
  }

  // ---------------------------------------------------------------------------
  // data-columns
  // ---------------------------------------------------------------------------

  /** `Math.max(1, Math.min(6, parseInt(value) || 3))`; None is `NaN`. */
  function ValidColumns(parsed: Option<int>): (r: nat)
    ensures 1 <= r <= 6
    ensures parsed.None? || parsed == Some(0) ==> r == 3
    ensures parsed.Some? && 1 <= parsed.value <= 6 ==> r == parsed.value
    ensures parsed.Some? && parsed.value < 0 ==> r == 1
    ensures parsed.Some? && parsed.value > 6 ==> r == 6
  {
    var columns := if parsed.None? || parsed.value == 0 then 3 else parsed.value;
    if columns < 1 then 1 else if columns > 6 then 6 else columns
  }

  /** `parseInt` of an attribute that may be absent (`parseInt(undefined)` is `NaN`). */
  function ParseAttr(parseInt: string -> Option<int>, value: Option<string>): Option<int> {
    if value.None? then None else parseInt(value.value)
  }

  /** `validateGalleryAttributes`: rewrite `data-columns` to its clamped value, nothing else. */
  method ValidateGalleryAttributes(parseInt: string -> Option<int>, gallery: Dom.Element)
    modifies gallery
    ensures gallery.attrs == old(gallery.attrs)["data-columns" :=
      Strings.NatToString(ValidColumns(ParseAttr(parseInt, old(gallery.Attr("data-columns")))))]
  {
    var columns := ValidColumns(ParseAttr(parseInt, gallery.Attr("data-columns")));
    gallery.attrs := gallery.attrs["data-columns" := Strings.NatToString(columns)];
  }

  /** When `parseInt` reads back decimal digits, validating the validated value changes nothing. */
  lemma ValidColumnsIdempotent(parseInt: string -> Option<int>, value: Option<string>)
    requires forall n: nat :: parseInt(Strings.NatToString(n)) == Some(n)
    ensures var once := Strings.NatToString(ValidColumns(ParseAttr(parseInt, value)));
      ValidColumns(ParseAttr(parseInt, Some(once))) == ValidColumns(ParseAttr(parseInt, value))
  {
    var n := ValidColumns(ParseAttr(parseInt, value));
    assert parseInt(Strings.NatToString(n)) == Some(n);
  }

  // ---------------------------------------------------------------------------
  // Masonry
  // ---------------------------------------------------------------------------

  /** `parseInt(data-columns) || 3` as a column count; None when negative, where `new Array` throws. */
  function MasonryColumnCount(parsed: Option<int>): (r: Option<nat>)
    ensures r.Some? ==> r.value >= 1
    ensures parsed.None? || parsed == Some(0) ==> r == Some(3)
    ensures parsed.Some? && parsed.value > 0 ==> r == Some(parsed.value)
    ensures parsed.Some? && parsed.value < 0 ==> r.None?
  {
    if parsed.None? || parsed.value == 0 then Some(3)
    else if parsed.value < 0 then None
    else Some(parsed.value)
  }

  /** The lowest index of a minimal element: `indexOf(Math.min(...s))`. */
  function ArgMin(s: seq<int>): (j: nat)
    requires |s| > 0
    ensures j < |s|
    ensures forall k :: 0 <= k < |s| ==> s[j] <= s[k]
    ensures forall k :: 0 <= k < j ==> s[k] > s[j]
  {
    if |s| == 1 then 0
    else
      var j := ArgMin(s[..|s| - 1]);
      if s[|s| - 1] < s[j] then |s| - 1 else j
  }

  /** `Math.max(...s)`. */
  function Max(s: seq<int>): (m: int)
    requires |s| > 0
    ensures forall k :: 0 <= k < |s| ==> s[k] <= m
    ensures m in s
  {
    if |s| == 1 then s[0]
    else
      var m := Max(s[..|s| - 1]);
      assert m in s[..|s| - 1];
      if s[|s| - 1] > m then s[|s| - 1] else m
  }

  function Sum(s: seq<int>): int {
    if s == [] then 0 else Sum(s[..|s| - 1]) + s[|s| - 1]
  }

  /** The column heights after placing `items` greedily into `columns` empty columns. */
  function HeightsAfter(columns: nat, items: seq<nat>): (r: seq<int>)
    requires columns >= 1
    ensures |r| == columns
  {
    if items == [] then seq(columns, _ => 0)
    else
      var before := HeightsAfter(columns, items[..|items| - 1]);
      var j := ArgMin(before);
      before[j := before[j] + items[|items| - 1]]
  }

  /** Where the next item goes: the shortest column, at that column's current height. */
  datatype Placement = Placement(column: nat, top: int)

  function PlacementAfter(columns: nat, placed: seq<nat>): (p: Placement)
    requires columns >= 1
    ensures p.column < columns
    ensures p.top == HeightsAfter(columns, placed)[p.column]
    ensures forall k :: 0 <= k < columns ==> p.top <= HeightsAfter(columns, placed)[k]
    ensures forall k :: 0 <= k < p.column ==> HeightsAfter(columns, placed)[k] > p.top
  {
    var h := HeightsAfter(columns, placed);
    Placement(ArgMin(h), h[ArgMin(h)])
  }

  lemma {:induction false} SumOfZeros(n: nat)
    ensures Sum(seq(n, _ => 0)) == 0
  {
    if n > 0 {
      SumOfZeros(n - 1);
      assert seq(n, _ => 0)[..n - 1] == seq(n - 1, _ => 0);
    }
  }

  lemma {:induction false} SumUpdate(s: seq<int>, j: nat, d: int)
    requires j < |s|
    ensures Sum(s[j := s[j] + d]) == Sum(s) + d
  {
    var t := s[j := s[j] + d];
    var last := |s| - 1;
    if j == last {
      assert t[..last] == s[..last];
    } else {
      SumUpdate(s[..last], j, d);
      assert t[..last] == s[..last][j := s[j] + d];
    }
  }

  /** Every item's height lands in exactly one column: the column heights add up to the items' total. */
  lemma {:induction false} HeightsConserveSum(columns: nat, items: seq<nat>)
    requires columns >= 1
    ensures Sum(HeightsAfter(columns, items)) == Sum(items)
  {
    if items == [] {
      SumOfZeros(columns);
    } else {
      var init := items[..|items| - 1];
      HeightsConserveSum(columns, init);
      var before := HeightsAfter(columns, init);
      SumUpdate(before, ArgMin(before), items[|items| - 1]);
    }
  }

  /** A column never gets shorter as items are placed. */
  lemma ColumnsOnlyGrow(columns: nat, items: seq<nat>, k: nat)
    requires columns >= 1 && |items| > 0 && k < columns
    ensures HeightsAfter(columns, items[..|items| - 1])[k] <= HeightsAfter(columns, items)[k]
  {
  }

  lemma HeightsStep(columns: nat, items: seq<nat>, i: nat)
    requires columns >= 1 && i < |items|
    ensures var before := HeightsAfter(columns, items[..i]);
      HeightsAfter(columns, items[..i + 1]) == before[ArgMin(before) := before[ArgMin(before)] + items[i]]
  {
    assert items[..i + 1][..i] == items[..i];
  }

  /** The result of `layoutMasonry`: each item's placement and the gallery's height. */
  datatype MasonryLayout = MasonryLayout(placements: seq<Placement>, height: int)

  method ShortestColumn(heights: array<int>) returns (j: nat)
    requires heights.Length > 0
    ensures j == ArgMin(heights[..])
  {
    j := 0;
    for k := 1 to heights.Length
      invariant j == ArgMin(heights[..k])
    {
      assert heights[..k + 1][..k] == heights[..k];
      if heights[k] < heights[j] {
        j := k;
      }
    }
    assert heights[..heights.Length] == heights[..];
  }

  method TallestColumn(heights: array<int>) returns (m: int)
    requires heights.Length > 0
    ensures m == Max(heights[..])
  {
    m := heights[0];
    assert heights[..1] == [heights[0]];
    for k := 1 to heights.Length
      invariant m == Max(heights[..k])
    {
      assert heights[..k + 1][..k] == heights[..k];
      if heights[k] > m {
        m := heights[k];
      }
    }
    assert heights[..heights.Length] == heights[..];
  }

  /** The placements of `items`, in order. */
  function Placements(columns: nat, items: seq<nat>): (r: seq<Placement>)
    requires columns >= 1
    ensures |r| == |items|
  {
    if items == [] then []
    else Placements(columns, items[..|items| - 1]) + [PlacementAfter(columns, items[..|items| - 1])]
  }

  /** Item `k` is placed where the greedy rule puts it after the items before it. */
  lemma {:induction false} PlacementsInOrder(columns: nat, items: seq<nat>)
    requires columns >= 1
    ensures forall k :: 0 <= k < |items| ==> Placements(columns, items)[k] == PlacementAfter(columns, items[..k])
  {
    if items != [] {
      var init := items[..|items| - 1];
      PlacementsInOrder(columns, init);
      forall k | 0 <= k < |items| ensures Placements(columns, items)[k] == PlacementAfter(columns, items[..k]) {
        if k < |init| {
          assert init[..k] == items[..k];
        }
      }
    }
  }

  /**
   * One step of `layoutMasonry`: item `i` goes on top of the shortest column,
   * which grows by its height.
   */
  method PlaceItem(columnHeights: array<int>, ghost columns: nat, items: seq<nat>, i: nat) returns (p: Placement)
    requires columns >= 1 && i < |items|
    requires columnHeights[..] == HeightsAfter(columns, items[..i])
    modifies columnHeights
    ensures p == PlacementAfter(columns, items[..i])
    ensures columnHeights[..] == HeightsAfter(columns, items[..i + 1])
  {
    var shortest := ShortestColumn(columnHeights);
    p := Placement(shortest, columnHeights[shortest]);
    columnHeights[shortest] := columnHeights[shortest] + items[i];
    HeightsStep(columns, items, i);
  }

  /** The loop of `layoutMasonry`: every item in order, onto the heights array. */
  method PlaceAll(columnHeights: array<int>, ghost columns: nat, items: seq<nat>) returns (placements: seq<Placement>)
    requires columns >= 1 && columnHeights[..] == HeightsAfter(columns, [])
    modifies columnHeights
    ensures placements == Placements(columns, items)
    ensures columnHeights[..] == HeightsAfter(columns, items)
  {
    placements := [];
    for i := 0 to |items|
      invariant columnHeights[..] == HeightsAfter(columns, items[..i])
      invariant placements == Placements(columns, items[..i])
    {
      var placement := PlaceItem(columnHeights, columns, items, i);
      placements := placements + [placement];
      assert items[..i + 1][..i] == items[..i];
    }
    assert items[..|items|] == items;
  }

  /**
   * `layoutMasonry` over the items' outer heights, in document order. None when the
   * column count is negative and the height array cannot be created.
   */
  method LayoutMasonry(parsed: Option<int>, items: seq<nat>) returns (layout: Option<MasonryLayout>)
    ensures layout.None? <==> MasonryColumnCount(parsed).None?
    ensures layout.Some? ==> |layout.value.placements| == |items|
    ensures layout.Some? ==> forall i :: 0 <= i < |items| ==>
      layout.value.placements[i] == PlacementAfter(MasonryColumnCount(parsed).value, items[..i])
    ensures layout.Some? ==> layout.value.height == Max(HeightsAfter(MasonryColumnCount(parsed).value, items))
  {
    var count := MasonryColumnCount(parsed);
    if count.None? {
      return None;
    }
    var columns := count.value;
    var columnHeights := new int[columns](_ => 0);
    assert columnHeights[..] == HeightsAfter(columns, []);
    var placements := PlaceAll(columnHeights, columns, items);
    PlacementsInOrder(columns, items);
    var height := TallestColumn(columnHeights);
    layout := Some(MasonryLayout(placements, height));
  }

  /** The gallery is exactly as tall as its tallest column, which holds at least the average height. */
  lemma GalleryHeightIsTallestColumn(columns: nat, items: seq<nat>)
    requires columns >= 1
    ensures Max(HeightsAfter(columns, items)) in HeightsAfter(columns, items)
    ensures Max(HeightsAfter(columns, items)) * columns >= Sum(items)
  {
    var h := HeightsAfter(columns, items);
    HeightsConserveSum(columns, items);
    SumBelowMax(h, Max(h));
  }

  lemma {:induction false} SumBelowMax(s: seq<int>, m: int)
    requires forall k :: 0 <= k < |s| ==> s[k] <= m
    ensures Sum(s) <= m * |s|
  {
    if s != [] {
      SumBelowMax(s[..|s| - 1], m);
    }
  }
}
