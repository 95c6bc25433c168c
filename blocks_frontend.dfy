/**
 * The blocks' shared front-end script (js/blocks-frontend.js): the click-to-open
 * lightbox with its Escape handler, the carousel's index state machine and the
 * one-time dynamic style block. Animations, scrolling and timers are left out.
 */
module BlocksFrontend {
  import opened Wrappers
  import Gallery

  // ---------------------------------------------------------------------------
  // Carousel
  // ---------------------------------------------------------------------------

  /** The prev button: one back, the first slide wrapping to the last. */
  function PrevSlide(i: int, n: nat): int {
    if i > 0 then i - 1 else n - 1
  }

  /** The next button and the autoplay tick: one on, the last slide wrapping to the first. */
  function NextSlide(i: int, n: nat): int {
    if i < n - 1 then i + 1 else 0
  }

  /** Both steps stay in range and undo each other; they agree with gallery.js's modular steps. */
  lemma SlideSteps(i: int, n: nat)
    requires 0 <= i < n
    ensures 0 <= PrevSlide(i, n) < n && 0 <= NextSlide(i, n) < n
    ensures PrevSlide(NextSlide(i, n), n) == i && NextSlide(PrevSlide(i, n), n) == i
    ensures PrevSlide(i, n) == Gallery.PrevIndex(i, n) && NextSlide(i, n) == Gallery.NextIndex(i, n)
  {
    Gallery.WrapAround(i, n);
    if i < n - 1 {
      Gallery.ModBelowTwice(i + 1, n);
    }
    if i > 0 {
      Gallery.ModBelowTwice(i - 1 + n, n);
    }
  }

  /** `k` presses of next from slide `i`. */
  function NextTimes(i: int, n: nat, k: nat): int {
    if k == 0 then i else NextSlide(NextTimes(i, n, k - 1), n)
  }

  /** From slide `i`, up to `n` presses of next count forward, wrapping past the last slide once. */
  lemma {:induction false} NextTimesWraps(i: int, n: nat, k: nat)
    requires 0 <= i < n && k <= n
    ensures NextTimes(i, n, k) == if i + k < n then i + k else i + k - n
  {
    if k > 0 {
      NextTimesWraps(i, n, k - 1);
    }
  }

  /** `n` presses of next return to the slide they started from. */
  lemma FullCycle(i: int, n: nat)
    requires 0 <= i < n
    ensures NextTimes(i, n, n) == i
  {
    NextTimesWraps(i, n, n);
  }

  /** jQuery's `.eq(index)`: a negative index counts from the end; out of range selects nothing. */
  function EqIndex(index: int, n: nat): (r: Option<nat>)
    ensures r.Some? ==> r.value < n
    ensures 0 <= index < n ==> r == Some(index)
  {
    if 0 <= index < n then Some(index)
    else if index < 0 && index + n >= 0 then Some(index + n)
    else None
  }

  /** One carousel: the item count, whether it autoplays, the current index and the dots' `active` classes. */
  class FrontendCarousel {
    const itemCount: nat
    const autoplay: bool
    const dots: array<bool>
    var currentIndex: int

    ghost predicate Valid()
      reads this, dots
    {
      itemCount > 1 && dots.Length == itemCount && 0 <= currentIndex < itemCount &&
      Gallery.ActiveOnlyAt(dots[..], currentIndex)
    }

    /** The set-up after the `length <= 1` guard: index 0 and only the first dot active. */
    constructor (n: nat, autoplaying: bool)
      requires n > 1
      ensures Valid() && fresh(dots)
      ensures itemCount == n && autoplay == autoplaying && currentIndex == 0
    {
      itemCount := n;
      autoplay := autoplaying;
      dots := new bool[n](k => k == 0);
      currentIndex := 0;
    }

    /**
     * `goToSlide(index)`: the index is set first. When `.eq(index)` selects an
     * item, only the dot it selects is active; when it selects none,
     * `position().left` throws and the dots are untouched.
     */
    method GoToSlide(index: int)
      requires dots.Length == itemCount
      modifies this, dots
      ensures currentIndex == index
      ensures EqIndex(index, itemCount).Some? ==>
        forall k :: 0 <= k < dots.Length ==> dots[k] == (k == EqIndex(index, itemCount).value)
      ensures EqIndex(index, itemCount).None? ==> dots[..] == old(dots[..])
      ensures 0 <= index < itemCount ==> Gallery.ActiveOnlyAt(dots[..], index)
    {
      currentIndex := index;
      var target := EqIndex(index, itemCount);
      if target.None? {
        return;
      }
      for k := 0 to dots.Length
        invariant currentIndex == index
        invariant forall j :: 0 <= j < k ==> dots[j] == (j == target.value)
      {
        dots[k] := k == target.value;
      }
    }

    method Prev()
      requires Valid()
      modifies this, dots
      ensures Valid() && currentIndex == PrevSlide(old(currentIndex), itemCount)
    {
      SlideSteps(currentIndex, itemCount);
      GoToSlide(PrevSlide(currentIndex, itemCount));
    }

    method Next()
      requires Valid()
      modifies this, dots
      ensures Valid() && currentIndex == NextSlide(old(currentIndex), itemCount)
    {
      SlideSteps(currentIndex, itemCount);
      GoToSlide(NextSlide(currentIndex, itemCount));
    }

    /** The 5-second interval, installed only for an autoplaying gallery; it steps like next. */
    method AutoplayTick()
      requires Valid()
      modifies this, dots
      ensures Valid()
      ensures currentIndex == if autoplay then NextSlide(old(currentIndex), itemCount) else old(currentIndex)
    {
      if autoplay {
        Next();
      }
    }

    /** A dot's click handler: its `data-index` is its position. */
    method DotClick(k: nat)
      requires Valid() && k < itemCount
      modifies this, dots
      ensures Valid() && currentIndex == k
    {
      GoToSlide(k);
    }
  }

  /** `initializeCarouselGallery` for one gallery: no controls for one item or none. */
  method InitializeCarousel(itemCount: nat, autoplay: bool) returns (c: FrontendCarousel?)
    ensures c == null <==> itemCount <= 1
    ensures c != null ==> fresh(c) && c.Valid() && c.currentIndex == 0 && c.dots[0]
  {
    if itemCount <= 1 {
      return null;
    }
    c := new FrontendCarousel(itemCount, autoplay);
  }

  // ---------------------------------------------------------------------------
  // Lightbox
  // ---------------------------------------------------------------------------

  /**
   * The page's lightboxes: the ones still in the body, and the lightboxes whose
   * `keydown.kawaii-lightbox` handler is bound on the document.
   */
  class LightboxPage {
    var lightboxes: set<nat>
    var handlers: seq<nat>
    var nextId: nat

    /** Every lightbox in the body still has its Escape handler bound; ids are handed out once. */
    ghost predicate Valid()
      reads this
    {
      (forall l :: l in lightboxes ==> l in handlers) &&
      (forall k :: 0 <= k < |handlers| ==> handlers[k] < nextId)
    }

    constructor ()
      ensures Valid() && lightboxes == {} && handlers == []
    {
      lightboxes := {};
      handlers := [];
      nextId := 0;
    }

    /** A gallery link's click: a new lightbox is appended and its Escape handler bound. */
    method Open() returns (id: nat)
      requires Valid()
      modifies this
      ensures Valid() && id !in old(lightboxes) && id !in old(handlers)
      ensures lightboxes == old(lightboxes) + {id} && handlers == old(handlers) + [id]
    {
      id := nextId;
      nextId := nextId + 1;
      lightboxes := lightboxes + {id};
      handlers := handlers + [id];
    }

    /** The close button or the backdrop: the lightbox goes; its key handler stays bound. */
    method CloseClick(id: nat)
      requires Valid()
      modifies this
      ensures Valid()
      ensures lightboxes == old(lightboxes) - {id} && handlers == old(handlers)
    {
      lightboxes := lightboxes - {id};
    }

    /**
     * A keydown on the document. Every bound handler runs (jQuery dispatches to the
     * handlers bound when the event started); on Escape each one closes its own
     * lightbox and unbinds the whole namespace.
     */
    method KeyDown(keyCode: int)
      requires Valid()
      modifies this
      ensures Valid()
      ensures keyCode != 27 ==> lightboxes == old(lightboxes) && handlers == old(handlers)
      ensures keyCode == 27 ==> handlers == [] && lightboxes == {}
      ensures keyCode == 27 ==> forall l :: l in old(lightboxes) ==> l !in lightboxes
    {
      if keyCode != 27 {
        return;
      }
      var bound := handlers;
      for i := 0 to |bound|
        invariant lightboxes == old(lightboxes) - (set k | 0 <= k < i :: bound[k])
        invariant nextId == old(nextId)
      {
        lightboxes := lightboxes - {bound[i]};
        handlers := [];
      }
      handlers := [];
      assert forall l :: l in old(lightboxes) ==> l in (set k | 0 <= k < |bound| :: bound[k]) by {
        forall l | l in old(lightboxes) ensures l in (set k | 0 <= k < |bound| :: bound[k]) {
          var k :| 0 <= k < |bound| && bound[k] == l;
        }
      }
    }
  }

  // ---------------------------------------------------------------------------
  // Dynamic styles
  // ---------------------------------------------------------------------------

  const DynamicStylesId := "kawaii-blocks-dynamic-styles"

  /** The element ids in the document after `addDynamicStyles`. */
  function WithDynamicStyles(ids: seq<string>): (r: seq<string>)
    ensures DynamicStylesId in r
    ensures DynamicStylesId in ids ==> r == ids
    ensures DynamicStylesId !in ids ==> r == ids + [DynamicStylesId]
  {
    if DynamicStylesId in ids then ids else ids + [DynamicStylesId]
  }

  function Occurrences(ids: seq<string>, id: string): nat {
    if ids == [] then 0 else Occurrences(ids[..|ids| - 1], id) + (if ids[|ids| - 1] == id then 1 else 0)
  }

  /** A second call adds nothing, and the style block never appears twice if it did not already. */
  lemma {:induction false} DynamicStylesOnce(ids: seq<string>)
    ensures WithDynamicStyles(WithDynamicStyles(ids)) == WithDynamicStyles(ids)
    ensures Occurrences(ids, DynamicStylesId) <= 1 ==> Occurrences(WithDynamicStyles(ids), DynamicStylesId) <= 1
  {
    if DynamicStylesId !in ids {
      NotInNoOccurrences(ids, DynamicStylesId);
      assert (ids + [DynamicStylesId])[..|ids|] == ids;
    }
  }

  lemma {:induction false} NotInNoOccurrences(ids: seq<string>, id: string)
    requires id !in ids
    ensures Occurrences(ids, id) == 0
  {
    if ids != [] {
      NotInNoOccurrences(ids[..|ids| - 1], id);
    }
  }

  /** The document's element ids. */
  class Document {
    var ids: seq<string>

    constructor (initial: seq<string>)
      ensures ids == initial
    {
      ids := initial;
    }

    /** `addDynamicStyles`: append the style block unless an element with its id exists. */
    method AddDynamicStyles()
      modifies this
      ensures ids == WithDynamicStyles(old(ids))
    {
      if DynamicStylesId !in ids {
        ids := ids + [DynamicStylesId];
      }
    }
  }
}
