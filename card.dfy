/**
 * The card block's front-end script (js/blocks/card.js): the style check, the
 * whole-card click, the accessibility attributes and keyboard activation, and the
 * read-more toggle. Hover, viewport and lazy-loading effects are left out.
 */
module CardScript {
  import opened Wrappers
  import Dom

  const ValidCardStyles: seq<string> := ["default", "minimal", "cute", "pastel", "product"]

  /** The attributes after `validateCardAttributes`. */
  function ValidatedCardAttrs(attrs: map<string, string>): (r: map<string, string>)
    ensures r.Keys == attrs.Keys
  {
    Dom.WithAllowedValue(attrs, "data-style", ValidCardStyles, "default")
  }

  /** `validateCardAttributes($card)`. */
  method ValidateCardAttributes(card: Dom.Element)
    modifies card
    ensures card.attrs == ValidatedCardAttrs(old(card.attrs))
  {
    var style := card.Attr("data-style");
    if style.Some? && style.value != "" && style.value !in ValidCardStyles {
      card.attrs := card.attrs["data-style" := "default"];
    }
  }

  /** A known style is kept, another non-empty one becomes 'default', absent or empty is untouched. */
  lemma CardStyleRule(attrs: map<string, string>)
    ensures "data-style" !in attrs ==> ValidatedCardAttrs(attrs) == attrs
    ensures "data-style" in attrs && attrs["data-style"] in ValidCardStyles ==> ValidatedCardAttrs(attrs) == attrs
    ensures "data-style" in attrs && attrs["data-style"] == "" ==> ValidatedCardAttrs(attrs) == attrs
    ensures "data-style" in attrs && attrs["data-style"] != "" && attrs["data-style"] !in ValidCardStyles ==>
      ValidatedCardAttrs(attrs) == attrs["data-style" := "default"]
  {
  }

  lemma CardValidationIdempotent(attrs: map<string, string>)
    ensures ValidatedCardAttrs(ValidatedCardAttrs(attrs)) == ValidatedCardAttrs(attrs)
  {
    assert "default" in ValidCardStyles;
  }

  // ---------------------------------------------------------------------------
  // Click and keyboard activation
  // ---------------------------------------------------------------------------

  /** The tags the card's click handler leaves alone. */
  const InteractiveTags: seq<string> := ["button", "a", "input", "textarea", "select"]

  /** The card's click handler, bound only when the card has a link: navigate unless the target is interactive. */
  function CardClickNavigates(hasLink: bool, targetTag: string): (r: bool)
    ensures r ==> hasLink
    ensures hasLink ==> (r <==> targetTag !in InteractiveTags)
  {
    hasLink && targetTag !in InteractiveTags
  }

  /** The card's keydown handler, bound only when the card has a link: Enter (13) and Space (32) click the link. */
  function CardKeyActivates(hasLink: bool, keyCode: int): (r: bool)
    ensures r ==> hasLink
    ensures hasLink ==> (r <==> keyCode == 13 || keyCode == 32)
  {
    hasLink && (keyCode == 13 || keyCode == 32)
  }

  /** Tab, Escape and the arrow keys never activate a card; a click on a nested control never navigates it. */
  lemma OnlyEnterAndSpaceActivate(hasLink: bool)
    ensures !CardKeyActivates(hasLink, 9) && !CardKeyActivates(hasLink, 27)
    ensures forall code :: 37 <= code <= 40 ==> !CardKeyActivates(hasLink, code)
    ensures forall tag :: tag in InteractiveTags ==> !CardClickNavigates(hasLink, tag)
  {
  }

  // ---------------------------------------------------------------------------
  // Accessibility
  // ---------------------------------------------------------------------------

  /** JavaScript truthiness of an attribute read: absent and empty are falsy. */
  predicate HasValue(attrs: map<string, string>, name: string) {
    name in attrs && attrs[name] != ""
  }

  /** The attributes after `initCardAccessibility` for one card whose title text is `title`. */
  function AccessibleAttrs(attrs: map<string, string>, hasLink: bool, title: string): (r: map<string, string>)
    ensures !hasLink ==> r == attrs
    ensures hasLink ==> "tabindex" in r && r["tabindex"] == "0"
    ensures forall k :: k in attrs && k != "aria-label" && k != "tabindex" ==> k in r && r[k] == attrs[k]
  {
    if !hasLink then attrs
    else
      var labelled := if !HasValue(attrs, "aria-label") && !HasValue(attrs, "aria-labelledby") && title != ""
        then attrs["aria-label" := title] else attrs;
      labelled["tabindex" := "0"]
  }

  /** The title becomes the label exactly when there is a link, no label of either kind, and a non-empty title. */
  lemma AriaLabelRule(attrs: map<string, string>, hasLink: bool, title: string)
    ensures var r := AccessibleAttrs(attrs, hasLink, title);
      ("aria-label" in r && r["aria-label"] == title && !("aria-label" in attrs && attrs["aria-label"] == title)) <==>
        hasLink && !HasValue(attrs, "aria-label") && !HasValue(attrs, "aria-labelledby") && title != ""
    ensures HasValue(attrs, "aria-label") ==> AccessibleAttrs(attrs, hasLink, title)["aria-label"] == attrs["aria-label"]
  {
  }

  /** `initCardAccessibility` for one card. */
  method InitCardAccessibility(card: Dom.Element, hasLink: bool, title: string)
    modifies card
    ensures card.attrs == AccessibleAttrs(old(card.attrs), hasLink, title)
  {
    if hasLink {
      var ariaLabel := card.Attr("aria-label");
      var labelledBy := card.Attr("aria-labelledby");
      if (ariaLabel.None? || ariaLabel.value == "") && (labelledBy.None? || labelledBy.value == "") {
        if title != "" {
          card.attrs := card.attrs["aria-label" := title];
        }
      }
      card.attrs := card.attrs["tabindex" := "0"];
    }
  }

  // ---------------------------------------------------------------------------
  // Read more / read less
  // ---------------------------------------------------------------------------

  /** The content is truncated, with an expand button, only for a non-zero max-height it overflows. */
  function NeedsExpandButton(parsedMaxHeight: Option<int>, scrollHeight: int): (r: bool)
  {
    parsedMaxHeight.Some? && parsedMaxHeight.value != 0 && scrollHeight > parsedMaxHeight.value
  }

  function ExpandLabel(expanded: bool): string {
    if expanded then "Read less" else "Read more"
  }

  /** The truncated content's classes and its expand button. */
  class ContentTruncation {
    var truncated: bool
    var expanded: bool
    var button: Option<string>

    /** `initCardContentTruncation` for one content block; `expandedClass` is whether it already has the expanded class. */
    constructor (parsedMaxHeight: Option<int>, scrollHeight: int, expandedClass: bool)
      ensures truncated <==> NeedsExpandButton(parsedMaxHeight, scrollHeight)
      ensures button.Some? <==> truncated
      ensures button.Some? ==> button.value == "Read more"
      ensures expanded == expandedClass
    {
      expanded := expandedClass;
      if NeedsExpandButton(parsedMaxHeight, scrollHeight) {
        truncated := true;
        button := Some("Read more");
      } else {
        truncated := false;
        button := None;
      }
    }

    /** The expand button's click: toggle the expanded class, then label the button by it. */
    method ClickExpand()
      requires button.Some?
      modifies this
      ensures expanded == !old(expanded) && truncated == old(truncated)
      ensures button == Some(ExpandLabel(expanded))
      ensures button == Some("Read less") <==> expanded
    {
      expanded := !expanded;
      button := Some(if expanded then "Read less" else "Read more");
    }

    /** Two clicks restore the expanded state and leave the label matching it. */
    method ClickTwice()
      requires button.Some?
      modifies this
      ensures expanded == old(expanded) && truncated == old(truncated)
      ensures button == Some(ExpandLabel(old(expanded)))
    {
      ClickExpand();
      ClickExpand();
    }
  }
}
