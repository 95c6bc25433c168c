/** The button block's front-end attribute check (js/blocks/button.js). */
module ButtonScript {
  import Dom

  const ValidStyles: seq<string> := ["primary", "secondary", "ghost", "round"]
  const ValidSizes: seq<string> := ["small", "medium", "large"]

  /** The attributes after `validateButtonAttributes`: `data-style` first, then `data-size`. */
  function ValidatedButtonAttrs(attrs: map<string, string>): (r: map<string, string>)
    ensures r.Keys == attrs.Keys
  {
    Dom.WithAllowedValue(Dom.WithAllowedValue(attrs, "data-style", ValidStyles, "primary"), "data-size", ValidSizes, "medium")
  }

  /** `validateButtonAttributes($button)`: rewrites the element's attributes in place. */
  method ValidateButtonAttributes(button: Dom.Element)
    modifies button
    ensures button.attrs == ValidatedButtonAttrs(old(button.attrs))
  {
    var style := button.Attr("data-style");
    var size := button.Attr("data-size");
    if style.Some? && style.value != "" && style.value !in ValidStyles {
      button.attrs := button.attrs["data-style" := "primary"];
    }
    if size.Some? && size.value != "" && size.value !in ValidSizes {
      button.attrs := button.attrs["data-size" := "medium"];
    }
  }

  /** A known style is kept; any other non-empty style becomes 'primary'; an empty one stays empty. */
  lemma StyleRule(attrs: map<string, string>)
    requires "data-style" in attrs
    ensures attrs["data-style"] in ValidStyles ==> ValidatedButtonAttrs(attrs)["data-style"] == attrs["data-style"]
    ensures attrs["data-style"] != "" && attrs["data-style"] !in ValidStyles ==> ValidatedButtonAttrs(attrs)["data-style"] == "primary"
    ensures attrs["data-style"] == "" ==> ValidatedButtonAttrs(attrs)["data-style"] == ""
  {
  }

  /** A known size is kept; any other non-empty size becomes 'medium'; an empty one stays empty. */
  lemma SizeRule(attrs: map<string, string>)
    requires "data-size" in attrs
    ensures attrs["data-size"] in ValidSizes ==> ValidatedButtonAttrs(attrs)["data-size"] == attrs["data-size"]
    ensures attrs["data-size"] != "" && attrs["data-size"] !in ValidSizes ==> ValidatedButtonAttrs(attrs)["data-size"] == "medium"
    ensures attrs["data-size"] == "" ==> ValidatedButtonAttrs(attrs)["data-size"] == ""
  {
  }

  /** Absent attributes stay absent, and no attribute other than style and size changes. */
  lemma OnlyStyleAndSizeChange(attrs: map<string, string>, name: string)
    ensures name !in attrs ==> name !in ValidatedButtonAttrs(attrs)
    ensures name in attrs && name != "data-style" && name != "data-size" ==> ValidatedButtonAttrs(attrs)[name] == attrs[name]
  {
  }

  /** Running the check twice is running it once. */
  lemma ButtonValidationIdempotent(attrs: map<string, string>)
    ensures ValidatedButtonAttrs(ValidatedButtonAttrs(attrs)) == ValidatedButtonAttrs(attrs)
  {
    var once := ValidatedButtonAttrs(attrs);
    assert "primary" in ValidStyles && "medium" in ValidSizes;
    assert forall k :: k in once ==> ValidatedButtonAttrs(once)[k] == once[k];
  }

  /** The style's outcome depends on the style alone and the size's on the size alone. */
  lemma StyleAndSizeIndependent(a: map<string, string>, b: map<string, string>)
    requires "data-style" in a && "data-style" in b && "data-size" in a && "data-size" in b
    ensures a["data-style"] == b["data-style"] ==> ValidatedButtonAttrs(a)["data-style"] == ValidatedButtonAttrs(b)["data-style"]
    ensures a["data-size"] == b["data-size"] ==> ValidatedButtonAttrs(a)["data-size"] == ValidatedButtonAttrs(b)["data-size"]
  {
  }
}
