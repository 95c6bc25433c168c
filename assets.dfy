/**
 * The theme's asset loading (`KawaiiUltra\Theme\Core\Assets`): the cache-busting
 * version, the admin pages that get the admin stylesheet and script, and the
 * inline CSS that carries the primary colour.
 */
module Assets {
  import opened Wrappers
  import Php
  import Strings

  const FallbackVersion := "1.0.0"
  const DefaultPrimaryColor := "#0073aa"

  /** The admin screens, by hook suffix, that load the theme's admin assets. */
  const AllowedHooks := ["customize.php", "appearance_page_theme-options", "themes.php", "widgets.php"]

  datatype AdminAsset =
    | AdminStyle(handle: string, url: string, version: string)
    | AdminScript(handle: string, url: string, deps: seq<string>, version: string, inFooter: bool)

  class Assets {
    /** The version string appended to every asset URL. */
    const version: string

    /** The theme header's `Version`, or 1.0.0 when it is empty or "0" (`?:`). */
    constructor (themeVersion: string)
      ensures Php.StrTruthy(themeVersion) ==> version == themeVersion
      ensures !Php.StrTruthy(themeVersion) ==> version == FallbackVersion
    {
      version := if Php.StrTruthy(themeVersion) then themeVersion else FallbackVersion;
    }

    /**
     * `admin_scripts`: nothing outside the allowed screens (strict comparison);
     * on them the admin stylesheet, then the admin script in the footer after
     * jQuery, both at this version.
     */
    function AdminScripts(hook: string, templateUri: string): (r: seq<AdminAsset>)
      ensures r == [] <==> hook !in AllowedHooks
      ensures r != [] ==> |r| == 2
      ensures r != [] ==> r[0] == AdminStyle("kawaii-ultra-admin", templateUri + "/css/admin.css", version)
      ensures r != [] ==> r[1] == AdminScript("kawaii-ultra-admin", templateUri + "/js/admin.js", ["jquery"], version, true)
    {
      if hook !in AllowedHooks then []
      else
        [AdminStyle("kawaii-ultra-admin", templateUri + "/css/admin.css", version),
         AdminScript("kawaii-ultra-admin", templateUri + "/js/admin.js", ["jquery"], version, true)]
    }
  }

  /** Every admin asset of one page carries the version its `Assets` object was built with. */
  lemma AdminAssetsCarryVersion(assets: Assets, hook: string, templateUri: string, a: AdminAsset)
    requires a in assets.AdminScripts(hook, templateUri)
    ensures a.version == assets.version
  {
  }

  // ---------------------------------------------------------------------------
  // custom_css / get_primary_color
  // ---------------------------------------------------------------------------

  /** `get_primary_color`: the stored theme mod, or the default when none is stored. */
  function PrimaryColor(themeMod: Option<string>): (r: string)
    ensures themeMod.None? ==> r == DefaultPrimaryColor
    ensures themeMod.Some? ==> r == themeMod.value
  {
    themeMod.GetOr(DefaultPrimaryColor)
  }

  const CssHead := "<style type=\"text/css\">\n                :root { --primary-color: "
  const CssAfterRoot := "; }\n                .main-navigation a:hover { color: "
  const CssAfterHover := "; }\n                a { color: "
  const CssTail := "; }\n            </style>"

  /** The fixed text around the three colour slots. */
  function TemplateLength(): nat {
    |CssHead| + |CssAfterRoot| + |CssAfterHover| + |CssTail|
  }

  /**
   * `text` is `head`, `arg`, `first`, `arg`, `second`, `arg`, `tail` in a row:
   * what `sprintf` makes of a template with three `%s` slots given the same
   * argument three times.
   */
  predicate ThreeSlotsFilled(text: string, head: string, first: string, second: string, tail: string, arg: string) {
    && |text| == |head| + |first| + |second| + |tail| + 3 * |arg|
    && head <= text
    && Strings.OccursAt(text, arg, |head|)
    && Strings.OccursAt(text, arg, |head| + |arg| + |first|)
    && Strings.OccursAt(text, arg, |head| + 2 * |arg| + |first| + |second|)
  }

  lemma ThreeSlots(head: string, first: string, second: string, tail: string, arg: string)
    ensures ThreeSlotsFilled(head + arg + first + arg + second + arg + tail, head, first, second, tail, arg)
  {
    FirstSlot(head, first, second, tail, arg);
    SecondSlot(head, first, second, tail, arg);
    ThirdSlot(head, first, second, tail, arg);
    assert (head + arg + first + arg + second + arg + tail)[..|head|] == head;
  }

  lemma FirstSlot(head: string, first: string, second: string, tail: string, arg: string)
    ensures Strings.OccursAt(head + arg + first + arg + second + arg + tail, arg, |head|)
  {
    var t1 := head + arg;
    Strings.OccursAppended(head, arg);
    Strings.OccursExtend(t1, first, arg, |head|);
    Strings.OccursExtend(t1 + first, arg, arg, |head|);
    Strings.OccursExtend(t1 + first + arg, second, arg, |head|);
    Strings.OccursExtend(t1 + first + arg + second, arg, arg, |head|);
    Strings.OccursExtend(t1 + first + arg + second + arg, tail, arg, |head|);
  }

  lemma SecondSlot(head: string, first: string, second: string, tail: string, arg: string)
    ensures Strings.OccursAt(head + arg + first + arg + second + arg + tail, arg, |head| + |arg| + |first|)
  {
    var t3 := head + arg + first + arg;
    Strings.OccursAppended(head + arg + first, arg);
    Strings.OccursExtend(t3, second, arg, |head| + |arg| + |first|);
    Strings.OccursExtend(t3 + second, arg, arg, |head| + |arg| + |first|);
    Strings.OccursExtend(t3 + second + arg, tail, arg, |head| + |arg| + |first|);
  }

  lemma ThirdSlot(head: string, first: string, second: string, tail: string, arg: string)
    ensures Strings.OccursAt(head + arg + first + arg + second + arg + tail, arg, |head| + 2 * |arg| + |first| + |second|)
  {
    var t5 := head + arg + first + arg + second + arg;
    Strings.OccursAppended(head + arg + first + arg + second, arg);
    Strings.OccursExtend(t5, tail, arg, |head| + 2 * |arg| + |first| + |second|);
  }

  /**
   * `custom_css`: the style element with the escaped primary colour in its
   * three slots: the custom property, the navigation hover colour and the link
   * colour.
   */
  function CustomCss(escAttr: string -> string, themeMod: Option<string>): (r: string)
    ensures ThreeSlotsFilled(r, CssHead, CssAfterRoot, CssAfterHover, CssTail, escAttr(PrimaryColor(themeMod)))
  {
    var c := escAttr(PrimaryColor(themeMod));
    var r := CssHead + c + CssAfterRoot + c + CssAfterHover + c + CssTail;
    ThreeSlots(CssHead, CssAfterRoot, CssAfterHover, CssTail, c);
    r
  }

  /** The colour in the first slot of a `custom_css` block. */
  function SlotColor(css: string): (r: string)
    requires |css| >= TemplateLength() && (|css| - TemplateLength()) % 3 == 0
  {
    css[|CssHead|..|CssHead| + (|css| - TemplateLength()) / 3]
  }

  /** The escaped colour can be read back from the CSS, so distinct colours give distinct CSS. */
  lemma CustomCssRoundTrip(escAttr: string -> string, themeMod: Option<string>)
    ensures var css := CustomCss(escAttr, themeMod);
            |css| >= TemplateLength() && (|css| - TemplateLength()) % 3 == 0
            && SlotColor(css) == escAttr(PrimaryColor(themeMod))
  {
    var css := CustomCss(escAttr, themeMod);
    var c := escAttr(PrimaryColor(themeMod));
    assert (|css| - TemplateLength()) / 3 == |c|;
  }
}
