/**
 * The theme's widget areas (`KawaiiUltra\Theme\Core\Setup`): the argument
 * array each sidebar is registered with, built from fixed defaults, an
 * optional `title_tag` override and `wp_parse_args`.
 */
module Setup {
  import opened Wrappers
  import opened Php

  /** A sidebar argument array: string keys, string values, in insertion order. */
  type Args = Entries<string, string>

  const TitleTagKey := "title_tag"
  const DefaultBeforeWidget := "<section id=\"%1$s\" class=\"widget %2$s\">"
  const DefaultAfterWidget := "</section>"

  function BeforeTitle(tag: string): string {
    "<" + tag + " class=\"widget-title\">"
  }

  function AfterTitle(tag: string): string {
    "</" + tag + ">"
  }

  /** `unset($a[$k])`: the entries of every other key, in order. */
  function Unset(a: Args, k: string): (r: Args)
    ensures k !in Keys(r)
    ensures forall x :: x in Keys(r) ==> x in Keys(a)
    ensures forall x :: x != k ==> Get(r, x) == Get(a, x)
    ensures UniqueKeys(a) ==> UniqueKeys(r)
  {
    if a == [] then []
    else
      var rest := Unset(a[1..], k);
      assert forall x :: x in Keys(a[1..]) ==> x in Keys(a) by {
        assert Keys(a) == [a[0].0] + Keys(a[1..]);
      }
      if a[0].0 == k then rest
      else
        var r := [a[0]] + rest;
        assert Keys(r) == [a[0].0] + Keys(rest);
        assert UniqueKeys(a) ==> a[0].0 !in Keys(a[1..]);
        r
  }

  /**
   * `wp_parse_args($args, $defaults)` on arrays with string keys: the defaults,
   * each caller entry assigned over them in order.
   */
  function ParseArgs(args: Args, defaults: Args): (r: Args)
  {
    if args == [] then defaults
    else
      var last := args[|args| - 1];
      Put(ParseArgs(args[..|args| - 1], defaults), last.0, last.1)
  }

  /**
   * A caller's value wins over a default, a default fills every key the caller
   * did not set, the defaults keep their positions at the front, and no key
   * appears twice.
   */
  lemma ParseArgsMerges(args: Args, defaults: Args)
    requires UniqueKeys(args) && UniqueKeys(defaults)
    ensures forall k :: Get(ParseArgs(args, defaults), k) == if k in Keys(args) then Get(args, k) else Get(defaults, k)
    ensures Keys(defaults) <= Keys(ParseArgs(args, defaults))
    ensures UniqueKeys(ParseArgs(args, defaults))
  {
    ParseArgsGet(args, defaults);
    ParseArgsKeys(args, defaults);
  }

  /** Each key reads as the caller's value where the caller set it, and as the default elsewhere. */
  lemma {:induction false} ParseArgsGet(args: Args, defaults: Args)
    requires UniqueKeys(args)
    ensures forall k :: Get(ParseArgs(args, defaults), k) == if k in Keys(args) then Get(args, k) else Get(defaults, k)
  {
    if args != [] {
      var init := args[..|args| - 1];
      var last := args[|args| - 1];
      assert args == init + [last];
      assert UniqueKeys(init);
      ParseArgsGet(init, defaults);
      var before := ParseArgs(init, defaults);
      assert Keys(args) == Keys(init) + [last.0];
      assert last.0 !in Keys(init);
      forall k ensures Get(ParseArgs(args, defaults), k) == if k in Keys(args) then Get(args, k) else Get(defaults, k) {
        PutGet(before, last.0, last.1, k);
        LastGet(init, last, k);
      }
    }
  }

  /** The defaults' keys stay a prefix and no key repeats. */
  lemma {:induction false} ParseArgsKeys(args: Args, defaults: Args)
    requires UniqueKeys(defaults)
    ensures Keys(defaults) <= Keys(ParseArgs(args, defaults))
    ensures UniqueKeys(ParseArgs(args, defaults))
  {
    if args != [] {
      var init := args[..|args| - 1];
      var last := args[|args| - 1];
      ParseArgsKeys(init, defaults);
      var before := ParseArgs(init, defaults);
      PutKeepsUniqueKeys(before, last.0, last.1);
      PutKeepsPrefix(before, last.0, last.1);
    }
  }

  /** Reading an array that ends with a fresh key. */
  lemma {:induction false} LastGet(init: Args, last: (string, string), k: string)
    requires last.0 !in Keys(init)
    ensures Get(init + [last], k) == if k == last.0 then Some(last.1) else Get(init, k)
  {
    if init != [] {
      assert (init + [last])[1..] == init[1..] + [last];
      assert Keys(init) == [init[0].0] + Keys(init[1..]);
      LastGet(init[1..], last, k);
    } else {
      assert init + [last] == [last];
    }
  }

  /** The defaults of `register_sidebar`, with the title tag of `title_tag` when it is set. */
  function SidebarDefaults(titleTag: Option<string>): (r: Args)
    ensures Keys(r) == ["before_widget", "after_widget", "before_title", "after_title"]
    ensures UniqueKeys(r)
  {
    var tag := titleTag.GetOr("h2");
    [("before_widget", DefaultBeforeWidget),
     ("after_widget", DefaultAfterWidget),
     ("before_title", BeforeTitle(tag)),
     ("after_title", AfterTitle(tag))]
  }

  /** `register_sidebar`: the argument array handed to WordPress. */
  function RegisterSidebar(args: Args): (r: Args)
    requires UniqueKeys(args)
    ensures UniqueKeys(r)
    ensures TitleTagKey !in Keys(r)
    ensures forall k :: k != TitleTagKey && k in Keys(args) ==> Get(r, k) == Get(args, k)
    ensures forall k :: k !in Keys(args) ==> Get(r, k) == Get(SidebarDefaults(Get(args, TitleTagKey)), k)
    ensures Keys(SidebarDefaults(Get(args, TitleTagKey))) <= Keys(r)
  {
    var defaults := SidebarDefaults(Get(args, TitleTagKey));
    var caller := Unset(args, TitleTagKey);
    ParseArgsMerges(caller, defaults);
    assert TitleTagKey !in Keys(defaults);
    ParseArgs(caller, defaults)
  }

  /** What the defaults say for each title key. */
  lemma DefaultsGet(titleTag: Option<string>)
    ensures Get(SidebarDefaults(titleTag), "before_widget") == Some(DefaultBeforeWidget)
    ensures Get(SidebarDefaults(titleTag), "after_widget") == Some(DefaultAfterWidget)
    ensures Get(SidebarDefaults(titleTag), "before_title") == Some(BeforeTitle(titleTag.GetOr("h2")))
    ensures Get(SidebarDefaults(titleTag), "after_title") == Some(AfterTitle(titleTag.GetOr("h2")))
  {
    var d := SidebarDefaults(titleTag);
    var tag := titleTag.GetOr("h2");
    assert d[1..][0] == ("after_widget", DefaultAfterWidget);
    assert "before_widget"[0] != "after_widget"[0];
    assert Get(d, "before_title") == Get(d[1..][1..], "before_title");
    assert d[1..][1..][0] == ("before_title", BeforeTitle(tag));
    assert "before_title"[0] != "after_title"[0];
    assert Get(d[1..][1..], "after_title") == Get(d[1..][1..][1..], "after_title");
    assert Get(d, "after_title") == Get(d[1..][1..], "after_title");
    assert d[1..][1..][1..][0] == ("after_title", AfterTitle(tag));
  }

  /** Without `title_tag`, titles are wrapped in `h2`. */
  lemma DefaultTitleTag(args: Args)
    requires UniqueKeys(args)
    requires TitleTagKey !in Keys(args) && "before_title" !in Keys(args) && "after_title" !in Keys(args)
    ensures Get(RegisterSidebar(args), "before_title") == Some(BeforeTitle("h2"))
    ensures Get(RegisterSidebar(args), "after_title") == Some(AfterTitle("h2"))
  {
    assert Get(args, TitleTagKey) == None;
    DefaultsGet(None);
  }

  /** With `title_tag` t, titles are wrapped in t. */
  lemma TitleTagOverride(args: Args, tag: string)
    requires UniqueKeys(args)
    requires Get(args, TitleTagKey) == Some(tag) && "before_title" !in Keys(args) && "after_title" !in Keys(args)
    ensures Get(RegisterSidebar(args), "before_title") == Some(BeforeTitle(tag))
    ensures Get(RegisterSidebar(args), "after_title") == Some(AfterTitle(tag))
  {
    DefaultsGet(Some(tag));
  }

  /** The array `widgets_init` passes for a widget area with the default title tag. */
  function AreaArgs(name: string, id: string, description: string): (r: Args)
    ensures UniqueKeys(r)
    ensures Get(r, "id") == Some(id)
    ensures TitleTagKey !in Keys(r)
    ensures "before_widget" !in Keys(r) && "after_widget" !in Keys(r)
    ensures "before_title" !in Keys(r) && "after_title" !in Keys(r)
  {
    var r := [("name", name), ("id", id), ("description", description)];
    assert Keys(r) == ["name", "id", "description"];
    assert Get(r, "id") == Some(id) by {
      assert r[0].0 != "id";
      assert r[1..][0] == ("id", id);
    }
    r
  }

  /** The same with a `title_tag` entry after the others. */
  function TaggedAreaArgs(name: string, id: string, description: string, tag: string): (r: Args)
    ensures UniqueKeys(r)
    ensures Get(r, "id") == Some(id)
    ensures Get(r, TitleTagKey) == Some(tag)
    ensures "before_widget" !in Keys(r) && "after_widget" !in Keys(r)
    ensures "before_title" !in Keys(r) && "after_title" !in Keys(r)
  {
    var base := AreaArgs(name, id, description);
    AppendFresh(base, TitleTagKey, tag);
    LastGet(base, (TitleTagKey, tag), "id");
    LastGet(base, (TitleTagKey, tag), TitleTagKey);
    base + [(TitleTagKey, tag)]
  }

  /** A registered widget area: `register_sidebar` of its arguments. */
  function Area(args: Args): Args
    requires UniqueKeys(args)
  {
    RegisterSidebar(args)
  }

  lemma AreaId(args: Args, id: string)
    requires UniqueKeys(args) && Get(args, "id") == Some(id)
    ensures Get(Area(args), "id") == Some(id)
  {
    assert "id" in Keys(args);
  }

  /** Areas that do not set the widget wrapper get the default `section` and its closing tag. */
  lemma AreaWidgetWrapper(args: Args)
    requires UniqueKeys(args) && "before_widget" !in Keys(args) && "after_widget" !in Keys(args)
    ensures Get(Area(args), "before_widget") == Some(DefaultBeforeWidget)
    ensures Get(Area(args), "after_widget") == Some(DefaultAfterWidget)
  {
    DefaultsGet(Get(args, TitleTagKey));
  }

  /**
   * `widgets_init`: the arguments of the three widget areas, in registration
   * order; `translate` is `esc_html__` with the theme's text domain.
   */
  function WidgetsInit(translate: string -> string): (r: seq<Args>)
    ensures |r| == 3
  {
    [Area(AreaArgs(translate("Sidebar"), "sidebar-1", translate("Add widgets here."))),
     Area(TaggedAreaArgs(translate("Footer 1"), "footer-1", translate("Add widgets here for footer column 1."), "h3")),
     Area(TaggedAreaArgs(translate("Footer 2"), "footer-2", translate("Add widgets here for footer column 2."), "h3"))]
  }

  /** An area without `title_tag` keeps its id and gets `h2` titles and the default wrapper. */
  lemma PlainAreaFacts(args: Args, id: string)
    requires UniqueKeys(args) && Get(args, "id") == Some(id)
    requires TitleTagKey !in Keys(args) && "before_widget" !in Keys(args) && "after_widget" !in Keys(args)
    requires "before_title" !in Keys(args) && "after_title" !in Keys(args)
    ensures Get(Area(args), "id") == Some(id)
    ensures Get(Area(args), "before_title") == Some(BeforeTitle("h2"))
    ensures Get(Area(args), "after_title") == Some(AfterTitle("h2"))
    ensures Get(Area(args), "before_widget") == Some(DefaultBeforeWidget)
    ensures Get(Area(args), "after_widget") == Some(DefaultAfterWidget)
  {
    assert Get(Area(args), "id") == Some(id) by {
      AreaId(args, id);
    }
    assert Get(Area(args), "before_title") == Some(BeforeTitle("h2")) && Get(Area(args), "after_title") == Some(AfterTitle("h2")) by {
      DefaultTitleTag(args);
    }
    assert Get(Area(args), "before_widget") == Some(DefaultBeforeWidget) &&
      Get(Area(args), "after_widget") == Some(DefaultAfterWidget) by {
      AreaWidgetWrapper(args);
    }
  }

  /** An area with `title_tag` keeps its id and gets titles in that tag and the default wrapper. */
  lemma TaggedAreaFacts(args: Args, id: string, tag: string)
    requires UniqueKeys(args) && Get(args, "id") == Some(id) && Get(args, TitleTagKey) == Some(tag)
    requires "before_widget" !in Keys(args) && "after_widget" !in Keys(args)
    requires "before_title" !in Keys(args) && "after_title" !in Keys(args)
    ensures Get(Area(args), "id") == Some(id)
    ensures Get(Area(args), "before_title") == Some(BeforeTitle(tag))
    ensures Get(Area(args), "after_title") == Some(AfterTitle(tag))
    ensures Get(Area(args), "before_widget") == Some(DefaultBeforeWidget)
    ensures Get(Area(args), "after_widget") == Some(DefaultAfterWidget)
  {
    assert Get(Area(args), "id") == Some(id) by {
      AreaId(args, id);
    }
    assert Get(Area(args), "before_title") == Some(BeforeTitle(tag)) && Get(Area(args), "after_title") == Some(AfterTitle(tag)) by {
      TitleTagOverride(args, tag);
    }
    assert Get(Area(args), "before_widget") == Some(DefaultBeforeWidget) &&
      Get(Area(args), "after_widget") == Some(DefaultAfterWidget) by {
      AreaWidgetWrapper(args);
    }
  }

  /** The first area registered is sidebar-1, with `h2` titles and the default wrapper. */
  lemma SidebarArea(translate: string -> string)
    ensures Get(WidgetsInit(translate)[0], "id") == Some("sidebar-1")
    ensures Get(WidgetsInit(translate)[0], "before_title") == Some(BeforeTitle("h2"))
    ensures Get(WidgetsInit(translate)[0], "after_title") == Some(AfterTitle("h2"))
    ensures Get(WidgetsInit(translate)[0], "before_widget") == Some(DefaultBeforeWidget)
    ensures Get(WidgetsInit(translate)[0], "after_widget") == Some(DefaultAfterWidget)
  {
    PlainAreaFacts(AreaArgs(translate("Sidebar"), "sidebar-1", translate("Add widgets here.")), "sidebar-1");
  }

  /** The second is footer-1, with `h3` titles and the default wrapper. */
  lemma FirstFooterArea(translate: string -> string)
    ensures Get(WidgetsInit(translate)[1], "id") == Some("footer-1")
    ensures Get(WidgetsInit(translate)[1], "before_title") == Some(BeforeTitle("h3"))
    ensures Get(WidgetsInit(translate)[1], "after_title") == Some(AfterTitle("h3"))
    ensures Get(WidgetsInit(translate)[1], "before_widget") == Some(DefaultBeforeWidget)
    ensures Get(WidgetsInit(translate)[1], "after_widget") == Some(DefaultAfterWidget)
  {
    var args := TaggedAreaArgs(translate("Footer 1"), "footer-1", translate("Add widgets here for footer column 1."), "h3");
    TaggedAreaFacts(args, "footer-1", "h3");
  }

  /** The third is footer-2, with `h3` titles and the default wrapper. */
  lemma SecondFooterArea(translate: string -> string)
    ensures Get(WidgetsInit(translate)[2], "id") == Some("footer-2")
    ensures Get(WidgetsInit(translate)[2], "before_title") == Some(BeforeTitle("h3"))
    ensures Get(WidgetsInit(translate)[2], "after_title") == Some(AfterTitle("h3"))
    ensures Get(WidgetsInit(translate)[2], "before_widget") == Some(DefaultBeforeWidget)
    ensures Get(WidgetsInit(translate)[2], "after_widget") == Some(DefaultAfterWidget)
  {
    var args := TaggedAreaArgs(translate("Footer 2"), "footer-2", translate("Add widgets here for footer column 2."), "h3");
    TaggedAreaFacts(args, "footer-2", "h3");
  }
}
