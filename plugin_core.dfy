/**
 * The companion plugin's core class (`KawaiiUltra\Functionality\Core\Plugin`):
 * the show-once activation notice and the extra links on the plugins screen.
 */
module PluginCore {
  import opened Php
  import WordPress
  import PluginBootstrap

  // ---------------------------------------------------------------------------
  // activation_notice
  // ---------------------------------------------------------------------------

  /** `activation_notice`: shown while the flag is set, and the flag is deleted when shown. */
  method ActivationNotice(store: WordPress.TransientStore) returns (shown: bool)
    modifies store
    ensures shown <==> Truthy(old(store.Get(PluginBootstrap.ActivatedTransient)))
    ensures shown ==> store.values == old(store.values) - {PluginBootstrap.ActivatedTransient}
    ensures !shown ==> store.values == old(store.values)
  {
    shown := Truthy(store.Get(PluginBootstrap.ActivatedTransient));
    if shown {
      store.Delete(PluginBootstrap.ActivatedTransient);
    }
  }

  /** One activation shows the notice on the next admin page and never on the one after. */
  method NoticeShownOncePerActivation() returns (first: bool, second: bool)
    ensures first && !second
  {
    var store := new WordPress.TransientStore();
    PluginBootstrap.Activate(store);
    first := ActivationNotice(store);
    second := ActivationNotice(store);
  }

  // ---------------------------------------------------------------------------
  // plugin_action_links
  // ---------------------------------------------------------------------------

  /** A PHP array key: positional or named. */
  datatype LinkKey = Position(n: nat) | Named(name: string)

  function Values<K, V>(a: Entries<K, V>): (r: seq<V>)
    ensures |r| == |a|
    ensures forall i :: 0 <= i < |a| ==> r[i] == a[i].1
  {
    if a == [] then [] else [a[0].1] + Values(a[1..])
  }

  /** The number of positional keys in an array. */
  function PositionalCount(a: Entries<LinkKey, string>): nat {
    if a == [] then 0 else (if a[0].0.Position? then 1 else 0) + PositionalCount(a[1..])
  }

  /**
   * `array_merge` over arrays whose named keys do not repeat: values in order,
   * named keys kept, positional keys renumbered `next`, `next + 1`, ... in order.
   */
  function Renumber(a: Entries<LinkKey, string>, next: nat): (r: Entries<LinkKey, string>)
    ensures |r| == |a|
    ensures Values(r) == Values(a)
    ensures forall i :: 0 <= i < |a| && a[i].0.Named? ==> r[i].0 == a[i].0
    ensures forall i :: 0 <= i < |a| && a[i].0.Position? ==> r[i].0 == Position(next + PositionalCount(a[..i]))
  {
    if a == [] then []
    else
      var step := if a[0].0.Named? then 0 else 1;
      var key := if a[0].0.Named? then a[0].0 else Position(next);
      var rest := Renumber(a[1..], next + step);
      assert Values([(key, a[0].1)] + rest) == [a[0].1] + Values(rest);
      assert forall i :: 1 <= i <= |a| ==> a[..i][1..] == a[1..][..i - 1];
      assert forall i :: 1 <= i <= |a| ==> PositionalCount(a[..i]) == step + PositionalCount(a[1..][..i - 1]);
      [(key, a[0].1)] + rest
  }

  function AdminLink(adminUrl: string -> string, target: string, text: string): string {
    "<a href=\"" + adminUrl(target) + "\">" + text + "</a>"
  }

  /** `plugin_action_links`: the portfolio and testimonial links in front of the given ones. */
  function PluginActionLinks(adminUrl: string -> string, links: Entries<LinkKey, string>): (r: Entries<LinkKey, string>)
    ensures |r| == |links| + 2
    ensures Values(r) == [AdminLink(adminUrl, "edit.php?post_type=portfolio", "Portfolio"),
                          AdminLink(adminUrl, "edit.php?post_type=testimonial", "Testimonials")] + Values(links)
    ensures r[0].0 == Position(0) && r[1].0 == Position(1)
    ensures forall i :: 0 <= i < |links| && links[i].0.Named? ==> r[i + 2].0 == links[i].0
    ensures forall i :: 0 <= i < |links| && links[i].0.Position? ==> r[i + 2].0 == Position(2 + PositionalCount(links[..i]))
  {
    var custom := [(Position(0), AdminLink(adminUrl, "edit.php?post_type=portfolio", "Portfolio")),
                   (Position(1), AdminLink(adminUrl, "edit.php?post_type=testimonial", "Testimonials"))];
    ValuesSplit(custom, links);
    RenumberBehindTwo(custom, links);
    Renumber(custom + links, 0)
  }

  /** Renumbering two positional entries followed by the given ones: keys 0 and 1, then the given keys shifted by two. */
  lemma RenumberBehindTwo(custom: Entries<LinkKey, string>, links: Entries<LinkKey, string>)
    requires |custom| == 2 && custom[0].0.Position? && custom[1].0.Position?
    ensures var r := Renumber(custom + links, 0);
      r[0].0 == Position(0) && r[1].0 == Position(1) &&
      (forall i :: 0 <= i < |links| && links[i].0.Named? ==> r[i + 2].0 == links[i].0) &&
      (forall i :: 0 <= i < |links| && links[i].0.Position? ==> r[i + 2].0 == Position(2 + PositionalCount(links[..i])))
  {
    var a := custom + links;
    assert a[..0] == [];
    assert a[..1] == [custom[0]];
    assert PositionalCount([custom[0]]) == 1 + PositionalCount([custom[0]][1..]);
    assert [custom[0]][1..] == [];
    assert forall i :: 0 <= i < |links| ==> a[i + 2] == links[i];
    PositionalCountAfterTwo(custom, links);
  }

  /** When every given link is positional, as WordPress's list is, the result is the list `0, 1, 2, ...`. */
  lemma ActionLinksAreAList(adminUrl: string -> string, links: Entries<LinkKey, string>)
    requires forall i :: 0 <= i < |links| ==> links[i].0.Position?
    ensures forall i :: 0 <= i < |links| + 2 ==> PluginActionLinks(adminUrl, links)[i].0 == Position(i)
  {
    forall i | 0 <= i < |links|
      ensures PositionalCount(links[..i]) == i
    {
      AllPositionalCount(links[..i]);
    }
  }

  lemma {:induction false} AllPositionalCount(a: Entries<LinkKey, string>)
    requires forall i :: 0 <= i < |a| ==> a[i].0.Position?
    ensures PositionalCount(a) == |a|
  {
    if a != [] {
      AllPositionalCount(a[1..]);
    }
  }

  /** Two positional entries in front add two to every prefix's positional count. */
  lemma PositionalCountAfterTwo(custom: Entries<LinkKey, string>, links: Entries<LinkKey, string>)
    requires |custom| == 2 && custom[0].0.Position? && custom[1].0.Position?
    ensures forall i :: 0 <= i <= |links| ==> PositionalCount((custom + links)[..i + 2]) == 2 + PositionalCount(links[..i])
  {
    forall i | 0 <= i <= |links|
      ensures PositionalCount((custom + links)[..i + 2]) == 2 + PositionalCount(links[..i])
    {
      var p := (custom + links)[..i + 2];
      assert p[1..][1..] == links[..i];
    }
  }

  lemma ValuesSplit<K, V>(a: Entries<K, V>, b: Entries<K, V>)
    ensures Values(a + b) == Values(a) + Values(b)
  {
    var l, r := Values(a + b), Values(a) + Values(b);
    assert |l| == |r|;
    forall i | 0 <= i < |l|
      ensures l[i] == r[i]
    {
      if i < |a| {
        assert r[i] == Values(a)[i];
      } else {
        assert r[i] == Values(b)[i - |a|];
      }
    }
  }

  /** The input links keep their order after the two custom ones. */
  lemma ActionLinksKeepOrder(adminUrl: string -> string, links: Entries<LinkKey, string>, i: nat)
    requires i < |links|
    ensures Values(PluginActionLinks(adminUrl, links))[i + 2] == links[i].1
  {
  }
}
