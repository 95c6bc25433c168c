/**
 * The theme's filter callbacks and feature checks
 * (`KawaiiUltra\Theme\Core\Theme`): body classes, excerpt settings, the
 * plugin dependency notice and the availability of the plugin's features.
 */
module Theme {
  import opened Wrappers
  import Strings

  // ---------------------------------------------------------------------------
  // body_class
  // ---------------------------------------------------------------------------

  /** `body_classes`: `hfeed` off singular pages, then `has-sidebar` when sidebar-1 has widgets. */
  function BodyClasses(classes: seq<string>, isSingular: bool, sidebarActive: bool): (r: seq<string>)
    ensures classes <= r
    ensures |r| == |classes| + (if isSingular then 0 else 1) + (if sidebarActive then 1 else 0)
    ensures "hfeed" in r[|classes|..] <==> !isSingular
    ensures "has-sidebar" in r[|classes|..] <==> sidebarActive
    ensures forall c :: c in r[|classes|..] ==> c == "hfeed" || c == "has-sidebar"
    ensures !isSingular && sidebarActive ==> r[|classes|] == "hfeed" && r[|classes| + 1] == "has-sidebar"
  {
    var withFeed := if isSingular then classes else classes + ["hfeed"];
    var r := if sidebarActive then withFeed + ["has-sidebar"] else withFeed;
    assert r[|classes|..] == (if isSingular then [] else ["hfeed"]) + (if sidebarActive then ["has-sidebar"] else []);
    r
  }

  // ---------------------------------------------------------------------------
  // excerpt_length / excerpt_more
  // ---------------------------------------------------------------------------

  /** `excerpt_length`: twenty words whatever WordPress proposes. */
  function ExcerptLength(length: int): (r: int)
    ensures r == 20
  {
    20
  }

  /** `excerpt_more`: an ellipsis of three dots whatever WordPress proposes. */
  function ExcerptMore(more: string): (r: string)
    ensures r == "..."
  {
    "..."
  }

  // ---------------------------------------------------------------------------
  // plugin_dependency_notice
  // ---------------------------------------------------------------------------

  const InstallTarget := "plugin-install.php?tab=upload"

  const MessageIntro := "The <strong>KawaiiUltra</strong> theme works best with the <strong>KawaiiUltra Functionality</strong> plugin. <a href=\""
  const MessageButton := "\" class=\"button button-primary\">Install Plugin</a>"
  const NoticeOpen := "<div class=\"notice notice-info is-dismissible\"><p>"
  const NoticeClose := "</p></div>"

  /** The notice text before `wp_kses_post`, with the install link into `adminUrl`. */
  function DependencyMessage(adminUrl: string -> string): (r: string)
    ensures Strings.Contains(r, adminUrl(InstallTarget))
  {
    var r := MessageIntro + adminUrl(InstallTarget) + MessageButton;
    Strings.OccursBetween(MessageIntro, adminUrl(InstallTarget), MessageButton);
    r
  }

  /**
   * `plugin_dependency_notice`: the info notice, printed only when the plugin's
   * main class is not loaded and the user may install plugins.
   */
  function DependencyNotice(pluginLoaded: bool, canInstallPlugins: bool, adminUrl: string -> string,
                            ksesPost: string -> string): (r: Option<string>)
    ensures r.Some? <==> !pluginLoaded && canInstallPlugins
    ensures r.Some? ==> r.value == NoticeOpen + ksesPost(DependencyMessage(adminUrl)) + NoticeClose
  {
    if !pluginLoaded && canInstallPlugins then
      Some(NoticeOpen + ksesPost(DependencyMessage(adminUrl)) + NoticeClose)
    else
      None
  }

  // ---------------------------------------------------------------------------
  // has_functionality_feature
  // ---------------------------------------------------------------------------

  /** What WordPress reports as registered: `post_type_exists` and `taxonomy_exists`. */
  datatype Registrations = Registrations(postTypeExists: string -> bool, taxonomyExists: string -> bool)

  /** The feature names the theme asks about, in the order of the switch. */
  const Features := ["portfolio", "testimonials", "portfolio_categories", "portfolio_tags", "testimonial_categories"]

  /** `has_functionality_feature`: whether the plugin registered what a feature needs. */
  function HasFunctionalityFeature(wp: Registrations, feature: string): (r: bool)
    ensures r ==> feature in Features
  {
    match feature
    case "portfolio" => wp.postTypeExists("portfolio")
    case "testimonials" => wp.postTypeExists("testimonial")
    case "portfolio_categories" => wp.taxonomyExists("portfolio_category")
    case "portfolio_tags" => wp.taxonomyExists("portfolio_tag")
    case "testimonial_categories" => wp.taxonomyExists("testimonial_category")
    case _ => false
  }

  /**
   * The feature names map to the registrations the plugin makes: two post
   * types and three taxonomies; the check reads nothing else.
   */
  lemma FeatureRegistrations(wp: Registrations)
    ensures HasFunctionalityFeature(wp, "portfolio") == wp.postTypeExists("portfolio")
    ensures HasFunctionalityFeature(wp, "testimonials") == wp.postTypeExists("testimonial")
    ensures HasFunctionalityFeature(wp, "portfolio_categories") == wp.taxonomyExists("portfolio_category")
    ensures HasFunctionalityFeature(wp, "portfolio_tags") == wp.taxonomyExists("portfolio_tag")
    ensures HasFunctionalityFeature(wp, "testimonial_categories") == wp.taxonomyExists("testimonial_category")
  {
  }

  /** Without the plugin nothing is registered and no feature is available. */
  lemma NoFeaturesWithoutPlugin(wp: Registrations, feature: string)
    requires forall t :: !wp.postTypeExists(t) && !wp.taxonomyExists(t)
    ensures !HasFunctionalityFeature(wp, feature)
  {
  }
}
