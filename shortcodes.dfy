/**
 * The companion plugin's shortcodes (`KawaiiUltra\Functionality\Features\Shortcodes`):
 * attribute normalisation, the query each one builds, its empty-result message and
 * the items its loop renders.
 */
module Shortcodes {
  import opened Wrappers
  import opened Php

  /** A `tax_query` clause. */
  datatype TaxQuery = TaxQuery(taxonomy: string, field: string, terms: string)

  /** The `$args` passed to `WP_Query`; `orderby`/`order` are set by the testimonial shortcode only. */
  datatype QueryArgs = QueryArgs(
    postType: string, postsPerPage: nat, postStatus: string,
    orderby: Option<string>, order: Option<string>, taxQuery: Option<TaxQuery>)

  /** What the loop reads of a post. */
  datatype Post = Post(title: string, permalink: string, hasThumbnail: bool, hasExcerpt: bool)

  /** The arguments passed to `get_terms`. */
  datatype TermQuery = TermQuery(taxonomy: string, hideEmpty: bool, orderby: string, order: string)

  datatype Term = Term(name: string, count: int, description: string)
  datatype TermsResult = Terms(terms: seq<Term>) | TermsError

  /** The WordPress calls the shortcodes make, taken as inputs. */
  datatype WordPress = WordPress(
    shortcodeAtts: (map<string, Value>, map<string, Value>) -> map<string, Value>,
    absint: Value -> nat,
    sanitizeTextField: Value -> string,
    filterBool: Value -> bool,
    taxonomyExists: string -> bool,
    queryPosts: QueryArgs -> seq<Post>,
    getTerms: TermQuery -> TermsResult)

  /** `shortcode_atts` as documented: exactly the default keys, a supplied value winning over its default. */
  predicate MergedAtts(defaults: map<string, Value>, atts: map<string, Value>, merged: map<string, Value>) {
    merged.Keys == defaults.Keys &&
    forall k :: k in defaults ==> merged[k] == (if k in atts then atts[k] else defaults[k])
  }

  ghost predicate MergesDefaults(wp: WordPress) {
    forall defaults, atts :: MergedAtts(defaults, atts, wp.shortcodeAtts(defaults, atts))
  }

  /** `absint` on an integer is its absolute value. */
  ghost predicate AbsintOnInts(wp: WordPress) {
    forall n: int :: wp.absint(Int(n)) == if n < 0 then -n else n
  }

  function Att(atts: map<string, Value>, key: string): Value {
    Lookup(Assoc(atts), key)
  }

  /** The paragraph every empty branch returns, by its text. */
  datatype Output =
    | Message(text: string)
    | PortfolioGrid(columns: nat, portfolioItems: seq<PortfolioItem>)
    | TestimonialList(testimonialItems: seq<TestimonialItem>)
    | CategoryList(categoryItems: seq<CategoryItem>)

  /** One grid item: the post, whether its thumbnail and its excerpt are shown. */
  datatype PortfolioItem = PortfolioItem(post: Post, thumbnail: bool, excerpt: bool)
  /** One testimonial: the post, whether the author block and its photo are shown. */
  datatype TestimonialItem = TestimonialItem(post: Post, author: bool, photo: bool)
  /** One category: the term, whether its count and its description are shown. */
  datatype CategoryItem = CategoryItem(term: Term, count: bool, description: bool)

  /** The category filter both post shortcodes add for a non-empty category. */
  function CategoryFilter(wp: WordPress, taxonomy: string, category: string): (r: Option<TaxQuery>)
    ensures r.Some? <==> StrTruthy(category) && wp.taxonomyExists(taxonomy)
    ensures r.Some? ==> r.value == TaxQuery(taxonomy, "slug", category)
  {
    if StrTruthy(category) && wp.taxonomyExists(taxonomy) then Some(TaxQuery(taxonomy, "slug", category)) else None
  }

  // ---------------------------------------------------------------------------
  // [portfolio_list]
  // ---------------------------------------------------------------------------

  const PortfolioDefaults: map<string, Value> :=
    map["limit" := Int(6), "category" := Str(""), "columns" := Int(3), "show_excerpt" := Str("true")]

  datatype PortfolioSettings = PortfolioSettings(limit: nat, category: string, columns: nat, showExcerpt: bool)

  function PortfolioSettingsOf(wp: WordPress, atts: map<string, Value>): (s: PortfolioSettings)
    ensures s.limit >= 1
    ensures 1 <= s.columns <= 6
    ensures var l := wp.absint(Att(wp.shortcodeAtts(PortfolioDefaults, atts), "limit")); s.limit == if l < 1 then 1 else l
    ensures var c := wp.absint(Att(wp.shortcodeAtts(PortfolioDefaults, atts), "columns")); s.columns == if c < 1 then 1 else if c > 6 then 6 else c
  {
    var merged := wp.shortcodeAtts(PortfolioDefaults, atts);
    var limit := wp.absint(Att(merged, "limit"));
    var columns := wp.absint(Att(merged, "columns"));
    PortfolioSettings(
      if limit < 1 then 1 else limit,
      wp.sanitizeTextField(Att(merged, "category")),
      if columns < 1 then 1 else if columns > 6 then 6 else columns,
      wp.filterBool(Att(merged, "show_excerpt")))
  }

  function PortfolioQuery(wp: WordPress, s: PortfolioSettings): (q: QueryArgs)
    ensures q.postType == "portfolio" && q.postStatus == "publish" && q.postsPerPage == s.limit
    ensures q.orderby.None? && q.order.None?
    ensures q.taxQuery == CategoryFilter(wp, "portfolio_category", s.category)
  {
    QueryArgs("portfolio", s.limit, "publish", None, None, CategoryFilter(wp, "portfolio_category", s.category))
  }

  function RenderPortfolioItem(showExcerpt: bool, p: Post): (r: PortfolioItem)
    ensures r.post == p
    ensures r.thumbnail <==> p.hasThumbnail
    ensures r.excerpt <==> showExcerpt && p.hasExcerpt
  {
    PortfolioItem(p, p.hasThumbnail, showExcerpt && p.hasExcerpt)
  }

  /** The posts the portfolio query returns. */
  function PortfolioPosts(wp: WordPress, atts: map<string, Value>): seq<Post> {
    wp.queryPosts(PortfolioQuery(wp, PortfolioSettingsOf(wp, atts)))
  }

  /** `portfolio_list_shortcode`. */
  method PortfolioList(wp: WordPress, atts: map<string, Value>) returns (out: Output)
    ensures PortfolioPosts(wp, atts) == [] ==> out == Message("No portfolio items found.")
    ensures PortfolioPosts(wp, atts) != [] ==>
      out.PortfolioGrid? && out.columns == PortfolioSettingsOf(wp, atts).columns &&
      |out.portfolioItems| == |PortfolioPosts(wp, atts)|
    ensures out.PortfolioGrid? ==> forall i :: 0 <= i < |out.portfolioItems| ==>
      out.portfolioItems[i] == RenderPortfolioItem(PortfolioSettingsOf(wp, atts).showExcerpt, PortfolioPosts(wp, atts)[i])
  {
    var s := PortfolioSettingsOf(wp, atts);
    var posts := wp.queryPosts(PortfolioQuery(wp, s));
    if posts == [] {
      return Message("No portfolio items found.");
    }
    var items: seq<PortfolioItem> := [];
    var i := 0;
    while i < |posts|
      invariant 0 <= i <= |posts|
      invariant |items| == i
      invariant forall k :: 0 <= k < i ==> items[k] == RenderPortfolioItem(s.showExcerpt, posts[k])
    {
      items := items + [RenderPortfolioItem(s.showExcerpt, posts[i])];
      i := i + 1;
    }
    out := PortfolioGrid(s.columns, items);
  }

  /** With no attributes given, the limit is 6 and the grid has 3 columns. */
  lemma PortfolioDefaultsApply(wp: WordPress)
    requires MergesDefaults(wp) && AbsintOnInts(wp)
    ensures PortfolioSettingsOf(wp, map[]).limit == 6
    ensures PortfolioSettingsOf(wp, map[]).columns == 3
  {
    var merged := wp.shortcodeAtts(PortfolioDefaults, map[]);
    assert MergedAtts(PortfolioDefaults, map[], merged);
    assert Att(merged, "limit") == Int(6);
    assert Att(merged, "columns") == Int(3);
  }

  /** A given integer limit is used as its absolute value, raised to at least 1. */
  lemma PortfolioLimitFromAttribute(wp: WordPress, atts: map<string, Value>, n: int)
    requires MergesDefaults(wp) && AbsintOnInts(wp)
    requires "limit" in atts && atts["limit"] == Int(n)
    ensures PortfolioSettingsOf(wp, atts).limit == if n == 0 then 1 else if n < 0 then -n else n
  {
    var merged := wp.shortcodeAtts(PortfolioDefaults, atts);
    assert MergedAtts(PortfolioDefaults, atts, merged);
    assert Att(merged, "limit") == Int(n);
  }

  // ---------------------------------------------------------------------------
  // [recent_testimonials]
  // ---------------------------------------------------------------------------

  const TestimonialDefaults: map<string, Value> :=
    map["limit" := Int(3), "category" := Str(""), "show_author" := Str("true")]

  datatype TestimonialSettings = TestimonialSettings(limit: nat, category: string, showAuthor: bool)

  function TestimonialSettingsOf(wp: WordPress, atts: map<string, Value>): (s: TestimonialSettings)
    ensures s.limit >= 1
    ensures var l := wp.absint(Att(wp.shortcodeAtts(TestimonialDefaults, atts), "limit")); s.limit == if l < 1 then 1 else l
  {
    var merged := wp.shortcodeAtts(TestimonialDefaults, atts);
    var limit := wp.absint(Att(merged, "limit"));
    TestimonialSettings(
      if limit < 1 then 1 else limit,
      wp.sanitizeTextField(Att(merged, "category")),
      wp.filterBool(Att(merged, "show_author")))
  }

  function TestimonialQuery(wp: WordPress, s: TestimonialSettings): (q: QueryArgs)
    ensures q.postType == "testimonial" && q.postStatus == "publish" && q.postsPerPage == s.limit
    ensures q.orderby == Some("date") && q.order == Some("DESC")
    ensures q.taxQuery == CategoryFilter(wp, "testimonial_category", s.category)
  {
    QueryArgs("testimonial", s.limit, "publish", Some("date"), Some("DESC"), CategoryFilter(wp, "testimonial_category", s.category))
  }

  function RenderTestimonialItem(showAuthor: bool, p: Post): (r: TestimonialItem)
    ensures r.post == p
    ensures r.author <==> showAuthor
    ensures r.photo <==> showAuthor && p.hasThumbnail
  {
    TestimonialItem(p, showAuthor, showAuthor && p.hasThumbnail)
  }

  /** The posts the testimonial query returns. */
  function TestimonialPosts(wp: WordPress, atts: map<string, Value>): seq<Post> {
    wp.queryPosts(TestimonialQuery(wp, TestimonialSettingsOf(wp, atts)))
  }

  /** `recent_testimonials_shortcode`. */
  method RecentTestimonials(wp: WordPress, atts: map<string, Value>) returns (out: Output)
    ensures TestimonialPosts(wp, atts) == [] ==> out == Message("No testimonials found.")
    ensures TestimonialPosts(wp, atts) != [] ==>
      out.TestimonialList? && |out.testimonialItems| == |TestimonialPosts(wp, atts)|
    ensures out.TestimonialList? ==> forall i :: 0 <= i < |out.testimonialItems| ==>
      out.testimonialItems[i] == RenderTestimonialItem(TestimonialSettingsOf(wp, atts).showAuthor, TestimonialPosts(wp, atts)[i])
  {
    var s := TestimonialSettingsOf(wp, atts);
    var posts := wp.queryPosts(TestimonialQuery(wp, s));
    if posts == [] {
      return Message("No testimonials found.");
    }
    var items: seq<TestimonialItem> := [];
    var i := 0;
    while i < |posts|
      invariant 0 <= i <= |posts|
      invariant |items| == i
      invariant forall k :: 0 <= k < i ==> items[k] == RenderTestimonialItem(s.showAuthor, posts[k])
    {
      items := items + [RenderTestimonialItem(s.showAuthor, posts[i])];
      i := i + 1;
    }
    out := TestimonialList(items);
  }

  /** With no attributes given, three testimonials are asked for. */
  lemma TestimonialDefaultsApply(wp: WordPress)
    requires MergesDefaults(wp) && AbsintOnInts(wp)
    ensures TestimonialSettingsOf(wp, map[]).limit == 3
  {
    var merged := wp.shortcodeAtts(TestimonialDefaults, map[]);
    assert MergedAtts(TestimonialDefaults, map[], merged);
    assert Att(merged, "limit") == Int(3);
  }

  // ---------------------------------------------------------------------------
  // [portfolio_categories]
  // ---------------------------------------------------------------------------

  const CategoryDefaults: map<string, Value> :=
    map["show_count" := Str("true"), "orderby" := Str("name"), "order" := Str("ASC")]

  /** The normalised `show_count` attribute. */
  function CategoryShowCount(wp: WordPress, atts: map<string, Value>): bool {
    wp.filterBool(Att(wp.shortcodeAtts(CategoryDefaults, atts), "show_count"))
  }

  function RenderCategoryItem(showCount: bool, t: Term): (r: CategoryItem)
    ensures r.term == t
    ensures r.count <==> showCount
    ensures r.description <==> StrTruthy(t.description)
  {
    CategoryItem(t, showCount, StrTruthy(t.description))
  }

  /**
   * `portfolio_categories_shortcode`. `issued` is the `get_terms` query made, if
   * any: none when the taxonomy does not exist.
   */
  method PortfolioCategories(wp: WordPress, atts: map<string, Value>) returns (out: Output, issued: Option<TermQuery>)
    ensures issued.None? <==> !wp.taxonomyExists("portfolio_category")
    ensures issued.None? ==> out == Message("Portfolio categories are not available.")
    ensures issued.Some? ==> issued.value.taxonomy == "portfolio_category" && issued.value.hideEmpty
    ensures issued.Some? ==> var merged := wp.shortcodeAtts(CategoryDefaults, atts);
      issued.value.orderby == wp.sanitizeTextField(Att(merged, "orderby")) &&
      issued.value.order == wp.sanitizeTextField(Att(merged, "order"))
    ensures issued.Some? && (wp.getTerms(issued.value).TermsError? || wp.getTerms(issued.value).terms == []) ==>
      out == Message("No portfolio categories found.")
    ensures issued.Some? && wp.getTerms(issued.value).Terms? && wp.getTerms(issued.value).terms != [] ==>
      out.CategoryList? && |out.categoryItems| == |wp.getTerms(issued.value).terms|
    ensures out.CategoryList? ==>
      issued.Some? && wp.getTerms(issued.value).Terms? && |out.categoryItems| == |wp.getTerms(issued.value).terms|
    ensures out.CategoryList? ==> forall i :: 0 <= i < |out.categoryItems| ==>
      out.categoryItems[i] == RenderCategoryItem(CategoryShowCount(wp, atts), wp.getTerms(issued.value).terms[i])
  {
    var merged := wp.shortcodeAtts(CategoryDefaults, atts);
    var showCount := wp.filterBool(Att(merged, "show_count"));
    var orderby := wp.sanitizeTextField(Att(merged, "orderby"));
    var order := wp.sanitizeTextField(Att(merged, "order"));
    if !wp.taxonomyExists("portfolio_category") {
      return Message("Portfolio categories are not available."), None;
    }
    var query := TermQuery("portfolio_category", true, orderby, order);
    issued := Some(query);
    var result := wp.getTerms(query);
    if result.TermsError? || result.terms == [] {
      return Message("No portfolio categories found."), issued;
    }
    var terms := result.terms;
    var items: seq<CategoryItem> := [];
    for i := 0 to |terms|
      invariant |items| == i
      invariant forall k :: 0 <= k < i ==> items[k] == RenderCategoryItem(showCount, terms[k])
    {
      items := items + [RenderCategoryItem(showCount, terms[i])];
    }
    out := CategoryList(items);
  }
}
