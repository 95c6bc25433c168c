/**
 * The theme's block manager: asset selection from the build manifest, the
 * server-side renderers of the three custom blocks, and the registry of the
 * blocks it has registered.
 */
module BlocksManager {
  import opened Wrappers
  import opened Php

  // ---------------------------------------------------------------------------
  // Asset selection from the build manifest
  // ---------------------------------------------------------------------------

  /** The origin of the local development server that serves unbundled sources. */
  const DevServer := "http://localhost:3000"

  /**
   * What the asset rule reads from its surroundings. `wpDebug` is the value of
   * the WP_DEBUG constant (None when it is not defined); `manifestJson` is what
   * `json_decode(file_get_contents(manifest), true)` yields, Null when the text
   * is not valid JSON; it is only consulted when the manifest file exists.
   */
  datatype AssetEnvironment = AssetEnvironment(
    wpDebug: Option<Value>,
    manifestExists: bool,
    manifestJson: Value,
    templateUri: string)

  datatype AssetKind = Script | Style

  /** One asset the rule may enqueue: a handle, a manifest entry key and its dev-server URL. */
  datatype AssetEntry = AssetEntry(kind: AssetKind, handle: string, entry: string, devUrl: string, deps: seq<string>)

  /** One call of wp_enqueue_script / wp_enqueue_style (version null; scripts in the footer). */
  datatype Enqueued = Enqueued(kind: AssetKind, handle: string, url: string, deps: seq<string>)

  const BlockEditorDeps := ["wp-blocks", "wp-components", "wp-element", "wp-editor"]

  /** An asset whose dev-server URL is the origin, a slash and its entry key (as every literal URL of the rule is). */
  function DevAsset(kind: AssetKind, handle: string, entry: string, deps: seq<string>): AssetEntry {
    AssetEntry(kind, handle, entry, DevServer + "/" + entry, deps)
  }

  /** The assets of `enqueue_block_editor_assets`, in the order it enqueues them. */
  const EditorPlan := [
    DevAsset(Script, "kawaii-ultra-blocks", "src/js/blocks.js", BlockEditorDeps),
    DevAsset(Style, "kawaii-ultra-blocks-editor", "src/css/blocks-editor.scss", [])
  ]

  /** The assets of `enqueue_block_assets`, in the order it enqueues them. */
  const FrontendPlan := [
    DevAsset(Style, "kawaii-ultra-blocks", "src/css/blocks.scss", []),
    DevAsset(Script, "kawaii-ultra-blocks-frontend", "src/js/blocks-frontend.js", ["jquery"])
  ]

  /** Development mode: WP_DEBUG is defined and truthy and no manifest file exists. */
  predicate IsDevelopment(env: AssetEnvironment) {
    env.wpDebug.Some? && Truthy(env.wpDebug.value) && !env.manifestExists
  }

  /** The manifest as the production branch sees it: null when the file is missing. */
  function LoadedManifest(env: AssetEnvironment): Value {
    if env.manifestExists then env.manifestJson else Null
  }

  /** `$manifest[$entry]['file'] ?? null`, kept only when it is truthy, as a string. */
  function ManifestFile(manifest: Value, entry: string): (r: Option<string>)
    ensures r.Some? <==> Truthy(Lookup(Lookup(manifest, entry), "file"))
    ensures r.Some? ==> r.value == ToPhpString(Lookup(Lookup(manifest, entry), "file"))
  {
    var file := Lookup(Lookup(manifest, entry), "file");
    if Truthy(file) then Some(ToPhpString(file)) else None
  }

  /** Every asset of the plan at its fixed dev-server URL. */
  function DevelopmentEnqueues(plan: seq<AssetEntry>): (r: seq<Enqueued>)
    ensures |r| == |plan|
    ensures forall i :: 0 <= i < |plan| ==>
      r[i] == Enqueued(plan[i].kind, plan[i].handle, plan[i].devUrl, plan[i].deps)
  {
    if plan == [] then []
    else [Enqueued(plan[0].kind, plan[0].handle, plan[0].devUrl, plan[0].deps)] + DevelopmentEnqueues(plan[1..])
  }

  /** The production enqueue of one asset: present iff its manifest entry has a truthy `file`. */
  function ProductionEnqueue(manifest: Value, templateUri: string, a: AssetEntry): seq<Enqueued> {
    match ManifestFile(manifest, a.entry)
    case Some(file) => [Enqueued(a.kind, a.handle, templateUri + "/dist/" + file, a.deps)]
    case None => []
  }

  /** The production enqueues of a plan, asset by asset, in plan order. */
  function ProductionEnqueues(manifest: Value, templateUri: string, plan: seq<AssetEntry>): seq<Enqueued> {
    if plan == [] then []
    else ProductionEnqueue(manifest, templateUri, plan[0]) + ProductionEnqueues(manifest, templateUri, plan[1..])
  }

  /** The whole asset rule, shared by `enqueue_block_editor_assets` and `enqueue_block_assets`. */
  function EnqueueAssets(env: AssetEnvironment, plan: seq<AssetEntry>): seq<Enqueued> {
    if IsDevelopment(env) then DevelopmentEnqueues(plan)
    else if Truthy(LoadedManifest(env)) then ProductionEnqueues(LoadedManifest(env), env.templateUri, plan)
    else []
  }

  function EnqueueBlockEditorAssets(env: AssetEnvironment): seq<Enqueued> {
    EnqueueAssets(env, EditorPlan)
  }

  function EnqueueBlockAssets(env: AssetEnvironment): seq<Enqueued> {
    EnqueueAssets(env, FrontendPlan)
  }

  /**
   * In development mode every asset is enqueued at its dev-server URL, and the
   * manifest's content plays no part.
   */
  lemma DevelopmentIgnoresManifest(env: AssetEnvironment, plan: seq<AssetEntry>, other: Value)
    requires IsDevelopment(env)
    ensures EnqueueAssets(env, plan) == EnqueueAssets(env.(manifestJson := other), plan)
    ensures |EnqueueAssets(env, plan)| == |plan|
    ensures forall i :: 0 <= i < |plan| ==> EnqueueAssets(env, plan)[i].url == plan[i].devUrl
  {
  }

  /** In development the block editor gets the dev-server script, then the dev-server editor stylesheet. */
  lemma DevelopmentEditorAssets(env: AssetEnvironment)
    requires IsDevelopment(env)
    ensures EnqueueBlockEditorAssets(env) == [
      Enqueued(Script, "kawaii-ultra-blocks", "http://localhost:3000/src/js/blocks.js", BlockEditorDeps),
      Enqueued(Style, "kawaii-ultra-blocks-editor", "http://localhost:3000/src/css/blocks-editor.scss", [])]
  {
    assert DevServer + "/" + "src/js/blocks.js" == "http://localhost:3000/src/js/blocks.js";
    assert DevServer + "/" + "src/css/blocks-editor.scss" == "http://localhost:3000/src/css/blocks-editor.scss";
  }

  /** In development the front end gets the dev-server blocks stylesheet, then the dev-server script. */
  lemma DevelopmentFrontendAssets(env: AssetEnvironment)
    requires IsDevelopment(env)
    ensures EnqueueBlockAssets(env) == [
      Enqueued(Style, "kawaii-ultra-blocks", "http://localhost:3000/src/css/blocks.scss", []),
      Enqueued(Script, "kawaii-ultra-blocks-frontend", "http://localhost:3000/src/js/blocks-frontend.js", ["jquery"])]
  {
    assert DevServer + "/" + "src/css/blocks.scss" == "http://localhost:3000/src/css/blocks.scss";
    assert DevServer + "/" + "src/js/blocks-frontend.js" == "http://localhost:3000/src/js/blocks-frontend.js";
  }

  /**
   * The mode decides where every enqueued URL points: in development each asset
   * of the plan is enqueued, in order, at its dev-server URL; otherwise every
   * enqueued URL is the template URI, `/dist/` and the `file` that the manifest
   * gives for one of the plan's entries.
   */
  lemma ModeDecidesAssetUrls(env: AssetEnvironment, plan: seq<AssetEntry>, e: Enqueued)
    ensures IsDevelopment(env) ==>
      |EnqueueAssets(env, plan)| == |plan| &&
      forall i :: 0 <= i < |plan| ==> EnqueueAssets(env, plan)[i].url == plan[i].devUrl
    ensures !IsDevelopment(env) && e in EnqueueAssets(env, plan) ==>
      exists a :: a in plan && ManifestFile(LoadedManifest(env), a.entry).Some? &&
        e.url == env.templateUri + "/dist/" + ManifestFile(LoadedManifest(env), a.entry).value
  {
    if !IsDevelopment(env) && Truthy(LoadedManifest(env)) {
      ProductionEnqueuesExactly(LoadedManifest(env), env.templateUri, plan, e);
    }
  }

  /**
   * In production, a missing manifest, or one that decodes to null, false, an
   * empty array or another falsy value, enqueues nothing at all.
   */
  lemma ProductionWithoutManifestEnqueuesNothing(env: AssetEnvironment, plan: seq<AssetEntry>)
    requires !IsDevelopment(env)
    requires !env.manifestExists || !Truthy(env.manifestJson)
    ensures EnqueueAssets(env, plan) == []
  {
  }

  /** Assets are decided independently: the enqueues of a split plan are the concatenation. */
  lemma {:induction false} ProductionSplits(manifest: Value, uri: string, p: seq<AssetEntry>, q: seq<AssetEntry>)
    ensures ProductionEnqueues(manifest, uri, p + q) == ProductionEnqueues(manifest, uri, p) + ProductionEnqueues(manifest, uri, q)
  {
    if p == [] {
      assert p + q == q;
    } else {
      assert (p + q)[1..] == p[1..] + q;
      ProductionSplits(manifest, uri, p[1..], q);
    }
  }

  /**
   * The production enqueues are exactly the assets with a truthy `file`, in plan
   * order, each at template URI + "/dist/" + file.
   */
  lemma {:induction false} ProductionEnqueuesExactly(manifest: Value, uri: string, plan: seq<AssetEntry>, e: Enqueued)
    ensures e in ProductionEnqueues(manifest, uri, plan) <==>
      exists a :: a in plan && ManifestFile(manifest, a.entry).Some? &&
        e == Enqueued(a.kind, a.handle, uri + "/dist/" + ManifestFile(manifest, a.entry).value, a.deps)
    ensures |ProductionEnqueues(manifest, uri, plan)| <= |plan|
  {
    if plan != [] {
      ProductionEnqueuesExactly(manifest, uri, plan[1..], e);
      assert forall a :: a in plan <==> a == plan[0] || a in plan[1..];
    }
  }

  /** For the block editor: the script, then the editor stylesheet, each when its entry has a file. */
  lemma EditorProductionAssets(env: AssetEnvironment)
    requires !IsDevelopment(env) && Truthy(LoadedManifest(env))
    ensures var m := LoadedManifest(env);
      EnqueueBlockEditorAssets(env) ==
        ProductionEnqueue(m, env.templateUri, EditorPlan[0]) + ProductionEnqueue(m, env.templateUri, EditorPlan[1])
  {
    var m := LoadedManifest(env);
    assert EditorPlan == [EditorPlan[0]] + [EditorPlan[1]];
    ProductionSplits(m, env.templateUri, [EditorPlan[0]], [EditorPlan[1]]);
    assert ProductionEnqueues(m, env.templateUri, [EditorPlan[0]]) == ProductionEnqueue(m, env.templateUri, EditorPlan[0]);
    assert ProductionEnqueues(m, env.templateUri, [EditorPlan[1]]) == ProductionEnqueue(m, env.templateUri, EditorPlan[1]);
  }

  /** For the front end: the blocks stylesheet, then the front-end script, each when its entry has a file. */
  lemma FrontendProductionAssets(env: AssetEnvironment)
    requires !IsDevelopment(env) && Truthy(LoadedManifest(env))
    ensures var m := LoadedManifest(env);
      EnqueueBlockAssets(env) ==
        ProductionEnqueue(m, env.templateUri, FrontendPlan[0]) + ProductionEnqueue(m, env.templateUri, FrontendPlan[1])
  {
    var m := LoadedManifest(env);
    assert FrontendPlan == [FrontendPlan[0]] + [FrontendPlan[1]];
    ProductionSplits(m, env.templateUri, [FrontendPlan[0]], [FrontendPlan[1]]);
    assert ProductionEnqueues(m, env.templateUri, [FrontendPlan[0]]) == ProductionEnqueue(m, env.templateUri, FrontendPlan[0]);
    assert ProductionEnqueues(m, env.templateUri, [FrontendPlan[1]]) == ProductionEnqueue(m, env.templateUri, FrontendPlan[1]);
  }

  /**
   * The manifest written by the fallback build script lists the front-end
   * stylesheet but neither block script nor the editor stylesheet.
   */
  const FallbackManifest := Assoc(map[
    "src/js/main.js" := Assoc(map["file" := Str("js/main.js")]),
    "src/js/navigation.js" := Assoc(map["file" := Str("js/navigation.js")]),
    "src/js/admin.js" := Assoc(map["file" := Str("js/admin.js")]),
    "src/css/style.scss" := Assoc(map["file" := Str("css/style.css")]),
    "src/css/admin.scss" := Assoc(map["file" := Str("css/admin.css")]),
    "src/css/blocks.scss" := Assoc(map["file" := Str("css/blocks.css")])
  ])

  /** What the asset rule reads from the fallback manifest for the four block assets. */
  lemma FallbackManifestFiles()
    ensures Truthy(FallbackManifest)
    ensures ManifestFile(FallbackManifest, "src/css/blocks.scss") == Some("css/blocks.css")
    ensures ManifestFile(FallbackManifest, "src/js/blocks-frontend.js") == None
    ensures ManifestFile(FallbackManifest, "src/js/blocks.js") == None
    ensures ManifestFile(FallbackManifest, "src/css/blocks-editor.scss") == None
  {
    assert "src/css/blocks.scss" in FallbackManifest.entries;
    assert "src/js/blocks-frontend.js" !in FallbackManifest.entries;
    assert "src/js/blocks.js" !in FallbackManifest.entries;
    assert "src/css/blocks-editor.scss" !in FallbackManifest.entries;
  }

  /** With the fallback manifest only the front-end blocks stylesheet is enqueued. */
  lemma FallbackManifestScenario(wpDebug: Option<Value>, uri: string)
    ensures var env := AssetEnvironment(wpDebug, true, FallbackManifest, uri);
      EnqueueBlockAssets(env) == [Enqueued(Style, "kawaii-ultra-blocks", uri + "/dist/" + "css/blocks.css", [])] &&
      EnqueueBlockEditorAssets(env) == []
  {
    var env := AssetEnvironment(wpDebug, true, FallbackManifest, uri);
    FallbackManifestFiles();
    FrontendProductionAssets(env);
    EditorProductionAssets(env);
  }

  // ---------------------------------------------------------------------------
  // Server-side renderers
  // ---------------------------------------------------------------------------

  /** The WordPress escaping and sanitising functions the renderers call, taken as inputs. */
  datatype Escapers = Escapers(
    escHtml: string -> string,
    escUrl: string -> string,
    escAttr: string -> string,
    sanitizeHtmlClass: string -> string,
    sanitizeHexColor: string -> string,
    ksesPost: string -> string)

  /**
   * The inline style built by `.=`: the background colour's declaration before the
   * text colour's, each only when that sanitised colour is truthy.
   */
  function StyleDeclarations(bg: string, fg: string): (r: string)
    ensures r == "" <==> !StrTruthy(bg) && !StrTruthy(fg)
    ensures StrTruthy(bg) ==> "background-color: " + bg + ";" <= r
    ensures StrTruthy(fg) ==> r == (if StrTruthy(bg) then "background-color: " + bg + ";" else "") + "color: " + fg + ";"
    ensures r != "0"
  {
    (if StrTruthy(bg) then "background-color: " + bg + ";" else "") +
    (if StrTruthy(fg) then "color: " + fg + ";" else "")
  }

  /** The `style` attribute's value: absent when no colour is set. */
  function StyleAttribute(bg: string, fg: string): (r: Option<string>)
    ensures r.None? <==> !StrTruthy(bg) && !StrTruthy(fg)
    ensures r.Some? ==> r.value == StyleDeclarations(bg, fg)
  {
    var decl := StyleDeclarations(bg, fg);
    if StrTruthy(decl) then Some(decl) else None
  }

  /** Button block attributes; None is an attribute that is absent or null. */
  datatype ButtonAttributes = ButtonAttributes(
    text: Option<string>, url: Option<string>, style: Option<string>, size: Option<string>,
    icon: Option<string>, backgroundColor: Option<string>, textColor: Option<string>)

  /** The rendered button: element, class list, href, style attribute, icon span and label. */
  datatype ButtonMarkup = ButtonMarkup(
    tag: string, classes: seq<string>, href: Option<string>, style: Option<string>,
    iconClass: Option<string>, text: string)

  /** The defaults the button block is registered with. */
  const RegisteredButtonDefaults := ButtonAttributes(
    Some("Click me!"), Some(""), Some("primary"), Some("medium"), Some(""), Some(""), Some(""))

  const NoButtonAttributes := ButtonAttributes(None, None, None, None, None, None, None)

  /** `render_kawaii_button_block`. */
  function RenderButton(api: Escapers, a: ButtonAttributes): (m: ButtonMarkup)
    ensures |m.classes| == 3 || |m.classes| == 4
    ensures m.classes[0] == "kawaii-button"
    ensures m.classes[1] == "kawaii-button--" + api.sanitizeHtmlClass(a.style.GetOr("primary"))
    ensures m.classes[2] == "kawaii-button--" + api.sanitizeHtmlClass(a.size.GetOr("medium"))
    ensures |m.classes| == 4 <==> m.iconClass.Some?
    ensures |m.classes| == 4 ==> m.classes[3] == "kawaii-button--has-icon"
    ensures m.iconClass.Some? <==> StrTruthy(api.sanitizeHtmlClass(a.icon.GetOr("")))
    ensures m.tag == "a" <==> m.href.Some?
    ensures m.tag == "a" || m.tag == "button"
    ensures m.href.Some? <==> StrTruthy(api.escUrl(a.url.GetOr("")))
    ensures m.style.None? <==>
      !StrTruthy(api.sanitizeHexColor(a.backgroundColor.GetOr(""))) && !StrTruthy(api.sanitizeHexColor(a.textColor.GetOr("")))
  {
    var text := api.escHtml(a.text.GetOr("Click me!"));
    var url := api.escUrl(a.url.GetOr(""));
    var style := api.sanitizeHtmlClass(a.style.GetOr("primary"));
    var size := api.sanitizeHtmlClass(a.size.GetOr("medium"));
    var icon := api.sanitizeHtmlClass(a.icon.GetOr(""));
    var bg := api.sanitizeHexColor(a.backgroundColor.GetOr(""));
    var fg := api.sanitizeHexColor(a.textColor.GetOr(""));
    var classes := ["kawaii-button", "kawaii-button--" + style, "kawaii-button--" + size] +
      (if StrTruthy(icon) then ["kawaii-button--has-icon"] else []);
    ButtonMarkup(
      if StrTruthy(url) then "a" else "button",
      classes,
      if StrTruthy(url) then Some(url) else None,
      StyleAttribute(bg, fg),
      if StrTruthy(icon) then Some(api.escAttr(icon)) else None,
      text)
  }

  /** Rendering with every attribute absent gives what the registered defaults give. */
  lemma ButtonDefaultsAgree(api: Escapers)
    ensures RenderButton(api, NoButtonAttributes) == RenderButton(api, RegisteredButtonDefaults)
  {
  }

  /** Card block attributes; None is an attribute that is absent or null. */
  datatype CardAttributes = CardAttributes(
    title: Option<string>, content: Option<string>, imageUrl: Option<string>, imageAlt: Option<string>,
    buttonText: Option<string>, buttonUrl: Option<string>, style: Option<string>,
    backgroundColor: Option<string>, textColor: Option<string>)

  datatype CardImage = CardImage(src: string, alt: string)
  datatype CardAction = CardAction(href: string, text: string)

  /** The rendered card: class list, style attribute, optional image, title, text and action link. */
  datatype CardMarkup = CardMarkup(
    classes: seq<string>, style: Option<string>, image: Option<CardImage>,
    title: string, content: string, action: Option<CardAction>)

  /** The defaults the card block is registered with. */
  const RegisteredCardDefaults := CardAttributes(
    Some("Card Title"), Some("Card content goes here..."), Some(""), Some(""), Some(""), Some(""),
    Some("default"), Some(""), Some(""))

  const NoCardAttributes := CardAttributes(None, None, None, None, None, None, None, None, None)

  /** `render_kawaii_card_block`. */
  function RenderCard(api: Escapers, a: CardAttributes): (m: CardMarkup)
    ensures |m.classes| == 2 || |m.classes| == 3
    ensures m.classes[..2] == ["kawaii-card", "kawaii-card--" + api.sanitizeHtmlClass(a.style.GetOr("default"))]
    ensures |m.classes| == 3 <==> m.image.Some?
    ensures |m.classes| == 3 ==> m.classes[2] == "kawaii-card--has-image"
    ensures m.image.Some? <==> StrTruthy(api.escUrl(a.imageUrl.GetOr("")))
    ensures m.action.Some? <==>
      StrTruthy(api.escHtml(a.buttonText.GetOr(""))) && StrTruthy(api.escUrl(a.buttonUrl.GetOr("")))
    ensures m.style.None? <==>
      !StrTruthy(api.sanitizeHexColor(a.backgroundColor.GetOr(""))) && !StrTruthy(api.sanitizeHexColor(a.textColor.GetOr("")))
  {
    var title := api.escHtml(a.title.GetOr("Card Title"));
    var content := api.ksesPost(a.content.GetOr("Card content goes here..."));
    var imageUrl := api.escUrl(a.imageUrl.GetOr(""));
    var imageAlt := api.escAttr(a.imageAlt.GetOr(""));
    var buttonText := api.escHtml(a.buttonText.GetOr(""));
    var buttonUrl := api.escUrl(a.buttonUrl.GetOr(""));
    var style := api.sanitizeHtmlClass(a.style.GetOr("default"));
    var bg := api.sanitizeHexColor(a.backgroundColor.GetOr(""));
    var fg := api.sanitizeHexColor(a.textColor.GetOr(""));
    var classes := ["kawaii-card", "kawaii-card--" + style] +
      (if StrTruthy(imageUrl) then ["kawaii-card--has-image"] else []);
    CardMarkup(
      classes,
      StyleAttribute(bg, fg),
      if StrTruthy(imageUrl) then Some(CardImage(imageUrl, imageAlt)) else None,
      title,
      content,
      if StrTruthy(buttonText) && StrTruthy(buttonUrl) then Some(CardAction(buttonUrl, buttonText)) else None)
  }

  /** Rendering with every attribute absent gives what the registered defaults give. */
  lemma CardDefaultsAgree(api: Escapers)
    ensures RenderCard(api, NoCardAttributes) == RenderCard(api, RegisteredCardDefaults)
  {
  }

  /** One entry of the gallery's `images` array; None is a missing key. */
  datatype GalleryImage = GalleryImage(url: Option<string>, alt: Option<string>, caption: Option<string>)

  /** Gallery block attributes; `columns` is the value after PHP's `(int)` cast. */
  datatype GalleryAttributes = GalleryAttributes(
    images: Option<seq<GalleryImage>>, columns: Option<int>, style: Option<string>, spacing: Option<string>,
    showCaptions: Option<bool>, lightbox: Option<bool>)

  /** One rendered gallery item: the optional lightbox link, the image and the optional caption. */
  datatype GalleryItem = GalleryItem(link: Option<string>, src: string, alt: string, caption: Option<string>)

  datatype GalleryMarkup =
    | EmptyGallery(message: string)
    | Gallery(classes: seq<string>, items: seq<GalleryItem>)

  /** The defaults the gallery block is registered with. */
  const RegisteredGalleryDefaults := GalleryAttributes(Some([]), Some(3), Some("grid"), Some("medium"), Some(false), Some(true))

  const NoGalleryAttributes := GalleryAttributes(None, None, None, None, None, None)

  /** `max(1, min(6, n))`. */
  function ClampColumns(n: int): (r: nat)
    ensures 1 <= r <= 6
    ensures 1 <= n <= 6 ==> r == n
    ensures n < 1 ==> r == 1
    ensures n > 6 ==> r == 6
  {
    if n < 1 then 1 else if n > 6 then 6 else n
  }

  /** The column count of a gallery; 3 when the attribute is absent. */
  function GalleryColumns(columns: Option<int>): (r: nat)
    ensures 1 <= r <= 6
    ensures columns.None? ==> r == 3
  {
    ClampColumns(columns.GetOr(3))
  }

  /** The class list of a non-empty gallery. */
  function GalleryClasses(api: Escapers, a: GalleryAttributes): (r: seq<string>)
    ensures |r| == (if a.lightbox.GetOr(true) then 5 else 4)
    ensures r[0] == "kawaii-gallery"
    ensures r[3] == "kawaii-gallery--columns-" + Strings.NatToString(GalleryColumns(a.columns))
    ensures |r| == 5 ==> r[4] == "kawaii-gallery--lightbox"
  {
    ["kawaii-gallery",
     "kawaii-gallery--" + api.sanitizeHtmlClass(a.style.GetOr("grid")),
     "kawaii-gallery--spacing-" + api.sanitizeHtmlClass(a.spacing.GetOr("medium")),
     "kawaii-gallery--columns-" + Strings.NatToString(GalleryColumns(a.columns))] +
    (if a.lightbox.GetOr(true) then ["kawaii-gallery--lightbox"] else [])
  }

  /** One item: a link wraps the image iff lightbox is on; a caption only when shown and non-empty. */
  function RenderGalleryItem(api: Escapers, lightbox: bool, showCaptions: bool, img: GalleryImage): (r: GalleryItem)
    ensures r.link.Some? <==> lightbox
    ensures r.link.Some? ==> r.link.value == r.src
    ensures r.src == api.escUrl(img.url.GetOr(""))
    ensures r.caption.Some? <==> showCaptions && img.caption.Some? && StrTruthy(img.caption.value)
  {
    var url := api.escUrl(img.url.GetOr(""));
    GalleryItem(
      if lightbox then Some(url) else None,
      url,
      api.escAttr(img.alt.GetOr("")),
      if showCaptions && img.caption.Some? && StrTruthy(img.caption.value) then Some(api.ksesPost(img.caption.value)) else None)
  }

  /**
   * `render_kawaii_gallery_block`: the empty-gallery paragraph for no images,
   * otherwise one item per image, in input order.
   */
  method RenderGallery(api: Escapers, a: GalleryAttributes) returns (m: GalleryMarkup)
    ensures m.EmptyGallery? <==> a.images.GetOr([]) == []
    ensures m.EmptyGallery? ==> m.message == "No images selected for gallery."
    ensures m.Gallery? ==> m.classes == GalleryClasses(api, a)
    ensures m.Gallery? ==> |m.items| == |a.images.GetOr([])|
    ensures m.Gallery? ==> forall i :: 0 <= i < |m.items| ==>
      m.items[i] == RenderGalleryItem(api, a.lightbox.GetOr(true), a.showCaptions.GetOr(false), a.images.GetOr([])[i])
  {
    var images := a.images.GetOr([]);
    var showCaptions := a.showCaptions.GetOr(false);
    var lightbox := a.lightbox.GetOr(true);
    if images == [] {
      return EmptyGallery("No images selected for gallery.");
    }
    var items: seq<GalleryItem> := [];
    for i := 0 to |images|
      invariant |items| == i
      invariant forall k :: 0 <= k < i ==> items[k] == RenderGalleryItem(api, lightbox, showCaptions, images[k])
    {
      items := items + [RenderGalleryItem(api, lightbox, showCaptions, images[i])];
    }
    m := Gallery(GalleryClasses(api, a), items);
  }

  /** An absent attribute set renders like the registered defaults: the empty gallery. */
  lemma GalleryDefaultsAgree(api: Escapers)
    ensures GalleryColumns(NoGalleryAttributes.columns) == GalleryColumns(RegisteredGalleryDefaults.columns)
    ensures GalleryClasses(api, NoGalleryAttributes) == GalleryClasses(api, RegisteredGalleryDefaults)
    ensures NoGalleryAttributes.images.GetOr([]) == RegisteredGalleryDefaults.images.GetOr([]) == []
  {
  }

  // ---------------------------------------------------------------------------
  // The registry of registered blocks
  // ---------------------------------------------------------------------------

  const ButtonBlock := "kawaii-ultra/button"
  const CardBlock := "kawaii-ultra/card"
  const GalleryBlock := "kawaii-ultra/gallery"

  /** The `$blocks` field and the methods that fill it. */
  class BlocksManager {
    var blocks: map<string, bool>

    constructor ()
      ensures blocks == map[]
    {
      blocks := map[];
    }

    method RegisterButtonBlock()
      modifies this
      ensures blocks == old(blocks)[ButtonBlock := true]
    {
      blocks := blocks[ButtonBlock := true];
    }

    method RegisterCardBlock()
      modifies this
      ensures blocks == old(blocks)[CardBlock := true]
    {
      blocks := blocks[CardBlock := true];
    }

    method RegisterGalleryBlock()
      modifies this
      ensures blocks == old(blocks)[GalleryBlock := true]
    {
      blocks := blocks[GalleryBlock := true];
    }

    /** `register_blocks`: the button, the card, then the gallery. */
    method RegisterBlocks()
      modifies this
      ensures blocks == old(blocks)[ButtonBlock := true][CardBlock := true][GalleryBlock := true]
    {
      RegisterButtonBlock();
      RegisterCardBlock();
      RegisterGalleryBlock();
    }

    /** `get_registered_blocks`. */
    function GetRegisteredBlocks(): map<string, bool>
      reads this
    {
      blocks
    }
  }

  /** A fresh manager holds exactly the three block keys after `register_blocks`. */
  method RegisteredAfterInit() returns (keys: set<string>)
    ensures keys == {ButtonBlock, CardBlock, GalleryBlock}
  {
    var manager := new BlocksManager();
    manager.RegisterBlocks();
    keys := manager.GetRegisteredBlocks().Keys;
  }
}
