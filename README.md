# KawaiiUltra decision rules in Dafny

This project models the decision rules inside two pieces of software:

- the KawaiiUltra WordPress block theme (PHP classes under `inc/` and the jQuery scripts under `js/`);
- its companion plugin, KawaiiUltra Functionality.

It states, as contracts and lemmas, what each rule promises. Most of the
repository is registration glue and HTML templates, so the model is limited to
the parts that decide something:

- **Blocks** (`blocks_manager.dfy`): the block asset rule, which chooses between
  development and production and looks entries up in the build manifest.
  Also the server-side renderers of the button, card and gallery blocks, and the
  registry the block manager fills.
- **Sanitisers and validators** (`sanitization.dfy`, `template_validator.dfy`,
  `shortcodes.dfy`, `button.dfy`, `card.dfy`): the option sanitisers' fallbacks,
  the template file and block checks with the admin notices built from them, the
  three shortcodes' attribute normalisation and queries, and the front-end
  attribute validators.
- **Front-end state machines** (`gallery.dfy`, `blocks_frontend.dfy`, `card.dfy`):
  the lightbox and carousel indices with their dots, the swipe threshold, the
  Escape handling, the one-time dynamic style block, the read-more toggle and the
  greedy masonry layout, which runs over an `array` of column heights.
- **Mappings and registries** (`plugin_bootstrap.dfy`, `plugin_core.dfy`,
  `setup.dfy`, `theme.dfy`, `assets.dfy`): the fallback autoloader, the plugin
  singleton, the activation transient, the show-once notice, sidebar argument
  merging, body classes, plugin action links, feature checks, the admin hook
  whitelist and the inline colour CSS.

Supporting modules:

- `wrappers.dfy`: `Option`.
- `strings.dfy`: substring search as `strpos` does it, `ltrim`, `str_replace` of
  one character, `ctype_xdigit`.
- `php.dfy`: JSON/attribute values, PHP truthiness, ordered arrays with
  assignment and lookup.
- `dom.dfy`: an element whose attributes a script rewrites in place.
- `wordpress.dfy`: the transient store.

WordPress and PHP library functions are inputs to the model, given as
function-valued parameters or fields. This covers `esc_*`, `sanitize_*`,
`wp_kses_post`, `absint`, `shortcode_atts`, `json_decode`, `file_exists`,
`admin_url`, `post_type_exists`, `taxonomy_exists`, `WP_Query`, `get_terms`,
`parseInt` and translation. Where a rule depends on a library function's
documented behaviour, that behaviour is an explicit hypothesis of the lemma:
`Shortcodes.MergesDefaults` for `shortcode_atts` and `Shortcodes.AbsintOnInts`
for `absint`.

How the block manager's asset rule behaves:

- `BlocksManager` reads only the manifest entry's `file` field. The URL is the
  template URI + `/dist/` + file.
- A manifest entry's `css` list is not read.
- The manifest is re-read on each enqueue hook.
- Blocks are registered under their full names (`kawaii-ultra/button` etc.).

## Model

| member | source | states |
|---|---|---|
| BlocksManager.ModeDecidesAssetUrls | inc/Blocks/BlocksManager.php:363-409 | in development mode every planned asset is enqueued, in order, at its dev-server URL; otherwise every enqueued URL is the template URI + `/dist/` + the manifest `file` of one of the planned entries |
| BlocksManager.DevelopmentIgnoresManifest | inc/Blocks/BlocksManager.php:366-382 | in development every planned asset is enqueued at its fixed dev-server URL, and changing the manifest's content changes nothing |
| BlocksManager.DevelopmentEditorAssets | inc/Blocks/BlocksManager.php:366-381 | in development the editor enqueues exactly the script `kawaii-ultra-blocks` at `http://localhost:3000/src/js/blocks.js` with the four block-editor dependencies, then the style `kawaii-ultra-blocks-editor` at `http://localhost:3000/src/css/blocks-editor.scss` |
| BlocksManager.DevelopmentFrontendAssets | inc/Blocks/BlocksManager.php:423-438 | in development the front end enqueues exactly the style `kawaii-ultra-blocks` at `http://localhost:3000/src/css/blocks.scss`, then the script `kawaii-ultra-blocks-frontend` at `http://localhost:3000/src/js/blocks-frontend.js` depending on jquery |
| BlocksManager.ProductionWithoutManifestEnqueuesNothing | inc/Blocks/BlocksManager.php:384-386 | in production a missing manifest, or one that decodes to null, false, an empty array or another falsy value, enqueues nothing |
| BlocksManager.ManifestFile | inc/Blocks/BlocksManager.php:387-388 | `$manifest[$entry]['file'] ?? null` yields a file exactly when that value is truthy, and the file is that value as a string |
| BlocksManager.ProductionEnqueuesExactly | inc/Blocks/BlocksManager.php:390-409 | an asset is enqueued in production iff its entry has a truthy `file`, at template URI + `/dist/` + file; never more enqueues than planned assets |
| BlocksManager.ProductionSplits | inc/Blocks/BlocksManager.php:390-409 | each asset is decided independently: the enqueues of a split plan are the concatenation of the parts' enqueues |
| BlocksManager.EditorProductionAssets | inc/Blocks/BlocksManager.php:384-409 | in production the editor enqueues the blocks script, then the editor stylesheet, each exactly when its own entry has a file |
| BlocksManager.FrontendProductionAssets | inc/Blocks/BlocksManager.php:441-464 | in production the front end enqueues the blocks stylesheet, then the front-end script, each exactly when its own entry has a file |
| BlocksManager.FallbackManifestFiles | build-fallback.js:19-26 | the manifest the fallback build writes is truthy, names `css/blocks.css` for the blocks stylesheet and has no entry for the two block scripts or the editor stylesheet |
| BlocksManager.FallbackManifestScenario | inc/Blocks/BlocksManager.php:418-466 | with the fallback manifest in place the front end enqueues only `<uri>/dist/css/blocks.css` and the editor enqueues nothing, whatever WP_DEBUG says |
| BlocksManager.StyleDeclarations | inc/Blocks/BlocksManager.php:214-220 | the background-color declaration comes before the color declaration, each only when its sanitised colour is truthy; empty iff both are falsy |
| BlocksManager.StyleAttribute | inc/Blocks/BlocksManager.php:214-224 | no style attribute exactly when both sanitised colours are falsy, otherwise the declarations |
| BlocksManager.RenderButton | inc/Blocks/BlocksManager.php:195-236 | classes are `kawaii-button`, `--style`, `--size` in that order, plus `--has-icon` iff the sanitised icon is PHP-truthy; the element is `a` with an href iff the escaped URL is PHP-truthy, otherwise `button`; no style iff both colours are PHP-falsy |
| BlocksManager.ButtonDefaultsAgree | inc/Blocks/BlocksManager.php:59-90 | a button with no attributes renders exactly like one with the registered defaults |
| BlocksManager.RenderCard | inc/Blocks/BlocksManager.php:245-295 | classes are `kawaii-card`, `--style`, plus `--has-image` iff there is an image URL; the image appears iff its URL is PHP-truthy; the action link iff both button text and URL are PHP-truthy; no style iff both colours are PHP-falsy |
| BlocksManager.CardDefaultsAgree | inc/Blocks/BlocksManager.php:107-139 | a card with no attributes renders exactly like one with the registered defaults |
| BlocksManager.ClampColumns | inc/Blocks/BlocksManager.php:306 | `max(1, min(6, n))` lies in 1..6, keeps values already in range and sends smaller values to 1 and larger ones to 6 |
| BlocksManager.GalleryColumns | inc/Blocks/BlocksManager.php:306 | the gallery's column count is in 1..6 and is 3 when the attribute is absent |
| BlocksManager.GalleryClasses | inc/Blocks/BlocksManager.php:316-325 | a non-empty gallery's classes start with `kawaii-gallery`, carry the clamped column count fourth and end with `--lightbox` iff lightbox is on |
| BlocksManager.RenderGalleryItem | inc/Blocks/BlocksManager.php:331-348 | a link wraps the image iff lightbox is on, pointing at the image URL; a caption appears iff captions are shown and the caption is PHP-truthy |
| BlocksManager.RenderGallery | inc/Blocks/BlocksManager.php:304-353 | no images gives only the `No images selected for gallery.` message; otherwise one item per image in input order, rendered by the item rule |
| BlocksManager.GalleryDefaultsAgree | inc/Blocks/BlocksManager.php:159-179 | a gallery with no attributes gets the same columns and classes as the registered defaults, and both have no images |
| BlocksManager.BlocksManager.constructor | inc/Blocks/BlocksManager.php:25 | a new block manager has an empty registry |
| BlocksManager.BlocksManager.RegisterButtonBlock | inc/Blocks/BlocksManager.php:58-95 | registering the button adds its key and changes no other entry |
| BlocksManager.BlocksManager.RegisterCardBlock | inc/Blocks/BlocksManager.php:102-146 | registering the card adds its key and changes no other entry |
| BlocksManager.BlocksManager.RegisterGalleryBlock | inc/Blocks/BlocksManager.php:154-188 | registering the gallery adds its key and changes no other entry |
| BlocksManager.BlocksManager.RegisterBlocks | inc/Blocks/BlocksManager.php:45-50 | `register_blocks` adds the button, card and gallery keys, in that order |
| BlocksManager.RegisteredAfterInit | inc/Blocks/BlocksManager.php:475-477 | after `register_blocks` on a fresh manager, `get_registered_blocks` holds exactly the three block keys |
| Sanitization.SanitizeCheckbox | inc/Utils/Sanitization.php:27-29 | the result is true iff the input is the boolean true |
| Sanitization.CheckboxIsStrict | inc/Utils/Sanitization.php:27-29 | 1, '1', 'on', null and false are all rejected; only true is accepted |
| Sanitization.SanitizeSelect | inc/Utils/Sanitization.php:39-44 | the sanitised key when it is one of the control's choices, otherwise the setting's default |
| Sanitization.SelectIdempotent | inc/Utils/Sanitization.php:39-44 | with an idempotent key sanitiser and a default that is a valid key, sanitising the result again changes nothing |
| Sanitization.SanitizeHexColor | inc/Utils/Sanitization.php:107-118 | WordPress's own sanitiser when it exists, the fallback otherwise |
| Sanitization.SanitizeHexColorFallback | inc/Utils/Sanitization.php:112-117 | the result is '' or '#' and exactly 3 or 6 hex digits; a non-empty result's digits are the input's tail after nothing but '#' characters |
| Sanitization.HexAcceptsHashedDigits | inc/Utils/Sanitization.php:112-117 | any number of leading '#' before 3 or 6 hex digits gives '#' and those digits |
| Sanitization.HexRejectsEmpty | inc/Utils/Sanitization.php:113 | '' and '#' both sanitise to '' |
| Sanitization.HexRejectsAllHashes | inc/Utils/Sanitization.php:112-113 | a string of only '#' sanitises to '' |
| Sanitization.HexIdempotent | inc/Utils/Sanitization.php:112-117 | sanitising the fallback's output returns it unchanged |
| Sanitization.SanitizeIntegerFallback | inc/Utils/Sanitization.php:128 | the fallback is non-negative and equals the input or its negation |
| Sanitization.SanitizeInteger | inc/Utils/Sanitization.php:127-129 | `absint` when it exists, otherwise the absolute value of the `(int)` cast |
| Sanitization.IntegerFallbackIsAbs | inc/Utils/Sanitization.php:128 | on an integer input the fallback is its absolute value, fixed on its own output and the same for n and -n |
| Sanitization.SanitizeArray | inc/Utils/Sanitization.php:195-197 | `array_map` keeps the length, the keys and their order and applies the callback to each value |
| Sanitization.SanitizeArrayComposes | inc/Utils/Sanitization.php:195-197 | mapping with f then g is mapping once with their composition |
| Sanitization.SanitizeArrayIdempotent | inc/Utils/Sanitization.php:195-197 | an idempotent callback makes the array sanitiser idempotent |
| TemplateValidator.CheckFile | inc/Core/TemplateValidator.php:62-67 | a row records the path, whether the file exists, and is readable only when it exists and is readable |
| TemplateValidator.FileChecks | inc/Core/TemplateValidator.php:57-71 | the results are empty exactly when there are no required names |
| TemplateValidator.FileChecksOnePerName | inc/Core/TemplateValidator.php:61-68 | for distinct names there is one row per name, in order, for the file at directory + name |
| TemplateValidator.ValidateFiles | inc/Core/TemplateValidator.php:61-68 | the loop builds exactly the results array of the required-file checks |
| TemplateValidator.ValidateRequiredTemplates | inc/Core/TemplateValidator.php:57-71 | the results are keyed by `index.html` and `404.html` in order, each for its file under `/templates/` |
| TemplateValidator.ValidateRequiredTemplateParts | inc/Core/TemplateValidator.php:79-93 | the results are keyed by `header.html` and `footer.html` in order, each for its file under `/parts/` |
| TemplateValidator.ValidateThemeJson | inc/Core/TemplateValidator.php:101-122 | `exists` is file existence; `valid_json` implies existence and holds iff the existing file decodes; an error is present exactly when the file exists and does not decode; data only after a clean decode |
| TemplateValidator.MissingNames | inc/Core/TemplateValidator.php:139-145 | `array_filter` on `!exists` keeps exactly the names whose file does not exist |
| TemplateValidator.NoticesFrom | inc/Core/TemplateValidator.php:130-185 | nothing without `manage_options`; a missing-templates and a missing-parts warning naming exactly the missing files, each iff some are missing; theme.json reported as missing if absent, as invalid with its error if it exists and failed to decode with a non-empty error, and not at all if valid |
| TemplateValidator.AdminNotices | inc/Core/TemplateValidator.php:130-185 | the admin screen shows nothing without `manage_options` and never more than three notices |
| TemplateValidator.MissingTemplatesNamed | inc/Core/TemplateValidator.php:135-141 | a template is named missing iff it is required and its file under `/templates/` does not exist |
| TemplateValidator.MissingPartsNamed | inc/Core/TemplateValidator.php:136-145 | a part is named missing iff it is required and its file under `/parts/` does not exist |
| TemplateValidator.AdminNoticeListsMissingTemplates | inc/Core/TemplateValidator.php:148-155 | a missing-templates notice on the admin screen lists exactly the required templates whose file is absent |
| TemplateValidator.AdminNoticeListsMissingParts | inc/Core/TemplateValidator.php:158-165 | a missing-parts notice on the admin screen lists exactly the required parts whose file is absent |
| TemplateValidator.HealthyThemeHasNoNotices | inc/Core/TemplateValidator.php:130-185 | with every required file present and a theme.json that decodes, no notice is shown |
| TemplateValidator.MissingBlocks | inc/Core/TemplateValidator.php:242-247 | the reported blocks are some of the required blocks, never more of them |
| TemplateValidator.MissingBlocksIff | inc/Core/TemplateValidator.php:242-246 | a block is reported missing iff it is required and `wp:` + block is not a substring of the content |
| TemplateValidator.MissingBlocksSplits | inc/Core/TemplateValidator.php:242-247 | blocks are tested one by one: splitting the required list splits the report, in order |
| TemplateValidator.ValidateTemplateBlocks | inc/Core/TemplateValidator.php:234-250 | a missing file gives only the `Template file not found` error; otherwise the missing blocks are the required blocks failing the substring test, in order, and `valid` holds iff none is missing, so an empty list is always valid |
| Shortcodes.CategoryFilter | kawaiiultra-functionality/inc/Features/Shortcodes.php:76-84 | a `tax_query` by slug is added iff the sanitised category is PHP-truthy (`!empty`) and the taxonomy exists |
| Shortcodes.PortfolioSettingsOf | kawaiiultra-functionality/inc/Features/Shortcodes.php:52-67 | the limit is `absint` of the merged attribute raised to at least 1, and the columns are `absint` clamped to 1..6 |
| Shortcodes.PortfolioQuery | kawaiiultra-functionality/inc/Features/Shortcodes.php:69-84 | the query is always published `portfolio` posts, `limit` per page, with the category filter on `portfolio_category` |
| Shortcodes.RenderPortfolioItem | kawaiiultra-functionality/inc/Features/Shortcodes.php:97-118 | the thumbnail is shown iff the post has one, the excerpt iff excerpts are enabled and the post has one |
| Shortcodes.PortfolioList | kawaiiultra-functionality/inc/Features/Shortcodes.php:51-127 | no posts gives `No portfolio items found.`; otherwise a grid with the normalised column count and one item per post, in query order |
| Shortcodes.PortfolioDefaultsApply | kawaiiultra-functionality/inc/Features/Shortcodes.php:52-57 | with no attributes, and `shortcode_atts` and `absint` behaving as documented, the limit is 6 and the grid has 3 columns |
| Shortcodes.PortfolioLimitFromAttribute | kawaiiultra-functionality/inc/Features/Shortcodes.php:60-63 | a given integer limit is used as its absolute value, with 0 raised to 1 |
| Shortcodes.TestimonialSettingsOf | kawaiiultra-functionality/inc/Features/Shortcodes.php:139-150 | the limit is `absint` of the merged attribute raised to at least 1 |
| Shortcodes.TestimonialQuery | kawaiiultra-functionality/inc/Features/Shortcodes.php:152-169 | the query is always published `testimonial` posts, `limit` per page, by date descending, with the category filter on `testimonial_category` |
| Shortcodes.RenderTestimonialItem | kawaiiultra-functionality/inc/Features/Shortcodes.php:182-196 | the author block is shown iff authors are enabled, the photo iff authors are enabled and the post has a thumbnail |
| Shortcodes.RecentTestimonials | kawaiiultra-functionality/inc/Features/Shortcodes.php:138-205 | no posts gives `No testimonials found.`; otherwise one item per post, in query order |
| Shortcodes.TestimonialDefaultsApply | kawaiiultra-functionality/inc/Features/Shortcodes.php:139-143 | with no attributes, and `shortcode_atts` and `absint` behaving as documented, three testimonials are asked for |
| Shortcodes.RenderCategoryItem | kawaiiultra-functionality/inc/Features/Shortcodes.php:249-257 | the count is shown iff counts are enabled, the description iff it is PHP-truthy (`!empty`) |
| Shortcodes.PortfolioCategories | kawaiiultra-functionality/inc/Features/Shortcodes.php:216-265 | a missing taxonomy gives `Portfolio categories are not available.` with no term query at all; otherwise one query for non-empty `portfolio_category` terms with the sanitised order; an error or no terms gives `No portfolio categories found.`; otherwise one item per term, in order |
| ButtonScript.ValidatedButtonAttrs | js/blocks/button.js:51-65 | the element keeps exactly its attribute names |
| ButtonScript.ValidateButtonAttributes | js/blocks/button.js:51-65 | the element's attributes become the validated attributes of its old ones |
| ButtonScript.StyleRule | js/blocks/button.js:52-60 | a style in primary, secondary, ghost and round is kept, any other non-empty style becomes `primary`, an empty one stays empty |
| ButtonScript.SizeRule | js/blocks/button.js:53-64 | a size in small, medium and large is kept, any other non-empty size becomes `medium`, an empty one stays empty |
| ButtonScript.OnlyStyleAndSizeChange | js/blocks/button.js:51-65 | absent attributes stay absent and every attribute but style and size is untouched |
| ButtonScript.ButtonValidationIdempotent | js/blocks/button.js:51-65 | validating twice is validating once |
| ButtonScript.StyleAndSizeIndependent | js/blocks/button.js:51-65 | the style's outcome depends only on the style and the size's only on the size |
| Dom.WithAllowedValue | js/blocks/button.js:58-64 | a present, non-empty value outside the allowed list is replaced by the fallback; every other attribute and the attribute names are unchanged |
| CardScript.ValidatedCardAttrs | js/blocks/card.js:119-126 | the card keeps exactly its attribute names |
| CardScript.ValidateCardAttributes | js/blocks/card.js:119-126 | the card's attributes become the validated attributes of its old ones |
| CardScript.CardStyleRule | js/blocks/card.js:119-126 | a style in default, minimal, cute, pastel and product is kept, any other non-empty style becomes `default`, and an absent or empty style leaves the attributes untouched |
| CardScript.CardValidationIdempotent | js/blocks/card.js:119-126 | validating twice is validating once |
| CardScript.CardClickNavigates | js/blocks/card.js:28-36 | a click navigates only on a card with a link, and then iff the target is not a button, a, input, textarea or select |
| CardScript.CardKeyActivates | js/blocks/card.js:146-152 | a key activates only a card with a link, and then iff it is Enter (13) or Space (32) |
| CardScript.OnlyEnterAndSpaceActivate | js/blocks/card.js:147-152 | Tab, Escape and the arrow keys never activate a card, and a click on a nested control never navigates |
| CardScript.AccessibleAttrs | js/blocks/card.js:131-155 | a linked card gets `tabindex` 0 and keeps every other attribute but `aria-label`; a card without a link is untouched |
| CardScript.AriaLabelRule | js/blocks/card.js:136-143 | the title becomes the label iff the card has a link, neither `aria-label` nor `aria-labelledby` is set, and the title is non-empty; an existing label is kept |
| CardScript.InitCardAccessibility | js/blocks/card.js:131-155 | the card's attributes become the accessible attributes of its old ones |
| CardScript.ContentTruncation.constructor | js/blocks/card.js:160-170 | an expand button labelled `Read more` is added iff max-height parses to a non-zero value smaller than the scroll height |
| CardScript.ContentTruncation.ClickExpand | js/blocks/card.js:172-175 | a click flips the expanded state, and the label is `Read less` iff expanded |
| CardScript.ContentTruncation.ClickTwice | js/blocks/card.js:172-175 | two clicks restore the expanded state and the matching label |
| Gallery.JsRem | js/blocks/gallery.js:62-67 | JavaScript's `%` truncates toward zero: the remainder takes the dividend's sign |
| Gallery.WrapAround | js/blocks/gallery.js:61-69 | for n ≥ 1, `(i-1+n)%n` and `(i+1)%n` stay in [0,n); within range next then prev and prev then next both restore i, and the ends wrap |
| Gallery.LightboxKey | js/blocks/gallery.js:72-86 | only while visible: Escape (27) closes, Left (37) goes back, Right (39) goes on, and every other key does nothing |
| Gallery.Lightbox.constructor | js/blocks/gallery.js:33-34 | the lightbox starts hidden with no slides at index 0 |
| Gallery.Lightbox.ShowImage | js/blocks/gallery.js:88-93 | the displayed slide changes only for an index in range, and then to that slide |
| Gallery.Lightbox.Open | js/blocks/gallery.js:39-53 | opening a gallery's link shows the lightbox on that gallery's slides, at the clicked slide |
| Gallery.Lightbox.Close | js/blocks/gallery.js:56-58 | closing hides the lightbox and changes nothing else |
| Gallery.Lightbox.Prev | js/blocks/gallery.js:61-64 | the index steps back modulo the slide count and the slide at it is shown |
| Gallery.Lightbox.Next | js/blocks/gallery.js:66-69 | the index steps on modulo the slide count and the slide at it is shown |
| Gallery.Lightbox.KeyDown | js/blocks/gallery.js:72-86 | a hidden lightbox ignores every key; a visible one closes on Escape, and Left or Right steps the index with wrap-around and shows the slide at it while staying visible; other keys change nothing |
| Gallery.Lightbox.OpenAsWritten | js/blocks/gallery.js:43-52 | see Findings: the clicked gallery's slides with the page-wide link index |
| Gallery.PageWideIndex | js/blocks/gallery.js:50 | the page-wide index is at least the in-gallery index |
| Gallery.PageWideIndexIsLocalIff | js/blocks/gallery.js:43-50 | the page-wide index equals the in-gallery index iff no earlier gallery has any links |
| Gallery.LightboxIndexCounterexample | js/blocks/gallery.js:43-53 | see Findings |
| Gallery.ExactlyOneActiveDot | js/blocks/gallery.js:125-129 | when only the dot at an in-range index is active, exactly one dot is active |
| Gallery.SwipeOf | js/blocks/gallery.js:166-180 | a release navigates only when startX and endX differ by more than 50: a positive difference goes next, a negative one prev |
| Gallery.RepeatedInitActiveDots | js/blocks/gallery.js:104-130 | see Findings: after k unguarded set-ups of a gallery, `goToSlide` leaves k·(k+1)/2 dots active |
| Gallery.RepeatedInitCounterexample | js/blocks/gallery.js:104-130 | see Findings: two set-ups of a two-item gallery leave three dots active |
| Gallery.GuardedInitOneActiveDot | js/blocks/gallery.js:104-130 | with a set-up step that skips a gallery already holding its dots container, iterated any number of times, `goToSlide` leaves exactly one dot active |
| Gallery.Carousel.constructor | js/blocks/gallery.js:104-130 | a carousel of more than one item starts at slide 0 with only the first dot active and offset 0 |
| Gallery.Carousel.GoToSlide | js/blocks/gallery.js:123-130 | going to a slide sets it as current, sets the offset to -100·slide and leaves only the dot at that index active |
| Gallery.Carousel.Prev | js/blocks/gallery.js:133-136 | prev steps back modulo the slide count and keeps the carousel consistent |
| Gallery.Carousel.Next | js/blocks/gallery.js:138-141 | next steps on modulo the slide count and keeps the carousel consistent |
| Gallery.Carousel.DotClick | js/blocks/gallery.js:144-147 | a dot's click goes to the dot's own index |
| Gallery.Carousel.PointerDown | js/blocks/gallery.js:156-159 | a press records the start and starts a drag, without moving the carousel |
| Gallery.Carousel.PointerUp | js/blocks/gallery.js:166-180 | a release ends the drag and moves next, prev or nowhere as the swipe rule says; a release without a drag moves nothing |
| Gallery.InitCarousel | js/blocks/gallery.js:99-150 | no carousel is set up for one item or none; otherwise it starts at slide 0 with exactly one active dot, the first |
| Gallery.ValidColumns | js/blocks/gallery.js:265-269 | `data-columns` becomes a value in 1..6: unparsable or 0 gives 3, values in range are kept, negatives give 1, larger values 6 |
| Gallery.ValidateGalleryAttributes | js/blocks/gallery.js:265-269 | only `data-columns` is rewritten, to the clamped value |
| Gallery.ValidColumnsIdempotent | js/blocks/gallery.js:265-269 | validating a validated value again changes nothing |
| Gallery.MasonryColumnCount | js/blocks/gallery.js:194 | the parsed `data-columns` with 3 in place of an unparsable value or 0: unparsable or 0 gives 3, a positive count is kept, a negative one cannot make the heights array |
| Gallery.ArgMin | js/blocks/gallery.js:199 | `indexOf(Math.min(...))` is the lowest index of a minimal height |
| Gallery.Max | js/blocks/gallery.js:211 | `Math.max(...)` is a height of the array and no height exceeds it |
| Gallery.PlacementAfter | js/blocks/gallery.js:197-208 | the next item goes to the lowest-index column among the shortest, at that column's height before placement |
| Gallery.HeightsConserveSum | js/blocks/gallery.js:195-208 | after placement the column heights add up to the items' total height |
| Gallery.ColumnsOnlyGrow | js/blocks/gallery.js:208 | placing an item never makes a column shorter |
| Gallery.ShortestColumn | js/blocks/gallery.js:199 | the loop finds the lowest index of a minimal column height |
| Gallery.TallestColumn | js/blocks/gallery.js:211 | the loop finds the maximum column height |
| Gallery.PlacementsInOrder | js/blocks/gallery.js:197-209 | item k is placed where the greedy rule puts it after the items before it |
| Gallery.PlaceItem | js/blocks/gallery.js:198-208 | one step places the item on the shortest column and grows that column by the item's height, in the array |
| Gallery.PlaceAll | js/blocks/gallery.js:197-209 | the loop places every item in order and leaves the heights array as the greedy rule says |
| Gallery.LayoutMasonry | js/blocks/gallery.js:192-212 | one placement per item, each by the greedy rule, and a gallery height equal to the tallest column; no layout when the column count is negative |
| Gallery.GalleryHeightIsTallestColumn | js/blocks/gallery.js:211 | the gallery height is one of the column heights and at least the average per column |
| BlocksFrontend.SlideSteps | js/blocks-frontend.js:106-114 | prev decrements, wrapping 0 to len−1; next increments, wrapping len−1 to 0; each undoes the other; both agree with the gallery script's modular steps |
| BlocksFrontend.NextTimesWraps | js/blocks-frontend.js:111-114 | up to len presses of next count forward, wrapping past the last slide once |
| BlocksFrontend.FullCycle | js/blocks-frontend.js:111-114 | len presses of next return to the starting slide |
| BlocksFrontend.EqIndex | js/blocks-frontend.js:99-103 | `.eq(index)` selects the dot at an in-range index, counts a negative index from the end and otherwise selects nothing |
| BlocksFrontend.FrontendCarousel.constructor | js/blocks-frontend.js:75-94 | the carousel starts at index 0 with only the first dot active |
| BlocksFrontend.FrontendCarousel.GoToSlide | js/blocks-frontend.js:97-104 | going to i sets the index to i; when `.eq(i)` selects an item (i in range, or negative and counted from the end) exactly the dot it selects is active; otherwise `position().left` throws and the dots are unchanged |
| BlocksFrontend.FrontendCarousel.Prev | js/blocks-frontend.js:106-109 | prev steps back with wrap-around and keeps one active dot at the index |
| BlocksFrontend.FrontendCarousel.Next | js/blocks-frontend.js:111-114 | next steps on with wrap-around and keeps one active dot at the index |
| BlocksFrontend.FrontendCarousel.AutoplayTick | js/blocks-frontend.js:122-127 | an autoplay tick steps like next, and only on an autoplaying gallery |
| BlocksFrontend.FrontendCarousel.DotClick | js/blocks-frontend.js:116-119 | a dot's click goes to its own index |
| BlocksFrontend.InitializeCarousel | js/blocks-frontend.js:68-129 | controls only for more than one item, starting at index 0 with the first dot active |
| BlocksFrontend.LightboxPage.constructor | js/blocks-frontend.js:21-63 | a page starts with no lightbox and no key handler |
| BlocksFrontend.LightboxPage.Open | js/blocks-frontend.js:22-46 | a click appends a new lightbox and binds its Escape handler |
| BlocksFrontend.LightboxPage.CloseClick | js/blocks-frontend.js:48-53 | the close button or backdrop removes that lightbox and leaves the key handlers bound |
| BlocksFrontend.LightboxPage.KeyDown | js/blocks-frontend.js:56-61 | Escape closes every lightbox whose handler is bound and unbinds the namespace; other keys change nothing |
| BlocksFrontend.WithDynamicStyles | js/blocks-frontend.js:301-303 | the style block is present afterwards, appended only when no element has its id |
| BlocksFrontend.DynamicStylesOnce | js/blocks-frontend.js:301-303 | a second call adds nothing, and the style block never appears twice |
| BlocksFrontend.Document.AddDynamicStyles | js/blocks-frontend.js:165-304 | the document's ids become those after the once-only append |
| PluginBootstrap.ChooseAutoloader | kawaiiultra-functionality/kawaiiultra-functionality.php:30-37 | the fallback autoloader is registered iff vendor/autoload.php is absent |
| PluginBootstrap.AutoloadPath | kawaiiultra-functionality/kawaiiultra-functionality.php:38-47 | no path for a class outside `KawaiiUltra\Functionality\`, otherwise plugin dir + `inc/` + the relative name with every backslash as a slash + `.php` |
| PluginBootstrap.AutoloadPathShape | kawaiiultra-functionality/kawaiiultra-functionality.php:46-47 | a mapped path ends in `.php` and its part after `inc/` holds no backslash |
| PluginBootstrap.CorePluginPath | kawaiiultra-functionality/kawaiiultra-functionality.php:39-47 | `KawaiiUltra\Functionality\Core\Plugin` maps to `<dir>inc/Core/Plugin.php` |
| PluginBootstrap.AutoloadPathInjective | kawaiiultra-functionality/kawaiiultra-functionality.php:45-47 | two classes whose relative names contain no slash never map to the same file |
| PluginBootstrap.Autoload | kawaiiultra-functionality/kawaiiultra-functionality.php:37-51 | a file is required only when the class maps to a path and that file exists |
| PluginBootstrap.Functionality.constructor | kawaiiultra-functionality/kawaiiultra-functionality.php:89-93 | the constructor registers the init, activation and deactivation hooks in that order |
| PluginBootstrap.Runtime.constructor | kawaiiultra-functionality/kawaiiultra-functionality.php:65 | the static instance starts out unset |
| PluginBootstrap.Runtime.GetInstance | kawaiiultra-functionality/kawaiiultra-functionality.php:79-84 | the first call constructs and stores the instance, every later call returns the stored one without constructing |
| PluginBootstrap.GetInstanceTwice | kawaiiultra-functionality/kawaiiultra-functionality.php:79-84 | two calls return the same object, constructed once |
| PluginBootstrap.Activate | kawaiiultra-functionality/kawaiiultra-functionality.php:122-128 | activation sets the `kawaiiultra_functionality_activated` transient to true and touches no other transient |
| WordPress.TransientStore.constructor | kawaiiultra-functionality/kawaiiultra-functionality.php:127 | the transient store starts empty |
| WordPress.TransientStore.Set | kawaiiultra-functionality/kawaiiultra-functionality.php:127 | `set_transient` stores the value under its name and changes nothing else; `get_transient` then returns that value for the name and what it returned before for every other name |
| WordPress.TransientStore.Delete | kawaiiultra-functionality/inc/Core/Plugin.php:87 | `delete_transient` removes the name and changes nothing else; `get_transient` then returns false for the name and what it returned before for every other name |
| PluginCore.ActivationNotice | kawaiiultra-functionality/inc/Core/Plugin.php:85-94 | the notice is shown iff the activation transient is truthy, and showing it deletes the transient; otherwise nothing changes |
| PluginCore.NoticeShownOncePerActivation | kawaiiultra-functionality/inc/Core/Plugin.php:85-94 | after one activation the notice shows on the next admin page and not on the one after |
| PluginCore.Values | kawaiiultra-functionality/inc/Core/Plugin.php:109 | the values of an array, in order |
| PluginCore.Renumber | kawaiiultra-functionality/inc/Core/Plugin.php:109 | `array_merge` keeps the values in order and the named keys, and renumbers the positional keys `next`, `next + 1`, ... in their order |
| PluginCore.ValuesSplit | kawaiiultra-functionality/inc/Core/Plugin.php:109 | the values of two joined arrays are the first's values then the second's |
| PluginCore.PluginActionLinks | kawaiiultra-functionality/inc/Core/Plugin.php:103-110 | two more links than given: the portfolio link (`post_type=portfolio`), the testimonials link (`post_type=testimonial`), then the given links in order, named keys kept and the given positional keys renumbered from 2 in their order |
| PluginCore.ActionLinksAreAList | kawaiiultra-functionality/inc/Core/Plugin.php:103-110 | when the given links form a list, the result is the list with keys 0, 1, 2, ... |
| PluginCore.ActionLinksKeepOrder | kawaiiultra-functionality/inc/Core/Plugin.php:104-109 | the i-th given link is the (i+2)-th link of the result |
| Php.Put | inc/Core/Setup.php:167-169 | `$a[$k] = $v` appends a new key at the end and keeps the key order when the key exists |
| Php.PutGet | inc/Core/Setup.php:167-169 | after `$a[$k] = $v`, `$a[$k]` is `$v` and every other key reads as before |
| Setup.Unset | inc/Core/Setup.php:170 | `unset` removes the key, keeps every other key's value and keeps keys unique |
| Setup.ParseArgsMerges | inc/Core/Setup.php:173 | caller values win over defaults, defaults fill every key the caller did not set, the default keys stay at the front, and no key repeats |
| Setup.ParseArgsGet | inc/Core/Setup.php:173 | each key reads as the caller's value where the caller set it and as the default elsewhere |
| Setup.ParseArgsKeys | inc/Core/Setup.php:173 | the defaults' keys stay a prefix of the merged keys and no key repeats |
| Setup.SidebarDefaults | inc/Core/Setup.php:159-169 | the defaults are the widget wrapper and the title wrapper keys, in that order, without repeats |
| Setup.DefaultsGet | inc/Core/Setup.php:159-169 | the default widget wrapper opens the `section` element and closes it with `</section>`, and the titles use the `title_tag` value, or `h2` without one |
| Setup.RegisterSidebar | inc/Core/Setup.php:158-175 | the registered arguments have no `title_tag`, keep every other caller value, take the defaults (with the title-tag override) for keys the caller did not set, and repeat no key |
| Setup.DefaultTitleTag | inc/Core/Setup.php:159-164 | without `title_tag` the titles are `<h2 class="widget-title">` and `</h2>` |
| Setup.TitleTagOverride | inc/Core/Setup.php:167-169 | with `title_tag` t the titles are `<t class="widget-title">` and `</t>` |
| Setup.AreaArgs | inc/Core/Setup.php:130-134 | a widget area's own arguments carry its id and neither `title_tag` nor any wrapper key (`before_widget`, `after_widget`, `before_title`, `after_title`), so every wrapper comes from the defaults |
| Setup.TaggedAreaArgs | inc/Core/Setup.php:136-148 | a footer area's arguments carry its id and its `title_tag` and no wrapper key (`before_widget`, `after_widget`, `before_title`, `after_title`), so every wrapper comes from the defaults |
| Setup.AreaId | inc/Core/Setup.php:173 | an area keeps the id it was given |
| Setup.AreaWidgetWrapper | inc/Core/Setup.php:159-161 | an area that sets no widget wrapper gets the default opening `section` tag and the closing `</section>` |
| Setup.WidgetsInit | inc/Core/Setup.php:129-149 | `widgets_init` registers three widget areas |
| Setup.PlainAreaFacts | inc/Core/Setup.php:158-175 | an area without `title_tag` keeps its id and gets `h2` titles and the default opening and closing widget wrapper |
| Setup.TaggedAreaFacts | inc/Core/Setup.php:158-175 | an area with `title_tag` keeps its id and gets titles in that tag and the default opening and closing widget wrapper |
| Setup.SidebarArea | inc/Core/Setup.php:130-134 | the first area is sidebar-1 with `h2` titles, wrapped in the default `section` |
| Setup.FirstFooterArea | inc/Core/Setup.php:136-141 | the second area is footer-1 with `h3` titles, wrapped in the default `section` |
| Setup.SecondFooterArea | inc/Core/Setup.php:143-148 | the third area is footer-2 with `h3` titles, wrapped in the default `section` |
| Theme.BodyClasses | inc/Core/Theme.php:132-142 | the input classes are kept in order as a prefix; `hfeed` is appended iff the page is not singular, `has-sidebar` iff sidebar-1 is active, after `hfeed` when both apply, and nothing else is added |
| Theme.ExcerptLength | inc/Core/Theme.php:151-153 | the excerpt length is 20 for any input |
| Theme.ExcerptMore | inc/Core/Theme.php:162-164 | the excerpt suffix is `...` for any input |
| Theme.DependencyMessage | inc/Core/Theme.php:198-204 | the message carries the install page URL from `admin_url` |
| Theme.DependencyNotice | inc/Core/Theme.php:192-211 | the notice is shown iff the plugin class is missing and the user can install plugins, as an info notice around the filtered message |
| Theme.HasFunctionalityFeature | inc/Core/Theme.php:220-235 | only the five known feature names can be available |
| Theme.FeatureRegistrations | inc/Core/Theme.php:222-233 | portfolio and testimonials ask about post types, the three category and tag features about taxonomies |
| Theme.NoFeaturesWithoutPlugin | inc/Core/Theme.php:220-235 | with nothing registered no feature is available |
| Assets.Assets.constructor | inc/Core/Assets.php:32-34 | the version is the theme's Version, or `1.0.0` when that is empty or falsy |
| Assets.Assets.AdminScripts | inc/Core/Assets.php:100-127 | nothing is enqueued unless the hook is one of the four whitelisted screens, compared strictly; on them the admin stylesheet, then the admin script in the footer after jQuery, both at the theme version |
| Assets.AdminAssetsCarryVersion | inc/Core/Assets.php:113-126 | every admin asset carries the version the object was built with |
| Assets.PrimaryColor | inc/Core/Assets.php:158-160 | the primary colour is the stored theme mod, or `#0073aa` when unset |
| Assets.ThreeSlots | inc/Core/Assets.php:138-147 | a `sprintf` template with three `%s` slots filled with one argument holds the argument at each of the three slot positions |
| Assets.CustomCss | inc/Core/Assets.php:135-150 | the inline CSS is the fixed template with the escaped primary colour inserted in each of its three slots |
| Assets.CustomCssRoundTrip | inc/Core/Assets.php:138-147 | the escaped colour can be read back out of the CSS, so distinct colours give distinct CSS |

## Left out

- HTML serialisation is left out. The renderers return a structured description of the markup (element, classes, attributes, children) instead of the string that output buffering builds.
- Escaping, sanitising, `wp_kses_post`, `shortcode_atts`, `absint`, `json_decode`, `file_exists`, `is_readable`, `file_get_contents`, `admin_url`, `taxonomy_exists`, `post_type_exists`, `WP_Query`, `get_terms` and jQuery's `parseInt` are inputs to the model, not reimplementations.
- Translation (`esc_html__` and friends) is left out. Messages are their English source text; `Setup.WidgetsInit` takes the translator as a parameter.
- Asynchronous behaviour is left out: the lightbox's fade timing, the carousel's CSS transition, the 5-second autoplay interval and debouncing. An autoplay tick is the method `BlocksFrontend.FrontendCarousel.AutoplayTick`, with no clock.
- Pixel geometry is left out because it is floating point: button ripples, the drag offset during `touchmove`, the viewport test, the masonry `left`/`width` percentages and `top` in pixels. Masonry works on column indices and integer heights; pointer positions are integers.
- `Gallery.Lightbox.Prev` and `Gallery.Lightbox.Next` require at least one slide, and `Gallery.Lightbox.KeyDown` requires one while the lightbox is visible: with none, JavaScript's `% 0` yields NaN, which the model does not represent. While the lightbox is hidden, `KeyDown` does nothing, as in the source.
- Hover effects, the viewport animation, image lazy loading, the image error handler and ripples are left out: they only toggle classes or styles, with no decision to verify.
- The `DOMNodeInserted` re-initialisation in the button script is left out, as is `touchmove`'s `preventDefault`.
- `Gallery.Carousel`, `Gallery.Lightbox`, `Gallery.InitCarousel` and `CardScript.ContentTruncation` model a single initialisation only. The gallery script re-runs `initKawaiiGalleries` on every `DOMNodeInserted` event (js/blocks/gallery.js:292-295), and the card script re-runs `initAllCardFeatures` the same way (js/blocks/card.js:221-224). Neither has a guard. Each re-run appends more carousel controls and dots, binds further prev, next and keydown handlers with their own index, and adds another expand button to each truncated card. The properties of those members hold only until the first re-run: one active dot, one step per arrow key, two clicks restoring a card. For the carousel dots, the effect of re-running is stated under Findings.
- `Shortcodes.PortfolioDefaultsApply` and `Shortcodes.TestimonialDefaultsApply` model the shortcode attributes as an array, as the `array $atts` declarations assume (kawaiiultra-functionality/inc/Features/Shortcodes.php:51, 138, 216). WordPress passes an empty string for a shortcode written without attributes, and a strictly typed callback would then fail before any default applies. That path is not modelled, because it rests on WordPress behaviour outside these files.
- `BlocksFrontend.LightboxPage.KeyDown` relies on jQuery running every handler bound when the event started. Handler order and the closure that captured each lightbox are abstracted to lightbox ids.
- The text of the long `kawaii-blocks-dynamic-styles` CSS is left out. Only its presence, under its id, is modelled.
- `Sanitization` passthroughs that only call the WordPress function or a PHP filter are left out: `sanitize_text`, `sanitize_text_field`, `sanitize_url`, `sanitize_email`, `sanitize_float`, `sanitize_textarea`, `sanitize_html` and `sanitize_css`.
- `Sanitization.SanitizeIntegerFallback` models PHP's `abs` on unbounded integers. On `PHP_INT_MIN`, `abs` returns a float; that case is not modelled.
- `Sanitization.SanitizeHexColor` takes WordPress's own `sanitize_hex_color` as an input when it exists. Only the fallback branch is proved about.
- `TemplateValidator`'s `get_available_templates`, `get_available_template_parts` (a `glob` listing) and `init` (hook registration) are left out.
- `TemplateValidator.FileChecks` assumes distinct required names wherever one row per name is claimed. Both required lists are distinct.
- `Shortcodes.register_shortcodes` and `init` only register callbacks with WordPress and are left out. The HTML of each shortcode loop item is reduced to which optional parts it shows.
- `Setup.RegisterSidebar` treats `isset($args['title_tag'])` as key presence. That is exact because every value in these arrays is a non-null string.
- `Setup.ParseArgs` models `wp_parse_args` on two arrays only, not its string and object forms.
- The theme setup (`theme_setup`), `Theme::get_version`, `Theme::get_text_domain`, `Assets::init`, `Assets::enqueue_scripts`, `Assets::get_template_uri` and `Assets::get_version` are left out. They only register hooks, enqueue fixed files or return fields.
- `Assets.Assets.constructor` receives the theme header's `Version` as a string. WordPress's `false` for a missing header is the empty string here; both are falsy.
- The plugin's `init` (the text domain and the `class_exists` guard), `deactivate`, `get_version` and the `Plugin` class constructor, `init` and getters are left out. They only register hooks or return fields.
- `PluginBootstrap.Activate` does not model `flush_rewrite_rules` or the transient's 30-second expiry.
- `PluginCore.Renumber` models `array_merge` only where named keys do not repeat between the two arrays. WordPress's action links never repeat them.
- The gallery script binds its lightbox to `.kawaii-gallery[data-lightbox="true"] .kawaii-gallery__link`. The server renderer puts `data-lightbox="kawaii-gallery"` on the links and none on the gallery element, so that selector does not match rendered galleries. This cross-file mismatch is not modelled. `Gallery.Lightbox` models the handler as if it were bound.

## Findings

| source | as written | input that shows it | evidently intended | confidence | as-written member | corrected member |
|---|---|---|---|---|---|---|
| js/blocks/gallery.js:43-53 | `images` holds only the clicked gallery's links, but `currentIndex` is `$(this).index('.kawaii-gallery__link')`, the link's position among every gallery link on the page; `showImage` then ignores an index past the gallery's end, so the lightbox opens on the previous image or on none | two galleries of two links each; clicking the second gallery's first link sets the index to 2, which is not below that gallery's 2 slides | the index within the clicked gallery (`$gallery.find('.kawaii-gallery__link').index(this)`), so the clicked image is shown | not executed | Gallery.Lightbox.OpenAsWritten, Gallery.LightboxIndexCounterexample | Gallery.Lightbox.Open |
| js/blocks/gallery.js:104-130 | `initCarousel` has no guard against a gallery it has already set up, and the `DOMNodeInserted` handler (js/blocks/gallery.js:292-295) re-runs it. Each run appends another dots container, then appends a full row of dots to every container `$gallery.find('.kawaii-carousel__dots')` matches. `goToSlide` then activates every dot with the current `data-index` | a gallery with two items set up twice: the containers hold four and two dots, and `goToSlide(0)` leaves three dots active; after k runs, k·(k+1)/2 | each gallery is set up once: a run skips a gallery that already has its dots container (`Gallery.InitRunGuarded`), so exactly one dot is active | not executed | Gallery.RepeatedInitActiveDots, Gallery.RepeatedInitCounterexample | Gallery.GuardedInitOneActiveDot |
