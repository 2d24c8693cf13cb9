# Pokémon scraper bookkeeping, modelled in Dafny

The repository is a set of Python web scrapers for Pokémon sites: the
Phygitals marketplace, PokemonDB, the Pokémon TCG card data, sprite
archives and several fan sites. Almost every line drives a browser,
fetches a URL or writes a file. Around that I/O each scraper makes small
deterministic decisions. This project models those decisions and proves
what they promise:

- **Names and paths.** The filename cleaners (`clean_filename`,
  `safe_filename`, `get_safe_filename`), the URL-to-local-path mappers and
  the ordered substring classifiers that route assets and files into
  categories.
- **Collections.** Order-preserving de-duplication, the two-source merge of
  Pokédex rows, fixed-size batching, the set-code-to-generation lookup,
  the dispatch that pulls a Pokémon list out of any loaded JSON shape and
  the parsing of table rows into records.
- **Counters.** Memoised downloaders with a set of fetched URLs,
  per-category statistics and failure lists; the retry loop; the
  success/failed/skipped accounting of card batches; and the totals the
  reports compute from those counters.
- **Animation probes.** The TCG animation scraper discovers cards and runs
  an opening sequence, a hover, a click and a continuous probe on each.
  The browser is an abstract driver whose every screenshot, click and
  hover either succeeds or fails. The model proves contiguous frame
  indices, that each counter grows by exactly the promised amount or not
  at all, and that a failing probe does not stop the later ones.

One Dafny module models one source file. Three shared modules hold the
Python semantics the scrapers rely on:

- `PyText`: ASCII strings, `\w`, `str.isdigit`, `lower`, `split`, `strip`,
  `Path.suffix`, `os.path.splitext` and substring tests.
- `Json`: loaded JSON values and Python truthiness.
- `Collections`: order-preserving dedup, insertion-ordered dictionaries,
  counting and a stable sort.

Every I/O result enters as a parameter: a fetch outcome, a file's
existence, a browser action's success, or a directory listing. Objects
whose methods update their fields are Dafny classes. Pure helpers are
functions. Loops are methods whose loop invariants tie the state to a
recursive specification function. Lemmas then state the properties of
those functions.

### Facts about the code the model keeps

- Cards are deduplicated by Python object identity
  (tcg_animation_focused_scraper.py:316-323). The model keys cards by an
  identity value.
- There is no baseline probe. A card gets an opening sequence of up to 7
  screenshots. Its click probe takes one screenshot before the click and
  5 after, 6 in all (tcg_animation_focused_scraper.py:563-594).
- A failing probe returns None and changes no counter. `errors` grows only
  when an exception escapes a whole page
  (tcg_animation_focused_scraper.py:196-198).

## Model

| member | source | states |
|---|---|---|
| TcgAnimation.LedgerSingle | tcg_animation_focused_scraper.py:519-612 | one record adds its screenshots to `screenshots_taken`, and one to the hover, click or captured-animation counter according to its kind |
| TcgAnimation.LedgerConcat | tcg_animation_focused_scraper.py:166-180 | the counters after two batches of records are those after their concatenation |
| TcgAnimation.OpeningRecords | tcg_animation_focused_scraper.py:501-518 | the first k opening records are the steps 0 to k-1 of that card, in order, step i carrying the time offset of the i-th interval (0, 0.5, 1.0, 1.5, 2.0, 3.0, 4.0 s, in tenths) |
| TcgAnimation.OpeningCounts | tcg_animation_focused_scraper.py:503-519 | an opening sequence of k steps accounts for exactly k screenshots and no hover, click or gallery record |
| TcgAnimation.ProbesAt | tcg_animation_focused_scraper.py:470-486 | each probe's outcome depends only on the driver actions from where the previous probe stopped |
| TcgAnimation.CardRecordsAbout | tcg_animation_focused_scraper.py:470-486 | every record of a card is about that card |
| TcgAnimation.CardRecordsShape | tcg_animation_focused_scraper.py:470-486 | a card yields at most seven opening records plus three, and its opening records are its steps in order |
| TcgAnimation.CardShots | tcg_animation_focused_scraper.py:519-612 | a card's records account for k opening screenshots, 3 for a hover, 6 for a click and 20 for a continuous record |
| TcgAnimation.CardTallies | tcg_animation_focused_scraper.py:547-581 | a card's records hold one hover record iff the hover probe succeeded, one click record iff the click probe succeeded, and no gallery record |
| TcgAnimation.CardAssembled | tcg_animation_focused_scraper.py:470-486 | a card's result is its opening records followed by the hover, click and continuous records that are present, in that order |
| TcgAnimation.CardLedger | tcg_animation_focused_scraper.py:470-612 | the counters the probes of a card change are exactly what its records account for |
| TcgAnimation.CountsConcat | tcg_animation_focused_scraper.py:170-180 | screenshots and per-kind counts of concatenated records add up |
| TcgAnimation.CardRunShape | tcg_animation_focused_scraper.py:447-491 | a card's records are all about it, its opening records are its steps in order, and their screenshots are bounded |
| TcgAnimation.HoverFailureIsolated | tcg_animation_focused_scraper.py:474-486 | an illustration on one fixed script, not a general property: when the hover probe fails, the click and continuous probes that follow still record |
| TcgAnimation.Analyzed | tcg_animation_focused_scraper.py:327-364 | the analysed cards are at most the unique elements, each with its position and identity |
| TcgAnimation.AnalyzedOrdered | tcg_animation_focused_scraper.py:327-360 | the analysed cards keep the order of the unique elements |
| TcgAnimation.AnalyzedMember | tcg_animation_focused_scraper.py:327-364 | a unique element is kept exactly when its analysis succeeds |
| TcgAnimation.Scraper.constructor | tcg_animation_focused_scraper.py:40-51 | all counters start at zero |
| TcgAnimation.Scraper.CaptureOpeningSequence | tcg_animation_focused_scraper.py:493-524 | the steps run until the first failed screenshot; the records are steps 0 to k-1 of the card and `screenshots_taken` grows by exactly k |
| TcgAnimation.Scraper.Attempt | tcg_animation_focused_scraper.py:528-594 | a probe's driver actions succeed exactly when each of them does, and stop at the first failure |
| TcgAnimation.Scraper.CaptureHoverAnimation | tcg_animation_focused_scraper.py:526-561 | a record iff all five hover actions succeed; then `hover_effects_recorded` +1 and `screenshots_taken` +3, otherwise no counter changes |
| TcgAnimation.Scraper.CaptureClickAnimation | tcg_animation_focused_scraper.py:563-594 | a record with five frames iff the screenshot, the click and the five frames succeed; then `click_interactions_recorded` +1 and `screenshots_taken` +6, otherwise no counter changes |
| TcgAnimation.Scraper.CaptureContinuousAnimation | tcg_animation_focused_scraper.py:596-625 | a record with twenty frames iff all twenty screenshots succeed; then `screenshots_taken` grows by the frame count, otherwise nothing changes |
| TcgAnimation.Scraper.RunProbes | tcg_animation_focused_scraper.py:469-486 | the four probes run in order from where the previous one stopped, and the counters grow by exactly what the records they return account for |
| TcgAnimation.Scraper.CaptureCardAnimations | tcg_animation_focused_scraper.py:447-491 | the records are the card's specified result, and the counters grow by exactly what those records account for |
| TcgAnimation.Scraper.CaptureGalleryAnimations | tcg_animation_focused_scraper.py:371-445 | no record if locating, hovering or a screenshot fails; otherwise one gallery record, marked clicked iff the click and its screenshot succeed, and `animations_captured` +1 only when clicked |
| TcgAnimation.Scraper.FindIndividualCards | tcg_animation_focused_scraper.py:286-369 | the cards are the analysed elements of the found list de-duplicated by identity, keeping first occurrences in order |
| TcgAnimation.Scraper.ProbeGalleries | tcg_animation_focused_scraper.py:166-170 | at most the first five galleries are probed, every record is a gallery record whose index is below five and below the number of galleries, and the counters grow by exactly what the records account for |
| TcgAnimation.CapturedShape | tcg_animation_focused_scraper.py:166-180 | gallery records followed by card records put every gallery record before every card record, each within its bounds |
| TcgAnimation.Scraper.ProbePage | tcg_animation_focused_scraper.py:162-180 | the galleries are recorded; the analysed cards are the unique found elements whose analysis succeeds; the captured records are the gallery records followed by the card records, each gallery index below five and the gallery count and each card index below ten and the card count; the counters grow by exactly what the records account for |
| TcgAnimation.Scraper.ProbeCards | tcg_animation_focused_scraper.py:176-180 | only the first cards are probed, their records are card records, and the counters grow by exactly what those records account for |
| TcgAnimation.Scraper.RecordExtractions | tcg_animation_focused_scraper.py:627-676 | `css_animations_extracted` becomes the number of CSS rules extracted and `javascript_interactions_found` the number of JavaScript interactions found, each only when its extraction returns; an extraction that raises leaves its counter as it was, and no other statistic changes |
| TcgAnimation.LedgerOverwrite | tcg_animation_focused_scraper.py:671 | overwriting the two extraction counters commutes with accounting the captured records, which never touch those counters |
| TcgAnimation.Scraper.ScrapeLoaded | tcg_animation_focused_scraper.py:162-188 | after the page is loaded: the galleries are recorded, the analysed cards are the unique found elements whose analysis succeeds, the captured records are gallery records followed by card records within the limits, the counters grow by what those records account for, and the two extraction counters are overwritten by the extraction counts when the extractions return |
| TcgAnimation.Scraper.ScrapeGalleries | tcg_animation_focused_scraper.py:128-207 | when loading or the first screenshot fails, nothing is found and `errors` goes up by exactly one; otherwise the galleries are recorded, `cards_found` is their number, the analysed cards are the unique found elements whose analysis succeeds, the captured records are gallery records (at most five) followed by card records (at most ten, about analysed cards), the counters grow by one screenshot plus what those records account for, and `css_animations_extracted` and `javascript_interactions_found` are set to the extraction counts when the extractions return and kept otherwise |
| SiteMirror.CleanFilenameSpec | scraper.py:33-35 | cleaning keeps the length, replaces each of `< > : " / \ \| ? *` by `_` and leaves every other character alone, so no unsafe character remains and cleaning twice changes nothing |
| SiteMirror.CleanKeepsSafeSuffix | scraper.py:33-35 | a suffix made of safe characters survives cleaning |
| SiteMirror.LocalName | scraper.py:62-76 | a local name has no `/` and no unsafe character, so every local file is a direct child of the output directory |
| SiteMirror.CleanSafe | scraper.py:33-35 | a name made of safe characters is unchanged by cleaning |
| SiteMirror.LocalNameRoot | scraper.py:67-68 | an empty path and `/` both map to `index.html` |
| SiteMirror.IndexPathNoSuffix | scraper.py:69-70 | a suffix-less path other than the root becomes the path without trailing slashes followed by `/index.html` |
| SiteMirror.IndexPathEnds | scraper.py:67-70 | a suffix-less path always ends up naming an `index.html` |
| SiteMirror.LocalNameDirectory | scraper.py:67-76 | the local name of a suffix-less path ends in `index.html` |
| SiteMirror.LocalNameFlattens | scraper.py:62-76 | `/a/b` is saved as `a_b_index.html`: the slashes of the path are flattened into underscores |
| SiteMirror.Fetch | scraper.py:37-60 | a download succeeds iff the URL was already downloaded or the fetch succeeds, and only a success records the URL |
| SiteMirror.FetchMemo | scraper.py:40-41 | once a URL has been downloaded, downloading it again succeeds and changes nothing, whatever the network does |
| SiteMirror.SrcSize | scraper.py:178-181 | a part with a space splits at its last space into source and size, which rejoin to the part; a part without one is its own source with an empty size |
| SiteMirror.RewritePartKeeps | scraper.py:177-194 | a data: entry, or one whose download fails, is kept as its stripped original; any entry becomes either that or its local path with its size |
| SiteMirror.RewriteParts | scraper.py:175-194 | the rewrite keeps the number of srcset parts and only adds to the downloaded URLs |
| SiteMirror.RewritePartsOutcome | scraper.py:176-194 | each rewritten part is its stripped original or the local path of its own source with its size |
| SiteMirror.RewritePartsOnlyFetches | scraper.py:183-187 | every URL the rewrite adds is the resolved source of a non-data: part |
| SiteMirror.RewritePartsStep | scraper.py:176-194 | one more part appends its rewrite, with the downloads so far |
| SiteMirror.Mirror.DownloadFile | scraper.py:37-60 | the method returns and records exactly what the memoised download gives |
| SiteMirror.Mirror.RewriteSrcset | scraper.py:172-196 | an empty srcset is left alone; otherwise the attribute becomes the rewritten parts joined by `, ` and the downloads are those of the rewrite |
| SiteMirror.Mirror.RewriteEntry | scraper.py:176-194 | one srcset entry is rewritten as specified above |
| SiteMirror.Mirror.ReplaceCssUrl | scraper.py:84-97 | a data: reference in a CSS `url()` is left untouched; any other becomes `url("<local path>")` when its download succeeds and is kept otherwise |
| SiteMirror.Mirror.RewriteReference | scraper.py:160-208 | an empty, data: or (for other assets) `#` reference is skipped; any other is replaced by its local path when its download succeeds and kept otherwise |
| SiteMirror.Mirror.constructor | scraper.py:18-22 | a new mirror has downloaded nothing |
| GenerationScraper.CleanFilenameSpec | phygitals_generation_scraper.py:78-83 | cleaning keeps the length, replaces exactly the characters outside `[\w\-_.]` by `_`, leaves only such characters, and cleaning twice changes nothing |
| GenerationScraper.UrlWinsOverHeader | phygitals_generation_scraper.py:85-110 | when the URL names a known extension, the Content-Type header does not affect the file type |
| GenerationScraper.HeaderDecides | phygitals_generation_scraper.py:101-110 | without a known extension, the type is `other` iff the header starts with none of `image/`, `video/`, `audio/`, and `images` iff it starts with `image/` |
| GenerationScraper.FileTypeIgnoresCase | phygitals_generation_scraper.py:87 | the file type does not depend on the URL's case |
| GenerationScraper.CleanPathSegments | phygitals_generation_scraper.py:175-178 | the cleaned path has the same `/`-segments as the URL path, each cleaned on its own, so the directory structure is kept |
| GenerationScraper.PagePathHtml | phygitals_generation_scraper.py:165-172 | an extensionless path not ending in `/` gets `.html`, unless the URL mentions an image extension |
| GenerationScraper.SubdirFollowsType | phygitals_generation_scraper.py:181-203 | within a generation the directory follows the file type: the three image folders for images, animations/videos, audio, and pages or data for the rest; sprite URLs go to images/sprites and other files go to pages exactly when the path ends in `.html` |
| GenerationScraper.AssetDirOrder | phygitals_generation_scraper.py:204-213 | outside a generation a URL mentioning css goes to assets/css, and a file lands in the output root exactly when none of the css, js or font words appear |
| GenerationScraper.MediaFromCss | phygitals_generation_scraper.py:273-286 | the media URLs are the resolved non-data: matches, in order |
| GenerationScraper.CssMediaNeverData | phygitals_generation_scraper.py:281-284 | every media URL is the resolution of a match that is not a data: URL |
| GenerationScraper.Bump | phygitals_generation_scraper.py:147-148 | a successful download adds one to the per-type counts and leaves `failed` alone |
| GenerationScraper.TotalFiles | phygitals_generation_scraper.py:440 | the summary total, the sum of all counters minus `failed`, is the sum of the four type counters |
| GenerationScraper.Downloader.constructor | phygitals_generation_scraper.py:24-33 | nothing is downloaded or failed and every counter is zero |
| GenerationScraper.Downloader.DownloadFile | phygitals_generation_scraper.py:112-158 | an already-seen URL succeeds with no change; a successful fetch records the URL and bumps the counter of its type; a failure appends the URL to the failures and bumps `failed`; the type counters always add up to the URLs downloaded |
| GenerationScraper.Downloader.Summary | phygitals_generation_scraper.py:434-442 | the total files downloaded is the number of distinct URLs saved |
| BrowserScraper.CleanFilenameSpec | phygitals_browser_scraper.py:93-97 | the result holds only `[\w\-_.]` characters, each unsafe character replaced by `_` in place, and its length is the smaller of the input's and 200 |
| BrowserScraper.CategoryPrecedence | phygitals_browser_scraper.py:261-274 | trainer/pack/claw wins over sprite/icon, which wins over the animation extensions; everything else is a card image, stored in pokemon_cards |
| BrowserScraper.MediaFileNameSpec | phygitals_browser_scraper.py:276-280 | the basename is kept when it is non-empty and has a dot; otherwise the fallback `media_<hash>` name ends in `.mp4` iff the URL mentions `.mp4`, and in `.png` otherwise |
| BrowserScraper.Records | phygitals_browser_scraper.py:178-243 | there are no more records than visited sources, and every record has a non-empty URL starting with http and the page's generation |
| BrowserScraper.RecordsMember | phygitals_browser_scraper.py:178-243 | the records are exactly those of the visited sources that are non-empty and start with http, from the selectors, the background images and the data attributes alike, each tagged with the generation |
| BrowserScraper.MediaUrlsMember | phygitals_browser_scraper.py:181-236 | a URL is collected exactly when some visited element has it as a non-empty source starting with http |
| BrowserScraper.MediaUrlsAreRecordUrls | phygitals_browser_scraper.py:178-252 | the collected URLs are exactly the URLs of the records |
| BrowserScraper.CollectMedia | phygitals_browser_scraper.py:178-243 | the loops build exactly the specified URL set and record list |
| BrowserScraper.SetToList | phygitals_browser_scraper.py:252 | converting the URL set to a list keeps each URL exactly once |
| BrowserScraper.ExtractPokemonData | phygitals_browser_scraper.py:140-252 | the returned URL list is duplicate-free, holds exactly the accepted sources, all starting with http, and the records are those of the accepted sources, in visiting order, each tagged with the generation |
| BrowserScraper.Bump | phygitals_browser_scraper.py:126-128 | a successful download adds one to the category counts and leaves `failed` alone |
| BrowserScraper.TotalFiles | phygitals_browser_scraper.py:369 | the summary total, all counters minus `failed`, is the sum of the four category counters |
| BrowserScraper.Downloader.constructor | phygitals_browser_scraper.py:31-39 | nothing is downloaded or failed and every counter is zero |
| BrowserScraper.Downloader.DownloadFile | phygitals_browser_scraper.py:99-138 | an already-seen URL succeeds with no change; a success records the URL and bumps its category; a failure appends the URL and bumps `failed`; the category counters always add up to the URLs downloaded |
| BrowserScraper.Downloader.DownloadMediaItem | phygitals_browser_scraper.py:258-288 | an item succeeds iff it was already downloaded or its fetch succeeds, and a new download is counted under the category its URL routes to |
| BrowserScraper.Downloader.Summary | phygitals_browser_scraper.py:363-369 | the total files downloaded is the number of distinct URLs saved |
| CompleteMirror.SafeFilenameAsWrittenSpec | phygitals_complete_mirror_scraper.py:120-128 | a name of at most 200 characters only has its unsafe characters replaced and keeps its length; a longer one becomes the first 190 characters of its cleaned stem followed by its extension |
| CompleteMirror.LongExtensionName | phygitals_complete_mirror_scraper.py:125-127 | the witness name: `a.` followed by 200 `b`s, 202 characters long |
| CompleteMirror.SafeFilenameExceedsLimit | phygitals_complete_mirror_scraper.py:125-127 | as written, a name over 200 characters whose extension is long stays over the limit: the witness comes out 202 characters long |
| CompleteMirror.StemRoom | phygitals_complete_mirror_scraper.py:125-127 | the room left for the stem next to the (capped) extension keeps the total within 200 |
| CompleteMirror.SafeFilename | phygitals_complete_mirror_scraper.py:120-128 | the corrected safe name is never longer than 200 characters |
| CompleteMirror.SafeFilenameSpec | phygitals_complete_mirror_scraper.py:120-128 | the corrected name is at most 200 characters, holds no unsafe character, and agrees with the code as written whenever the extension has at most 10 characters |
| CompleteMirror.AssetFileName | phygitals_complete_mirror_scraper.py:120-128 | an asset's file name is the basename of its URL path made safe by the corrected name (see Findings): at most 200 characters, no unsafe character, and equal to the code's own `safe_filename` whenever the extension has at most 10 characters |
| CompleteMirror.ClassifyLinkPrecedence | phygitals_complete_mirror_scraper.py:210-222 | generation beats pokemon, which beats card, which beats animation, with general last; case does not matter |
| CompleteMirror.ClassifyImagePrecedence | phygitals_complete_mirror_scraper.py:332-344 | `.gif` beats sprite, which beats card, which beats background, with image last |
| CompleteMirror.Mirror.constructor | phygitals_complete_mirror_scraper.py:26-43 | the site map and the failure list are empty and every counter is zero |
| CompleteMirror.Mirror.DownloadAsset | phygitals_complete_mirror_scraper.py:130-170 | success iff the local file exists or the fetch succeeds; an existing file changes nothing, a fetched one bumps `assets_downloaded`, and a failure appends one entry; every fetch is either counted or logged |
| CompleteMirror.DiscoveredKeys | phygitals_complete_mirror_scraper.py:189-197 | after discovery the site map's keys are the old keys together with the non-empty hrefs that start with the base URL |
| CompleteMirror.DiscoveredLast | phygitals_complete_mirror_scraper.py:189-197 | the entry of a recorded href holds the stripped text of the last link carrying it and the type `classify_link` gives the href |
| CompleteMirror.DiscoveredUntouched | phygitals_complete_mirror_scraper.py:189-197 | an href that no recorded link carries keeps its old entry, or stays absent |
| CompleteMirror.Mirror.DiscoverSiteStructure | phygitals_complete_mirror_scraper.py:189-203 | the new site map is the links folded in order; it gains exactly the non-empty hrefs that start with the base URL, each mapped to the stripped text of the last link carrying it and typed by `classify_link`; every other entry keeps its old value; no counter or failure changes |
| AdvancedMirror.ClassifyImagePrecedence | phygitals_advanced_mirror_scraper.py:473-487 | each image type is chosen exactly when its test on the lower-cased URL holds and every earlier test fails; classification ignores case |
| AdvancedMirror.Patterns | phygitals_advanced_mirror_scraper.py:298-303 | there are four direct-URL patterns |
| AdvancedMirror.PatternLengths | phygitals_advanced_mirror_scraper.py:298-303 | each pattern adds a fixed, distinct number of characters to its base URL |
| AdvancedMirror.DirectUrlInjective | phygitals_advanced_mirror_scraper.py:305-308 | two (pattern, generation 1-9) pairs give the same URL only if they are the same pair |
| AdvancedMirror.NthDirectUrlIs | phygitals_advanced_mirror_scraper.py:305-308 | the k-th URL of the nested loop is pattern k mod 4 applied to generation 1 + k div 4 |
| AdvancedMirror.NthDirectUrlInjective | phygitals_advanced_mirror_scraper.py:305-308 | the 36 URLs the nested loop produces are pairwise distinct |
| AdvancedMirror.AllUrls | phygitals_advanced_mirror_scraper.py:305-310 | after all 36 steps the set holds exactly the URLs of the four patterns for generations 1 to 9 |
| AdvancedMirror.AddGeneration | phygitals_advanced_mirror_scraper.py:306-308 | one pass of the inner loop adds the four URLs of one generation, four new elements |
| AdvancedMirror.DiscoverByDirectUrls | phygitals_advanced_mirror_scraper.py:292-310 | the returned set has 36 elements: exactly the four patterns for each generation 1 to 9 |
| AdvancedMirror.UnionOfMember | phygitals_advanced_mirror_scraper.py:202-210 | a URL is collected iff some strategy that did not raise returned it |
| AdvancedMirror.Mirror.DiscoverPokemonContent | phygitals_advanced_mirror_scraper.py:191-215 | the result is the union of the successful strategies' sets and `unique_urls_found` becomes its size; nothing else changes |
| AdvancedMirror.ImageRecords | phygitals_advanced_mirror_scraper.py:439-445 | one image record per usable source, keeping its URL and alt text and classifying its URL |
| AdvancedMirror.DataAttributes | phygitals_advanced_mirror_scraper.py:458-461 | exactly the attributes whose names start with `data-` are kept, every one of them, in the element's order (the filter of the attribute list by that prefix) |
| AdvancedMirror.ExtractPokemonDataSpec | phygitals_advanced_mirror_scraper.py:420-467 | no record iff there is no http image, no text and no attribute whose name starts with `data-`; a record keeps the generation, has only http images, keeps the text iff it is non-blank, holds exactly the `data-` attributes in order, and has a number iff the text contains a digit: the value of the first at most four digits of the text's first digit run, below 10000 |
| AdvancedMirror.FirstSettledSpec | phygitals_advanced_mirror_scraper.py:142-186 | the retry loop stops at the first attempt that does not raise, or after all attempts |
| AdvancedMirror.Mirror.DownloadAsset | phygitals_advanced_mirror_scraper.py:140-189 | success iff some attempt within the retry budget does not raise; a new download bumps exactly the counter of its asset type, an existing file changes nothing, and exhausting the retries appends one failure with the last error |
| AdvancedMirror.MediaLocationSpec | phygitals_advanced_mirror_scraper.py:502-517 | the file name starts with `gen_<generation>_`; animations go to the animations folder, cards to the cards folder, all other types to the sprites folder; a base name with a dot is kept |
| AdvancedMirror.MediaBucket | phygitals_advanced_mirror_scraper.py:172-177 | the asset type passed for a sprite counts as an image, for an animation as an animation, and for anything else as an asset |
| AdvancedMirror.Mirror.DownloadPokemonMedia | phygitals_advanced_mirror_scraper.py:489-520 | no images changes nothing; the counters and failures grow by at most one per image, earlier failures stay in place |
| AdvancedMirror.Mirror.constructor | phygitals_advanced_mirror_scraper.py:36-49 | all statistics start at zero and the failure list empty |
| TargetedScraper.ClassifyImagePrecedence | phygitals_targeted_scraper.py:269-279 | each of the four image types is chosen exactly when its test on the lower-cased URL holds and every earlier test fails; classification ignores case |
| TargetedScraper.KeptAttribute | phygitals_targeted_scraper.py:252-255 | one attribute is kept, under its own name, exactly when its value is non-empty |
| TargetedScraper.KeptAttributes | phygitals_targeted_scraper.py:252-255 | at most the four looked-up attributes are kept |
| TargetedScraper.AttributeTextInjective | phygitals_targeted_scraper.py:252 | the four attribute names are distinct |
| TargetedScraper.KeptAttributesMember | phygitals_targeted_scraper.py:251-257 | an attribute is kept with its value iff that value is non-empty, and nothing else is kept |
| TargetedScraper.ImageRecords | phygitals_targeted_scraper.py:240-246 | one image record per usable source, keeping its URL and alt text and classifying its URL |
| TargetedScraper.ExtractPokemonDataSpec | phygitals_targeted_scraper.py:211-263 | no record iff there is no http image, the stripped text is empty and no attribute is set; a record keeps the generation and the stripped text, has a number iff the text contains a digit (the value of the first at most four digits of its first digit run, below 10000), has only http images, and keeps exactly the set attributes |
| TargetedScraper.MediaLocationSpec | phygitals_targeted_scraper.py:290-302 | animations go to pokemon_animations and every other type to pokemon_images; the name starts with `gen_<generation>_`, keeps a base name that has a dot, and otherwise ends in `.gif` for an animation and `.png` for the rest |
| TargetedScraper.Extracted | phygitals_targeted_scraper.py:167-172 | at most one record per element, each carrying the generation and page URL |
| TargetedScraper.ExtractedStep | phygitals_targeted_scraper.py:168-172 | one more element appends its record when extraction gives one and nothing otherwise |
| TargetedScraper.HandledUpToNext | phygitals_targeted_scraper.py:286-304 | handling the next image extends the handled prefix, and later writes and failures keep the earlier images handled |
| TargetedScraper.AllHandledEach | phygitals_targeted_scraper.py:167-179 | when the records of a page are all handled, each record's images are all handled at their routed locations |
| TargetedScraper.AllHandledGrows | phygitals_targeted_scraper.py:167-179 | later writes and failures keep the records of a page handled |
| TargetedScraper.Scraper.ScrapeNext | phygitals_targeted_scraper.py:169-175 | one more element appends its record when extraction gives one, with its images handled and the earlier records still handled; the download counters plus failures grow by at most the new record's image count |
| TargetedScraper.Scraper.constructor | phygitals_targeted_scraper.py:24-39 | the base URL is the Phygitals site, every statistic starts at zero and the failure list empty |
| TargetedScraper.Scraper.DownloadAsset | phygitals_targeted_scraper.py:73-111 | success iff the file exists or the fetch succeeds; an existing file changes nothing, a fetched one is written and bumps the animation counter for "animation" and the image counter otherwise, and a failed fetch appends one failure |
| TargetedScraper.Scraper.DownloadPokemonMedia | phygitals_targeted_scraper.py:281-304 | no images changes nothing; afterwards every image is handled at the location its type routes it to, files and failures only grow, and the counters grow by at most one per image |
| TargetedScraper.Scraper.ScrapeElement | phygitals_targeted_scraper.py:169-175 | the record kept for an element is the one extraction gives; when there is one, every one of its images is handled at its routed location, files and failures only grow, and the download counters plus failures grow by at most its image count; an element with no record changes nothing; the generation statistics stay put |
| TargetedScraper.Scraper.ScrapeElements | phygitals_targeted_scraper.py:167-179 | the records collected are exactly those extraction gives, in element order; afterwards every image of every record is handled, files and failures only grow, the download counters plus failures grow by at most the records' image count, and the generation statistics stay put |
| TargetedScraper.Scraper.ScrapeGeneration | phygitals_targeted_scraper.py:113-205 | a title containing "404" gives no records and changes no statistic, counter, file or failure; otherwise the records are those of the page's elements, `generations_scraped` and `pages_captured` go up by one, `pokemon_found` by the number of records, every image of every record is handled, and the download counters plus failures grow by at most the records' image count; files and failures only grow |
| ElementScan.ImgSources | phygitals_targeted_scraper.py:240-246 | an image contributes at most two sources, its src before its data-src, each exactly when it starts with 'http', each carrying the image's alt text |
| ElementScan.Sources | phygitals_targeted_scraper.py:235-246 | all images together contribute at most two sources each, every one starting with 'http' |
| ElementScan.SourcesComplete | phygitals_targeted_scraper.py:235-246 | every image's http src and http data-src is among the collected sources |
| PyText.FirstDigitRun | pokemondb_focused_scraper.py:205 | `re.search(r'(\d+)', text)`: none exactly when the text has no digit; otherwise the run starts at the first digit of the text, is all digits, and ends at the end of the text or at a non-digit |
| ElementScan.NumberIn | phygitals_targeted_scraper.py:228-230 | a number is found exactly when the text holds a digit; it is the value of the first at most four digits of the text's first digit run, so below 10000 |
| ElementScan.FileNameOr | phygitals_targeted_scraper.py:291-296 | the saved name is either the fallback or the URL path's basename, and the basename only when it contains a '.' |
| ElementScan.PokemonAssetsSpec | phygitals_image_fix_scraper.py:107-132 | the kept images are http sources of the page that name pokemon, sprite, card or pkmn, no URL is kept twice, and every such source's URL is kept |
| ElementScan.DedupStep | phygitals_image_fix_scraper.py:119-123 | one more candidate is kept exactly when it is a Pokémon asset whose URL is not yet in the seen set, which then gains its URL |
| ElementScan.CollectSource | phygitals_image_fix_scraper.py:119-132 | one candidate URL leaves the kept list and the seen set as the specification after that candidate |
| ElementScan.CollectImage | phygitals_image_fix_scraper.py:113-132 | one image's candidates leave the kept list and the seen set as the specification after them |
| ElementScan.CollectPokemonAssets | phygitals_image_fix_scraper.py:107-137 | the image loop with its seen set keeps exactly the de-duplicated Pokémon assets |
| ElementScan.GenLocationSpec | phygitals_targeted_scraper.py:294-302 | animations go to pokemon_animations and everything else to pokemon_images, every file name carries the `gen_<generation>_` prefix, and a fallback name ends in .gif for an animation and .png otherwise |
| ElementScan.HandledGrows | phygitals_image_fix_scraper.py:141-162 | an image whose download was written or logged as failed stays so while files are only added and failures only appended |
| ElementScan.AssetTypeOf | phygitals_image_fix_scraper.py:125 | an image is typed 'animation' exactly when its lower-cased URL contains '.gif', and 'image' otherwise |
| FinalComplete.AssetOf | phygitals_final_complete_scraper.py:149-157 | an asset keeps the URL, alt text and generation, is an animation iff the lower-cased URL contains `.gif`, and its file name is the URL's last `/`-segment |
| FinalComplete.GenerationAssets | phygitals_final_complete_scraper.py:132-157 | one asset per distinct Pokémon asset URL of the page |
| FinalComplete.GenerationAssetsSpec | phygitals_final_complete_scraper.py:132-157 | asset URLs are pairwise distinct, start with `http`, come from an image's src or data-src, contain pokemon/sprite/card/pkmn in lower case and carry the generation; every such source of the page is collected |
| FinalComplete.AssetLocationSpec | phygitals_final_complete_scraper.py:170-180 | animations go to pokemon_animations and the rest to pokemon_images; the name starts with `gen_<n>_`, keeps a file name that has a dot, and otherwise ends in `.gif` for an animation and `.png` for the rest |
| FinalComplete.AssetsHandledNext | phygitals_final_complete_scraper.py:166-183 | handling the next asset extends the handled prefix, and later writes and failures keep the earlier assets handled |
| FinalComplete.Scraper.constructor | phygitals_final_complete_scraper.py:22-35 | every statistic starts at zero, the failure list is empty and the failure counter equals its length |
| FinalComplete.Scraper.TotalFilesDownloaded | phygitals_final_complete_scraper.py:439 | the success metric counts every animation and every image downloaded |
| FinalComplete.Scraper.DownloadAsset | phygitals_final_complete_scraper.py:66-101 | success iff the file exists or the fetch succeeds; an existing file changes nothing, a fetched one bumps the animation or image counter by type, and a failure appends one entry and bumps the failure counter, which stays equal to the list length |
| FinalComplete.Scraper.DownloadAssets | phygitals_final_complete_scraper.py:164-183 | every asset is written or logged as failed at its routed location; the downloads plus the new failures equal the number of assets |
| FinalComplete.Scraper.ScrapeGenerationComplete | phygitals_final_complete_scraper.py:103-208 | a title containing "404" returns nothing and changes nothing; otherwise the assets are those of the page, at most that many are downloaded, `total_generations` goes up by one and `total_pokemon` by the number of assets |
| ImageFix.ImageOf | phygitals_image_fix_scraper.py:125-132 | an image record keeps the URL, alt text and generation and is an animation iff the lower-cased URL contains `.gif` |
| ImageFix.GenerationImages | phygitals_image_fix_scraper.py:107-132 | one record per distinct Pokémon image URL of the page |
| ImageFix.GenerationImagesSpec | phygitals_image_fix_scraper.py:107-132 | the URLs are pairwise distinct, come from an image's src or data-src (never srcset), contain pokemon/sprite/card/pkmn in lower case, and the type is animation iff `.gif` is in the lower-cased URL |
| ImageFix.ImageLocationSpec | phygitals_image_fix_scraper.py:147-159 | animations go to pokemon_animations and the rest to pokemon_images; the name starts with `gen_<n>_`, keeps a base name that has a dot, and otherwise ends in `.gif` for an animation and `.png` for the rest |
| ImageFix.FetchedCount | phygitals_image_fix_scraper.py:142-162 | the number of images whose fetch succeeds is at most the number of images |
| ImageFix.CountFetchedStep | phygitals_image_fix_scraper.py:143-162 | one more image adds one to the fetched count exactly when its fetch succeeds |
| ImageFix.ImagesSavedNext | phygitals_image_fix_scraper.py:143-162 | saving the next image extends the saved prefix, and later writes keep the earlier images saved |
| ImageFix.Scraper.constructor | phygitals_image_fix_scraper.py:21-31 | the base URL is the Phygitals site and every counter starts at zero |
| ImageFix.Scraper.DownloadAsset | phygitals_image_fix_scraper.py:51-84 | success iff the file exists or the fetch succeeds; an existing file or a failed fetch changes nothing (no failure is recorded), and a fetched file is written and bumps the animation counter for "animation" and the image counter otherwise |
| ImageFix.Scraper.DownloadImages | phygitals_image_fix_scraper.py:141-162 | the download count lies between the number of successful fetches and the number of images, and every fetched image is saved at its routed location |
| ImageFix.Scraper.ExtractPokemonImagesEnhanced | phygitals_image_fix_scraper.py:86-180 | the records are those of the page, the downloads are bounded as above, and `pokemon_found` goes up by the number of records |
| PokemonDb.StatValue | pokemondb_focused_scraper.py:244-248 | a stat is an int, the decimal value of the text, exactly when the text is all digits, and otherwise the text itself |
| PokemonDb.TypesValue | pokemondb_focused_scraper.py:230-237 | the types are a list with one entry per link, or per word when the cell has no links |
| PokemonDb.ParseRow | pokemondb_focused_scraper.py:194-196 | a row gives no record exactly when it has fewer than three cells |
| PokemonDb.StatNameInjective | pokemondb_focused_scraper.py:240 | the seven stat names are distinct |
| PokemonDb.StatsKeys | pokemondb_focused_scraper.py:241-243 | a stat is present exactly when its column exists |
| PokemonDb.StatsValues | pokemondb_focused_scraper.py:241-248 | each present stat holds the value of its own column |
| PokemonDb.NotStatName | pokemondb_focused_scraper.py:198-248 | no stat name collides with the record's other keys |
| PokemonDb.PutNumberSpec | pokemondb_focused_scraper.py:203-208 | a number is recorded iff the cell text has a digit; it is the int value of the text's first digit run, and its formatted form is digits only, at least four long, and has the same value; no other key changes |
| PokemonDb.RowHeadFields | pokemondb_focused_scraper.py:198-227 | a record is marked as extracted by beautifulsoup and carries the name from the second cell |
| PokemonDb.RowHeadNumber | pokemondb_focused_scraper.py:203-208 | the record has a number iff the first cell has a digit; it is the value of the cell's first digit run, with a zero-padded formatted number of the same value |
| PokemonDb.RowHeadKeys | pokemondb_focused_scraper.py:198-237 | before the stats, a record has only the method, number, formatted number, name and types keys |
| PokemonDb.ParseRowSpec | pokemondb_focused_scraper.py:192-250 | the record of a row of three or more cells has the method and name fields above, the number (the value of the first cell's first digit run) and its formatted form when the cell has a digit, and exactly the stats whose columns exist, each with its column's value |
| PokemonDb.RowRecords | pokemondb_focused_scraper.py:194-250 | a row contributes one record iff it has at least three cells |
| PokemonDb.ParsedRows | pokemondb_focused_scraper.py:192-254 | there are no more records than rows |
| PokemonDb.ParsedRowsStep | pokemondb_focused_scraper.py:192-250 | one more row appends its record, if any |
| PokemonDb.ExtractRows | pokemondb_focused_scraper.py:189-254 | the records collected are those of the rows after the header, in order |
| PokemonDb.ParsedRowsCount | pokemondb_focused_scraper.py:194-196 | one record per row with at least three cells |
| PokemonDb.LookupKeys | pokemondb_focused_scraper.py:347-351 | the lookup holds exactly the truthy numbers of data2 |
| PokemonDb.LookupLast | pokemondb_focused_scraper.py:347-351 | when data2 repeats a number, the lookup keeps the last record with it |
| PokemonDb.FilledSpec | pokemondb_focused_scraper.py:359-362 | filling keeps every truthy value, takes data2's value for each missing or falsy key, and keeps keys data2 lacks |
| PokemonDb.FilledOnAll | pokemondb_focused_scraper.py:360-362 | a record filled over all of data2's keys is the filled record |
| PokemonDb.FillMissing | pokemondb_focused_scraper.py:360-362 | the key loop fills every key of the data2 record |
| PokemonDb.Numbers | pokemondb_focused_scraper.py:365 | every data1 record's number, falsy or missing ones included, is among data1's numbers |
| PokemonDb.BuildLookup | pokemondb_focused_scraper.py:347-351 | the loop builds the lookup of data2 by truthy number |
| PokemonDb.FillFromLookup | pokemondb_focused_scraper.py:354-362 | every data1 record, in order, is replaced by its merged form |
| PokemonDb.AppendNew | pokemondb_focused_scraper.py:365-369 | the data2 records whose truthy number is not among data1's are appended in data2 order |
| PokemonDb.MergePokemonData | pokemondb_focused_scraper.py:339-372 | the result is data1's records in order, each merged, followed by the data2 records with a truthy number not in data1, in data2 order; its length is the sum of the two counts |
| PokemonDb.MergedEntryKeeps | pokemondb_focused_scraper.py:360-362 | a merged record keeps every truthy value it had |
| PokemonDb.MergedEntryUnmatched | pokemondb_focused_scraper.py:355-356 | a record with a falsy number, or one no data2 record has, is unchanged |
| PokemonDb.MergedEntryFilled | pokemondb_focused_scraper.py:347-362 | a missing or falsy key of a matched record takes the value from the last data2 record with that number |
| PokemonDb.Scraper.DownloadFile | pokemondb_focused_scraper.py:528-548 | success iff the URL was already downloaded or the fetch succeeds; only a new successful download adds the URL and bumps `total_files_downloaded`, which stays equal to the number of URLs |
| TcgIntegrator.GenerationKey | pokemon_tcg_integrator.py:36-91 | the mapping's key for generation g is `gen` followed by the digit g |
| TcgIntegrator.GenerationFromSpec | pokemon_tcg_integrator.py:162-167 | the search from a generation on returns the first generation, in mapping order, whose set list holds the code, or none when no later list holds it |
| TcgIntegrator.Tags | pokemon_tcg_integrator.py:36-91 | every set code listed for a generation starts with that generation's two-letter tag |
| TcgIntegrator.GenerationSetsDisjoint | pokemon_tcg_integrator.py:36-91 | no set code is listed under two generations |
| TcgIntegrator.GenerationForSetSpec | pokemon_tcg_integrator.py:162-167 | the generation found for a set code is g exactly when g's list holds the code |
| TcgIntegrator.SetCodeOf | pokemon_tcg_integrator.py:133-135 | a stem without '_' has no set code (the split raises); otherwise the code contains no '_' and no '-' |
| TcgIntegrator.SetCodeOfCardName | pokemon_tcg_integrator.py:133-135 | the stem `card_<code>-<number>_<name>` yields set code `<code>` |
| TcgIntegrator.ScanCodes | pokemon_tcg_integrator.py:131-151 | one set code per stem that parses |
| TcgIntegrator.ScanGenerations | pokemon_tcg_integrator.py:137-143 | at most one generation per code, each between 1 and 9 |
| TcgIntegrator.SetTallyStep | pokemon_tcg_integrator.py:145-147 | each parsed stem adds one under its set code and an unparsable one changes nothing |
| TcgIntegrator.GenerationTallyStep | pokemon_tcg_integrator.py:137-143 | each parsed stem whose code maps to a generation adds one under that generation; any other changes nothing |
| TcgIntegrator.ScanAvailableCards | pokemon_tcg_integrator.py:121-160 | the set distribution counts the parsed set codes and the generation stats the generations they map to, in first-seen order |
| TcgIntegrator.ScanTotals | pokemon_tcg_integrator.py:137-147 | the set counts add up to the number of parsed files and the generation counts to at most that |
| TcgIntegrator.Limited | pokemon_tcg_integrator.py:243-244 | in test mode with a non-zero limit the list is cut to its first max_cards files; otherwise it is unchanged |
| TcgIntegrator.BatchBounds | pokemon_tcg_integrator.py:251 | every batch start lies inside the list and the batches reach its end |
| TcgIntegrator.BatchAt | pokemon_tcg_integrator.py:251 | batch k is the slice from k times the batch size, of batch-size files or up to the end |
| TcgIntegrator.BatchesPrefix | pokemon_tcg_integrator.py:251 | the first k batches concatenate to the first k times batch-size files |
| TcgIntegrator.BatchesSpec | pokemon_tcg_integrator.py:251 | the batches are non-empty, hold at most batch-size files, all but the last exactly that, and concatenate to the list |
| TcgIntegrator.ProcessCard | pokemon_tcg_integrator.py:193-232 | only a success adds files; at most one failure entry is appended, and only on a failure |
| TcgIntegrator.SkippedSpec | pokemon_tcg_integrator.py:204-218 | a card is skipped exactly when it loads and its set maps to no generation or both its image and metadata files exist |
| TcgIntegrator.SuccessSpec | pokemon_tcg_integrator.py:204-228 | a card succeeds exactly when it is not skipped, has an image URL and its fetch succeeds; both its files exist afterwards |
| TcgIntegrator.RunCards | pokemon_tcg_integrator.py:191-234 | success, failed and skipped add up to the number of cards; failure entries are at most the failures; no file is removed |
| TcgIntegrator.RunLast | pokemon_tcg_integrator.py:193-232 | a run's last card is processed on the disk the earlier cards left |
| TcgIntegrator.RunConcat | pokemon_tcg_integrator.py:253-263 | running two card lists one after the other is running their concatenation: counters add and failure entries concatenate |
| TcgIntegrator.RunConcatEmpty | pokemon_tcg_integrator.py:253 | running an empty list after a run adds zero to each counter |
| TcgIntegrator.RunConcatStep | pokemon_tcg_integrator.py:258-263 | the sum of two runs extends by one card the way the run of their concatenation does |
| TcgIntegrator.RunStep | pokemon_tcg_integrator.py:193-232 | the run of the first i+1 cards is the run of the first i followed by card i |
| TcgIntegrator.RunBatches | pokemon_tcg_integrator.py:258-263 | adding batch k's counters to the totals of the earlier batches gives the counters of running all k+1 batches' cards |
| TcgIntegrator.Integrator.constructor | pokemon_tcg_integrator.py:93-94 | the download counter starts at 0 and the failure list empty |
| TcgIntegrator.Integrator.DownloadCardImage | pokemon_tcg_integrator.py:169-187 | the download succeeds exactly when there is a large or small image URL and its fetch succeeds; only then is the file written; a failed fetch appends the path and the error |
| TcgIntegrator.Integrator.ProcessCardFile | pokemon_tcg_integrator.py:193-232 | one card's outcome, files, failure entries and downloaded_count follow ProcessCard |
| TcgIntegrator.Integrator.ProcessCardBatch | pokemon_tcg_integrator.py:189-234 | the batch counters, files and failure entries are those of running the cards in order, and downloaded_count grows by the successes |
| TcgIntegrator.Integrator.DownloadAllCards | pokemon_tcg_integrator.py:236-277 | the totals are those of running the test-mode-limited card list in order, and downloaded_count grows by the successes |
| TcgIntegrator.Stem | pokemon_tcg_integrator.py:312 | a stem is a prefix of the file name |
| TcgIntegrator.CardEntries | pokemon_tcg_integrator.py:310-321 | at most 50 entries, entry i describing the i-th listed image, its stem and its metadata file when that exists |
| TcgIntegrator.SummaryTotalAbove | pokemon_tcg_integrator.py:323-324 | setting a later generation's count leaves the total of the earlier generations unchanged |
| TcgIntegrator.ListCards | pokemon_tcg_integrator.py:310-321 | the card-entry loop lists the entries of the first 50 images |
| TcgIntegrator.IndexedNext | pokemon_tcg_integrator.py:291-324 | each generation adds its summary and index entry exactly when its cards directory exists |
| TcgIntegrator.IndexedAll | pokemon_tcg_integrator.py:291-324 | after all generations the summary holds exactly the generations with a cards directory, with their image counts, and the index entries match |
| TcgIntegrator.CreateMasterIndex | pokemon_tcg_integrator.py:279-333 | nine generations; the summary counts the images of each generation whose cards directory exists; each generation entry lists at most its first 50 cards; total_cards is the sum of the summary |
| ScrapingMonitor.ExtractFromDict | comprehensive_scraping_monitor.py:261-276 | for a dict: a 'pokemon' list wins, then `data['data']['pokemon']` when `data['data']` is a dict holding 'pokemon'; when `data['data']` does not support `in`, or holds 'pokemon' without being a dict, extraction raises, and otherwise it goes on as if 'data' were absent; then the named entries of a 'cards' list of dicts in order, else an empty list |
| ScrapingMonitor.ExtractFromList | comprehensive_scraping_monitor.py:261-276 | a list containing neither the string 'pokemon' nor 'data' is returned as it is; one containing 'pokemon' raises, because a list cannot be indexed by a string |
| ScrapingMonitor.ExtractFromScalar | comprehensive_scraping_monitor.py:264 | numbers, booleans and null do not support `in`, so extraction raises |
| ScrapingMonitor.NamedCardsOfDicts | comprehensive_scraping_monitor.py:273-274 | for a list of dicts, the card filter keeps exactly the cards with a 'name' key, in order |
| ScrapingMonitor.IdentifySourceSiteSpec | comprehensive_scraping_monitor.py:278-302 | each site is chosen iff its keyword is in the lowercased path and no earlier keyword is (order pokemondb, cardmarket, tcg, bulbapedia, serebii, portal, pkmn with 'series' splitting series from pokedex, artofpkm); unknown iff none is |
| ScrapingMonitor.FieldsOfSpec | comprehensive_scraping_monitor.py:316-318 | a field is available iff some dict record has it |
| ScrapingMonitor.CompletedCount | comprehensive_scraping_monitor.py:324 | a field's completed count is at most the number of records |
| ScrapingMonitor.CompletedAvailable | comprehensive_scraping_monitor.py:316-325 | a field some record completes is among the available fields |
| ScrapingMonitor.CollectFields | comprehensive_scraping_monitor.py:316-318 | the update loop yields the union of the dict records' keys |
| ScrapingMonitor.AnalyzeDataFields | comprehensive_scraping_monitor.py:304-331 | total_records is the list's length; available fields are the dict records' keys (none for an empty list); each gets its completed count, which is at most total_records |
| ScrapingMonitor.NamesInRaised | comprehensive_scraping_monitor.py:348-351 | a record whose name is not a string aborts the whole collection |
| ScrapingMonitor.CollectNames | comprehensive_scraping_monitor.py:348-351 | the loop collects the lowercased, stripped names of the named dict records, or raises on a non-string name |
| ScrapingMonitor.SiteNamesRaised | comprehensive_scraping_monitor.py:343-351 | once a collection raises, the cross-reference raises |
| ScrapingMonitor.CrossReference | comprehensive_scraping_monitor.py:333-363 | raises iff some record's name is not a string; otherwise total_unique is the number of distinct names, and at most 50 of them get matches, exactly min(50, total) |
| ScrapingMonitor.MatchNames | comprehensive_scraping_monitor.py:358-361 | min(50, n) of the names, each mapped to the sites whose names hold it |
| ScrapingMonitor.SitesWithSpec | comprehensive_scraping_monitor.py:360 | a site is listed for a name iff that site's name set holds the name |
| ScrapingMonitor.ScanDirectory | comprehensive_scraping_monitor.py:153-199 | total_files is the number of files and the sum of the suffix counts; each category list holds that category's files in walk order; subdirectories lists the directories |
| ScrapingMonitor.ScanStep | comprehensive_scraping_monitor.py:168-194 | one walk item: a file is counted and categorised, a directory is listed, anything else is ignored |
| ScrapingMonitor.AddFileList | comprehensive_scraping_monitor.py:182-191 | a file is appended to its own category's list and to no other |
| ScrapingMonitor.ScanFileTypes | comprehensive_scraping_monitor.py:170-179 | the file count and the lowercased-suffix counters count exactly the files |
| ScrapingMonitor.ScanCounts | comprehensive_scraping_monitor.py:170-179 | the suffix counts add up to total_files |
| ScrapingMonitor.ScanCategory | comprehensive_scraping_monitor.py:182-191 | each category list is the files of that category, in walk order, with the suffix lists checked first |
| ScrapingMonitor.ScanDirs | comprehensive_scraping_monitor.py:193-194 | subdirectories lists the walk's directories in order |
| ScrapingMonitor.ScanCategoryMember | comprehensive_scraping_monitor.py:182-191 | a path listed under a category is a scanned file whose own category is that one, so no file is listed under two categories |
| ScrapingMonitor.ScanCategoriesBound | comprehensive_scraping_monitor.py:182-191 | together the category lists hold at most total_files paths |
| ScrapingMonitor.CategoriesBound | comprehensive_scraping_monitor.py:182-191 | the five category lists together are no longer than the files |
| ScrapingMonitor.AnimationOfCounts | comprehensive_scraping_monitor.py:423-432 | total_files counts every entry, directories included, and the suffix counters equal the directory scan's |
| ScrapingMonitor.AnimationOfCaptures | comprehensive_scraping_monitor.py:434-438 | sequences are the files named with '_frame_' or '_sequence_'; interaction captures are the other files named with hover or click |
| ScrapingMonitor.AnimationStep | comprehensive_scraping_monitor.py:427-438 | the analysis after one more entry comes from the analysis before it |
| ScrapingMonitor.SequencesStep | comprehensive_scraping_monitor.py:434-438 | one more file goes to the sequences or to the interactions by its name |
| ScrapingMonitor.AnalyzeAnimationDirectory | comprehensive_scraping_monitor.py:411-442 | the loop gives the entry count, the suffix counters, the sequences and the interaction captures |
| ScrapingMonitor.AnimationCapturesExclusive | comprehensive_scraping_monitor.py:434-438 | no file is both a sequence and an interaction capture; membership in each is exactly its name test |
| ScrapingMonitor.PendingSitesSpec | comprehensive_scraping_monitor.py:926-937 | pending sites are exactly the sites without output, in configuration order; completed and pending partition the sites and their lengths add up to the number of sites |
| ScrapingMonitor.CompletedBound | comprehensive_scraping_monitor.py:947-952 | at most the ten target sites are completed |
| FinalReport.ExtractPokemonFromJsonSpec | final_comprehensive_report.py:307-325 | a dict is searched in order: a 'pokemon' list, then the 'pokemon' entry of a dict under 'data', then a 'results' list, then the 'cards' list filtered to named entries (raising iff some card is a number, boolean or null, and keeping exactly the dict cards with a 'name' when all are dicts); else an empty list; a list is returned as it is; any other value gives an empty list |
| FinalReport.NamedCardsRaised | final_comprehensive_report.py:321 | the card filter raises exactly when some card does not support `in` |
| FinalReport.IdentifySourceSiteFromPathSpec | final_comprehensive_report.py:327-351 | each site is chosen iff its keyword is in the lowercased path and no earlier keyword is, in the order pokemondb, cardmarket, tcg, serebii, bulbapedia, portal, pkmn ('series' splitting series from pokedex), art; 'artofpkm' adds nothing to 'art'; unknown iff none matches |
| FinalReport.ContainsPrefix | final_comprehensive_report.py:348 | a path holding 'artofpkm' holds 'art', so the first disjunct of the artofpkm test is subsumed |
| FinalReport.CompletedNonBlank | final_comprehensive_report.py:371-373 | the completed count for a field is at most the number of records |
| FinalReport.CompletedNonBlankBound | final_comprehensive_report.py:371-373 | requiring a non-blank printed value never counts more records than the monitor's truthiness test |
| FinalReport.AnalyzePokemonDataFields | final_comprehensive_report.py:353-382 | total_records is the list's length; the fields are the dict records' keys (none for an empty list); each field gets the number of dict records with a truthy, non-blank value under it |
| FinalReport.TakeNames | final_comprehensive_report.py:397 | `list(names)[:limit]` holds min(limit, n) distinct members of the set |
| FinalReport.AnalyzeConsolidated | final_comprehensive_report.py:384-400 | raises iff some named dict record's name is not a string; otherwise total_unique_pokemon is the number of distinct lowercased, stripped names and unique_pokemon_names holds min(100, total) distinct ones of them |
| FinalReport.CategorizeAnimationFileSpec | final_comprehensive_report.py:435-450 | the lowercased file name picks the kind by precedence hover, click, opening, transition, card, else general, each stated as an exact condition |
| FinalReport.CountAllConcat | final_comprehensive_report.py:417-430 | counting two batches of files in turn equals counting them together |
| FinalReport.CountAllSum | final_comprehensive_report.py:425-430 | each counted file adds exactly one to the sum of the per-kind counters |
| FinalReport.InventoryKeyword | final_comprehensive_report.py:419-430 | one keyword's glob counts each file whose name holds the keyword and whose lowercased suffix is .png, .jpg, .gif, .mp4 or .webm, once in the total and once under its kind |
| FinalReport.InventoryDir | final_comprehensive_report.py:418-430 | a directory is globbed once per keyword in keyword order, the counts accumulating |
| FinalReport.CreateAnimationInventory | final_comprehensive_report.py:402-433 | the total is the number of (keyword, file) hits over all existing directories, the per-kind counters are those hits counted by kind, and the counters sum to the total |
| FinalReport.SiteHasData | final_comprehensive_report.py:467-471 | the search over data directories succeeds iff some data directory holds a non-empty directory for the site |
| FinalReport.CountCompletedSites | final_comprehensive_report.py:464-471 | each target site is counted once iff some data directory holds output for it, so the count is at most the number of sites |
| RemainingSites.GalleryTitle | remaining_sites_scraper.py:245 | a gallery with text is titled by a prefix of its stripped text of at most 100 characters (the whole stripped text when it fits); one without text is titled "Gallery {i}" |
| RemainingSites.CreditsOfSelectors | remaining_sites_scraper.py:309-323 | every artist candidate has a non-empty stripped text shorter than 200 characters; a selector whose lookup raises adds none |
| RemainingSites.CollectCredits | remaining_sites_scraper.py:312-320 | one selector's elements add their qualifying credits in element order |
| RemainingSites.ExtractArtistInformation | remaining_sites_scraper.py:297-327 | the artists are the name-keyed dict comprehension over all selectors' credits under 200 characters |
| RemainingSites.ExtractTierData | remaining_sites_scraper.py:442-460 | a lookup that raises gives no tiers; otherwise the name-keyed dict comprehension over the stripped texts under 50 characters |
| RemainingSites.CreditDedupSpec | remaining_sites_scraper.py:327 | the dedup keeps one credit per distinct name, loses no name, orders names by first occurrence, and keeps the last credit seen with each name |
| RemainingSites.ArtistsSpec | remaining_sites_scraper.py:315-327 | artist names are non-empty, under 200 characters, pairwise distinct, and exactly the candidates' names |
| RemainingSites.TiersSpec | remaining_sites_scraper.py:450-460 | tier names are non-empty, under 50 characters, pairwise distinct, and exactly the candidates' names |
| RemainingSites.CompetitiveOf | remaining_sites_scraper.py:399-424 | a listing without a name element falls back to at most 50 characters of its text |
| RemainingSites.NamedListings | remaining_sites_scraper.py:397-429 | only listings with a non-empty name become records |
| RemainingSites.FirstYieldSpec | remaining_sites_scraper.py:396-435 | the result is empty iff no selector yields a named record; otherwise it is the yield of the first selector that does, every earlier one yielding nothing |
| RemainingSites.ExtractCompetitivePokemonData | remaining_sites_scraper.py:382-440 | the selector loop stops at the first selector with named records and returns at most 100 of them, each named |
| RemainingSites.ReadCellsNumber | remaining_sites_scraper.py:528-531 | the number is the first three characters of the last cell starting with three digits, absent iff no cell does |
| RemainingSites.ReadCellsName | remaining_sites_scraper.py:528-534 | the name is the first cell text that does not start with three digits, is non-empty, not all digits and longer than two; absent iff there is none |
| RemainingSites.ParseRow | remaining_sites_scraper.py:525-540 | the two passes over a row's cells give its number, name and the joined sprite of the last cell with an image |
| RemainingSites.ParseTable | remaining_sites_scraper.py:520-545 | a table's rows with at least three cells and a name become records, in order |
| RemainingSites.SerebiiEntriesNamed | remaining_sites_scraper.py:542-543 | every kept record has a name that is longer than two characters and not all digits |
| RemainingSites.ExtractSerebiiPokemonData | remaining_sites_scraper.py:510-551 | the kept rows of every table in order, at most 500, each named |
| RemainingSites.Scraper.DownloadFile | remaining_sites_scraper.py:590-609 | a seen URL returns True with no change; a successful fetch adds the URL and one downloaded file; a failure returns False and changes nothing |
| RemainingSites.RunSitesSpec | remaining_sites_scraper.py:621-636 | of the six priority sites only artofpkm, pkmn_pokedex and serebii have a scraper method, so only they run, in that order |
| RemainingSites.ArtworkTargetsMember | remaining_sites_scraper.py:263-267 | a URL is downloaded by the artwork loop exactly when it is the non-empty source of an image at a position where it mentions art or pokemon (case-insensitively) or is among the first 50 |
| RemainingSites.SpriteTargetsMember | remaining_sites_scraper.py:558-568 | a URL is downloaded by the sprite loop exactly when it is the Serebii join of a non-empty source that mentions pokemon or pokedex and whose URL path has a basename |
| RemainingSites.DownloadEachMember | remaining_sites_scraper.py:590-609 | after a series of `download_file` calls a URL is saved exactly when it was saved before or was tried and fetched |
| RemainingSites.DownloadEachCounted | remaining_sites_scraper.py:600-605 | `total_files_downloaded` stays the number of saved URLs: each URL is counted once however often it is tried |
| RemainingSites.Scraper.ExtractArtworkImages | remaining_sites_scraper.py:258-295 | the loop downloads exactly the artwork targets in page order, lists those whose download returned True (saved before or fetched now) and adds their number to total_images_downloaded |
| RemainingSites.Scraper.DownloadSerebiiSprites | remaining_sites_scraper.py:553-574 | the loop downloads exactly the sprite targets in page order and returns how many downloads returned True |
| RemainingSites.Scraper.RunScraper | remaining_sites_scraper.py:161-222 | a scraper that raises before its downloads counts one error and downloads nothing; otherwise Art of Pokémon downloads its artwork, Serebii its sprites, and PKMN.GG nothing |
| RemainingSites.VisitAllCounts | remaining_sites_scraper.py:623-636 | sites_processed grows by the number of sites with a scraper and total_errors by the number of those whose scraper raised |
| RemainingSites.VisitAllFiles | remaining_sites_scraper.py:623-636 | the site loop's downloads are `download_file` over the targets of the scrapers it runs, in order |
| RemainingSites.PriorityRun | remaining_sites_scraper.py:611-639 | over the priority list: three sites processed, one error per raising scraper, the Art of Pokémon downloads then the Serebii ones, and one image per Art of Pokémon download that returned True |
| RemainingSites.Scraper.RunSites | remaining_sites_scraper.py:623-639 | the sites with a scraper run in list order, and the statistics after the loop are the turn-by-turn fold over them |
| RemainingSites.Scraper.RunRemainingSitesScraping | remaining_sites_scraper.py:611-639 | exactly artofpkm, pkmn_pokedex and serebii are processed, in that order, with the errors, downloads and image count of `PriorityRun` |
| ComprehensiveScraper.StrategyFor | comprehensive_pokemon_scraper.py:343-352 | static, dynamic and dynamic_animations each select their own strategy; static_with_dynamic and every other type select the hybrid strategy |
| ComprehensiveScraper.Rank | comprehensive_pokemon_scraper.py:312 | the position of a priority in the group order is the first index holding it |
| ComprehensiveScraper.ScheduleMember | comprehensive_pokemon_scraper.py:314-324 | a site is visited if and only if it is configured and its priority is one of the groups; a site with any other priority is never visited |
| ComprehensiveScraper.ScheduleMultiset | comprehensive_pokemon_scraper.py:314-324 | with distinct groups, the visits are, as a multiset, the configured sites whose priority is one of the groups |
| ComprehensiveScraper.ScheduleGrouped | comprehensive_pokemon_scraper.py:312-324 | groups are visited in order: a later visit never has an earlier priority than a previous one |
| ComprehensiveScraper.ScheduleCoversAll | comprehensive_pokemon_scraper.py:312-324 | when all configured priorities are among distinct groups, every configured site is visited exactly once |
| ComprehensiveScraper.TargetSitesVisitedOnce | comprehensive_pokemon_scraper.py:70-141 | each of the ten configured sites (all with priority critical, high or medium) is visited exactly once |
| ComprehensiveScraper.AssetUrlsSpec | comprehensive_pokemon_scraper.py:481-511 | the URLs downloaded for one kind of asset are the non-empty references joined to the page URL, in page order |
| ComprehensiveScraper.FetchedMember | comprehensive_pokemon_scraper.py:286-287 | a URL ends up downloaded if and only if it was tried and its fetch succeeds |
| ComprehensiveScraper.DownloadEachConcat | comprehensive_pokemon_scraper.py:264-299 | downloading two lists one after the other is downloading their concatenation |
| ComprehensiveScraper.DownloadEachSpec | comprehensive_pokemon_scraper.py:264-299 | downloads add exactly the URLs whose fetch succeeds; every attempt at a URL that was not downloaded before and cannot be fetched counts one failed download; the file count keeps counting each downloaded URL once |
| ComprehensiveScraper.VisitAllConcat | comprehensive_pokemon_scraper.py:314-328 | visiting two site lists one after the other is visiting their concatenation |
| ComprehensiveScraper.VisitAllSpec | comprehensive_pokemon_scraper.py:320-331 | visiting sites downloads their asset URLs in visiting order, adds one to sites_completed per visit, gives each visited site a progress entry and appends the sites' traces to the log |
| ComprehensiveScraper.VisitAllProgressBound | comprehensive_pokemon_scraper.py:530-534 | a progress entry never records more files than total_files_downloaded holds afterwards |
| ComprehensiveScraper.KeysMember | comprehensive_pokemon_scraper.py:530 | a key has a progress entry after the visits if and only if some visited site has that key |
| ComprehensiveScraper.KeysSameMembers | comprehensive_pokemon_scraper.py:530 | two visit lists with the same members give the same progress keys |
| ComprehensiveScraper.HybridRunsBoth | comprehensive_pokemon_scraper.py:433-443 | a hybrid site always starts the static stage and the dynamic stage, whatever the first gives, and succeeds if and only if both succeed |
| ComprehensiveScraper.GetSafeFilename | comprehensive_pokemon_scraper.py:513-523 | the name has no character among < > : " / \ \| ? * and contains a '.'; a basename with a '.' is kept with its unsafe characters replaced by '_' one for one; otherwise the name is file_ and digits with .html |
| ComprehensiveScraper.GetSafeFilenameKeepsSafeNames | comprehensive_pokemon_scraper.py:513-523 | a basename that has a '.' and no unsafe character is returned unchanged, and cleaning the result again changes nothing |
| ComprehensiveScraper.Scraper.DownloadFile | comprehensive_pokemon_scraper.py:264-299 | returns True if and only if the URL was downloaded before or its fetch succeeds; a downloaded URL changes nothing; success adds the URL and counts one file; failure counts one failed download |
| ComprehensiveScraper.Scraper.DownloadAll | comprehensive_pokemon_scraper.py:481-489 | one asset loop downloads the joined non-empty references in order and changes nothing else |
| ComprehensiveScraper.Scraper.ExtractStaticAssets | comprehensive_pokemon_scraper.py:473-511 | the images, then the stylesheets, then the scripts are downloaded, and nothing else changes |
| ComprehensiveScraper.Scraper.ScrapeStatic | comprehensive_pokemon_scraper.py:365-396 | succeeds if and only if the page request succeeds; only then are its assets downloaded; a failed request logs the stage as failed |
| ComprehensiveScraper.Scraper.ScrapeBrowser | comprehensive_pokemon_scraper.py:398-431 | a dynamic or animation stage succeeds exactly when the browser session gets through, logs a failure otherwise, and downloads nothing |
| ComprehensiveScraper.Scraper.ScrapeHybrid | comprehensive_pokemon_scraper.py:433-443 | runs the static stage and then the dynamic stage in every case and returns their conjunction |
| ComprehensiveScraper.Scraper.RunStrategy | comprehensive_pokemon_scraper.py:343-352 | runs the strategy StrategyFor picks and returns its result |
| ComprehensiveScraper.Scraper.ScrapeSingleSite | comprehensive_pokemon_scraper.py:333-363 | runs the site's strategy and logs whether the site completed successfully or with issues |
| ComprehensiveScraper.Scraper.VisitSite | comprehensive_pokemon_scraper.py:323-328 | one turn of the site loop: scrape the site, add one to sites_completed, and record the files downloaded so far under the site's key |
| ComprehensiveScraper.Scraper.RunGroup | comprehensive_pokemon_scraper.py:322-328 | the sites of one priority group are visited in configuration order |
| ComprehensiveScraper.Scraper.RunSchedule | comprehensive_pokemon_scraper.py:312-328 | the groups are run one after the other in the given order, each over the sites of its priority |
| ComprehensiveScraper.Scraper.StartComprehensiveScraping | comprehensive_pokemon_scraper.py:301-331 | all ten sites are visited in priority order; sites_completed grows by 10; every site key gets a progress entry; each downloaded URL is counted once |
| EnhancedScraper.SortedSitesSpec | enhanced_pokemon_scraper.py:788 | the visiting order is sorted by priority, keeps configuration order among sites of equal priority, and is a permutation of the configured sites |
| EnhancedScraper.ExtractorFor | enhanced_pokemon_scraper.py:306-317 | each of the five named data types selects its own extraction; a data type is handled by the generic extraction exactly when it is none of the five |
| EnhancedScraper.ExtractorForName | enhanced_pokemon_scraper.py:306-317 | every named extraction is reached from its own data type |
| EnhancedScraper.StatKey | enhanced_pokemon_scraper.py:428 | a stat key is as long as its header and contains no space |
| EnhancedScraper.WithStatsKeys | enhanced_pokemon_scraper.py:425-429 | after the stat columns, a key is in the record if and only if it was there before or some column from index 3 on, within the headers, names it |
| EnhancedScraper.WithStatsLast | enhanced_pokemon_scraper.py:425-429 | a stat holds the stripped text of the last column whose header names it |
| EnhancedScraper.WithStatsKeeps | enhanced_pokemon_scraper.py:425-429 | a field that no stat column names keeps its earlier value |
| EnhancedScraper.AddStats | enhanced_pokemon_scraper.py:425-429 | the stat loop over the columns from index 3 gives the record the stat specification describes |
| EnhancedScraper.ReadTableCount | enhanced_pokemon_scraper.py:385-432 | the table gives exactly one record per row with at least three `td` cells |
| EnhancedScraper.ExtractTable | enhanced_pokemon_scraper.py:382-432 | the row loop replaces the headers at each row without `td` cells and appends one record per row with at least three, as the table fold describes |
| EnhancedScraper.CollectTypes | enhanced_pokemon_scraper.py:437-441 | the type loop keeps the non-empty stripped texts, each once, at its first occurrence |
| EnhancedScraper.TypesSpec | enhanced_pokemon_scraper.py:437-441 | the types are pairwise distinct and non-empty, a text is listed if and only if it is non-empty and some stripped type text equals it, and they appear in first-occurrence order |
| EnhancedScraper.CardRecordsSpec | enhanced_pokemon_scraper.py:534-580 | one record per card that gets past its screenshots, in card order with strictly increasing indices; every record has a hover effect, and it has a click state if and only if the click succeeded |
| EnhancedScraper.ScrapeCardAnimations | enhanced_pokemon_scraper.py:521-586 | the card loop over the first ten cards gives the card records of those ten |
| EnhancedScraper.CardAnimationsBound | enhanced_pokemon_scraper.py:534 | at most ten card records, one per captured card among the first ten |
| EnhancedScraper.DownloadAllMedia | enhanced_pokemon_scraper.py:698-729 | the count is the number of images whose `src` is set, starts with http, and downloads |
| EnhancedScraper.DownloadedBound | enhanced_pokemon_scraper.py:711 | no image without an http `src` is counted |
| EnhancedScraper.CaptureInteractions | enhanced_pokemon_scraper.py:746-775 | the count is the number of successful hover captures among the first five hoverable elements, so at most five |
| EnhancedScraper.SiteResultSpec | enhanced_pokemon_scraper.py:272-350 | a site succeeds if and only if its session raised nothing, which holds if and only if its error list is empty; it records at most one error, and at most five interactions and no more downloads than http images |
| EnhancedScraper.Scraper.constructor | enhanced_pokemon_scraper.py:44-50 | the processed-site and error counters start at zero |
| EnhancedScraper.Scraper.ScrapePokemonDatabase | enhanced_pokemon_scraper.py:352-446 | the records of the first table found (none without a table) and the deduplicated type list |
| EnhancedScraper.Scraper.Extract | enhanced_pokemon_scraper.py:306-317 | runs the extraction the site's data type selects; a wiki site runs the Pokédex extraction |
| EnhancedScraper.WikiAsDatabase | enhanced_pokemon_scraper.py:637-641 | a wiki site's data is the Pokédex data: the same table records and type list a `pokemon_database` site would give |
| EnhancedScraper.Scraper.ScrapeSiteComprehensive | enhanced_pokemon_scraper.py:262-350 | returns the site's result; the error counter grows by one if and only if the site failed, and the processed counter is unchanged |
| EnhancedScraper.Scraper.RunComprehensiveScraping | enhanced_pokemon_scraper.py:777-806 | one result per site, in priority order; every site counted as processed; the error counter grows by the number of failed sites |
| EnhancedScraper.Scraper.ScrapeSites | enhanced_pokemon_scraper.py:792-798 | the site loop yields each site's result in order, counts every site as processed and adds one error per failed site |
| EnhancedScraper.Scraper.ScrapeNextSite | enhanced_pokemon_scraper.py:792-798 | one turn of the site loop appends the site's result, counts it as processed, and adds one error exactly when it failed |
| EnhancedScraper.TotalsConcat | enhanced_pokemon_scraper.py:814-816 | the report's file, animation and success totals add up over concatenated result lists |
| EnhancedScraper.Report | enhanced_pokemon_scraper.py:808-840 | the number of successful sites never exceeds the number of results |
| EnhancedScraper.RunReportConsistent | enhanced_pokemon_scraper.py:808-840 | after a run from fresh counters, the successful sites and the errors together make up the processed sites |
| SpecializedScrapers.WithStatsKeys | specialized_site_scrapers.py:127-130 | after the stat loop, a key is in the record if and only if it was there before or some stat name whose cell `i + 3` exists names it |
| SpecializedScrapers.WithStatsValue | specialized_site_scrapers.py:127-130 | with distinct stat names, a stat whose cell exists holds that cell's text |
| SpecializedScrapers.WithStatsKeeps | specialized_site_scrapers.py:127-130 | a field that no stat name names keeps its earlier value |
| SpecializedScrapers.StatNamesFresh | specialized_site_scrapers.py:102-130 | the seven stat names are pairwise distinct and distinct from the sprite, number, name, detail-URL and types fields |
| SpecializedScrapers.RowRecordSpec | specialized_site_scrapers.py:101-130 | a row of at least eight cells always gets a number: empty exactly when the first cell has no digit, and otherwise the first digit run of the first cell; it gets a type list, a name if and only if the name cell has a link, and stat `i` if and only if cell `i + 3` exists, holding that cell's text |
| SpecializedScrapers.AddStats | specialized_site_scrapers.py:126-130 | the loop over the stat names gives the record the stat specification describes |
| SpecializedScrapers.RecordsSpec | specialized_site_scrapers.py:93-136 | one record per row with at least eight cells, and every record is the record of such a row |
| SpecializedScrapers.RecordsCount | specialized_site_scrapers.py:93-136 | there is exactly one record per row with at least eight cells |
| SpecializedScrapers.RecordSource | specialized_site_scrapers.py:93-136 | every record is the record of a row with at least eight cells |
| SpecializedScrapers.TableOfSpec | specialized_site_scrapers.py:83-143 | the result has no records if and only if there is no table; otherwise `total_pokemon` equals the number of records, which is the number of rows with at least eight cells after the header row |
| SpecializedScrapers.ExtractPokemonTableData | specialized_site_scrapers.py:83-143 | the row loop gives the table result the specification describes |
| SpecializedScrapers.IconTargetsSpec | specialized_site_scrapers.py:172-194 | every attempted type icon comes from a link whose style contains background-image and is saved as its lowercased link text followed by `_icon.png`; every such link with a URL in its style is attempted; there is at most one attempt per link |
| SpecializedScrapers.ExtractTypeIcons | specialized_site_scrapers.py:172-194 | the link loop attempts exactly the icon downloads of the specification, and counts those that succeed |
| SpecializedScrapers.CardRecordsSpec | specialized_site_scrapers.py:389-431 | one record per card that gets past its hover screenshot, in card order; each record's hover screenshot is `card_hover_{i}.png`, and its flip screenshot is present if and only if animations were found, which holds if and only if the click succeeded |
| SpecializedScrapers.CaptureCardAnimations | specialized_site_scrapers.py:380-438 | the records of the first ten cards; `animations_captured` equals the number of records, which is at most ten |
| SpecializedScrapers.InteractionOfSpec | specialized_site_scrapers.py:448-471 | an element has a hover effect if and only if its style changed on hover, and the style change is recorded exactly then; `has_onclick` is the truthiness of the onclick attribute |
| SpecializedScrapers.InteractionsCount | specialized_site_scrapers.py:446-479 | one interaction record per element that does not raise |
| SpecializedScrapers.RecordCardInteractions | specialized_site_scrapers.py:440-479 | the element loop gives the interaction records of the specification, in element order |
| SpecializedScrapers.Dispatch | specialized_site_scrapers.py:535-540 | the entry point chosen is one the scraper has, and no other entry point qualifies |
| SpecializedScrapers.RunAllSpec | specialized_site_scrapers.py:528-540 | the results are keyed by exactly the scrapers' names, and with distinct names each holds the result of its own scraper's entry point |
| SpecializedScrapers.ConfiguredScrapers | specialized_site_scrapers.py:521-540 | the three configured scrapers give results under exactly their three names, each from its own entry point |
| SpecializedScrapers.ScrapeCompletePokedexMethod | specialized_site_scrapers.py:39-81 | the table data of the page, or an empty result when the page cannot be loaded |
| SpecializedScrapers.ScrapeTcgAnimationsMethod | specialized_site_scrapers.py:342-375 | the card animations with the interaction records attached, or an empty result when the page cannot be loaded |
| SpecializedScrapers.RunAllScrapers | specialized_site_scrapers.py:517-548 | the scraper loop fills the results dictionary as the specification describes |
| PhygitalsServer.TrailingDigits | phygitals_local_server.py:262 | the digit run the id pattern captures is made of digits only and is never longer than the name |
| PhygitalsServer.ExtractPokemonId | phygitals_local_server.py:255-263 | a name without a final `.gif`, or with no digit just before it, gives id 0 |
| PhygitalsServer.TrailingDigitsAfter | phygitals_local_server.py:262 | after a prefix that does not end in a digit, the captured run is exactly the digits that follow |
| PhygitalsServer.ExtractPokemonIdRoundTrip | phygitals_local_server.py:255-263 | a name made of a prefix not ending in a digit, the decimal form of `n` and `.gif` gives back `n` |
| PhygitalsServer.ExtractPokemonIdExamples | phygitals_local_server.py:260-263 | the two shapes the comment names, `gen_1_25.gif` and `25.gif`, both give 25, and a `.png` name gives 0 |
| PhygitalsServer.GenEntriesSpec | phygitals_local_server.py:87-100 | a generation yields one entry per asset with a non-empty alt that is not that generation's logo, every entry is the entry of such an asset, and each carries its generation |
| PhygitalsServer.LoadGeneration | phygitals_local_server.py:87-100 | the asset loop builds exactly the generation's entries in asset order |
| PhygitalsServer.GenTotalUpdate | phygitals_local_server.py:101-105 | recording a later generation's summary leaves the total of the earlier ones unchanged |
| PhygitalsServer.LoadAllDomain | phygitals_local_server.py:77-108 | after the generation loop, exactly the generations 1 to 9 whose file loads have a summary; a missing or unreadable file leaves none |
| PhygitalsServer.LoadAllCounts | phygitals_local_server.py:84-105 | a generation's `pokemon_count` is the number of its entries |
| PhygitalsServer.LoadAllGenerations | phygitals_local_server.py:84 | `total_generations` is the number of generations with a summary |
| PhygitalsServer.LoadAllTotal | phygitals_local_server.py:77-120 | the number of gathered entries is the sum of the per-generation counts |
| PhygitalsServer.LoadAllMember | phygitals_local_server.py:77-100 | an entry is gathered if and only if it is an entry of a loaded generation |
| PhygitalsServer.PokemonApiSpec | phygitals_local_server.py:120-130 | the response's list is sorted by id, is a permutation of the gathered entries, keeps their gathering order among equal ids, and `total_pokemon` is its length and the sum of the per-generation counts |
| PhygitalsServer.ServePokemonApi | phygitals_local_server.py:65-131 | the endpoint's loop and sort produce exactly the specified response |
| PhygitalsServer.WalkStats | phygitals_local_server.py:236-247 | the per-extension table stays well formed as files are counted |
| PhygitalsServer.WalkStatsFiles | phygitals_local_server.py:236-244 | `files` is the number of regular files in the walk |
| PhygitalsServer.WalkStatsBytes | phygitals_local_server.py:236-245 | the byte total is the sum of the regular files' sizes |
| PhygitalsServer.WalkStatsStructure | phygitals_local_server.py:236-247 | the structure is the tally, in first-seen order, of the regular files' lowercased extensions |
| PhygitalsServer.DirStatsSpec | phygitals_local_server.py:227-253 | a missing directory gives zero files, zero bytes and an empty structure; otherwise the per-extension counts add up to the number of regular files |
| PhygitalsServer.GetDirectoryStats | phygitals_local_server.py:227-253 | the walk loop produces exactly the specified statistics |
| PhygitalsServer.LogoMentionsLogo | phygitals_local_server.py:89 | a generation's logo alt mentions "logo" once lowercased |
| PhygitalsServer.StatsCountBound | phygitals_local_server.py:89 | the assets the stats endpoint counts for a generation are never more than the entries the Pokémon endpoint gives it |
| PhygitalsServer.DirEntriesSpec | phygitals_local_server.py:182-190 | a directory is listed if and only if it exists, with its own statistics |
| PhygitalsServer.TotalFilesSpec | phygitals_local_server.py:182-191 | `total_files` is the number of regular files under the directories that exist |
| PhygitalsServer.GenerationsDataSpec | phygitals_local_server.py:195-207 | exactly the loaded generations have a summary, whose `pokemon_count` is the number of assets with a non-empty alt that does not mention "logo" in any case |
| PhygitalsServer.StatsBelowPokemonApi | phygitals_local_server.py:101-105 | a generation summarised by the stats endpoint is summarised by the Pokémon endpoint, with at least the same count |
| PhygitalsServer.ListDirectories | phygitals_local_server.py:182-192 | the directory loop lists exactly the specified entries and their file total |
| PhygitalsServer.ServeStatsApi | phygitals_local_server.py:164-217 | the endpoint produces exactly the specified response |
| SpriteDownloader.IntToString | pokemon_sprite_downloader.py:72 | a Pokémon is requested by the decimal form of its id: that of a natural number for a non-negative id, and a leading minus sign otherwise |
| SpriteDownloader.FileStem | pokemon_sprite_downloader.py:101-108 | every file of a Pokémon starts with at least three decimal digits whose value is its id, then `_` and its name |
| SpriteDownloader.BasicSlots | pokemon_sprite_downloader.py:100-109 | the sprite table has one entry per basic sprite key, in table order, saved as `sprites/{key}/{stem}.png` |
| SpriteDownloader.SlotRequest | pokemon_sprite_downloader.py:112-115 | an image is downloaded if and only if its URL is present and non-empty, and at most once |
| SpriteDownloader.SlotRequestsSpec | pokemon_sprite_downloader.py:111-148 | an image is downloaded if and only if its section has a URL for its key, from that URL into its folder and file; no download is made without a URL |
| SpriteDownloader.SpriteRequestsTruthy | pokemon_sprite_downloader.py:91-148 | a Pokémon's images cause at most fourteen downloads, each with a URL |
| SpriteDownloader.SpriteFolderNames | pokemon_sprite_downloader.py:28-36 | the first eight directories created are the basic sprites' folders, in key order |
| SpriteDownloader.SlotFolders | pokemon_sprite_downloader.py:26-45 | every sprite and artwork folder is one of the directories created at start-up |
| SpriteDownloader.SpritePathsInDirectories | pokemon_sprite_downloader.py:100-148 | every image is saved directly inside one of the directories created at start-up |
| SpriteDownloader.SavedFiles | pokemon_sprite_downloader.py:150-164 | the Pokémon's data file `data/pokemon/{stem}.json` is always written, the species file only when species data came back, and nothing else |
| SpriteDownloader.RunDownloadsAccount | pokemon_sprite_downloader.py:47-67 | over any sequence of calls, `downloaded_count` plus the number of failed URLs grows by exactly the number of calls with a non-empty URL |
| SpriteDownloader.RunDownloadsContents | pokemon_sprite_downloader.py:52-67 | the failed list gains the URLs of the failing calls in call order, and a file is written if and only if some call with a URL succeeded for it |
| SpriteDownloader.RunPokemonAccount | pokemon_sprite_downloader.py:175-202 | over a run, the downloads plus the failures grow by exactly the number of images attempted for the Pokémon whose data came back, at most fourteen each |
| SpriteDownloader.RangeIdsSpec | pokemon_sprite_downloader.py:168-175 | the range visits `start`, `start + 1`, … up to `end`: `end - start + 1` ids in ascending order, or none when `end < start` |
| SpriteDownloader.Downloader.constructor | pokemon_sprite_downloader.py:16-45 | a new downloader has counted nothing, has no failures, and has created each of the thirteen directories under its output directory |
| SpriteDownloader.Downloader.DownloadImage | pokemon_sprite_downloader.py:47-67 | returns true if and only if the URL is non-empty and the fetch succeeds; an empty URL changes nothing, a success adds one to the count and writes the file, a failure appends the URL |
| SpriteDownloader.Downloader.DownloadSlot | pokemon_sprite_downloader.py:112-115 | an image is fetched only when its URL is present |
| SpriteDownloader.Downloader.DownloadSlots | pokemon_sprite_downloader.py:111-115 | the sprite loop performs the table's downloads in order |
| SpriteDownloader.Downloader.DownloadPokemonSprites | pokemon_sprite_downloader.py:91-148 | the basic sprites, then the six artwork images, are downloaded exactly as specified |
| SpriteDownloader.Downloader.SavePokemonData | pokemon_sprite_downloader.py:150-164 | writes exactly the data files and leaves the counters unchanged |
| SpriteDownloader.Downloader.ProcessPokemon | pokemon_sprite_downloader.py:176-188 | a Pokémon whose data does not come back is skipped; otherwise its images are downloaded, then its data files written when data is requested |
| SpriteDownloader.Downloader.ProcessAll | pokemon_sprite_downloader.py:212-226 | the names or ids are processed in order |
| SpriteDownloader.Downloader.DownloadPokemonRange | pokemon_sprite_downloader.py:166-204 | the reported total is `end - start + 1` and the ids `start` to `end` are processed in ascending order |
| SpriteDownloader.Downloader.DownloadSpecificPokemon | pokemon_sprite_downloader.py:206-228 | the given names or ids are processed in order, always with their data files |
| SpriteDownloader.SelectRange | pokemon_sprite_downloader.py:274-284 | without a generation shortcut the given start and end are kept |
| SpriteDownloader.GenerationRangesContiguous | pokemon_sprite_downloader.py:274-284 | the five shortcut ranges are non-empty and contiguous, from 1 to 649 |
| SpriteDownloader.GenerationOfId | pokemon_sprite_downloader.py:274-284 | every id from 1 to 649 lies in exactly one shortcut range |
| SpriteDownloader.GenerationTotals | pokemon_sprite_downloader.py:274-284 | together the five shortcut ranges visit 649 ids |
| DataExporter.ExtOfShape | pokemon_data_exporter.py:74 | the extension key of a file is its path suffix lowercased: empty, or a dot followed by at least one character, with no upper-case letter, and lowercasing it again changes nothing |
| DataExporter.AddType | pokemon_data_exporter.py:75-78 | counting a file adds its extension as a key if new, adds one to that extension's count and the file's size to its size, and leaves every other extension alone |
| DataExporter.CreateThenIncrement | pokemon_data_exporter.py:75-78 | creating a zero entry for a new extension and then incrementing both counters is the same update as counting the file |
| DataExporter.CountType | pokemon_data_exporter.py:75-78 | the scan loop's update of the per-extension breakdown counts the file under its extension |
| DataExporter.AddTypeTotals | pokemon_data_exporter.py:75-78 | counting one file raises the sum of the per-extension counts by one and the sum of the per-extension sizes by its size |
| DataExporter.ScanTotals | pokemon_data_exporter.py:62-87 | a scan's total_files is the sum of the counts in its file_types, and its total_size_bytes the sum of their sizes |
| DataExporter.ScanCountsFiles | pokemon_data_exporter.py:68-72 | a scan counts exactly the regular files of the walk, directories skipped, and adds exactly their sizes |
| DataExporter.ScanTypeKeys | pokemon_data_exporter.py:73-78 | an extension is a key of file_types if and only if some regular file of the walk has that lowercased suffix |
| DataExporter.ScanTypeStats | pokemon_data_exporter.py:73-78 | the count and size recorded under an extension are the number and the total size of the regular files with that extension |
| DataExporter.ScanDirectory | pokemon_data_exporter.py:62-87 | the scan loop computes the file total, the byte total and the per-extension breakdown of the walk |
| DataExporter.InfoOf | pokemon_data_exporter.py:119-135 | a listed file records its relative path, its full path below the directory, its size and its extension key, and carries an md5 hash if and only if it is smaller than 10 MiB and can be read, that file's own hash |
| DataExporter.GetFileListing | pokemon_data_exporter.py:114-139 | the listing holds one record per regular file in walk order, as many as the walk has files, and no file of 10 MiB or more is hashed |
| DataExporter.DefaultSourcesDistinct | pokemon_data_exporter.py:32-37 | the four configured sources have four different names |
| DataExporter.SourceInfoOf | pokemon_data_exporter.py:51-58 | a source whose directory does not exist is recorded as not found, and one that exists as the scan of its own directory |
| DataExporter.InventoryKeys | pokemon_data_exporter.py:50-58 | a name is in the inventory if and only if it is a configured source |
| DataExporter.NewSource | pokemon_data_exporter.py:50-58 | each configured source is added to the inventory as a new key, never overwriting an earlier one |
| DataExporter.InventoryOrder | pokemon_data_exporter.py:50-58 | the inventory lists every configured source once, in configuration order |
| DataExporter.InventoryEntry | pokemon_data_exporter.py:50-58 | each source's inventory entry is its own: not found when its directory is missing, otherwise the scan of that directory |
| DataExporter.ScanDataSources | pokemon_data_exporter.py:42-60 | the scanning loop produces that inventory |
| DataExporter.SummaryTotals | pokemon_data_exporter.py:396-397 | the summary's file and byte totals add the regular files of every existing source once, and a missing source adds nothing |
| DataExporter.Lookup | pokemon_data_exporter.py:189 | looking up a source name finds a configured source of that name, and fails only when no source has it |
| DataExporter.LookupDistinct | pokemon_data_exporter.py:189 | with the names distinct, looking up a configured source's name finds that source |
| DataExporter.SourceLine | pokemon_data_exporter.py:324 | an included source's README line starts with its name in bold, and an unconfigured name has no line |
| DataExporter.IncludedSourceLinesSpec | pokemon_data_exporter.py:324 | the README lists the included sources one line each, in the order given, and cannot be generated exactly when some included name is not configured |
| DataExporter.ZipPaths | pokemon_data_exporter.py:198-204 | a source adds as many archive entries as it has regular files |
| DataExporter.ZipPathsSpec | pokemon_data_exporter.py:198-204 | the archive names of a source's files are the source name, a `/` and each regular file's relative path, in walk order |
| DataExporter.AddDirectoryToZip | pokemon_data_exporter.py:198-204 | the zip-writing loop writes those names, in that order |
| DataExporter.ZipEntries | pokemon_data_exporter.py:168-196 | an archive is produced exactly when every included name is configured, and it starts with the metadata file and the README |
| DataExporter.ArchiveMatchesSummary | pokemon_data_exporter.py:172-196 | with the default selection of every source, the archive holds as many source files as the summary's total file count |
| DataExporter.ExportedSourceOf | pokemon_data_exporter.py:96-102 | an exported source is marked present exactly when its directory exists, and carries a file listing exactly then, namely the listing of that directory |
| DataExporter.ExportedEntry | pokemon_data_exporter.py:96-102 | every configured source name appears in the exported sources with its own source's entry |
| QuickDemo.RemoveAllAbsent | quick_demo.py:27-28 | `str.replace` leaves a text alone when no character of it starts the pattern |
| QuickDemo.RemoveAllSuffix | quick_demo.py:27 | removing `.gif` from a digit string followed by `.gif` leaves exactly the digits |
| QuickDemo.RemoveAllPrefix | quick_demo.py:28 | removing `generation_` from `generation_` followed by digits leaves exactly the digits |
| QuickDemo.ParseIntNat | quick_demo.py:31-33 | `int` of the decimal text of a natural number gives that number back |
| QuickDemo.ParseIntRejects | quick_demo.py:31-33 | `int` raises ValueError on an empty string, on letters and on a lone minus sign |
| QuickDemo.SpriteOf | quick_demo.py:27-37 | a sprite record exists exactly when both the id text and the generation text parse; it carries the file's path, size and hash |
| QuickDemo.SpritePathSegments | quick_demo.py:27-28 | the path `generation_<g>/pokemon_sprites/<n>.gif` splits on '/' into exactly its three segments |
| QuickDemo.SpriteOfRoundTrip | quick_demo.py:27-33 | a file at `generation_<g>/pokemon_sprites/<n>.gif` reads back id n, generation g and the name "Pokemon #n" |
| QuickDemo.SpritePathSelected | quick_demo.py:25 | a `.gif` file at that path passes the sprite filter |
| QuickDemo.CollectSpritesSucceeds | quick_demo.py:24-37 | the loop over the listing completes exactly when every selected file's numbers parse |
| QuickDemo.CollectSpritesRecords | quick_demo.py:24-37 | on completion the loop holds one record per selected file, in listing order |
| QuickDemo.CollectSpritesFailure | quick_demo.py:31-33 | a ValueError names a selected file whose numbers do not parse |
| QuickDemo.CollectSpritesError | quick_demo.py:24-37 | a ValueError raised on a prefix of the listing ends the whole loop with that error |
| QuickDemo.PokemonSprites | quick_demo.py:18-39 | reading sprites never raises KeyError and gives no sprites when there is no `phygitals_dynamic` source |
| QuickDemo.AsWrittenAgrees | quick_demo.py:22-23 | the function as written and the corrected one agree whenever the source entry carries its listing or is absent |
| QuickDemo.MissingDirectoryKeyError | quick_demo.py:22-23 | for the exporter's metadata with the `phygitals_dynamic` directory missing, the function as written raises KeyError while the corrected one gives no sprites |
| QuickDemo.PokemonSpritesSorted | quick_demo.py:39 | the sprites come out sorted by id, as a permutation of the collected records, stably for each id |
| QuickDemo.GetPokemonSprites | quick_demo.py:18-39 | the loop and sort compute the corrected sprite list or the first ValueError |
| QuickDemo.GenerationCountsTotal | quick_demo.py:74-77 | the generation counts add up to the number of sprites |
| QuickDemo.GenerationCountAt | quick_demo.py:74-77 | a generation is counted exactly when some sprite has it, and its count is the number of sprites that do |
| QuickDemo.GenerationBreakdown | quick_demo.py:74-77 | the breakdown loop builds the generation counts |
| QuickDemo.SeqMin | quick_demo.py:96 | `min` is a value of the list no larger than any value of it |
| QuickDemo.SeqMax | quick_demo.py:97 | `max` is a value of the list no smaller than any value of it |
| QuickDemo.SumBounds | quick_demo.py:95 | a sum lies between its count times a lower bound and its count times an upper bound |
| QuickDemo.SizeStatsAsWritten | quick_demo.py:94-97 | the statistics as written divide by zero exactly when there are no sprites |
| QuickDemo.SizeStatsOf | quick_demo.py:94-97 | the corrected statistics are absent exactly when there are no sprites and otherwise count every sprite |
| QuickDemo.SizeStatsSound | quick_demo.py:94-97 | the smallest and largest sizes are sizes of sprites and bound every size, and the total lies between count times each |
| QuickDemo.NoSpritesDivideByZero | quick_demo.py:94-95 | a listing with no animated sprite gives no sprites, after which the statistics as written divide by zero and the corrected ones report none |
| QuickDemo.FindById | quick_demo.py:106 | the lookup finds the first sprite with the id, or reports that none has it |
| QuickDemo.ApiListing | quick_demo.py:135-147 | the listing endpoint reports the number of sprites, exactly the generations present, and the first three sprites, each with its id, its generation, the URL `/sprites/` followed by its sprite path, and its file size |
| SiteInspector.AnchorLinks | phygitals_site_inspector.py:117-121 | every collected navigation link has a non-empty href |
| SiteInspector.AnchorLinksSpec | phygitals_site_inspector.py:115-121 | the links of one selector are exactly its anchors with a non-empty href, each with its stripped text, in document order |
| SiteInspector.NavLinksHrefs | phygitals_site_inspector.py:110-123 | no gathered navigation link, over all selectors, has an empty href |
| SiteInspector.CollectAnchors | phygitals_site_inspector.py:115-121 | the inner loop appends exactly the links of one selector's anchors |
| SiteInspector.AnalyzeNavigation | phygitals_site_inspector.py:100-140 | the gathering loop and the seen-set loop return the href de-duplication of all gathered links |
| SiteInspector.NavigationUnique | phygitals_site_inspector.py:126-131 | no href is lost, none appears twice, each kept link is the first one with its href, and kept links follow the order of first occurrence |
| SiteInspector.FoundElementsAt | phygitals_site_inspector.py:160-167 | a selector is recorded exactly when it is tried and its lookup finds at least one element, and it is recorded with that number |
| SiteInspector.BroaderSearchWhenNoneMatch | phygitals_site_inspector.py:177-182 | nothing is recorded exactly when no selector matches, which is when the broader search runs |
| SiteInspector.AnalyzePokemonContent | phygitals_site_inspector.py:142-182 | the selector loop builds the recorded selectors and asks for the broader search exactly when no selector matched |
| SiteInspector.SampledImagesSpec | phygitals_site_inspector.py:193-202 | at most twenty image records, one per image with a src among the first twenty, each keeping that image's src (non-empty) and alt and marked Pokémon-related exactly when its lower-cased src contains pokemon, sprite or animation |
| SiteInspector.SampleIgnoresRest | phygitals_site_inspector.py:194 | images after the twentieth never change the sample |
| SiteInspector.BroaderContentSearch | phygitals_site_inspector.py:188-202 | the image loop builds exactly the sampled image records |

## Left out

- TcgAnimation.Scraper.ScrapeGalleries: the top-level `errors` count is modelled for a failure while loading the page or taking the first screenshot; a later exception escaping the gallery or card loops is not modelled, and the galleries found by `find_tcg_galleries` enter as an input.
- TcgAnimation.Scraper.FindIndividualCards: the card's name, image URL, position and the hover and click tests are collapsed into one success or failure of its analysis.
- TcgAnimation.OpeningRecords: each step's time offset is kept in tenths of a second; time stamps and screenshot paths are not modelled.
- tcg_animation_focused_scraper.py: the browser work of CSS and JavaScript extraction (only its outcome enters, as the number of items extracted or `None` when the extraction raised), the interaction flows, the page scrolling and saving the animation data are browser and file work and are not part of this model; the driver is reduced to an oracle answering each action with success or failure.
- AdvancedMirror.Mirror.DownloadPokemonMedia: its contract bounds how the counters and the failure list grow; where each image goes is stated separately by AdvancedMirror.MediaLocationSpec rather than per call, because the method's state is the counters only.
- AdvancedMirror.ExtractPokemonDataSpec: the extraction time stamp (`datetime.now()`) is not modelled, and an exception raised by the browser during extraction is not modelled.
- phygitals_advanced_mirror_scraper.py: the navigation, search and API discovery strategies and the per-generation page scraping drive a browser; they enter the model only as their results. The sleeps, logging, total size in MB and report writing are not modelled.
- BrowserScraper.CollectMedia: the browser's selector queries, the background-image regular expression and the waits are not modelled; the page enters as the elements the loops visit, in order. An absent source and an empty one are both the empty string.
- BrowserScraper.SetToList: the order of `list(image_urls)` is Python's set order, which the model leaves unspecified.
- BrowserScraper.Downloader.DownloadFile: the lock and the thread pool are not modelled; calls are taken one at a time. `hash(url)` is per-process and enters as text.
- phygitals_browser_scraper.py: driver setup, page navigation, the per-generation loop and the report writing are browser, file and console work and are not part of this model.
- CompleteMirror.AssetFileName: asset names are built on the corrected `safe_filename` of the Findings table, so for a basename over 200 characters whose extension is longer than 10 characters the model's name is shorter than the code's; for every other basename the two agree.
- CompleteMirror.Mirror.DiscoverSiteStructure: the three browser queries are not modelled; the links enter as one list in the order the source concatenates them.
- phygitals_complete_mirror_scraper.py: the generation, Pokémon-page and asset scraping that drive the browser, the offline viewer and the floating-point total size are not part of this model.
- comprehensive_pokemon_scraper.py `log_progress` timestamps, levels and per-file messages, `total_size_mb`, and the completion time and size in each progress entry: wall-clock and floating point; the log keeps only stage starts, stage failures and how each site ended.
- comprehensive_pokemon_scraper.py Selenium sessions (`setup_selenium_driver`, `trigger_lazy_loading`, `extract_dynamic_content`, `capture_ui_states`, `scrape_tcg_animations`, `capture_site_animations`): browser calls; a dynamic or animation stage succeeds or fails by the `browserOk` oracle, and the TCG and general animation branches both end in that same result.
- comprehensive_pokemon_scraper.py saving the main page and `extract_pokemon_data_static` (which returns []): file writes with nothing to state; an exception raised while writing after the downloads is not modelled, the page request alone decides the static stage.
- comprehensive_pokemon_scraper.py `create_master_directory_structure`, `initialize_reference_documentation`, the JSON dump in `update_master_reference` and `generate_final_report`: directory scaffolding, file writes and printing.
- comprehensive_pokemon_scraper.py `self.lock`: taken around counter updates in a sequential program; the model is sequential.
- ComprehensiveScraper.Scraper: the fetch result of an asset URL is the per-URL `fetchOk` oracle, so a URL that failed once fails on every later attempt in the same run.
- ComprehensiveScraper.GetSafeFilename: `urlparse`'s path is the `pathOf` parameter and Python's per-process `hash` is the `hashOf` parameter.
- QuickDemo: finding the metadata file with `os.listdir`, loading it as JSON, and every `print` are input and output; the metadata arrives as the exporter's source dictionary.
- QuickDemo: the random sample of five sprites uses randomness and only prints.
- QuickDemo.SizeStatsOf: the average and the kilobyte figures are floating point; the model keeps the integer total, count, smallest and largest from which they are computed.
- QuickDemo.ParseInt: accepts ASCII digits with an optional sign and surrounding whitespace; Python's `int` also accepts underscores between digits and non-ASCII decimal digits.
- QuickDemo: the Pikachu response of the API simulation only copies fields of the sprite that `FindById` returns.
- EnhancedScraper: the card-marketplace, artwork-gallery and generic extractions are not modelled; what they return is a parameter of each site's page (`otherData`).
- EnhancedScraper: the page-structure analysis, the scroll helper, sleeps, logging, the timestamps and the JSON and CSV report files are not modelled.
- EnhancedScraper: the fallback file name built from `hash(src)` is not modelled; a download counts the same whatever file name it is saved under.
- EnhancedScraper.Scraper.ScrapePokemonDatabase: an exception inside the table loop is not modelled, and the always-empty `generations` list is left out of the extracted data.
- EnhancedScraper.ScrapeCardAnimations: a failure of the card query itself, which leaves no records, is not modelled.
- EnhancedScraper: the `files_downloaded`, `data_extracted` and `animations_captured` counters are never updated by the program, so the model keeps only `sites_processed` and `errors`.
- The data exporter's timestamps, absolute workspace path, modification times and `*_size_mb` figures are not modelled: they are clock, operating-system and floating-point values.
- The data exporter's SQLite export and its clean-copy export (`shutil.copytree`) are not modelled: they are database and file-system I/O whose rows and files are the listing and the source directories already modelled.
- The data exporter's `_extract_pokemon_metadata` is not modelled: it is nested globbing and existence tests on the file system with no computation of its own beyond reading a generation number from a directory name.
- The data exporter's README body is static text and is not modelled; only its "Included Data Sources" lines are.
- DataExporter.PathJoin: the workspace path is taken in normal form; `pathlib`'s collapsing of repeated or trailing separators is not modelled.
- FinalComplete.Scraper.ScrapeGenerationComplete: an exception raised by the browser, the page HTML and JSON metadata writes and the sleeps are not modelled.
- phygitals_final_complete_scraper.py: the master viewer HTML, the final report's time stamps and duration and the floating-point success rate and total size are not part of this model.
- GenerationScraper.CleanFilenameSpec: `\w` is taken as ASCII letters, digits and `_`; Python's Unicode word characters beyond ASCII are not modelled.
- GenerationScraper.Downloader.DownloadFile: the lock, the thread pool that calls it and the progress output are not modelled; calls are taken one at a time.
- phygitals_generation_scraper.py: page fetching and HTML parsing in `extract_media_urls` and `scrape_generation`, and the CSS regular expression itself, are not part of this model; the matches enter as a list.
- ImageFix.Scraper.ExtractPokemonImagesEnhanced: the browser navigation and sleeps, an exception raised by the browser, and the JSON metadata write are not modelled.
- phygitals_image_fix_scraper.py: the run loop over generations, the viewer HTML and the floating-point total size are not part of this model.
- SiteInspector: the Selenium session, page loading, screenshots, `analyze_page_elements`, `test_specific_urls`, `generate_inspection_report`, `run_full_inspection` and `main` drive the browser or print; element lookups are oracle parameters.
- SiteInspector: the `outerHTML` sample of each matching selector and the script and data-attribute counts of the broader search are only printed.
- SiteInspector: `analyze_with_beautiful_soup` needs an HTML parser, which is not part of this model.
- SiteInspector.AnalyzeNavigation: the anchors of every navigation element under a selector arrive as one list; a lookup that raises part-way leaves the anchors gathered before it, which the oracle's list already reflects.
- SiteInspector.SampledImagesSpec: lower-casing is ASCII only; Python's `str.lower` also folds non-ASCII letters.
- PokemonDb.ParseRowSpec: the sprite URL, sprite alt text and detail URL are `urljoin` results on HTML attributes and are not modelled; an exception inside a row is not modelled.
- PokemonDb.MergePokemonData: the source fills data1's dictionaries in place, so data1 itself changes too; the model returns new records and does not capture that aliasing.
- pokemondb_focused_scraper.py: the Selenium extraction path, the detail-page scraping, the JSON and HTML output and the run summary are browser, network and file work and are not part of this model.
- RemainingSites.Scraper.ExtractArtworkImages: the artwork records' alt, title, filename and local path fields and the `artwork_{i}.jpg` fallback name are not modelled; the records are their URLs.
- RemainingSites.Scraper.RunScraper: the browser sessions, screenshots, page saves and result files of `scrape_artofpkm`, `scrape_pkmn_pokedex` and `scrape_serebii` are not modelled; whether a scraper raises enters as the `failed` oracle, and a scraper that raises does so before its downloads.
- RemainingSites: a URL's fetch outcome is a function of the URL, so a URL that failed once fails again when it is tried again.
- RemainingSites: an exception raised by a single element's attribute read part-way through a selector is not modelled; a selector either yields all its elements or raises as a whole.
- RemainingSites.ParseRow: `urljoin` is the `join` parameter.
- The local server's HTTP handling (`do_GET`, file serving, `send_json_response`, logging, `start_server` and the browser launch) is I/O and is not modelled; generation files, directory walks and the metadata directory's existence are parameters.
- `serve_generation_api` is not modelled: it only reads one generation file and returns it.
- The `total_size_mb` and `size_mb` fields are floating-point roundings of byte totals; the model keeps the byte totals and leaves out the rounding, and the size of the animation directory in the Pokémon endpoint.
- PhygitalsServer.ExtractPokemonId: the pattern's `\d` also matches non-ASCII digits in Python; the model reads ASCII digits only.
- A generation file that loads but whose contents do not have the expected shape (raising after `total_generations` was incremented) is not modelled: a file either fails to load or has the expected shape.
- The capture information's fixed contents are reduced to its presence.
- SiteMirror.Mirror.ReplaceCssUrl: the regular expressions that find `url(...)` and `@import` references in CSS are not modelled; each match enters as its matched text and captured URL, and `process_import` is not part of this model.
- SiteMirror.Mirror.RewriteReference: parsing the HTML, iterating over its tags and saving the rewritten page are not modelled; the rewrite of one attribute value is.
- scraper.py: `urljoin`, `urlparse` and `os.path.relpath` enter as parameters (`resolve`, the URL path, `rel`), and `scrape_website` and the command-line entry point are not part of this model.
- SpecializedScrapers: the card-market extraction and its image download are not modelled; the scraper's result is a parameter (`cardMarket`).
- SpecializedScrapers: the sprite download of the Pokédex scraper, the JSON and CSV files it writes, and a failure in writing them, are not modelled.
- SpecializedScrapers: the regular expression that takes a URL out of a CSS `url(...)` is a parameter (`cssUrl`), as is `urljoin`.
- SpecializedScrapers: `get_text(strip=True)` is taken as given: a cell's text is the text the parser returns.
- SpecializedScrapers: a failure of the card or element query in the TCG scraper, and the timestamps and source fields of the results, are not modelled.
- The sprite downloader's printing (`print_summary`, progress lines), the rate-limiting sleeps and the command-line parsing of `main` are not modelled; only its generation shortcut table is.
- The sprite downloader's handling of malformed Pokémon data (a missing `name` or `id` raising inside the loop) is not modelled: Pokémon data always has both. A user interrupt ending the range loop early is not modelled either.
- SpriteDownloader.FileStem: ids are the natural numbers PokeAPI returns; the zero-padding of a negative id is not modelled.
- TargetedScraper.Scraper.ScrapeGeneration: the browser's selector search and the de-duplication of elements by identity are not modelled; the elements arrive already de-duplicated, and the page HTML and JSON metadata writes, the sleeps and exceptions raised by the browser are left out.
- TargetedScraper.ExtractPokemonDataSpec: the extraction time stamp is not modelled.
- phygitals_targeted_scraper.py: the marketplace scrape, the offline viewer HTML and the run summary are browser, file and console work and are not part of this model; the total size in MB is floating point and is left out.
- TcgIntegrator.Integrator.DownloadAllCards: the batches run one after another, not on a thread pool, so the order in which batch results are summed and the shared counter's races are not modelled.
- TcgIntegrator.ScanAvailableCards: an exception other than a stem without '_' is not modelled, and the printed report is left out.
- TcgIntegrator.CreateMasterIndex: the scan timestamp, the era/description/sets copied from the mapping and the JSON write are left out; each generation's image listing is a parameter.
- pokemon_tcg_integrator.py: the directory creation, the HTTP session, the JSON loading and writing, and the full-integration driver with its test mode switch are not part of this model.
- comprehensive_scraping_monitor.py: the reference, guide, recommendation and usage-note sections are fixed text; they, the Markdown rendering, the progress report, `check_active_scrapers`, `count_total_files` and the percentages are not part of this model.
- ScrapingMonitor.ScanDirectory: the file sizes the walk reads (`total_size_mb`) are not modelled, and neither is an exception raised part-way through the walk, after which the code returns the partial scan (comprehensive_scraping_monitor.py:196-197); each walked item is a path that is a file or a directory.
- final_comprehensive_report.py: the per-site directory summaries, the master reference documents, the Markdown rendering, the timestamps and the percentages are file and text work and are not part of this model.

Beyond the lines above, these parts of the repository are not part of this model:

- Selenium sessions: driver setup, stealth scripts, waits, sleeps, ActionChains, scrolling and screenshots. They are foreign calls and wall-clock timing. Only the success or failure of each action enters the model.
- advanced_tcg_scraper.py: bot-detection evasion with randomised user agents, window sizes, Cloudflare waits and screen automation. It is randomness and I/O with nothing to state.
- The HTTP servers and viewers (pokemon_sprite_viewer.py, phygitals_pokemon_viewer.py, local_server.py, pokemon_gallery_server.py, tcg_viewer_server.py) are socket I/O and HTML templating.
- The launchers and menus (launch_phygitals_viewer.py, launch_tcg_integration.py, setup_and_run.py, scrape_all_generations.py and every `main`) spawn processes and read user input.
- pokemon_data_demo.py is pandas statistics and printing.
- HTML parsing and regular expressions: parsed rows, attributes and matches enter as sequences of strings.
- PyText.IsSpace: `strip` is modelled on the ASCII whitespace characters space, tab, newline, carriage return, vertical tab and form feed; the separators \x1c to \x1f and the non-ASCII spaces that Python's `str.isspace` also accepts are not.
- TargetedScraper: `\d` in the card-number pattern and `lower()` in image classification are taken on ASCII; Unicode digits and non-ASCII case folding are not modelled.
- SpecializedScrapers: in the TCG animation scraper, a failure while writing `tcg_animations.json` (specialized_site_scrapers.py:364-373), which makes the scraper return an empty result, is not modelled; the write is taken to succeed.
- Floating point: sizes in MB, percentages, success rates, progress lines and time offsets. The model keeps the integer counts and byte totals they are computed from.
- Python's `hash` and `hashlib.md5`: the names derived from them are opaque parameters.
- Thread pools and locks: the code paths that use them are modelled sequentially.
- JSON, CSV, ZIP and SQLite writes, directory creation, `copytree`, timestamps and the rendered HTML and Markdown reports.

## Findings

| source | as written | input that shows it | evidently intended | confidence | as-written member | corrected member |
|---|---|---|---|---|---|---|
| phygitals_complete_mirror_scraper.py:125-127 | a name longer than 200 characters keeps the first 190 characters of its stem and appends the whole extension, however long | the name 'a.' followed by 200 'b's: the extension is 201 characters, so the result has 202 | every safe file name is at most 200 characters | not executed | CompleteMirror.SafeFilenameExceedsLimit | CompleteMirror.SafeFilenameSpec |
| quick_demo.py:22-23 | once `phygitals_dynamic` is among the sources, its `files` entry is read without checking that it exists | the exporter records a missing `phygitals_dynamic` directory as a source with no `files` entry, and the demo then raises KeyError | a missing directory gives an empty sprite list | not executed | QuickDemo.MissingDirectoryKeyError | QuickDemo.PokemonSprites |
| quick_demo.py:94-97 | the average sprite size divides the total size by the number of sprites | a `phygitals_dynamic` listing with no `.gif` file under pokemon_sprites yields no sprites, and the division is by zero | no sprites gives no size statistics | not executed | QuickDemo.NoSpritesDivideByZero | QuickDemo.SizeStatsOf |
