# Nano Banana Fans site helpers, modelled in Dafny

The Nano Banana Fans website is a Next.js content site: AI-image prompts,
tutorials and SEO plumbing. Most of it is JSX. This project models the
parts that carry logic, one Dafny module per source file.

- **Web-vitals classification** (`WebVitals`):
  - the threshold table of `assessMetrics` and its per-metric rating;
  - the assessment record that the loop fills, where a later metric of the same name overwrites an earlier one;
  - the `overall` verdict of `createPerformanceReport`.
- **Copy-to-clipboard hook** (`CopyToClipboard`): a class holding the `isCopied` and `isCopying` flags, the pending reset timers, and a log of every observable step.
  - The log records flag updates, the clipboard write, toasts and timer scheduling.
  - The clipboard's answer is an argument; the timer's expiry is an explicit event.
- **Prompt cards** (`PromptCard`, `PromptCardPreview`):
  - tag truncation and the "+N" badge;
  - tag colour lookup and tag label formatting;
  - the card's copy handler, which delegates to the hook;
  - the preview card's own copy handler, which has no empty-text guard, and its details route.
- **Icon loader** (`Icon`):
  - kebab-case to PascalCase conversion, specified by a reference scan;
  - the module-level cache, a class whose map the `Icon` lookup, `preloadIcons` and `clearIconCache` update.
- **Content update table** (`ContentUpdates`): find-first lookup over the static and tutorial page tables, and the `||` defaults of the three getters.
- **Sitemap** (`Sitemap`, `SitemapProtocol`):
  - the static, tutorial and prompt entries;
  - the fallback when the directory scan throws, which appends to whatever was already pushed;
  - the stable descending-priority sort.
- **Image sitemap** (`ImageSitemap`):
  - image-path normalisation;
  - one `<url>` block per prompt, then one per tutorial cover;
  - the `<urlset>` document with the Sitemap protocol 0.9 and Google image extension 1.1 namespaces.
- **Tutorial catalogue** (`Tutorials`): lookup by slug, the key list, and the filter by difficulty.
- **Tutorial SEO records** (`TutorialUtils`): page metadata, breadcrumbs and Schema.org data.
- **Tutorial header and category colours** (`TutorialHeader`, `TutorialTypes`): author initials and the category badge classes.

JavaScript semantics the helpers rely on are in `Js`:

- `split` on one character, and `join`;
- `replace` of all occurrences of one character;
- upper-casing one character;
- indexing a plain object literal, which also finds the names inherited from `Object.prototype`.

`Wrappers` holds `Option`.

Two observations about the code itself:

- `app/sitemap.ts` does not read `data/content-updates.ts`. Its own static entries differ from that table in places: `/privacy` is monthly with priority 0.3 in the sitemap and yearly in the table. `Sitemap` follows `app/sitemap.ts`.
- `generateTutorialMetadata` computes the tutorial URL (lib/tutorial-utils.ts:12) but never uses it. The metadata has no canonical address, and the model has none either.

## Model

| member | source | states |
|---|---|---|
| WebVitals.ThresholdsOrdered | lib/web-vitals.ts:140-146 | exactly LCP, FID, CLS, FCP and TTFB have thresholds, and each `good` bound is strictly below its `poor` bound |
| WebVitals.Rate | lib/web-vitals.ts:154-162 | good iff value ≤ good; needs-improvement iff good < value ≤ poor; poor iff value > poor |
| WebVitals.RatingMonotone | lib/web-vitals.ts:156-162 | a larger value never gets a better rating |
| WebVitals.Rated | lib/web-vitals.ts:164-167 | an assessment entry stores the measured value unchanged |
| WebVitals.Assessed | lib/web-vitals.ts:148-171 | the record built by the forEach loop only has names from the threshold table as keys, and never more keys than metrics |
| WebVitals.AssessedKeys | lib/web-vitals.ts:150-169 | the assessment has a key exactly for the listed metric names that occur in the input |
| WebVitals.AssessedLastWins | lib/web-vitals.ts:150-169 | the entry for a name is the rating of the last metric of that name |
| WebVitals.LastOccurrence | lib/web-vitals.ts:150-169 | every metric has a last metric of its name at or after it, which is the one whose entry survives the loop |
| WebVitals.AssessMetrics | lib/web-vitals.ts:139-172 | the loop over the metrics computes the assessment function, and its keys are threshold names only |
| WebVitals.Summarized | lib/web-vitals.ts:188-195 | the report's metrics record has a key exactly for every name that occurs |
| WebVitals.SummarizedLastWins | lib/web-vitals.ts:188-195 | each summary copies value, library rating and delta of the last metric of that name |
| WebVitals.OverallVerdict | lib/web-vitals.ts:197-201 | excellent iff every rating is good; good iff none is poor and not all are good; needs-improvement iff some rating is poor |
| WebVitals.EmptyAssessmentIsExcellent | lib/web-vitals.ts:197-198 | an empty assessment is rated excellent |
| WebVitals.ExcellentIffAllWithinGood | lib/web-vitals.ts:183-198 | the verdict is excellent iff every listed metric's last value is within its `good` bound |
| WebVitals.CreatePerformanceReport | lib/web-vitals.ts:181-205 | the report holds the summaries, the assessment and the verdict, with the verdict's two iff conditions |
| CopyToClipboard.SuccessToast | hooks/use-copy-to-clipboard.tsx:57-75 | with the option absent or true, the toast with the configured Pro title, message, action and 4000 ms duration (config/toast-config.ts:21-40); otherwise a plain 2000 ms toast without action; never the error toast |
| CopyToClipboard.TrimStart | hooks/use-copy-to-clipboard.tsx:39 | `trim`'s leading half: a suffix of the text, empty exactly for blank text, and starting with a character `trim` keeps |
| CopyToClipboard.TrimEnd | hooks/use-copy-to-clipboard.tsx:39 | `trim`'s trailing half: a prefix of the text, empty exactly for blank text, and ending with a character `trim` keeps |
| CopyToClipboard.BlankIffTrimsToEmpty | hooks/use-copy-to-clipboard.tsx:39 | `text.trim().length === 0` holds exactly for blank text (the empty text included), and a non-empty trim starts and ends with a kept character |
| CopyToClipboard.CopyStepsByOutcome | hooks/use-copy-to-clipboard.tsx:39-91 | the write, always of the text unchanged, happens iff the text is not blank; the error toast is shown iff the text is blank or the write failed; `isCopied` is raised iff a non-blank text was written |
| CopyToClipboard.ExactlyOneToast | hooks/use-copy-to-clipboard.tsx:39-91 | every call shows exactly one toast |
| CopyToClipboard.BlankTextRejected | hooks/use-copy-to-clipboard.tsx:39-46 | blank text only shows the error toast: no write, both flags unchanged |
| CopyToClipboard.CopyingRaisedBeforeWrite | hooks/use-copy-to-clipboard.tsx:48-52 | for non-blank text `isCopying` is raised and then the write is attempted |
| CopyToClipboard.OutcomeFlags | hooks/use-copy-to-clipboard.tsx:48-91 | for non-blank text the call ends with `isCopied` = success and `isCopying` = false; one reset timer only after success |
| CopyToClipboard.ClipboardCopier.constructor | hooks/use-copy-to-clipboard.tsx:24-25 | both flags start false, nothing logged, no timer pending |
| CopyToClipboard.ClipboardCopier.CopyText | hooks/use-copy-to-clipboard.tsx:34-93 | appends the call's steps to the log and sets the flags as the guard, success and failure branches do |
| CopyToClipboard.ClipboardCopier.ResetTimerFired | hooks/use-copy-to-clipboard.tsx:78-80 | a pending reset clears `isCopied` and leaves `isCopying` alone |
| PromptData.PromptPath | app/prompts/PromptCard.tsx:54 | `/prompts/` followed by the slug, nothing else |
| PromptData.SlugOfPromptPath | app/prompts/PromptCard.tsx:54 | a slug exactly for paths under `/prompts/`, and that slug's path is the given path |
| PromptData.PromptPathRoundTrip | app/prompts/PromptCard.tsx:54 | the slug is recovered from its `/prompts/` path |
| PromptCard.DisplayTags | app/prompts/PromptCard.tsx:32 | the first min(3, n) tags, in order |
| PromptCard.RemainingTagsCount | app/prompts/PromptCard.tsx:33 | shown tags plus the count make up all the tags; the count is 0 iff no tag is hidden |
| PromptCard.ShowsMoreBadge | app/prompts/PromptCard.tsx:76-80 | the "+N" badge is rendered iff there are more than three tags |
| PromptCard.TagsAccounted | app/prompts/PromptCard.tsx:32-80 | shown plus remaining is n; the "+N" badge appears iff n > 3, iff some tag is hidden |
| PromptCard.TagColorAsWritten | app/prompts/PromptCard.tsx:36-46 | listed tags get their hex, other tags grey, except inherited object member names |
| PromptCard.TagColorAsWrittenMisses | app/prompts/PromptCard.tsx:45 | "constructor" and "toString" yield an inherited member, not a colour |
| PromptCard.TagColor | app/prompts/PromptCard.tsx:36-46 | the listed hex for the six known tags and `#6b7280` for every other tag; always a 7-character hex |
| PromptCard.TagColorAgrees | app/prompts/PromptCard.tsx:36-46 | outside the inherited names the corrected and as-written lookups agree |
| PromptCard.TagLabel | app/prompts/PromptCard.tsx:48-50 | same length, first character upper-cased, every later '-' becomes a space, all else unchanged |
| PromptCard.CardHref | app/prompts/PromptCard.tsx:54 | the link names the card's slug |
| PromptCard.PromptCardView.HandleCopyPrompt | app/prompts/PromptCard.tsx:25-29 | hands the card's prompt, unmodified and with the default option, to the hook: the same log, flags and pending reset timer as the hook's own call |
| PromptCardPreview.PreviewCopyEffects | app/prompts/PromptCard.preview.tsx:34-53 | `isCopied` is raised iff the write succeeds; the failure toast is shown iff it fails; `isCopied` is never cleared during the call and `isCopying` is never touched |
| PromptCardPreview.PreviewAlwaysWrites | app/prompts/PromptCard.preview.tsx:34-53 | every call first writes the prompt and shows exactly one toast |
| PromptCardPreview.BlankTextDiffers | app/prompts/PromptCard.preview.tsx:34-39 | for blank text the preview writes while the hook does not |
| PromptCardPreview.PreviewBadges | app/prompts/PromptCard.preview.tsx:62-81 | badges are the shared label and colour of the first at most three tags; the colour is the corrected lookup of the first Findings row, not the as-written one |
| PromptCardPreview.PromptCardPreviewView.constructor | app/prompts/PromptCard.preview.tsx:30 | `isCopied` starts false |
| PromptCardPreview.PromptCardPreviewView.HandleCopy | app/prompts/PromptCard.preview.tsx:34-53 | success sets `isCopied` and schedules a reset; failure leaves `isCopied` as it was |
| PromptCardPreview.PromptCardPreviewView.ResetTimerFired | app/prompts/PromptCard.preview.tsx:45 | the reset clears `isCopied` |
| PromptCardPreview.PromptCardPreviewView.HandleViewDetails | app/prompts/PromptCard.preview.tsx:55-60 | the route is the card link `/prompts/` + slug |
| Icon.Capitalize | components/ui/icon.tsx:37 | same length, first character upper-cased, rest unchanged |
| Icon.PascalScanSplits | components/ui/icon.tsx:35-38 | split, capitalise and join equals the reference scan |
| Icon.IconName | components/ui/icon.tsx:35-38 | the export name equals the reference scan, has no '-' and its length is the name's minus its hyphens |
| Icon.PascalScan | components/ui/icon.tsx:35-38 | the reference scan has no '-' and its length is the input's minus its hyphens |
| Icon.UnhyphenatedNameKeepsTail | components/ui/icon.tsx:34-38 | a name without hyphens changes in its first character only |
| Icon.GetOrCreate | components/ui/icon.tsx:41-51 | the key is present afterwards; a present entry is never replaced; an absent one gets a fresh component |
| Icon.Preloaded | components/ui/icon.tsx:78-97 | after preloading, every converted name is cached, every earlier entry is kept unchanged, and the serial counter never goes back |
| Icon.PreloadedEntries | components/ui/icon.tsx:78-97 | preloading adds exactly the converted names and keeps every existing entry |
| Icon.PreloadIdempotent | components/ui/icon.tsx:85-93 | preloading the same names twice equals preloading them once |
| Icon.PreloadPresentNoop | components/ui/icon.tsx:85-93 | preloading cached names changes nothing |
| Icon.IconCache.constructor | components/ui/icon.tsx:15 | the cache starts empty |
| Icon.IconCache.Icon | components/ui/icon.tsx:32-51 | the get-or-create step; returns the cached component for the converted name |
| Icon.IconCache.PreloadIcons | components/ui/icon.tsx:78-97 | the loop computes the preload function; keys grow by the converted names and old entries stay |
| Icon.IconCache.ClearIconCache | components/ui/icon.tsx:102-104 | the cache is empty afterwards |
| ContentUpdates.FindPage | data/content-updates.ts:149 | none iff no row has the URL; otherwise the first row with it |
| ContentUpdates.FindPageConcat | data/content-updates.ts:148-149 | searching a concatenation searches the first table before the second |
| ContentUpdates.StaticPagesFirst | data/content-updates.ts:148-149 | static pages are searched before tutorial pages |
| ContentUpdates.LastModifiedIn | data/content-updates.ts:149-150 | no row with the URL gives today; otherwise the first row with it answers with its date, or today if that date is empty; the result is always today or some first-match row's date |
| ContentUpdates.ChangeFrequencyIn | data/content-updates.ts:156-157 | no row with the URL gives weekly; otherwise the first row with it answers with its frequency |
| ContentUpdates.PriorityIn | data/content-updates.ts:163-164 | no row with the URL gives 0.5; otherwise the first row with it answers with its priority, or 0.5 if it is 0; the result is always 0.5 or a first-match row's priority |
| ContentUpdates.UrlsDistinct | data/content-updates.ts:12-144 | no URL occurs twice across the two tables |
| ContentUpdates.StoredValuesTruthy | data/content-updates.ts:12-144 | every stored priority is in (0, 1] and every date is non-empty |
| ContentUpdates.GetLastModifiedDate | data/content-updates.ts:147-151 | a URL in either table gets its stored date; any other URL gets today |
| ContentUpdates.GetChangeFrequency | data/content-updates.ts:154-158 | a URL in either table gets its stored frequency; any other URL gets weekly |
| ContentUpdates.GetPriority | data/content-updates.ts:161-165 | a URL in either table gets its stored priority; any other URL gets 0.5 |
| Sitemap.StaticPages | app/sitemap.ts:11-78 | eleven entries dated now, the home page first, each with its route's path, frequency and priority |
| Sitemap.TutorialEntry | app/sitemap.ts:90-95 | `/tutorials/` + slug under the base URL, weekly, priority 0.8 |
| Sitemap.PromptEntry | app/sitemap.ts:121-126 | `/prompts/` + slug under the base URL, weekly, priority 0.8 |
| Sitemap.TutorialSlugs | app/sitemap.ts:81-117 | the scanned slugs in order, followed by exactly the nine fallback slugs if the scan threw and by nothing otherwise |
| Sitemap.TutorialPages | app/sitemap.ts:81-117 | one tutorial entry per slug, in order |
| Sitemap.CollectTutorialPages | app/sitemap.ts:81-118 | the push loop and the catch branch produce the scanned entries followed by the fallback entries |
| Sitemap.PromptPages | app/sitemap.ts:121-126 | one prompt entry per prompt, in catalogue order |
| Sitemap.AllPages | app/sitemap.ts:129-133 | 11 + tutorials + prompts entries, the home page first |
| Sitemap.InsertByPriority | app/sitemap.ts:136 | inserting into a list of non-increasing priority keeps it so and adds exactly the one entry |
| Sitemap.SortByPriority | app/sitemap.ts:136 | priorities non-increasing, and a permutation of the input |
| Sitemap.NonIncreasingPairwise | app/sitemap.ts:136 | every earlier entry of the sorted list has priority ≥ every later one |
| Sitemap.SortIsStable | app/sitemap.ts:136 | entries of equal priority keep their input order |
| Sitemap.PrioritiesWithinProtocol | app/sitemap.ts:11-126 | every emitted priority lies in the 0.0 to 1.0 range the Sitemap protocol allows |
| Sitemap.AllPagesPriorities | app/sitemap.ts:11-126 | all priorities in [0.3, 1], and the home page is the only entry of priority 1 |
| Sitemap.HomeStaysFirst | app/sitemap.ts:136 | a list headed by its only priority-1 entry keeps it first and keeps its length and priority range when sorted |
| Sitemap.BuildSitemap | app/sitemap.ts:6-137 | sorted, a permutation of all pages, length 11 + tutorials + prompts, priorities in [0.3, 1], home page first |
| ImageSitemap.NormalizeImagePath | app/image-sitemap.xml/route.ts:9-11 | starts with '/'; unchanged if it did; else one '/' is prepended |
| ImageSitemap.NormalizeIdempotent | app/image-sitemap.xml/route.ts:9-11 | normalising twice is normalising once, and the original path is kept as a suffix |
| ImageSitemap.WrapRoundTrip | app/image-sitemap.xml/route.ts:13-22 | wrapped text is recovered unchanged |
| ImageSitemap.ElementAndCDataRoundTrip | app/image-sitemap.xml/route.ts:19-20 | element content and CDATA text are recovered verbatim |
| ImageSitemap.UrlBlock | app/image-sitemap.xml/route.ts:13-22 | a block is the indentation followed by one `<url>` element that unwraps to the block's lines |
| ImageSitemap.ImageElementCarries | app/image-sitemap.xml/route.ts:17-21 | the image element contains the image loc, and the title and caption inside CDATA sections |
| ImageSitemap.UrlBlockCarries | app/image-sitemap.xml/route.ts:13-22 | the block contains the page loc, the lastmod and the image element |
| ImageSitemap.UrlBlockFields | app/image-sitemap.xml/route.ts:13-22 | a block contains its loc, lastmod and image loc, and the title and caption inside CDATA sections |
| ImageSitemap.ImageLoc | app/image-sitemap.xml/route.ts:18 | base URL, one '/', then the path without its own leading '/' |
| ImageSitemap.PromptImageEntry | app/image-sitemap.xml/route.ts:7-23 | loc is base URL + `/prompts/` + slug, lastmod 2024-12-26, the normalised preview image, the title and description |
| ImageSitemap.TutorialImageEntry | app/image-sitemap.xml/route.ts:47-63 | the tutorial URL, lastmod 2024-12-20, the normalised cover, the title and caption |
| ImageSitemap.Entries | app/image-sitemap.xml/route.ts:7-64 | one entry per prompt in order, then one per each of the three tutorial covers |
| ImageSitemap.Blocks | app/image-sitemap.xml/route.ts:7-64 | one rendered block per entry, in order |
| ImageSitemap.Document | app/image-sitemap.xml/route.ts:66-70 | the document unwraps, between the XML declaration with the `<urlset>` opening tag and the closing tag, to exactly the concatenated blocks |
| ImageSitemap.DocumentLayout | app/image-sitemap.xml/route.ts:66-70 | header, the prompt blocks, the three tutorial blocks, footer |
| ImageSitemap.DocumentDeclaresNamespaces | app/image-sitemap.xml/route.ts:66-68 | the document declares the sitemap 0.9 and image 1.1 namespaces |
| Tutorials.Own | data/tutorials.ts:12-192 | the object literal has a property exactly for each listed name, and each property's value is listed with its name |
| Tutorials.OwnHoldsEntries | data/tutorials.ts:12-192 | with distinct names, the object has exactly the listed properties with their listed values |
| Tutorials.TableWellFormed | data/tutorials.ts:12-191 | nine entries, each key equals its record's slug, no key repeats |
| Tutorials.GetTutorialMetadataAsWritten | data/tutorials.ts:195-197 | a listed slug gives its record; an inherited member name gives that member; anything else is undefined |
| Tutorials.MetadataAsWrittenAnswersInherited | data/tutorials.ts:196 | "constructor" and "toString" are answered with inherited members, not undefined |
| Tutorials.GetTutorialMetadata | data/tutorials.ts:195-197 | a record iff the slug is listed; that record, whose slug is the argument |
| Tutorials.MetadataLookupsAgree | data/tutorials.ts:195-197 | outside inherited names the corrected and as-written lookups agree |
| Tutorials.GetAllTutorialSlugs | data/tutorials.ts:200-202 | nine distinct slugs, exactly those the lookup knows |
| Tutorials.FallbackSlugsAreCatalogue | app/sitemap.ts:99-109 | the sitemap's fallback list is the catalogue's key list, in order |
| Tutorials.FilterByDifficulty | data/tutorials.ts:206 | only records of the difficulty, never more than the input |
| Tutorials.GetTutorialsByDifficulty | data/tutorials.ts:205-207 | every returned record has the requested difficulty |
| Tutorials.FilterCounts | data/tutorials.ts:206 | each record of the difficulty is kept as often as it occurs, every other one dropped |
| Tutorials.FilterKeepsOrder | data/tutorials.ts:206 | the result is a subsequence of the input, in table order |
| Tutorials.DifficultiesPartition | data/tutorials.ts:205-207 | the three filters together are a partition of the records |
| TutorialTypes.CategoryColorsDistinct | types/tutorial.ts:167-173 | no two categories share a background or text class |
| TutorialUtils.TutorialUrl | lib/tutorial-utils.ts:52 | the URL is as long as the base URL, `/tutorials/` and the slug together |
| TutorialUtils.SlugOfTutorialUrl | lib/tutorial-utils.ts:52 | a slug is read back only from a URL that is that slug's tutorial URL |
| TutorialUtils.TutorialUrlRoundTrip | lib/tutorial-utils.ts:52 | the slug is recovered from the tutorial URL |
| TutorialUtils.GenerateTutorialMetadata | lib/tutorial-utils.ts:10-43 | page title = title + " \| Nano Banana Fans"; OpenGraph and Twitter use the bare title; description copied three times; times at midnight UTC; one 1200×630 cover with alt title + " Tutorial Cover", shared with Twitter; OpenGraph type `article`, Twitter card `summary_large_image` |
| TutorialUtils.MetadataRecoversTutorial | lib/tutorial-utils.ts:11-32 | the title, both dates and the cover title are recovered by removing the suffixes |
| TutorialUtils.MetadataTitleInjective | lib/tutorial-utils.ts:11 | equal page titles come from equal tutorial titles |
| TutorialUtils.GenerateBreadcrumbItems | lib/tutorial-utils.ts:48-54 | three items: Home at the base URL, Tutorials at the base URL + `/tutorials`, then the tutorial's title at its tutorial URL, from which the slug reads back |
| TutorialUtils.BreadcrumbsNest | lib/tutorial-utils.ts:49-53 | each breadcrumb URL extends the previous one |
| TutorialUtils.GenerateSchemaOrgData | lib/tutorial-utils.ts:59-80 | URL names the slug; dates, author (a Person), tags as keywords, category, difficulty, read time and rating copied unchanged |
| TutorialUtils.SeoRecordsAgree | lib/tutorial-utils.ts:48-80 | schema URL = last breadcrumb URL; schema image = OpenGraph cover; OpenGraph times = schema dates at midnight |
| TutorialHeader.Initial | components/tutorials/TutorialHeader.tsx:15 | a prefix of the word: one character for a non-empty word, nothing for an empty one |
| TutorialHeader.WordStartsSplits | components/tutorials/TutorialHeader.tsx:13-16 | split, take initials and join equals the reference scan of word starts |
| TutorialHeader.InitialsOf | components/tutorials/TutorialHeader.tsx:15-16 | one initial per non-empty word |
| TutorialHeader.WordStartsInName | components/tutorials/TutorialHeader.tsx:13-16 | the scan yields no space and a subsequence of the name |
| TutorialHeader.AuthorInitials | components/tutorials/TutorialHeader.tsx:13-16 | initials: one per non-empty word, no space, a subsequence of the name |
| TutorialHeader.WordStarts | components/tutorials/TutorialHeader.tsx:13-16 | the reference scan holds no space and is never longer than the name |
| TutorialHeader.BadgeClassName | components/tutorials/TutorialHeader.tsx:22 | the category's background class, a space, then exactly its text class |
| TutorialHeader.SpaceJoinInjective | components/tutorials/TutorialHeader.tsx:22 | a space-joined class list gives back both classes when the first has no space |
| TutorialHeader.BadgeClassNamesDistinct | components/tutorials/TutorialHeader.tsx:12-22 | different categories get different badge classes |

## Left out

- Web-vitals plumbing is not modelled: `reportMetric`, `initWebVitals`, `getAllMetrics`, `PerformanceMonitor` and `WebVitalsInit`. They drive globals, browser callbacks and an external library.
- The report's `timestamp` and `url` fields are not modelled: they read the clock and `window`. The metric list is a parameter instead of the awaited `getAllMetrics()`.
- WebVitals.Rate: NaN measurements are not modelled, because values are exact reals.
- WebVitals.AssessMetrics: metric names are taken to be the library's. The inherited `Object.prototype` names are not modelled for the threshold lookup: the library never reports them.
- CopyToClipboard.ClipboardCopier.CopyText: the awaited write is atomic. Interleaving of concurrent calls and React's batching of state updates are not modelled.
- Toast rendering, the Pro-version action element and real-time `setTimeout` are not modelled.
  - A toast is a record, and the action is a flag.
  - A timer is a pending count, and its expiry is the `ResetTimerFired` event.
- Icon.Capitalize: `toUpperCase` is modelled for Basic Latin letters only. JavaScript's full Unicode mapping can change a string's length.
- PromptCard.TagLabel: the same ASCII-only upper-casing as Icon.Capitalize.
- TutorialHeader.Initial: JavaScript indexes strings by UTF-16 code unit, so `n[0]` of a word starting with a character outside the Basic Multilingual Plane is a lone surrogate. The model's strings are sequences of whole characters, so it takes the whole character.
- Icon.Capitalize: `charAt(0)` and `slice(1)` also split at a UTF-16 code unit. The model splits at a whole character, as in TutorialHeader.Initial.
- PromptCard.TagLabel: the same code-unit split as Icon.Capitalize.
- `getIconByName`, React `lazy`, `Suspense` and dynamic `import` are not modelled. Cached components are opaque tokens with serial numbers.
- `preloadIcons` awaits nothing between its lookups, so the model runs them in order. The promise plumbing is not modelled.
- Sitemap.CollectTutorialPages: the `fs` glob, `path.relative` and `path.dirname` are not modelled. The scan's slug list and whether it threw are parameters.
- Sitemap.StaticPages: the current date is a parameter and `lastModified` is a string, not a `Date`.
- Response headers and the `Response` object of the image-sitemap route are not modelled.
- `formatTutorialDate` is not modelled: it relies on locale-dependent `toLocaleDateString`.
- Tutorial data fields are cut down:
  - The hero, table of contents, related tutorials, comments and navigation fields of a tutorial record are not modelled: only the header reads them, for display.
  - The `data/tutorials/*.ts` content records are not part of this model.
- The tutorial pages and the presentational components (layout, sections, sidebar, hero, navigation, comments, breadcrumb, next steps, progress, skip link, Pro-version action, AdSense) are not part of this model. They are static markup or browser-event code.

## Findings

| source | as written | input that shows it | evidently intended | confidence | as-written member | corrected member |
|---|---|---|---|---|---|---|
| app/prompts/PromptCard.tsx:45 | the colour table is a plain object literal indexed by the tag, so a tag that names an inherited `Object.prototype` member finds that member (a truthy function), which is used as the colour | tag `constructor` or `toString` | every tag outside the six listed gets the grey default `#6b7280` (the same code is at app/prompts/PromptCard.preview.tsx:76) | medium, not executed | PromptCard.TagColorAsWrittenMisses | PromptCard.TagColor |
| data/tutorials.ts:196 | the catalogue is a plain object literal indexed by the slug, so an inherited member name returns a function instead of `undefined` | slug `constructor` or `toString` | `undefined` for every slug that is not a tutorial | medium, not executed | Tutorials.MetadataAsWrittenAnswersInherited | Tutorials.GetTutorialMetadata |
