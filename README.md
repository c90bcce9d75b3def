# Titik Fiksi slugs and content normalisation, in Dafny

Titik Fiksi is a static site for novels ("karya", works) and short writings ("tulisan").
Its content lives in two JSON files. Three browser scripts read them:

- `assets/js/generator.js` is an admin tool. It normalises each record's slug with
  `safeSlug`, refuses to run when a file is unreadable, when both lists are empty, or
  when a collection has duplicate normalised slugs, and then downloads one detail page `<slug>.html` per
  record while writing a log.
- `assets/js/main.js` renders the list pages. It normalises fields (`safeText`, `truncate`,
  `getCover`), builds one card per record with a detail link when the record has a slug,
  and fills each container with a failure notice, a placeholder, or the cards in order.
  It also applies the site title.
- `assets/js/detail.js` runs on a generated detail page. It reads the slug back from the
  page's own file name, finds the first record whose lowercased slug matches, and shows
  that record's fields or a not-found notice.

The model has seven modules:

- `Wrappers`: the `Option` type.
- `JsString`: the JavaScript string built-ins the scripts use. These are `trim` with the
  ECMAScript whitespace set, `toLowerCase` on ASCII, `replace` with a string pattern
  (first occurrence only), `join` and decimal printing.
- `Content`: the loosely typed records. Every field is an `Option<string>`. It also holds
  the `??`/`||` coercions and the normalisers shared by both pages.
- `Generator`: `generator.js`. `safeSlug` is a pure function. The duplicate check, the
  abort rules and the two generation loops are methods, each proved against a
  specification function. Downloads are `(filename, kind)` values and the log box is a
  sequence of log lines.
- `Site`: `main.js`. The card builders are functions. The container writes, `setLink` and
  `applySettings` are methods on small element and document classes.
- `Detail`: `detail.js`. The slug extraction and the lookup are functions. The page is a
  class whose methods write its title, fields, box and cover the way the script does.
- `SlugAgreement`: how the three scripts' slugs relate. The generator names each file
  after `safeSlug(slug)`. A card links to `lower(trim(slug))`. The detail page looks
  records up by `lower(slug || "")`. The lemmas state exactly when these meet.
  `SpacedSlugDiverges` proves that the slug `"a b"` breaks both links.

## Model

| member | source | states |
|---|---|---|
| JsString.IsWhite | assets/js/generator.js:50-53 | definition: the ECMAScript whitespace and line-terminator code points, which `trim` removes and `\s` matches |
| JsString.Trim | assets/js/generator.js:50 | definition: `trim` is `trimEnd` of `trimStart`; the result is never longer than the input (full characterisation in `TrimSpec`) |
| JsString.TrimSpec | assets/js/generator.js:50 | `trim` removes exactly a whitespace prefix and a whitespace suffix, and its result starts and ends with a non-white character |
| JsString.TrimFixedPoint | assets/js/generator.js:50 | `trim(s) == s` exactly when `s` neither starts nor ends with whitespace |
| JsString.TrimIdempotent | assets/js/generator.js:50 | trimming twice is trimming once |
| JsString.TrimBlankIff | assets/js/main.js:51-52 | a string trims to `""` exactly when every character is whitespace |
| JsString.Lower | assets/js/generator.js:51 | `toLowerCase` keeps the length and maps each character on its own |
| JsString.LowerProperties | assets/js/generator.js:51 | lowercase output has no upper-case letter, whitespace is unchanged, lowercasing is idempotent and leaves lowercase text alone |
| JsString.IndexOfFrom | assets/js/detail.js:45 | finds the first occurrence of the pattern at or after a position, or reports none |
| JsString.ReplaceFirst | assets/js/detail.js:45 | definition: the string with the first occurrence of the pattern, found by `IndexOfFrom`, replaced, or the string itself when there is none |
| JsString.ReplaceFirstAt | assets/js/detail.js:45 | `replace` with a string pattern rewrites only the first occurrence |
| JsString.ReplaceFirstAbsent | assets/js/detail.js:45 | `replace` leaves a string without the pattern unchanged |
| JsString.Join | assets/js/main.js:207 | definition: `Array.prototype.join`: the parts in order with the separator between consecutive parts |
| JsString.JoinEmptyAppend | assets/js/main.js:207 | `join("")` of a concatenation is the concatenation of the joins |
| JsString.NatToString | assets/js/generator.js:336-337 | the printed count is a non-empty run of decimal digits without a leading zero |
| JsString.NatToStringValue | assets/js/generator.js:336-337 | the printed digits read back, most significant first, as the count itself |
| Content.OrElse | assets/js/generator.js:49 | `v \|\| fb` is `v` when it is a non-empty string, otherwise `fb` |
| Content.SafeText | assets/js/main.js:50-53 | `safeText(v, fb)` is the trimmed `v` when that is non-empty, otherwise `fb`; `detail.js` has the same function |
| Content.SafeTextIdempotent | assets/js/main.js:50-53 | for a trimmed fallback, applying `safeText` again changes nothing |
| Content.CoverOr | assets/js/main.js:76-79 | `getCover(u)` is `u` itself (untrimmed) when `u` is not blank, otherwise the default path |
| Content.CoverNeverBlank | assets/js/main.js:76-79 | with a non-blank default, the cover is never blank |
| Content.FormatDate | assets/js/main.js:62-63 | a missing or empty date formats to `""`; otherwise the given locale formatter is applied |
| Generator.Slugify | assets/js/generator.js:51-53 | the one-pass form of lowercase, filter and hyphenate always yields only `a-z`, `0-9` and `-` |
| Generator.KeepAllowed | assets/js/generator.js:52 | definition: `.replace(/[^a-z0-9\- ]/g, "")` deletes every character other than `a-z`, `0-9`, `-` and space, keeping the rest in order |
| Generator.HyphenateRuns | assets/js/generator.js:53 | definition: `.replace(/\s+/g, "-")` turns every maximal run of whitespace into one `-` and keeps the other characters |
| Generator.SlugifyIsChain | assets/js/generator.js:51-53 | the one-pass form equals the source's chain: lowercase, delete characters outside `[a-z0-9- ]`, then one `-` per whitespace run |
| Generator.SafeSlug | assets/js/generator.js:48-54 | definition: `Slugify(Trim(OrElse(slug, "")))`, i.e. `String(slug \|\| "")` trimmed, then lowercased, filtered and hyphenated in one pass; its properties are the `SafeSlug*` lemmas below |
| Generator.SafeSlugIsChain | assets/js/generator.js:48-54 | `safeSlug(slug)` equals `String(slug \|\| "").trim().toLowerCase()` filtered, then hyphenated |
| Generator.AllowedWhite | assets/js/generator.js:52-53 | the only whitespace character the filter keeps is the space |
| Generator.TrimStartOfFiltered | assets/js/generator.js:50-53 | trimming commutes with lowercasing and filtering once leading whitespace is skipped |
| Generator.HyphenateRunsRun | assets/js/generator.js:53 | a maximal run of whitespace becomes exactly one `-` |
| Generator.SafeSlugIsSlug | assets/js/generator.js:48-54 | every output character is in `a-z`, `0-9` or `-`, so the output has no whitespace |
| Generator.SlugifyKeepsSlug | assets/js/generator.js:51-53 | a string that is already a slug passes through unchanged |
| Generator.SafeSlugFixedPoint | assets/js/generator.js:48-54 | `safeSlug(r) == r` exactly when `r` is a slug |
| Generator.SafeSlugIdempotent | assets/js/generator.js:48-54 | `safeSlug(safeSlug(s)) == safeSlug(s)` |
| Generator.SafeSlugOfNothing | assets/js/generator.js:49 | `safeSlug` of a missing slug and of `""` is `""` |
| Generator.SafeSlugExample | assets/js/generator.js:48-54 | `safeSlug(" Ab C! ") == "ab-c"` |
| Generator.SafeSlugTrailingHyphen | assets/js/generator.js:50-53 | trimming happens before filtering, so `safeSlug("a !") == "a-"` keeps a trailing hyphen |
| Generator.SafeSlugCaseExample | assets/js/generator.js:51 | `"A"` and `"a"` normalise to the same slug |
| Generator.Normalised | assets/js/generator.js:255 | one normalised slug per record |
| Generator.NormalisedAt | assets/js/generator.js:255 | the `i`-th normalised slug is `safeSlug` of the `i`-th record's slug |
| Generator.DupesOf | assets/js/generator.js:250-259 | definition: the duplicates in the order of their second sighting: a non-empty slug already seen and not yet reported is appended |
| Generator.DupesOfMembers | assets/js/generator.js:254-259 | the reported slugs are exactly the non-empty normalised slugs seen at least twice |
| Generator.DupesOfDistinct | assets/js/generator.js:252-257 | each duplicate is reported once, as in a `Set` |
| Generator.DupesOfEmptyIff | assets/js/generator.js:250-266 | nothing is reported exactly when no two records share a non-empty normalised slug, so an empty list passes |
| Generator.DupesStep | assets/js/generator.js:254-259 | one loop step adds the current slug to the duplicates only when it is non-empty, already seen and not yet reported |
| Generator.CheckDuplicateSlugs | assets/js/generator.js:250-266 | the loop over `seen`/`dupes` returns true exactly when there are no duplicates, and otherwise logs one error naming the collection and the duplicates in first-repeat order |
| Generator.DuplicateExample | assets/js/generator.js:250-266 | `["a", "A", "b"]` reports exactly `"a"` |
| Generator.WorkSlugs | assets/js/generator.js:302-303 | the slugs the works loop reads, one per record, in order |
| Generator.WritingSlugs | assets/js/generator.js:321-322 | the same for writings |
| Generator.Pages | assets/js/generator.js:302-313 | definition: one `Download(<slug>.html, kind)` per record with a non-empty normalised slug, in list order |
| Generator.PagesLog | assets/js/generator.js:302-313 | definition: per record in list order, the `Dibuat` line for a created file or the empty-slug error |
| Generator.PagesStep | assets/js/generator.js:302-313 | one loop iteration adds the record's file, if any, and exactly one log line |
| Generator.PagesAppend | assets/js/generator.js:302-313 | the files for a concatenation are the files of each part, in order |
| Generator.PagesCount | assets/js/generator.js:302-313 | the number of files equals the number of records with a non-empty normalised slug |
| Generator.PagesNames | assets/js/generator.js:303-310 | every file is `<normalised slug>.html` for some record with a non-empty slug, and carries that collection's kind |
| Generator.HtmlNameInjective | assets/js/generator.js:308 | different slugs give different file names |
| Generator.PagesDistinct | assets/js/generator.js:295-313 | after a passed duplicate check, the file names within one collection are pairwise distinct |
| Generator.PagesLogPerRecord | assets/js/generator.js:302-313 | each record adds exactly one log line, an error exactly when its slug normalises to `""`, and the loop never stops early |
| Generator.Decide | assets/js/generator.js:276-284 | definition: unreadable works first, then unreadable writings, then the rules on the loaded lists |
| Generator.DecideLists | assets/js/generator.js:286-292 | definition: `works \|\| []` and `writings \|\| []`; two empty lists stop the run, otherwise the duplicate rules decide |
| Generator.DecideSlugs | assets/js/generator.js:295-296 | definition: duplicate works stop the run, then duplicate writings, otherwise the run proceeds with both lists of normalised slugs |
| Generator.Text | assets/js/generator.js:270-342 | definition: the text of every message the run logs, with the two counts printed in decimal |
| Generator.LineText | assets/js/generator.js:24-35 | definition: `log` appends the text and a newline; `logError` prefixes a cross mark |
| Generator.Prelude | assets/js/generator.js:270-271 | definition: the opening line and an empty line every run starts with |
| Generator.AbortLine | assets/js/generator.js:276-296 | definition: the one error line of each abort verdict |
| Generator.RunLog | assets/js/generator.js:298-343 | definition: both headings, each collection's per-record lines, then the summary with the two file counts |
| Generator.Summary | assets/js/generator.js:334-342 | definition: the closing lines: the two file counts and the two destination folders |
| Generator.OutcomeLog | assets/js/generator.js:276-342 | definition: after the opening lines, the one abort line or the full run log |
| Generator.GeneratedFiles | assets/js/generator.js:268-343 | definition: the works' then the writings' files when the run proceeds, none otherwise |
| Generator.GeneratedLog | assets/js/generator.js:268-343 | definition: the two opening lines, then the abort line or the run's log |
| Generator.GeneratePages | assets/js/generator.js:302-313 | the `forEach` loop emits the files and log lines of the specification in list order, and its counter equals the number of files |
| Generator.GenerateAll | assets/js/generator.js:298-343 | after the checks, the works files then the writings files are emitted, and the log has both headings, the per-record lines and the summary with both counts |
| Generator.Preflight | assets/js/generator.js:276-296 | generation proceeds exactly when the abort rules allow it; otherwise exactly one error line is logged: unreadable works, unreadable writings, nothing to generate, duplicate works, or duplicate writings, in that order |
| Generator.CheckLists | assets/js/generator.js:286-296 | with both files loaded: abort on two empty lists, otherwise on duplicate works slugs, then on duplicate writings slugs |
| Generator.CheckSlugs | assets/js/generator.js:295-296 | the writings check runs only when the works check passed, and the verdict records both lists' normalised slugs |
| Generator.Generate | assets/js/generator.js:268-343 | the downloads and the log of one run equal the specification functions over the two loaded files |
| Generator.NoFilesOnAbort | assets/js/generator.js:276-296 | no file is emitted if either file is unreadable, both lists are empty, or either list has duplicates |
| Generator.WorksDuplicatesShortCircuit | assets/js/generator.js:295-296 | with duplicate works slugs, the log ends with the works error whatever the writings hold, and no file is emitted |
| Generator.GeneratedWhenProceeding | assets/js/generator.js:295-332 | with a non-empty collection and no duplicates, the emitted files are those of the works then those of the writings |
| Generator.DangerOfPages | assets/js/generator.js:302-307 | a collection's loop logs an error exactly when some record's slug normalises to `""` |
| Generator.DangerAppend | assets/js/generator.js:30-35 | the log is marked `danger` exactly when one of its parts has an error line |
| Generator.DangerOfRun | assets/js/generator.js:298-343 | a run that goes ahead is marked `danger` exactly when some record of either collection has an empty slug |
| Generator.DangerIff | assets/js/generator.js:268-343 | the log box turns red exactly when the run aborted, or when it proceeded and some slug normalised to `""` |
| Site.GetCover | assets/js/main.js:76-79 | the cover URL when it is not blank, otherwise `assets/images/defaults/cover-default.jpg` |
| Site.Truncate | assets/js/main.js:55-60 | blank text gives `""`; trimmed text within `max` is returned whole; longer text keeps its first `max` characters and adds `"..."`, for length `max + 3` |
| Site.TruncateBounds | assets/js/main.js:55-60 | the result is never longer than `max + 3`, nor than the trimmed text plus 3 |
| Site.TruncateShortIdempotent | assets/js/main.js:55-60 | truncating text that fits again changes nothing |
| Site.CardSlug | assets/js/main.js:163 | definition: `safeText(slug, "").toLowerCase()` |
| Site.DetailLink | assets/js/main.js:163-164 | a card has a link exactly when the trimmed slug is non-empty, and the link is `pages/<folder>/<lower(trim(slug))>.html` |
| Site.SafeTextFilled | assets/js/main.js:50-53 | with a non-blank fallback, a card field is never blank |
| Site.BuildWorkCard | assets/js/main.js:156-168 | title, genre and status fall back to their fixed strings; the synopsis is truncated to 160 and never empty; the cover comes from `getCover`; the link is `pages/works/...` |
| Site.Button | assets/js/main.js:166-168 | definition: the detail button with the link and caption when the card has a link, otherwise nothing (the writings card builds the same button at main.js:222-224) |
| Site.RenderWorkCard | assets/js/main.js:166-188 | definition: the work card template filled with the card's cover, title, genre, status, synopsis and detail button |
| Site.BuildWritingCard | assets/js/main.js:213-224 | title and category fall back to their fixed strings; the body is `truncate(content, 180)`, or `"Belum ada isi tulisan."` when that is empty; the link is `pages/writings/...` |
| Site.WritingMeta | assets/js/main.js:229 | the date segment appears only when the formatted date is non-empty |
| Site.RenderWritingCard | assets/js/main.js:222-235 | definition: the writing card template filled with the card's title, meta line, body and detail button |
| Site.Map | assets/js/main.js:207 | `map` keeps the order and renders each record once |
| Site.MapAppend | assets/js/main.js:207 | mapping a concatenation is concatenating the maps |
| Site.Notice | assets/js/main.js:197-203 | definition: the boxed message that replaces the cards for a load failure or an empty list (the writings page uses the same box at main.js:244-250) |
| Site.WorksContainer | assets/js/main.js:195-207 | definition: the `"Gagal memuat karya."` notice for missing data, the `"Belum ada karya."` placeholder for a missing or empty list, otherwise the joined cards in list order |
| Site.WritingsContainer | assets/js/main.js:242-254 | definition: the same with `"Gagal memuat tulisan."` and `"Belum ada tulisan."` |
| Site.WorksContainerAppend | assets/js/main.js:191-208 | for non-empty lists, the cards of `a + b` are the cards of `a` followed by those of `b` |
| Site.WritingsContainerAppend | assets/js/main.js:238-255 | the same for writings |
| Site.WorksContainerSingle | assets/js/main.js:207 | a one-work list renders exactly that work's card |
| Site.SetLink | assets/js/main.js:38-48 | the element is shown with `href = url` exactly when the URL is not blank after trimming; otherwise it is hidden and `href` is kept; a missing element is untouched |
| Site.InitWorksPage | assets/js/main.js:191-208 | the container gets the failure notice, the `"Belum ada karya."` placeholder, or the cards in order, and nothing else changes |
| Site.InitWritingsPage | assets/js/main.js:238-255 | the same for writings, with the `"Belum ada tulisan."` placeholder |
| Site.SettingsTitle | assets/js/main.js:90-94 | a title containing `\|` is kept; otherwise it becomes `site_title`, but only when that is truthy |
| Site.SettingsTitleIdempotent | assets/js/main.js:90-94 | applying the title rule twice is applying it once |
| Site.ApplySettings | assets/js/main.js:85-101 | missing settings change nothing; otherwise the title follows the rule and the meta description is set only when given |
| Detail.GetCover | assets/js/detail.js:37-40 | the cover URL when it is not blank, otherwise `../../assets/images/defaults/cover-default.jpg` |
| Detail.GetSlugFromFilename | assets/js/detail.js:42-46 | definition: the last path segment with its first `.html` removed, lowercased; read back by `SlugOfPath`, `SlugOfPage` and `SlugOfDirectory` |
| Detail.LastSegment | assets/js/detail.js:44 | the part of the path after its last `/`, which holds no `/` |
| Detail.LastSegmentAfterSlash | assets/js/detail.js:44 | the last segment of `prefix/seg` is `seg` |
| Detail.FirstHtmlAfter | assets/js/detail.js:45 | only the first `.html` is deleted, wherever it occurs in the segment |
| Detail.SlugOfPath | assets/js/detail.js:42-46 | `dir/name.html<rest>` reads back as `lower(name + rest)` |
| Detail.SlugOfPage | assets/js/detail.js:42-46 | `dir/name.html` reads back as `name` for a lowercase name without `/` or `.` |
| Detail.SunsetPage | assets/js/detail.js:42-46 | `/pages/works/sunset.html` yields `"sunset"` |
| Detail.SlugOfDirectory | assets/js/detail.js:42-46 | a path ending in `/` yields `""` |
| Detail.Key | assets/js/detail.js:96 | definition: `(slug \|\| "").toLowerCase()`, untrimmed |
| Detail.FirstMatch | assets/js/detail.js:96 | `find` returns the first index whose key equals the page slug, or nothing |
| Detail.WorkKeys | assets/js/detail.js:96 | each work's key is `(slug \|\| "").toLowerCase()`, not trimmed |
| Detail.WritingKeys | assets/js/detail.js:120 | the same for writings |
| Detail.WritingMetaLine | assets/js/detail.js:128-130 | `" • " + date` follows the category only when the formatted date is non-empty |
| Detail.WorkFields | assets/js/detail.js:100-111 | definition: the tab title, the four fields with their fallbacks, and the cover source and alt text of a found work |
| Detail.WorkFieldsFilled | assets/js/detail.js:100-111 | every shown work field is non-empty, and the tab title is the raw title when truthy, otherwise `"Detail Novel"`, followed by `" \| Titik Fiksi"` |
| Detail.WritingFields | assets/js/detail.js:124-132 | definition: the tab title, title, meta line and content of a found writing |
| Detail.WritingFieldsFilled | assets/js/detail.js:124-132 | every shown writing field is non-empty, and the tab title is the raw title when truthy, otherwise `"Detail Tulisan"`, followed by `" \| Titik Fiksi"` |
| Detail.WorkDetail | assets/js/detail.js:90-99 | not found exactly when the data is missing or no key matches; otherwise a work view |
| Detail.WritingDetail | assets/js/detail.js:114-123 | the same for writings, with the not-found type `"tulisan"` |
| Detail.WorkDetailFirst | assets/js/detail.js:96 | the first work whose key matches is shown, even when later ones match too |
| Detail.WritingDetailFirst | assets/js/detail.js:120 | the same for writings |
| Detail.NotFoundHtml | assets/js/detail.js:79-87 | definition: the not-found markup naming the type of content |
| Detail.Shown | assets/js/detail.js:75-133 | definition: the page after a view: the not-found notice replaces the box markup only; a record view writes the tab title, its fields and (for a work) the cover |
| Detail.SetField | assets/js/detail.js:63-67 | `setText` writes only an element that exists and leaves every other element alone |
| Detail.NotFoundPopulatesNothing | assets/js/detail.js:75-88 | the not-found notice changes no field, title or cover, and replaces the box only when the box exists |
| Detail.DetailPage.SetText | assets/js/detail.js:63-67 | writing one field changes that field and nothing else on the page |
| Detail.DetailPage.ShowNotFound | assets/js/detail.js:75-88 | the page becomes the not-found state |
| Detail.DetailPage.InitWorkDetail | assets/js/detail.js:90-112 | the page ends in the state that the lookup of the slug read from the path prescribes |
| Detail.DetailPage.ShowWork | assets/js/detail.js:100-111 | the tab title, the four fields and the cover are written as the work view prescribes |
| Detail.DetailPage.InitWritingDetail | assets/js/detail.js:114-133 | the page ends in the state that the writing lookup prescribes |
| Detail.DetailPage.ShowWriting | assets/js/detail.js:124-132 | the tab title, title, meta line and content are written as the writing view prescribes |
| Detail.DetailPage.Init | assets/js/detail.js:135-139 | the page changes only for the types `"work"` and `"writing"`, each as its initialiser prescribes |
| Detail.InitView | assets/js/detail.js:135-139 | there is a view exactly for the types `"work"` and `"writing"`; it is a record view or the matching not-found notice |
| SlugAgreement.SlugifyOfLowerSlug | assets/js/generator.js:51-53 | a string whose lowercase form is a slug slugifies to that lowercase form |
| SlugAgreement.SafeSlugOfLowerSlug | assets/js/generator.js:48-54 | when the lowercased raw slug is a slug, `safeSlug` only lowercases |
| SlugAgreement.KeyIsSafeSlugIff | assets/js/detail.js:96 | a record's lookup key equals its generated file name exactly when the key is already a slug |
| SlugAgreement.LinkInjective | assets/js/main.js:164 | two links in one folder are equal only for equal slugs |
| SlugAgreement.LinkMatchesPageIff | assets/js/main.js:163-164 | a blank slug gives neither a link nor a page; otherwise the card links to the generated file exactly when `lower(trim(slug))` is a slug |
| SlugAgreement.WorkCardLinksToPageIff | assets/js/main.js:163-164 | the work card links to the generator's page for the same work exactly when `lower(trim(slug))` is a slug |
| SlugAgreement.WritingCardLinksToPageIff | assets/js/main.js:219-220 | the same for writing cards |
| SlugAgreement.WorkLookupIff | assets/js/detail.js:96 | on a list the generator accepts, work `i`'s page finds work `i` exactly when its key is already a slug |
| SlugAgreement.WritingLookupIff | assets/js/detail.js:120 | the same for writings |
| SlugAgreement.WorkPageShowsWork | assets/js/detail.js:90-111 | the generated page of work `i` reads its own name back and shows work `i` when that work's key is a slug |
| SlugAgreement.WritingPageShowsWriting | assets/js/detail.js:114-133 | the same for writings |
| SlugAgreement.SpacedSlugFile | assets/js/generator.js:48-54 | the slug `"a b"` gives the file `a-b.html` |
| SlugAgreement.SpacedSlugDiverges | assets/js/main.js:163-164 | for a work with slug `"a b"`, the card does not link to the generated page `a-b.html`, and that page does not find the work |

## Left out

- `fetchJSON` (all three files): network I/O. Its result is an input `Option<...>`, where `None` is a failed load or a falsy JSON value.
- `downloadFile` and the page templates of `generator.js` (lines 56-248): a download is a `(filename, kind)` value, and the template is named only by its kind.
- Log wording: the log lines are a datatype of messages. `LineText` gives their text, but the emoji prefixes are not part of any proof.
- `formatDate` (`main.js` and `detail.js`): JavaScript `Date` parsing and `id-ID` locale formatting are foreign. Formatting is a parameter `fmt`; only the empty-date branch is fixed.
- Case mapping: `toLowerCase` is modelled on ASCII `A`-`Z` only. JavaScript lowercases all of Unicode.
- String length: strings are sequences of code points. JavaScript's `length` and `slice` count UTF-16 units, so `truncate` differs for characters outside the Basic Multilingual Plane.
- Non-string JSON values: fields are `Option<string>`. A number or boolean, which `toString()`/`String()` would print, is not modelled.
- `works`/`writings` fields that are truthy but not arrays are not modelled. The `|| []` fallback is modelled.
- DOM plumbing: selectors, `innerHTML` markup beyond the strings the model builds, `style.display` values other than the two `setLink` writes, and event wiring. The pages are small classes holding only the fields these scripts write.
- `applyGlobalLinks`, `initHomePage` and the rest of `main.js`'s initialisation: not part of the slug and normalisation core.
- Asynchronous sequencing in `init` of both pages: each initialiser is modelled as one synchronous step.
- `safeText`'s default fallback (`""` in `main.js`, `"-"` in `detail.js`): every call site passes an explicit fallback, so the default is never used.
- Detail.DetailPage.SetText: the `innerHTML` writes of `setHTML` for genre and status are modelled as text writes of the same string.
- Site.Truncate: `max` is a natural number. The source's `slice(0, max)` with a negative `max` is not modelled, because every call passes 160 or 180.
- Detail.Shown: the page state does not record which elements sit inside `#detail-box`. On the generated work page the fields and the cover are inside it, so the not-found notice removes them; the model keeps them, unchanged, and writes only the box.
- `null` entries in a works or writings array are not modelled: records cannot be null. The card builders (`work?.`, `w?.`) would render a card made only of fallbacks, while `checkDuplicateSlugs` and the detail lookup would throw on `item.slug` / `x.slug`.
- The page path is used as given. The browser's `window.location.pathname` is percent-encoded, which changes only characters a slug never contains.
- Overlapping runs of `generate` (a second click while the first still awaits its two fetches) interleave their lines in one log box. Generator.Generate models one run as a single step.
