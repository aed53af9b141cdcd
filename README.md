# A verified model of the site's sequential core

This project models the logic of a Gatsby blog and the tooling around it. The parts modelled are those that remain sequential and deterministic once their I/O is made a parameter:

- **Webpack-config generator job** (`functions/webpack-config-generator/`).
  - `generateFiles` builds `generated/<id>/` and zips its contents into `generated/<id>.zip`. It removes the directory when the zip stream closes, then resolves with the id.
  - The `generate`, `download` and `remove` routes sit in front of it, together with the reCAPTCHA guards.
  - The file system is a class holding a map from path to content and a set of directories. It also keeps a ghost log of the operations performed.
  - The reCAPTCHA service is an object that records the tokens it is asked about.
  - The three template generators are not part of this model. Each is given as the files it writes, or the error it throws.
- **Article pagination.** `gatsby-node.ts` writes six-per-page JSON files of the published, non-featured articles. `feed.tsx` and `feed.js` read them back, with a site filter, a search term and a recursive page fetch. The page files are a given sequence in place of `fetch`.
- **Slug.** The title-to-URL chain of `authored.tsx` and `authored.js`.
- **Utilities.** `pipe` and `highlight` of `utils.ts` and `utils.js`.
- **Contact page.** `encode` uses `encodeURIComponent`, which is modelled after section 18.2.6.5 of ECMA-262 (ES2015): each code point outside the unreserved set is written as its UTF-8 bytes, each byte as `%XX` with upper-case hex digits (section 2.1 of RFC 3986). The page also has the quick-fact rotation, the submit body and reset, and `handleChange`.

## Modules

| File | Module | What it holds |
|---|---|---|
| wrappers.dfy | Wrappers | `Option`, `Result` |
| strings.dfy | Strings | lower-casing (ASCII), JavaScript `\s` and `\w` character classes, `includes`, `join`/`split`, decimal numbers |
| types.dfy | Types | the `Article` record and a page file |
| utils.dfy | Utils | `pipe`, `highlight` |
| slug.dfy | Authored | the slug chain, `setData` |
| feed.dfy | Feed | `totalPages`, `applyFilter`, `applyTerm`, `refine`, `fetchArticles`, class `FeedState` |
| feed_js.dfy | FeedJs | distinct `filters`, class `FeedJsState` |
| pagination.dfy | GatsbyNode | `createPages` as class `BuildSite` |
| site.dfy | Site | the build's page files read by the feed; the page-count mismatch |
| uri.dfy | Uri | `encodeURIComponent` and a decoder |
| contact.dfy | Contact | ordered objects, `encode`, the fact rotation, class `ContactPage` |
| paths.dfy | Paths | `path.resolve` on segment lists |
| filesystem.dfy | FileSystem | `mkdirp.sync`, `fs.writeFileSync`, `rimraf.sync`, a zip snapshot, class `FileSystem` |
| generator.dfy | Generator | `generateFiles` |
| handlers.dfy | Handlers | the three routes |

## Model

| member | source | states |
|---|---|---|
| Utils.PipeBasics | src/utils.ts:3-4 | the empty pipe is the identity, `pipe(f)` is `f`, and `pipe(f, g)(x)` is `g(f(x))`: functions apply left to right |
| Utils.PipeAppend | src/utils.ts:3-4 | piping `fs ++ gs` is piping `gs` after piping `fs`; the JavaScript twin `src/utils.js:3` does the same |
| Utils.HighlightFalsyTerm | src/utils.ts:51-53 | an undefined or empty term returns the string unchanged |
| Utils.WrapAllNoOccurrence | src/utils.ts:55-57 | a string with no case-insensitive occurrence of the term is returned unchanged |
| Utils.HighlightIsWrapAll | src/utils.ts:55-60 | for a non-empty term, `highlight` is the global case-insensitive wrap, early return included |
| Utils.StripWrapAll | src/utils.ts:59-60 | removing the inserted span tags from the wrap gives back the string, so matches keep their own casing |
| Utils.HighlightRoundTrip | src/utils.ts:50-61 | for every term, stripping the tags from `highlight(str, hl)` recovers `str` exactly (when `str` has no `<`); the JavaScript twin `src/utils.js:57-68` does the same |
| Authored.DashifyKeepsNoUpper | src/components/authored.tsx:21 | after lower-casing, replacing whitespace runs by `-` leaves no upper-case letter and no whitespace |
| Authored.KeepWordCharsSlugChars | src/components/authored.tsx:22 | removing non-word characters leaves only `[a-z0-9_-]` |
| Authored.SqueezeShape | src/components/authored.tsx:23 | collapsing `--+` leaves no doubled dash and keeps the character set and the first character |
| Authored.TrimStartShape | src/components/authored.tsx:24 | trimming leading dashes gives a suffix that does not start with `-` |
| Authored.TrimEndShape | src/components/authored.tsx:25 | trimming trailing dashes gives a prefix that does not end with `-` |
| Authored.SlugShape | src/components/authored.tsx:19-25 | every slug has only `[a-z0-9_-]`, no `--`, and no leading or trailing `-`; the JavaScript twin `src/components/authored.js:10-16` does the same |
| Authored.SlugIdempotent | src/components/authored.tsx:19-25 | `slug(slug(x)) == slug(x)` |
| Authored.SlugWordChars | src/components/authored.tsx:19-25 | the slug keeps exactly the word characters of the lower-cased title, in order |
| Authored.SlugEmptyIff | src/components/authored.tsx:20-25 | the slug is empty if and only if the title has no word character (whitespace or punctuation only) |
| Authored.SlugOfWords | src/components/authored.js:11-15 | a title of words with any whitespace run between each pair (each run its own length and mix of whitespace), and optional runs before the first and after the last word, slugs to the lower-cased words joined by single dashes; an all-whitespace title slugs to the empty string |
| Authored.SetTitle | src/components/authored.tsx:27-31 | the new record has the raw title and its slug as `url`; every other field is copied; the JavaScript twin `src/components/authored.js:18-22` does the same |
| Feed.TotalPages | src/components/feed.tsx:202 | the page count is the least `r` with `6 * r >= totalCount` |
| Feed.ApplyFilterSpec | src/components/feed.tsx:207-213 | the identity for `All`; otherwise an order-preserving subsequence holding exactly the articles of that site |
| Feed.ApplyTermSpec | src/components/feed.tsx:214-224 | the identity for the empty term; otherwise an order-preserving subsequence holding exactly the articles whose lower-cased title or description contains the term |
| Feed.RefineSpec | src/components/feed.tsx:225 | `refine` is the term filter after the site filter, is one filter by the conjunction, and yields a subsequence of its input |
| Feed.FetchArticles | src/components/feed.tsx:228-258 | past the last page the answer is `{[], page, end: true}`; `end` is set only there; a failure names a missing page between `page` and `totalPages` |
| Feed.FetchArticlesSpec | src/components/feed.tsx:243-257 | a successful fetch stops at a page `c` with `page <= c <= totalPages + 1`; its data is the raw pages `page..c` (or up to the last) in order; every page before `c` refines to empty and page `c` does not |
| Feed.FetchInRangeNeverEnds | src/components/feed.tsx:245-251 | a fetch that starts in range never returns `end: true`, even when its recursion ran past the last page |
| Feed.FeedState.constructor | src/components/feed.tsx:193-202 | the initial state: the first page, `All`, the empty term, `nextPage` 2, not fetching |
| Feed.FeedState.LoadMore | src/components/feed.tsx:261-281 | without the guard nothing changes; otherwise the fetched data is appended and `nextPage` moves past the page reached; a failed fetch leaves `fetching` set; `articles` only grows and `nextPage` only increases |
| Feed.FeedState.ResetWhenCleared | src/components/feed.tsx:292-297 | with the term and the filter both cleared, back to the first page and `nextPage` 2; otherwise nothing changes |
| Feed.FeedState.ChangeFilter | src/components/feed.tsx:318 | stores the filter, then runs the reset effect |
| Feed.FeedState.ChangeTerm | src/components/feed.tsx:336-337 | stores the lower-cased term, then runs the reset effect |
| Feed.ApplyFilterAppend | src/components/feed.js:169-170 | the site filter distributes over concatenation |
| FeedJs.Distinct | src/components/feed.js:144-148 | `Array.from(new Set(xs))` holds the same values as `xs` |
| FeedJs.DistinctSpec | src/components/feed.js:144-148 | the distinct list has no duplicates, and its order is that of first occurrence in the input |
| FeedJs.FiltersSpec | src/components/feed.js:144-148 | every article's site is in `filters`, every entry is some article's site, and none repeats |
| FeedJs.FeedJsState.constructor | src/components/feed.js:138-143 | the initial state, with `filteredArticles == applyFilter(articles)` |
| FeedJs.FeedJsState.FetchArticles | src/components/feed.js:161-172 | nothing once `nextPage` is null; otherwise appends the page to `articles` and its filtered data to `filteredArticles`; `nextPage` becomes `nextPage + 1` while `currentPage < pages`, else null; keeps `filteredArticles == applyFilter(articles)` |
| FeedJs.FeedJsState.ChangeFilter | src/components/feed.js:186 | the filter effect re-establishes `filteredArticles == applyFilter(articles)` |
| GatsbyNode.BuildSite.CreatePages | gatsby-node.ts:48-111 | query errors or missing data throw before any page or file; otherwise one page per authored article and exactly the pagination of the published, non-featured articles |
| GatsbyNode.BuildSite.CreateArticlePages | gatsby-node.ts:57-76 | one page per authored article, with the article's url as path, in query order |
| GatsbyNode.PagesFor | gatsby-node.ts:59-74 | one page request per article, at the same position |
| GatsbyNode.CountPages | gatsby-node.ts:83-84 | the least `r` with `6 * r >= n`; zero exactly when there is nothing to page |
| GatsbyNode.FileNameInjective | gatsby-node.ts:90-91 | distinct page numbers give distinct file names |
| GatsbyNode.BuildSite.WritePagination | gatsby-node.ts:87-111 | afterwards the directory holds exactly `articles-1..countPages`, and file `i` has `pages = countPages`, `currentPage = i` and the `i`-th slice |
| GatsbyNode.PageSizes | gatsby-node.ts:105-111 | every page but the last holds six articles; the last holds one to six |
| GatsbyNode.PagesFromIsSuffix | gatsby-node.ts:105-111 | the pages from `i` on, concatenated, are the list from index `6 * (i - 1)` on |
| GatsbyNode.PagesConcatenate | gatsby-node.ts:105-111 | all pages concatenated in order are the paginated list |
| Site.PageStore | gatsby-node.ts:90-111 | the served page files: `countPages` of them, well numbered, each with `pages = countPages`; the pages' data read in page order is exactly the listed articles, each once and in order |
| Site.ServedPages | gatsby-node.ts:87-111 | reading page `p` of that sequence is looking up `articles-<p>.json` among the files the build wrote |
| Site.FeedTotalCount | src/components/feed.tsx:149-150 | the feed's `totalCount` counts every article, so it is at least the paged count |
| Site.ListedCount | gatsby-node.ts:79-84 | the count the page files are built from is at most the feed's `totalCount`, equals the number of articles the served pages hold together, and `Math.ceil` of it by 6 is the number of page files |
| Site.SameFormula | src/components/feed.tsx:202 | the feed and the build compute a page count by the same formula |
| Site.MissingPageAsWritten | src/components/feed.tsx:202 | as written: once `totalCount` passes `6 * countPages`, the feed's guard admits page `countPages + 1`, and fetching it fails |
| Site.SixListedOneFeatured | src/components/feed.tsx:149-150 | six listed articles and one featured one meet that condition |
| Site.NoMissingPage | src/components/feed.tsx:228-258 | with the listed count, every fetch from page 1 on succeeds |
| Site.OpenFeed | src/components/feed.tsx:193-202 | a feed over the built page files whose page count is the number of files |
| Site.Scroll | src/components/feed.tsx:261-281 | on such a feed a scroll never leaves `fetching` set; `articles` only grows and `nextPage` does not decrease |
| Uri.Utf8 | src/pages/contact.tsx:121 | a code point becomes one to four bytes, each below 256 |
| Uri.DecodeOneEncoded | src/pages/contact.tsx:121 | decoding the escape of one character at the front of any string gives back that character and the escape's length |
| Uri.ComponentRoundTrip | src/pages/contact.tsx:121 | percent-decoding `encodeURIComponent(s)` gives back `s` |
| Uri.EncodedChars | src/pages/contact.tsx:121 | the encoding contains only unreserved characters, `%` and upper-case hexadecimal digits |
| Uri.NoSeparatorsInComponent | src/pages/contact.tsx:121 | neither `&` nor `=` appears raw in an encoded component |
| Contact.Get | src/pages/contact.tsx:121 | a lookup fails exactly for a key the object does not have |
| Contact.Put | src/pages/contact.tsx:188 | `{...o, [k]: v}` maps `k` to `v` and leaves every other key's value alone |
| Contact.PutKeys | src/pages/contact.tsx:188 | replacing an existing key keeps the key order; a new key goes last |
| Contact.PutUnique | src/pages/contact.tsx:188 | keys stay unique |
| Contact.SpreadKeys | src/pages/contact.tsx:170-174 | spreading fresh, unique keys appends them in their order |
| Contact.Segments | src/pages/contact.tsx:120-121 | one segment per key |
| Contact.SegmentsNoAmp | src/pages/contact.tsx:121 | no segment contains `&` |
| Contact.EncodeEmpty | src/pages/contact.tsx:119-123 | the encoding is empty if and only if the object is |
| Contact.EncodeSegments | src/pages/contact.tsx:119-123 | splitting a non-empty encoding on `&` gives the `key=value` segments in key order |
| Contact.EncodeRoundTrip | src/pages/contact.tsx:119-123 | splitting on `&` and on each first `=`, then percent-decoding, gives back the pairs in order; the JavaScript twin `src/pages/contact.js:66-70` does the same |
| Contact.NextFact | src/pages/contact.tsx:148-160 | a tick leaves a valid fact (index in range, text `quickFacts[i]`), increments the index and wraps from the last one to 0; the JavaScript twin `src/pages/contact.js:86-98` does the same |
| Contact.TicksIndex | src/pages/contact.tsx:148-160 | after `n` ticks the index is `(i + n) mod 5` and the fact stays valid |
| Contact.RotationPeriod | src/pages/contact.tsx:149-159 | the rotation has period exactly five: five ticks return to the same fact, fewer never do |
| Contact.JsString | src/pages/contact.tsx:171-172 | a null attribute or captcha value is sent as the string `null` |
| Contact.SubmitKeys | src/pages/contact.tsx:170-174 | the submit body's keys are `form-name`, `g-recaptcha-response`, `name`, `email`, `message`, in that order |
| Contact.ChangeKeepsKeys | src/pages/contact.tsx:187-189 | changing a form field keeps the three keys and their order |
| Contact.ContactPage.constructor | src/pages/contact.tsx:129-138 | the first fact, the empty form, no success |
| Contact.ContactPage.Tick | src/pages/contact.tsx:148-160 | the interval body: the fact becomes the next one and stays valid |
| Contact.ContactPage.Submit | src/pages/contact.tsx:162-185 | the body is the encoding of form name, captcha value and form; a delivered post empties the form and sets success, a failed one changes nothing; the JavaScript twin `src/pages/contact.js:100-123` does the same |
| Contact.ContactPage.HandleChange | src/pages/contact.tsx:187-189 | only the named field changes; the JavaScript twin `src/pages/contact.js:125-127` does the same |
| Paths.Parent | functions/webpack-config-generator/lib/generateFiles.js:21 | the parent of a non-empty path plus its last segment is the path |
| Paths.ResolvePlain | functions/webpack-config-generator/lib/generateFiles.js:21 | resolving plain segments appends them |
| Paths.ResolveAppend | functions/webpack-config-generator/lib/generateFiles.js:21 | resolving a concatenation resolves its parts in turn |
| FileSystem.Ancestors | functions/webpack-config-generator/lib/generateFiles.js:21 | the directories `mkdirp` needs are exactly the non-empty prefixes of the path |
| FileSystem.Mkdirp | functions/webpack-config-generator/lib/generateFiles.js:21-22 | succeeds exactly when no prefix is a file, and then adds every prefix as a directory |
| FileSystem.MkdirpWellFormed | functions/webpack-config-generator/lib/generateFiles.js:21-22 | `mkdirp` keeps every entry's parent a directory and files apart from directories |
| FileSystem.WriteFile | functions/webpack-config-generator/lib/generateFiles.js:28-34 | succeeds exactly when the path is not a directory and its parent is one, and then sets that file's content |
| FileSystem.WriteFileWellFormed | functions/webpack-config-generator/lib/generateFiles.js:28-34 | a write keeps the tree well formed |
| FileSystem.Rimraf | functions/webpack-config-generator/lib/generateFiles.js:68 | removes exactly the files and directories at or below the path, keeps the rest, and keeps the tree well formed |
| FileSystem.RimrafIdempotent | functions/webpack-config-generator/webpack-config-generator.js:18 | removing twice is removing once |
| FileSystem.SnapshotEntries | functions/webpack-config-generator/lib/generateFiles.js:90-94 | the archive's file entries are exactly the files below the directory, whatever their content (an earlier archive there included), named relative to it and holding that file's content |
| FileSystem.SnapshotFolders | functions/webpack-config-generator/lib/generateFiles.js:90-94 | the archive's folders are exactly the directories below it, named relative to it |
| FileSystem.FileSystem.MkdirP | functions/webpack-config-generator/lib/generateFiles.js:21-22 | `mkdirp.sync`: the error exactly when `Mkdirp` fails; otherwise the new state and a logged `MkDir` |
| FileSystem.FileSystem.WriteFileSync | functions/webpack-config-generator/lib/generateFiles.js:28-34 | `fs.writeFileSync`: the error exactly when `WriteFile` fails; otherwise the new state and a logged `Write` |
| FileSystem.FileSystem.RimrafSync | functions/webpack-config-generator/lib/generateFiles.js:68 | `rimraf.sync`: the state `Rimraf` gives, and a logged `Remove` |
| Generator.GenerateSpec | functions/webpack-config-generator/lib/generateFiles.js:17-101 | the run's outcome and disk: a resolved run resolves with exactly `options.id` |
| Generator.TemplateThrowRejects | functions/webpack-config-generator/lib/generateFiles.js:96-99 | a template generator that throws rejects the promise with its error; nothing after it runs and the directories already made stay |
| Generator.RunTemplate | functions/webpack-config-generator/lib/generateFiles.js:23-25 | one template generator's writes, in order, stopping at the first failure |
| Generator.MakeDirs | functions/webpack-config-generator/lib/generateFiles.js:21-22 | the two `mkdirp` calls, as the step function says |
| Generator.RunTemplates | functions/webpack-config-generator/lib/generateFiles.js:23-25 | the three generators in order, as the step function says |
| Generator.MakeEntry | functions/webpack-config-generator/lib/generateFiles.js:26-40 | `src/js`, the empty entry file and `src/static`, as the step function says |
| Generator.MakeStyles | functions/webpack-config-generator/lib/generateFiles.js:42-59 | the styles directory and empty file only when asked for, as the step function says |
| Generator.SetupFiles | functions/webpack-config-generator/lib/generateFiles.js:19-59 | the whole `try` block up to the styles file: the state `Setup` gives, and on success the planned operations |
| Generator.GenerateFiles | functions/webpack-config-generator/lib/generateFiles.js:17-101 | the outcome and the disk are those of `GenerateSpec`; a resolved run performed exactly the planned operations, in order, ending with the zip write and then the removal |
| Generator.SafeLayout | functions/webpack-config-generator/lib/generateFiles.js:20-63 | with path-safe options, every path is `generated/<id>/` plus fixed segments, and the zip is `generated/<id>.zip` |
| Generator.OwnOpsShape | functions/webpack-config-generator/lib/generateFiles.js:21-68 | the run's own operations around the template writes, in source order |
| Generator.DirsBeforeFiles | functions/webpack-config-generator/lib/generateFiles.js:21-55 | every operation outside the template writes has an earlier `mkdirp` covering its parent |
| Generator.StylesIff | functions/webpack-config-generator/lib/generateFiles.js:42-59 | the styles file and its directory are created if and only if `processStyles` is `yes` and `stylesPreference` is `separate-files` |
| Generator.Scoped | functions/webpack-config-generator/lib/generateFiles.js:21-63 | with path-safe options, every operation is under `generated/<id>/` or on `generated/<id>.zip` |
| Generator.EntryNameEscapes | functions/webpack-config-generator/lib/generateFiles.js:28-32 | a `jsEntry` of `../../../<name>` writes `generated/<name>.js`, outside the job directory |
| Generator.SetupFacts | functions/webpack-config-generator/lib/generateFiles.js:26-59 | after setup the entry file is empty, the `src`, `src/js` and `src/static` directories exist, and so does any requested empty styles file |
| Generator.SnapshotLayout | functions/webpack-config-generator/lib/generateFiles.js:90-94 | the archive holds those entries relative to the job directory, with no `<id>/` prefix |
| Generator.ZipOutsideJob | functions/webpack-config-generator/lib/generateFiles.js:62-68 | the zip is not under the job directory, so the removal spares it |
| Generator.ResolvedLeavesZip | functions/webpack-config-generator/lib/generateFiles.js:66-71 | after the promise resolves the zip exists with that layout, and nothing under `generated/<id>/` remains |
| Handlers.SameZipPath | functions/webpack-config-generator/webpack-config-generator.js:13 | the routes' `./generated/<id>.zip` is the generator's `../generated/<id>.zip`, for every id |
| Handlers.ReplyTo | functions/webpack-config-generator/webpack-config-generator.js:44-46 | only a resolved generation is answered: 200 with that id |
| Handlers.GenerateRoute | functions/webpack-config-generator/webpack-config-generator.js:22-48 | a missing token gives 400 `Select google recaptcha`, a refused one 400 `Invalid recaptcha`, both leaving the disk alone; otherwise the disk is what generation leaves |
| Handlers.GenerateReplies | functions/webpack-config-generator/webpack-config-generator.js:26-46 | a 400 exactly for a missing or refused token; a 200 exactly when both checks pass and generation resolves, carrying the request's id |
| Handlers.DownloadRoute | functions/webpack-config-generator/webpack-config-generator.js:11-14 | sends the zip of that id when it exists, else passes the error on |
| Handlers.RemoveRoute | functions/webpack-config-generator/webpack-config-generator.js:16-20 | removes that zip and keeps every other file |
| Handlers.GenerateThenDownload | functions/webpack-config-generator/webpack-config-generator.js:44-46 | after a 200 from `generate`, a `download` of that id sends the archive with the entry file, the static folder and any styles file |
| Handlers.RemoveThenDownload | functions/webpack-config-generator/webpack-config-generator.js:16-20 | after `remove`, `download` finds nothing; `remove` is idempotent |
| Handlers.Recaptcha.Verify | functions/webpack-config-generator/webpack-config-generator.js:36 | records the token and answers with the service's `success` |
| Handlers.Generate | functions/webpack-config-generator/webpack-config-generator.js:22-48 | the reply and disk of `GenerateRoute`; the service is asked exactly when a token is present |
| Handlers.Download | functions/webpack-config-generator/webpack-config-generator.js:11-14 | the reply of `DownloadRoute` |
| Handlers.Remove | functions/webpack-config-generator/webpack-config-generator.js:16-20 | the disk of `RemoveRoute`, with status 200 set and nothing sent |

## Left out

- Timers: `debounce`, `throttle` and `useInterval` are left out. `Contact.ContactPage.Tick` models one interval tick and `Feed.FeedState.LoadMore` models one debounced call.
- Network and DOM: `fetch` of page files is a given sequence. The scroll position is the `nearBottom` flag. The contact post's delivery is the `delivered` flag (`.then` runs on every HTTP status). The reCAPTCHA widget value and the form's `name` attribute are parameters.
- Strings.Lower: lower-casing covers ASCII only. The JavaScript `\s` class is modelled in full, but Unicode case mapping is not.
- Utils.Highlight: the term is taken literally; regular-expression metacharacters in it are not modelled.
- Uri.EncodeComponent: strings are sequences of code points; lone surrogates (which make `encodeURIComponent` throw) are not modelled.
- Contact: objects are ordered key/value lists. The integer-like keys that `Object.keys` lists first are not modelled (the form's keys are not integer-like).
- The zip's byte format, compression and the archiver's events are not modelled. The archive is a map from each relative file path to its content, plus the set of relative folders. The `warning` and `error` handlers throw outside the `try` block, and their effect is not modelled.
- The `Pending` outcome covers a zip stream that cannot be opened: the stream's error is raised outside the `try` block (the listener attached by `archive.pipe` re-raises it), so it is uncaught and the promise never settles.
- Template generators: `generateConfig.js`, `generatePackageJson.js`, `generateHtmlFiles.js` and `lib/verifyRecaptcha.js` are not part of this model. The generators are given as their writes or their error, and the service as a fixed answer.
- Generator.Scoped: path safety is a precondition (`SafeOptions`: a plain id, no `/` in `jsEntry`, a plain styles file name). The source does not check it, and `Generator.EntryNameEscapes` shows what a traversal does.
- Paths: `__dirname` is the relative path `functions/webpack-config-generator`. Its absolute prefix, and `..` past the root, are not modelled. Option values are taken as strings, so string conversion of other JSON types is not modelled.
- Handlers.Download: a missing file is passed to Express's error handler (`Forwarded`); the status Express then sends is not modelled. Headers and the transfer itself are not modelled either.
- Handlers.Generate: a rejected or pending generation sends nothing, because the handler has no `catch`. The handler sends no 500 on failure and does not validate the options.
- gatsby-node.ts: `fs.writeFile` is not awaited, so only the resulting file set is modelled. `JSON.stringify` is modelled as the decoded page-file value.
- Feed: the `firstPage` query is not filtered to listed articles, and is taken as the constructor's parameter. Its relation to the page files is not modelled.
- Concurrency: two requests racing on the same id are not modelled.
- Feed.FeedState.LoadMore: the call is modelled as atomic. In the component, `await fetchArticles(nextPage)` (src/components/feed.tsx:269) can interleave with the filter and search handlers, and the stale closure then writes `[...articles, ...fetched.data]` over their reset; that interleaving is not modelled.
- Handlers.RemoveRoute (and Handlers.Remove, which uses it): `rimraf.sync` is modelled as removing one literal path. rimraf 2.x and 3.x expand glob patterns when that path does not exist, and no `disableGlob` option is passed (functions/webpack-config-generator/webpack-config-generator.js:18), so an id such as `*` would remove every archive in `generated/`. The model does not capture glob expansion.
- FileSystem.Rimraf: removes exactly the given path and what lies under it. Glob expansion of the path is not modelled; this also applies to the removal of the job folder when the zip stream closes (functions/webpack-config-generator/lib/generateFiles.js:68).
- Logging: the `console.log` and `console.error` calls of `generateFiles.js` (functions/webpack-config-generator/lib/generateFiles.js:35, 40, 56, 67, 74, 79, 97) are dropped, since they change no file and no outcome.

## Findings

| source | as written | input that shows it | evidently intended | confidence | as-written member | corrected member |
|---|---|---|---|---|---|---|
| src/components/feed.tsx:202 | `totalPages` is `Math.ceil(totalCount / 6)` over all articles (feed.tsx:149-150), while gatsby-node.ts:79-84 pages only the published, non-featured ones | six published, non-featured articles and one featured one: `totalPages` is 2 but only `articles-1.json` exists. Scrolling fetches `articles-2.json`, the fetch fails, and `fetching` stays set | the page count of the listed articles, the one the build uses | not executed | Site.MissingPageAsWritten | Site.NoMissingPage |
