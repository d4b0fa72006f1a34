# google-fonts-to-png in Dafny

A verified model of the core of google-fonts-to-png. The tool renders a
preview image of each Google Fonts family in a batch of family names.

The model covers three source files:

- `src/generator.js`, class `FontGenerator`. The render session is the
  `browser` and `page` fields, set by `initialize` and cleared by `close`.
  `generatePreview` opens the session lazily, then computes the image width,
  the file name, the stylesheet URL's family value and the capture flags for
  one font. `generateMultiple` runs the batch loop. It isolates failures
  item by item, reports progress and closes the session.
- `src/fonts.js`: the catalogue queries `getAllFontNames`, `getFontInfo` and
  `searchFonts`. The catalogue is passed in as a sequence.
- `src/config.js`: the canvas bounds, the font and background defaults and
  the 25 sample families.

The rendering engine is an oracle. Two datatypes stand for what it does:

- `Launch` is the outcome of `initialize`. Either the launch fails, or the
  browser starts and `newPage` throws, or both start.
- `Render` is the outcome for one font. Either the text measures some width
  and the screenshot is written, or one of the engine calls throws with a
  message.

The `onProgress` callback is an output sequence of `ProgressCall` values.
Widths are exact reals, and `Math.ceil` is an exact ceiling.

Files:

- `wrappers.dfy`: `Option` and `Result`.
- `jsstrings.dfy`: the JavaScript string built-ins the core uses.
- `uri.dfy`: `encodeURIComponent`, with UTF-8 for non-ASCII characters, and
  a percent-decoder.
- `config.dfy`, `fonts.dfy`: one module per source file.
- `preview.dfy`: the pure parts of `generator.js`.
- `generator.dfy`: the `FontGenerator` class, the batch specification and its
  lemmas.

The session has three reachable states:

- closed: no browser and no page;
- open: both a browser and a page;
- broken: a browser but no page. This happens when `newPage` throws inside
  `initialize`.

`FontGenerator.Valid` states that a page is never held without a browser.
Every method keeps it.

The model follows the code as written:

- `initialize` is unconditional and not idempotent. It overwrites a browser
  that is already held.
- `generateMultiple` opens and closes the session even for an empty list.
- `close` is not in a `finally` block. When `initialize` fails inside
  `generateMultiple`, the exception escapes and `close` never runs. If
  `newPage` was the call that threw, the new browser stays held
  (`GenerateMultiple`'s `NewPageFailed` case).
- An empty family name does not fail by itself. It renders to the file
  `.png`.
- Only literal spaces become `+` in the stylesheet URL. `encodeURIComponent`
  then writes each `+` as `%2B`. Spaces and `+` therefore give the same
  value (`UrlFamilySpaceLikePlus`).

## Model

| member | source | states |
|---|---|---|
| `Config.CanvasBoundsConsistent` | src/config.js:7-12 | 0 < minWidth ≤ maxWidth, height > 0, padding ≥ 0, and twice the padding is below minWidth |
| `Config.FontDefaultsSensible` | src/config.js:15-24 | the default font size is positive and the default background is the `transparent` sentinel |
| `Config.SampleFontsWellFormed` | src/config.js:33-60 | the sample list has exactly 25 entries, each non-empty, pairwise distinct |
| `JsStrings.ToLowerAscii` | src/fonts.js:34-36 | `toLowerCase` keeps the length and lower-cases each ASCII letter, position by position |
| `JsStrings.SameIgnoringCaseLower` | src/fonts.js:34-36 | strings equal up to letter case have the same lower-cased form |
| `JsStrings.IncludesIffOccurs` | src/fonts.js:36 | `includes` holds exactly when the query occurs at some position of the string |
| `JsStrings.IncludesEmptyAndSelf` | src/fonts.js:36 | every string includes the empty string and itself |
| `JsStrings.ReplaceChar` | src/generator.js:65 | a global replace of one character keeps the length and rewrites exactly the positions holding that character |
| `JsStrings.JoinPathInjective` | src/generator.js:121 | within one output directory, two paths are equal exactly when the file names are equal |
| `UriComponent.Utf8` | src/generator.js:65 | UTF-8 of a code point is 1 to 4 bytes, each below 256, and is the single byte itself exactly for ASCII |
| `UriComponent.EncodeAlphabet` | src/generator.js:65 | `encodeURIComponent` output uses only unreserved characters and `%` |
| `UriComponent.EncodeAppend` | src/generator.js:65 | encoding a concatenation is the concatenation of the encodings |
| `UriComponent.DecodeEncode` | src/generator.js:65 | percent-decoding undoes `encodeURIComponent` on ASCII input |
| `Fonts.GetAllFontNames` | src/fonts.js:12-15 | one name per catalogue entry: same length, entry i gives name i |
| `Fonts.GetFontInfo` | src/fonts.js:22-25 | the first entry whose family equals the argument exactly, and `None` exactly when no entry has that family |
| `Fonts.MatchPositionsOrdered` | src/fonts.js:35-37 | the positions of the matching entries are listed in strictly increasing order, each once |
| `Fonts.MatchPositionsMembership` | src/fonts.js:35-37 | a position is listed exactly when its entry's lower-cased family includes the lower-cased query |
| `Fonts.SearchFontsListing` | src/fonts.js:32-38 | the exact result: result k is the family of the k-th matching entry, one per match, so duplicates are kept |
| `Fonts.SearchFontsMembership` | src/fonts.js:32-38 | a name is a result exactly when some entry has that family and its lower-cased form includes the lower-cased query |
| `Fonts.SearchFontsOrdered` | src/fonts.js:35-37 | the results are a subsequence of `getAllFontNames`, so catalogue order is kept |
| `Fonts.SearchFontsCaseInsensitive` | src/fonts.js:34-36 | queries that differ only in letter case give identical results |
| `Fonts.SearchFontsEmptyQuery` | src/fonts.js:36 | the empty query returns every catalogue name, in order |
| `Fonts.SearchFontsFindsExactName` | src/fonts.js:36-37 | searching for an entry's exact family finds that family |
| `Fonts.SearchFontsWithinAllNames` | src/fonts.js:12-37 | every search result is one of `getAllFontNames` |
| `Preview.ResolveOptions` | src/generator.js:13-19 | each truthy option is kept; each missing, `''`, `0` or `NaN` option becomes the configured default |
| `Preview.FalsyOptionsGiveDefaults` | src/generator.js:13-19 | with only falsy options the generator uses `<cwd>/images`, height 100, transparent background, black text, 64px |
| `Preview.Ceil` | src/generator.js:113 | `Math.ceil` gives the least integer not below its argument |
| `Preview.OutputWidth` | src/generator.js:112-115 | the width lies in [minWidth, maxWidth]. It is the rounded-up padded width when that is in range, and the nearer bound otherwise |
| `Preview.OutputWidthByMeasurement` | src/generator.js:112-115 | a padded text width ≤ minWidth gives minWidth, ≥ maxWidth gives maxWidth, and in between its ceiling |
| `Preview.SanitizeNoWhitespace` | src/generator.js:120 | the file stem contains no `\s` character and is no longer than the family name |
| `Preview.SanitizeIdentity` | src/generator.js:120 | a family name without whitespace is its own stem |
| `Preview.SanitizeIdempotent` | src/generator.js:120 | sanitising a stem again changes nothing |
| `Preview.SanitizeCollapsesRun` | src/generator.js:120 | a maximal whitespace run becomes exactly one `_` |
| `Preview.SanitizeAppend` | src/generator.js:120 | sanitising splits at any cut that follows a non-whitespace character |
| `Preview.SanitizeSingleSpaced` | src/generator.js:120 | on names with single spaces and no `_`, the stem is the name with each space turned into `_` |
| `Preview.SampleFileNamesDistinct` | src/generator.js:120 | the 25 sample families are written to 25 distinct file names |
| `Preview.SampleOutputPathsDistinct` | src/generator.js:120-121 | in any output directory, the 25 sample families are written to 25 distinct paths |
| `Preview.UrlFamilyNoSpace` | src/generator.js:65 | the stylesheet family value contains no space and no literal `+` |
| `Preview.UrlFamilyRoundTrip` | src/generator.js:65 | decoding the family value of an ASCII name gives the name with spaces turned into `+` |
| `Preview.UrlFamilySeparators` | src/generator.js:65 | a space becomes `%2B`, while a tab, which `/ /g` leaves alone, becomes `%09` |
| `Preview.UrlFamilySpaceLikePlus` | src/generator.js:65 | a space and a `+` at the same place give the same family value |
| `Preview.BackgroundStyle` | src/generator.js:56 | the CSS background value is always the configured colour itself |
| `Preview.PlanRender` | src/generator.js:111-132 | viewport height = configured height. Viewport width = clamped width. The clip is (0, 0, width, height). `omitBackground` holds exactly for `transparent`. The path is `<outputDir>/<stem>.png`. The URL family is the encoded name |
| `Preview.PlanSizeDependsOnlyOnWidth` | src/generator.js:112-117 | the image height never depends on the measurement, and equal measurements give equal image sizes |
| `Preview.DefaultRunOmitsBackground` | src/generator.js:123-125 | a generator built without options captures with an alpha channel |
| `Generator.FontGenerator.constructor` | src/generator.js:12-22 | options are defaulted as `ResolveOptions` says, and the session starts closed |
| `Generator.FontGenerator.Initialize` | src/generator.js:24-35 | launch success sets both handles. A `newPage` failure keeps the new browser and the old page. A launch failure changes nothing. Each failure reports its message |
| `Generator.FontGenerator.Close` | src/generator.js:37-43 | afterwards no browser and no page are held; with no browser held it changes nothing, so it is idempotent |
| `Generator.FontGenerator.GeneratePreview` | src/generator.js:50-135 | opens the session only when no browser is held. It fails with the launch message or the null-page `TypeError`. Otherwise it returns the output path and the render plan, or the engine's message |
| `Generator.FontGenerator.GenerateMultiple` | src/generator.js:143-172 | after a successful open: the result is `BatchSummary`, progress is `ProgressLog` when a callback is given, and the session is closed, also for an empty list. When the open fails: the message escapes, with no progress and no close |
| `Generator.ProgressLog` | src/generator.js:158-166 | one progress call per item: `(i+1, n, name, ok)` in index order |
| `Generator.PositionsOrdered` | src/generator.js:151 | the successful (or failed) positions are listed in strictly increasing order, each below n |
| `Generator.PositionsMembership` | src/generator.js:154-167 | a position is listed exactly when its outcome matches |
| `Generator.BatchCounts` | src/generator.js:151-168 | \|success\| + \|failed\| = \|fontFamilies\|, with one success per successful render |
| `Generator.BatchSuccessListing` | src/generator.js:154-156 | the k-th success is the output path of the k-th font that rendered |
| `Generator.BatchFailedListing` | src/generator.js:161-162 | the k-th failure is `{font, error}` of the k-th font that threw, with its message |
| `Generator.ProgressAgreesWithSummary` | src/generator.js:158-166 | the `ok` of progress call i is true exactly when item i went to `success` |
| `Generator.FailureIsolation` | src/generator.js:154-167 | when only item k throws, `failed` is that one entry and `success` is every other path, in order |
| `Generator.AllMeasured` | src/generator.js:151-160 | when every render succeeds, `success` is every output path in order and `failed` is empty |

## Left out

- Playwright is not modelled. That covers `chromium.launch`, `newPage`,
  `setContent`, `waitForFunction`, the 100 ms `waitForTimeout`, `$`,
  `boundingBox`, `setViewportSize` and `screenshot`. It is a foreign
  rendering engine, so each render is a `Render` outcome and each launch a
  `Launch` outcome. A render that throws midway may have resized the page
  first; that page state is not modelled.
- The `existsSync`/`mkdirSync` calls in `initialize` are filesystem I/O. A
  failure there is part of `LaunchFailed`.
- `getAvailableFonts()` of `@remotion/google-fonts` is network and library
  code, so the catalogue is a parameter. `FontInfo` keeps `fontFamily` and
  `importName` only; the `load` function is dropped.
- `browser.close()` is assumed not to throw.
- Generator.FontGenerator.GenerateMultiple: assumes `onProgress` never
  throws. If it throws on the success path, the source also pushes that
  item to `failed`. The model does not capture that double entry.
- Generator.FontGenerator.GenerateMultiple: `renders` holds one engine
  outcome per item (`|renders| == |fontFamilies|`), so the same name twice
  may render differently, as over a network.
- The HTML and CSS body of the page is not modelled beyond the stylesheet
  family value and the background value. It is markup that the engine
  consumes.
- async/await scheduling is not modelled. Everything runs in sequence.
- JsStrings.ToLowerAscii: lower-cases ASCII letters only. Full Unicode
  `toLowerCase` (its special casings included) is not modelled, so
  `searchFonts` is case-insensitive for ASCII letters only.
- UriComponent.DecodeEncode: the round trip is proved for ASCII input only.
  The decoder does not reassemble multi-byte UTF-8 sequences.
  `encodeURIComponent` itself is modelled for every character.
- JsStrings.JoinPath: `path.join` normalisation (`..`, repeated or trailing
  separators) is not modelled. The result is always directory, `/`, name.
- Preview.Ceil: bounding-box widths are exact reals, not IEEE-754 doubles.
  `Math.max`/`Math.min` with `NaN` are not modelled.
- `src/cli.js` (argument parsing, progress bar, console output,
  `process.exit`) and `src/index.js` (re-exports) are not part of this model.
