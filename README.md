# NASA Space Explorer page: a Dafny model of its request, lifecycle and rendering logic

The page fetches data from a NASA proxy API and renders it into fixed regions of
the document: the astronomy picture of the day (APOD), near-earth asteroids, the
NASA image and video library, Mars weather, EPIC earth imagery, Mars rover photos,
a picture gallery and the proxy's cache statistics. This project models the
decision logic under that glue, with the browser taken out:

- `Request` (`request.dfy`) models `makeRequest`. A loop appends every parameter
  whose value is neither null nor `''` to the query, in key order. The outcome of
  the HTTP exchange is an input value. Every failure gets the message prefix
  `Error en la petición: `, and it gets it exactly once.
- `Page` (`page.dfy`) models the page state as the class `PageState`. Per region
  it holds the visibility of the loading indicator, the visibility of the results,
  and the results' content. It also holds the APOD language flag. The show/hide
  helpers, `displayError` and `displaySuccess` are methods, and so is every
  `loadX` function. A loader that sends a request takes what the network
  returned. It returns the URL it requested and, as a ghost value, the page as
  it stood at the `await`. `loadNASAImages` requests nothing: it only shows the
  category menu. The
  lifecycle has three phases, Loading → Succeeded | Failed, and `PhaseOf` reads
  them off the page.
- `Apod` (`apod.dfy`) models the language toggle and the title and explanation
  chosen by `displayAPODResult` (as overridden in `js/overrides.js`). It also
  models the two picture galleries.
- `Asteroids`, `ImageLibrary`, `MarsWeather`, `Epic` and `Rover` model the
  renderers. Each is a pure function from the typed payload to a view datatype.
  The function decides which "no data" branch fires and which fields are picked,
  with their fallbacks. It also fixes the truncation limits and the derived
  counts. EPIC adds its archive-path rewrite.
- `Text` (`text.dfy`) holds the JavaScript semantics these rely on: truthiness of
  optional strings, `||` fallbacks, `slice(0, n)`, the decimal rendering of
  integers (with a round trip), `split`/`join` and upper-casing the first character.

Payloads are typed at the API boundary. A member the JavaScript reads through
`?.`, `||` or a `!x` guard is an `Option`. A member it dereferences without a
guard is mandatory. A missing array that is read as `x || []` is the empty
sequence.

Some of the code's behaviour is uneven, and the model keeps it as written:
- `loadNASAAssetDetails` is the one loader that does not hide the results on entry.
  On success it never calls `showResults`.
- Only the image-library and Mars renderers guard their payload. The picture-of-the-day
  renderer (js/overrides.js:18), both gallery renderers (js/index.js:185 and
  js/index.js:776), and the asteroid, EPIC, rover and statistics renderers
  dereference it unguarded.
- A Mars reading of exactly `0` is shown as `N/A`, because the code uses `av || 'N/A'`.

## Model

| member | source | states |
|---|---|---|
| Text.OrElse | js/index.js:389-392 | `x \|\| fallback`: the value when it is present and non-empty, else the fallback; never empty when the fallback is not |
| Text.Take | js/index.js:244 | `slice(0, n)`: min(n, length) elements, each equal to the input's element at the same index |
| Text.TakeMap | js/index.js:244 | `slice(0, n).map(f)`: min(n, length) entries, the i-th being `f` of the input's i-th element |
| Text.NatToDecimal | js/index.js:85 | `${status}` is a non-empty string of digits without a leading zero |
| Text.DecimalRoundTrip | js/index.js:85 | reading a rendered number back gives the number |
| Text.IntToDecimal | js/index.js:740 | `${n}` renders an integer as '-' exactly when it is negative, then the digits of its magnitude, without leading zeros, which read back as that magnitude |
| Text.Split | js/index.js:692 | `split(d)` gives at least one piece, and no piece contains `d` |
| Text.JoinSplit | js/index.js:692 | `split(a).join(b)` replaces every `a` with `b` |
| Text.ReplaceRemoves | js/index.js:692 | after replacing `a` by `b`, neither `a` nor a character absent before (other than `b`) occurs |
| Text.SplitFirstIsPrefix | js/index.js:692 | `split(d)[0]` is the prefix of the string up to its first `d` |
| Text.AsciiUpper | js/index.js:383 | `toUpperCase` on one character: lower-case ASCII letters go to upper case, all else is unchanged |
| Text.Capitalize | js/index.js:383 | only the first character is upper-cased; the length and the rest are kept |
| Request.Serialize | js/index.js:77 | the text `searchParams.append` stores: empty only for the empty string; a string stores itself; a number stores an optional '-' and then digits without leading zeros that read back as its magnitude |
| Request.KeptQuery | js/index.js:75-79 | the filtered query is no longer than the parameters, and no sent value is the empty string |
| Request.KeptQueryAppend | js/index.js:75-79 | the filtered query of a concatenation is the concatenation of the filtered queries, so key order is kept |
| Request.KeptQuerySingle | js/index.js:76 | a parameter is dropped iff its value is null or `''`; 0, false and undefined are sent |
| Request.KeptQueryMembers | js/index.js:75-79 | a pair is sent iff some parameter with that key has a kept value that serializes to it |
| Request.BuildUrl | js/index.js:74-79 | the URL is the base plus the endpoint, and its query is exactly the kept parameters, serialized, in key order |
| Request.StatusDetail | js/index.js:85 | the thrown message is the server's `error` when truthy, otherwise `HTTP <status>` |
| Request.Outcome | js/index.js:81-91 | success iff the response parsed and is ok, with the parsed data; every failure starts with the fixed prefix, followed by the network reason, the parse reason, or the status detail |
| Request.StatusRecoverable | js/index.js:84-90 | without a server message, the failure reads `<prefix>HTTP ` followed by digits that denote the status |
| Request.MakeRequest | js/index.js:72-92 | the request goes to the filtered URL and settles with `Outcome` |
| Apod.Toggled | js/index.js:137 | the toggle always changes the flag |
| Apod.ToggledTwice | js/index.js:135-141 | toggling twice restores the flag |
| Apod.DisplayApod | js/overrides.js:16-44 | Spanish text iff the flag is defined and Spanish and both `_es` fields are truthy; title and explanation come from the same language; the button appears iff both `_es` fields are truthy, and reads "Ver en Inglés" exactly when Spanish is shown; a video iff `media_type` is 'video'; a copyright line iff `copyright` is truthy |
| Apod.UntranslatedShowsEnglish | js/overrides.js:23-26 | without both `_es` fields the English title and explanation are shown and no button is offered, whatever the flag |
| Apod.ToggleSwitchesText | js/overrides.js:23-25 | with a translation, toggling the flag switches the language of the text |
| Apod.ToggleTwiceRestoresView | js/index.js:135-141 | toggling twice renders the same picture exactly as before |
| Apod.DisplayGallery | js/index.js:181-196 | every picture gets one tile, in order, with its URL, title and date, with no truncation (the same renderer appears at js/index.js:772-787) |
| Asteroids.Flatten | js/index.js:230 | `.flat()` holds as many entries as the groups together, every entry of every group, and nothing else |
| Asteroids.FlattenAppend | js/index.js:230 | flattening a concatenation of groups concatenates the flattened parts, so `.flat()` keeps group order |
| Asteroids.FlattenSingle | js/index.js:230 | one group flattens to itself, so order and repeats within a group are kept |
| Asteroids.CountHazardous | js/index.js:239 | the hazardous count is at most the number of asteroids; it is 0 iff none is hazardous and equals the length iff all are |
| Asteroids.CountHazardousAppend | js/index.js:239 | counting hazardous asteroids distributes over concatenation |
| Asteroids.CountHazardousSingle | js/index.js:239 | one asteroid counts 1 exactly when it is potentially hazardous, else 0 |
| Asteroids.HazardousFlatten | js/index.js:230-239 | the hazardous count over the flattened list is the sum of the per-date counts |
| Asteroids.DisplayAsteroids | js/index.js:228-257 | the total is the sum of the per-date lengths; the hazardous count is at most the total; the first min(6, total) asteroids are shown, in order, each with the distance of its first approach if any |
| ImageLibrary.TitleOf | js/index.js:389 | `item.data?.[0]?.title \|\| 'Sin título'`: the first data entry's title when truthy, otherwise 'Sin título'; never empty |
| ImageLibrary.DescriptionOf | js/index.js:483 | the first data entry's description when truthy, otherwise 'Sin descripción'; never empty |
| ImageLibrary.DateOf | js/index.js:391 | the first data entry's `date_created` when truthy, otherwise 'Fecha no disponible'; never empty |
| ImageLibrary.IsVideo | js/index.js:392 | an item is shown as a video iff its media type is exactly 'video' |
| ImageLibrary.FindImageLink | js/index.js:396 | `find`: the index of the first link rendered as an image, or none when no link is |
| ImageLibrary.ImageUrl | js/index.js:395-397 | the `href` of the first image link; with no image link the first link's `href`; with no links `''`; a chosen link without `href` gives `''` |
| ImageLibrary.Tile | js/index.js:387-413 | a result tile shows an image exactly when the chosen URL is not `''`, the title, date and media kind with their fallbacks, and a details button exactly when `nasa_id` is truthy |
| ImageLibrary.DisplaySearch | js/index.js:359-422 | nothing found (naming the category) iff data, collection or items are missing or items is empty; otherwise the heading is the category with only its first character upper-cased, the total hits fall back to 0, and every item gets its tile in order |
| ImageLibrary.WithRender | js/index.js:490-491 | `filter(render === r)` keeps exactly the links rendered as `r` |
| ImageLibrary.WithRenderAppend | js/index.js:490-491 | filtering a concatenation is the concatenation of the filtered parts, so `filter` keeps order and repeats |
| ImageLibrary.WithRenderSingle | js/index.js:490-491 | one link is kept exactly when its `render` is the wanted kind |
| ImageLibrary.MediaTiles | js/index.js:503-529 | one tile per link with its `href`, captioned by `rel` or by the default |
| ImageLibrary.DisplayDetails | js/index.js:446-552 | unavailable iff data or collection is missing; not found iff there is no first item; otherwise at most 3 image links, 2 video links and 10 keywords, in order, and a list is empty (its section omitted) iff the asset has none |
| MarsWeather.BackendError | js/index.js:567-568 | the loader shows `error: message` iff the payload's `error` is truthy (an absent message reads 'undefined') |
| MarsWeather.Reading | js/index.js:634-652 | a reading is 'N/A' iff its average is missing or zero (the `\|\|` fallback); otherwise it is the number followed by its unit |
| MarsWeather.DisplayMars | js/index.js:585-660 | null data gives unavailable; missing or empty `sol_keys` gives no recent data; a last sol without a record gives not available; otherwise the last sol's three readings, the sol ('N/A' when its key is empty) and the update time when truthy |
| Epic.ArchivePath | js/index.js:692 | `split(' ')[0].split('-').join('/')` is the day part with every '-' replaced by '/' |
| Epic.ArchivePathShape | js/index.js:692 | the archive path is the date up to its first space with every '-' turned into '/', so it has no spaces or dashes |
| Epic.DisplayEpic | js/index.js:686-702 | the first min(6, n) images, in order, each fetched from the archive path of its date |
| Rover.DisplayRover | js/index.js:731-746 | the first min(6, n) photos, in order |
| Page.IdsDistinct | js/index.js:16-42 | the loading and results ids of all regions are pairwise distinct, so each helper touches one flag of one region |
| Page.ErrorText | js/overrides.js:6 | an error notice is the warning sign, a space, then the message |
| Page.SuccessText | js/overrides.js:12 | a success notice is the check mark, a space, then the message |
| Page.Outcome | js/index.js:103-108 | a finished load holds the rendered view on success and exactly one error notice on failure |
| Page.PhaseOf | js/index.js:16-42 | a region is Loading while its indicator shows; otherwise Idle with results hidden, Failed when they show an error notice, and Succeeded otherwise |
| Page.Began | js/index.js:100-101 | after `showLoading` and `hideResults` the region is Loading with results hidden; content and every other region's phase are unchanged |
| Page.Settled | js/index.js:103-111 | after the `try`/`catch`/`finally` the loading indicator is hidden and the results are shown with the outcome's content; the region is Succeeded or Failed by the outcome, and the others keep their phase |
| Page.FailedRequestNotice | js/index.js:107-108 | a failed request leaves a notice starting with the warning sign and then the request's error prefix |
| Page.PairQuery | js/index.js:75-79 | two parameters are sent in order, each unless null or `''` |
| Page.ImagesQuery | js/index.js:340-343 | an empty category is dropped from the search query; the limit 12 is always sent |
| Page.AsteroidsQuery | js/index.js:211-214 | each date is sent unless it is empty |
| Page.RoverQuery | js/index.js:714-717 | the rover query is `rover=curiosity`, `sol=1000` |
| Page.CountQueries | js/index.js:122 | the picture galleries send `count=12` (and `count=20`, js/index.js:758) |
| Page.MarsOutcome | js/index.js:563-575 | a failed request fails with its message; a payload with a truthy `error` fails with `error: message`, unprefixed; otherwise the weather renders, even when there is no data |
| Page.DetailsSettled | js/index.js:428-439 | the asset-details load hides loading on every path; on success the results keep their visibility and show the details; on failure the region is Failed with one error notice; the others keep their phase |
| Page.PageState.constructor | js/index.js:8 | the language flag starts at Spanish; every region starts hidden and blank (assumed, see Left out) |
| Page.PageState.ShowLoading | js/index.js:16-18 | only the region's loading flag becomes visible |
| Page.PageState.HideLoading | js/index.js:24-26 | only the region's loading flag becomes hidden |
| Page.PageState.ShowResults | js/index.js:32-34 | only the region's results flag becomes visible |
| Page.PageState.HideResults | js/index.js:40-42 | only the region's results flag becomes hidden |
| Page.PageState.DisplayError | js/overrides.js:4-8 | the region's content becomes one error notice, and the results are shown |
| Page.PageState.DisplaySuccess | js/overrides.js:10-14 | the region's content becomes one success notice, and the results are shown |
| Page.PageState.Begin | js/index.js:100-101 | entry: the loading indicator shown, the results hidden |
| Page.PageState.Settle | js/index.js:103-111 | after the await: render and show, or show the error; then hide loading |
| Page.PageState.LoadApod | js/index.js:99-112 | requests /apod; at the await the region is Loading; the end state is the settled outcome rendered in the current language |
| Page.PageState.LoadMultipleApod | js/index.js:117-130 | requests /apod/multiple with count 12 and settles the APOD region with the gallery |
| Page.PageState.ToggleApodLanguage | js/index.js:135-141 | flips the flag, then reloads the picture, which renders in the new language |
| Page.PageState.LoadAsteroids | js/index.js:203-222 | requests /asteroids with the two dates and settles with the asteroid summary |
| Page.PageState.LoadNASAImages | js/index.js:264-329 | shows the category menu, with loading hidden and results shown |
| Page.PageState.LoadNASAImagesByCategory | js/index.js:335-352 | requests /images with the category and limit, and settles with the search view |
| Page.PageState.LoadNASAAssetDetails | js/index.js:428-439 | shows loading without hiding results, requests the asset's captions, and leaves the results' visibility alone on success |
| Page.PageState.LoadMarsWeather | js/index.js:559-579 | requests /mars; the backend-error early return still hides the loading indicator |
| Page.PageState.LoadEPICImages | js/index.js:667-680 | requests /epic and settles with the EPIC tiles |
| Page.PageState.LoadRoverPhotos | js/index.js:709-725 | requests /rover for curiosity at sol 1000 and settles with the rover tiles |
| Page.PageState.LoadGallery | js/index.js:753-766 | requests /apod/multiple with count 20 and settles the gallery region |
| Page.PageState.LoadStats | js/index.js:794-807 | requests /cache/stats and settles with the three cache counters |

## Left out

- `fetch`, `new URL`, `searchParams` and `response.json()` are not modelled: they are browser APIs. The exchange is an input value. The percent-encoding of the endpoint (including the asset id) and of the query is not modelled.
- The document is not modelled: `getElementById`, `style.display`, and the HTML markup with its fixed headings, explanations and back buttons. Each region is three abstract values and each renderer's output is a view datatype. The model assumes every element id exists on the page.
- A renderer can throw a TypeError on a payload that lacks a member it dereferences without a guard, such as asteroids without `near_earth_objects` or a rover response without `photos`. The loader's `catch` would show that as an error notice. The payload types make those members mandatory, so this path is not modelled, and neither are the browser's TypeError messages.
- `loadAllData` is not modelled: its `Promise.all` fan-out is concurrency. Two loads that interleave at their `await` are not modelled either, for example a language toggle during a pending APOD load.
- The 7-day date window is not modelled because it is built from the wall clock. The two dates are parameters of `LoadAsteroids`.
- The cache hit rate is not modelled because it uses float division and `toFixed`. The statistics view holds the three counters.
- Text.IntToDecimal: writes every integer in plain digits. JavaScript writes a number of magnitude 1e21 or more in exponent form and cannot hold integers beyond 2^53 exactly, and neither is modelled.
- MarsWeather.BackendError: reads an absent `message` as 'undefined'. A `message` that is `null`, which the page would render as 'null', is not modelled.
- JavaScript numbers are integers here. Fractional readings, NaN and the formatting of non-integral numbers are not modelled.
- Page.PageState.constructor: every region starting with its loading indicator and results hidden and its container blank is an assumption, because the initial visibility is set by the page's HTML, and that is not part of this model.
- Text.AsciiUpper: upper-cases ASCII letters only, because the Unicode case mapping of `toUpperCase` (which can change a string's length) is not modelled.
- `Object.keys` lists integer-like keys first. The parameter sequence is taken in the order `Object.keys` yields it, and no caller uses such keys.
- MarsWeather.DisplayMars: keeps the per-sol records in their own map, so it does not model a sol key that coincides with another member of the payload object (such as `sol_keys`).
- The asset id that `displayNASAAssetDetails` receives, the description that `displayNASAImagesResults` computes and the media type that `displayNASAAssetDetails` computes are never rendered, so they are not modelled.
- Smooth navigation, event listeners, the `window` exports and `initApp` are not modelled: they are UI wiring.
- The earlier `displayError`, `displaySuccess` and `displayAPODResult` in `js/index.js` are not modelled because `js/overrides.js` replaces them. Only the replacements are modelled.
