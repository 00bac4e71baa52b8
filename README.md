# Europe journey itinerary: a Dafny model

This project models the two pieces of logic in a single-page travel itinerary
site.

- **The album proxy** (`GET /api/icloud`, module `Album`, file `album.dfy`).
  It checks the shared-album token. It asks the album service for the album.
  For each photo record it picks the derivative with the largest height key
  and projects it onto `{url, width, height, caption, id, ts}`, with an empty
  caption and a random id as defaults. It then drops every photo without a
  URL. A missing token and a thrown exception are both answered with status
  500.
- **The itinerary page** (module `Itinerary`, file `itinerary.dfy`). This
  covers the ordered box tests in `Country`, the country and stop counts of
  the detail panel, and the active-stop lookup with its fallback to the first
  stop. The page state is a class `Page` holding the stops, the active id and
  the seven form fields. Its methods are `AddStop` (validate, build the stop,
  append, re-sort by date, select it, clear the form), `SelectStop` (a marker
  click) and `Edit` (typing into an input).

`DateOrder` (file `date_order.dfy`) defines the order stops are sorted by.
`Wrappers` (file `wrappers.dfy`) holds the `Option` type used for JavaScript's
`undefined`/`null`.

These are the modelling choices:

- JavaScript truthiness is written out. `x || null` and `x || ""` treat the
  empty string, and for numbers 0, as missing (`Truthy`, `StringOrNull`,
  `NumberOrNull`, `StringOr`).
- A record's `derivatives` object is a sequence of entries in key
  enumeration order. Each key is a canonical natural number, so
  `parseInt(key, 10)` is the key itself. The descending sort is an insertion
  sort (`SortDescending`). The lookup `p.derivatives[key]` returns the first
  entry with that key (`Lookup`).
- The edge case where the largest key is 0 is modelled as written: then
  `heights[0] || ""` is `""`, which names no key, so nothing is selected.
- The album service is a parameter `getImages: string -> FetchOutcome`. It
  either delivers the album or throws with an optional message.
  `Math.random().toString(36).slice(2)` is the parameter `randomId`, which
  gives the string drawn for the record at position `i`.
- `a.date.localeCompare(b.date)` on "YYYY-MM-DD" strings is lexicographic
  order on characters (`DateOrder.LexLe`). `Array.prototype.sort` is stable,
  and it is modelled as a stable insertion sort (`SortByDate`).
- Coordinates are `real`. The lower-case-and-dash slug, the comma split and
  `parseFloat` are supplied functions (`TextOps`). The random stop suffix
  `Math.floor(Math.random() * 9999)` is a parameter in 0..9998, and it is
  written into the id as a decimal numeral (`Decimal`).

## Model

| member | source | states |
|---|---|---|
| `Album.Entries` | app/api/icloud/route.ts:16 | no ensures of its own: the entries of the `derivatives` object, or of an empty one when it is missing; `NoDerivativesIsDropped` states that a missing object behaves as an empty one |
| `Album.Heights` | app/api/icloud/route.ts:16 | one height per entry, the i-th being the i-th entry's key, in enumeration order |
| `Album.SortDescending` | app/api/icloud/route.ts:16 | the sorted heights are in descending order and are a permutation of the parsed keys |
| `Album.SelectedKey` | app/api/icloud/route.ts:16-17 | the selected key is one of the record's keys and at least every other key; nothing is selected exactly when every key is 0 (or there is none) |
| `Album.Lookup` | app/api/icloud/route.ts:18 | a found derivative is stored under the requested key; nothing is found exactly when no entry has that key |
| `Album.Selected` | app/api/icloud/route.ts:16-18 | the projected derivative is one stored under the largest key, which is positive; there is none exactly when all keys are 0 or absent |
| `Album.SelectsLargestOfThree` | app/api/icloud/route.ts:16-18 | for a record whose three entries hold the keys 100, 200 and 400, in any of the six orders, the key 400 and its derivative are selected |
| `Album.Project` | app/api/icloud/route.ts:19-26 | the url is present exactly when the selected derivative has a non-empty url, and is then that url; a missing caption becomes ""; a non-empty guid is the id unchanged, otherwise the random id; width and height are those of the selected derivative with 0 read as missing, and missing when nothing is selected; ts is the record's ts with 0 read as missing |
| `Album.ProjectAll` | app/api/icloud/route.ts:15-26 | one output per record, the i-th being the projection of the i-th record with the i-th random id |
| `Album.KeepWithUrl` | app/api/icloud/route.ts:27 | every photo kept has a non-empty url; the result is no longer than the input |
| `Album.Normalise` | app/api/icloud/route.ts:15-27 | the output is at most as long as the input and every output photo has a non-null, non-empty url |
| `Album.Kept` | app/api/icloud/route.ts:15-27 | lists, in strictly increasing order, exactly the positions of the records whose selected derivative has a url |
| `Album.NormaliseKeepsExactlyDisplayable` | app/api/icloud/route.ts:15-27 | the output's j-th photo is the projection of the j-th record that has a url: the input in input order minus exactly the records without one |
| `Album.NoDerivativesIsDropped` | app/api/icloud/route.ts:16-27 | a record with no derivatives has no selected derivative and is not in the output |
| `Album.TokenMissing` | app/api/icloud/route.ts:10 | no ensures of its own: `!token`; `Get` and `MissingTokenNeverFetches` state that it alone decides the 500 "Missing ICLOUD_SHARED_ALBUM_TOKEN" answer |
| `Album.Get` | app/api/icloud/route.ts:7-33 | the status is 200 or 500, and 500 exactly for an error body; an error text is never empty; a missing or empty token gives 500 "Missing ICLOUD_SHARED_ALBUM_TOKEN"; every photo of a success body has a url |
| `Album.MissingTokenNeverFetches` | app/api/icloud/route.ts:9-13 | without a token the answer is the same whatever the album service would do, so the service is never consulted |
| `Album.TokenIsPassedOn` | app/api/icloud/route.ts:13-29 | with a token, a delivered album is answered with status 200, its metadata and its normalised photos |
| `Album.MissingPhotosIsEmptyList` | app/api/icloud/route.ts:15 | an album without a `photos` field gives status 200 with an empty photo list |
| `Album.ExceptionIsStatus500` | app/api/icloud/route.ts:30-31 | an exception gives status 500 with its message, or "Failed to fetch iCloud album" when it has none |
| `DateOrder.LexLe` | app/page.tsx:65 | no ensures of its own: `a.localeCompare(b) <= 0` as character-code order; `LexLeReflexive`, `LexLeTotal`, `LexLeTransitive` and `LexLeAntisymmetric` prove it a total order |
| `DateOrder.LexLeTotal` | app/page.tsx:65 | any two dates are comparable |
| `DateOrder.LexLeTransitive` | app/page.tsx:65 | the date order is transitive |
| `DateOrder.LexLeAntisymmetric` | app/page.tsx:65 | dates that sort at or before each other are equal |
| `DateOrder.LexLeReflexive` | app/page.tsx:65 | every date sorts at or before itself |
| `Itinerary.InitialStops` | app/page.tsx:12-18 | no ensures of its own: the seed itinerary; `InitialStopFacts`, `InitialStopsSorted` and `InitialCountries` state its length, dates, coordinates, order and country labels |
| `Itinerary.CountryAsWritten` | app/page.tsx:26-31 | the result is one of the four labels, and each label is returned exactly when its box is the first one, in source order, that holds the point |
| `Itinerary.SwitzerlandUnreachableAsWritten` | app/page.tsx:27-28 | the Switzerland box lies inside the France box, so as written no point is labelled Switzerland |
| `Itinerary.BernIsFranceAsWritten` | app/page.tsx:27-28 | a point in both the France and the Switzerland box (Bern) is labelled France |
| `Itinerary.CountryIntended` | app/page.tsx:26-31 | with the Switzerland box tested first, each label is returned exactly when its box is the first to hold the point; outside the Switzerland box it agrees with the code as written |
| `Itinerary.EveryLabelReachable` | app/page.tsx:26-31 | under the intended labelling, each of the four labels is given to some point (as written, Switzerland never is) |
| `Itinerary.CountrySet` | app/page.tsx:128 | no ensures of its own: `new Set(stops.map(s=>Country(s.coords)))` with `Country` as written; `CountryCountBounds` states that it never holds "Switzerland" |
| `Itinerary.CountryCount` | app/page.tsx:128 | no ensures of its own: the "Countries" figure; `CountryCountBounds` and `InitialCountries` bound it and give its value for the seed trip |
| `Itinerary.CountryCountIntended` | app/page.tsx:128 | no ensures of its own: the same figure under the intended labelling; `CountryCountIntendedBounds` and `InitialCountries` bound it and give its value for the seed trip |
| `Itinerary.StopCount` | app/page.tsx:132 | no ensures of its own: the "Stops" figure, `stops.length`; `CountryCountBounds` states that it is at least the country count |
| `Itinerary.LabelsOfFirstBounded` | app/page.tsx:128 | for any labelling, the first n stops carry at most n distinct labels, all from any set that holds every stop's label |
| `Itinerary.CountryCountBounds` | app/page.tsx:128-133 | for a non-empty list, the panel's country count, computed with `Country` as written, is at least 1, at most 3 and at most the stop count; Switzerland is never among the counted labels |
| `Itinerary.CountryCountIntendedBounds` | app/page.tsx:128-133 | under the intended labelling, the count for a non-empty list is at least 1, at most 4 and at most the stop count |
| `Itinerary.InitialCountries` | app/page.tsx:12-18 | for the seed itinerary the panel shows 2 countries as written, and 3 under the intended labelling |
| `Itinerary.InitialStopsSorted` | app/page.tsx:12-18 | the seed itinerary is in date order |
| `Itinerary.FindById` | app/page.tsx:36 | a found position holds the id and no earlier position does; nothing is found exactly when no stop has the id |
| `Itinerary.ActiveStop` | app/page.tsx:36 | the active stop is the first stop whose id matches, else the first stop; there is none only for an empty list |
| `Itinerary.Page.Active` | app/page.tsx:36 | in a valid page state the active stop is a stop of the list and carries the active id |
| `Itinerary.InsertByDate` | app/page.tsx:65 | no ensures of its own: one step of the stable insertion sort; `InsertByDatePermutes`, `InsertByDateSorted` and `InsertByDateSplits` characterise it |
| `Itinerary.SortByDate` | app/page.tsx:65 | no ensures of its own: `.sort((a,b)=>a.date.localeCompare(b.date))` as a stable insertion sort; `SortByDateSorted`, `SortByDatePermutes`, `SortByDateOfSorted` and `AppendThenSort` characterise it |
| `Itinerary.InsertByDatePermutes` | app/page.tsx:65 | inserting adds exactly the new stop to the multiset of stops |
| `Itinerary.InsertByDateSorted` | app/page.tsx:65 | inserting into a date-sorted list keeps it sorted |
| `Itinerary.SortByDateSorted` | app/page.tsx:65 | the re-sorted list is non-decreasing by date |
| `Itinerary.SortByDatePermutes` | app/page.tsx:65 | the re-sorted list is a permutation of its input, of the same length |
| `Itinerary.SortByDateOfSorted` | app/page.tsx:65 | re-sorting a sorted list leaves it unchanged; with `AppendThenSort` this gives the stable result for the one use the page makes of the sort, a stop appended to a sorted list |
| `Itinerary.InsertByDateSplits` | app/page.tsx:65 | the new stop goes after every stop dated on or before it and before every later one, and the old stops keep their order |
| `Itinerary.AppendThenSort` | app/page.tsx:65 | appending to a sorted list and re-sorting equals inserting the new stop at its place in the old list |
| `Itinerary.AppendedStopIsFound` | app/page.tsx:65-66 | after append and re-sort, the list is sorted, one longer, holds the old stops plus the new one, and the new stop's id is found |
| `Itinerary.DropEmpty` | app/page.tsx:63 | no empty string remains; a string is kept exactly when it was there and is not empty |
| `Itinerary.DropEmptyCounts` | app/page.tsx:63 | every non-empty piece is kept as many times as it occurs, and every empty piece is dropped |
| `Itinerary.DropEmptyAppend` | app/page.tsx:63 | filtering a concatenation is the concatenation of the filtered parts, so the kept pieces stay in their order |
| `Itinerary.Decimal` | app/page.tsx:61 | the numeral is non-empty, made of decimal digits, and has no leading zero |
| `Itinerary.DecimalRoundTrip` | app/page.tsx:61 | the numeral reads back as the number it was written from |
| `Itinerary.StopId` | app/page.tsx:61 | no ensures of its own: the slug, a dash and the suffix numeral; `StopIdDeterminesSuffix` states that for one title the id determines the suffix |
| `Itinerary.StopIdDeterminesSuffix` | app/page.tsx:61 | for one title, equal ids mean equal random suffixes |
| `Itinerary.FormComplete` | app/page.tsx:59 | no ensures of its own: `title && date && lat && lng`; `Page.AddStop` states that the page changes exactly when it holds |
| `Itinerary.NewStop` | app/page.tsx:60-64 | the new stop has the slug-and-suffix id, the form's title, date and story, the parsed coordinates, no links, and photo and video lists without empty strings that hold exactly the non-empty pieces of the split fields, as the filter of those pieces |
| `Itinerary.Page.constructor` | app/page.tsx:34-35 | the page starts with the seed stops, in date order, with the first stop ("rome") active and an empty form |
| `Itinerary.Page.Edit` | app/page.tsx:145-150 | typing sets exactly the edited field; the stops, the active id and the other fields are unchanged |
| `Itinerary.Page.SelectStop` | app/page.tsx:107 | clicking a marker makes that stop active and changes nothing else |
| `Itinerary.Page.AddStop` | app/page.tsx:58-68 | with title, date, lat or lng empty nothing changes; otherwise the stops become the old stops plus the new one, re-sorted by date, one longer and a permutation, the active id becomes the new stop's id and all seven fields are ""; the list stays sorted and the active id stays present |

## Findings

| source | as written | input that shows it | evidently intended | confidence | as-written member | corrected member |
|---|---|---|---|---|---|---|
| app/page.tsx:27-28 | the France box (41..52, -6..10) is tested before the Switzerland box (45..48, 6..10), which lies wholly inside it, so the Switzerland branch can never be taken | Bern (46.948, 7.4474) of the seed itinerary is labelled "France", and the panel counts 2 countries for the seed trip | the innermost box, Switzerland, is tested first: Bern is "Switzerland" and the seed trip counts 3 countries | medium; not executed | `Itinerary.SwitzerlandUnreachableAsWritten` | `Itinerary.CountryIntended` |

`CountryAsWritten` is the page's `Country` with the code's own order, and the
panel's country count (`CountrySet`, `CountryCount`) is computed with it, as
the page does. `CountryIntended` is the corrected labelling, and
`CountryCountIntended` is the count under it. `InitialCountries` states both
counts for the seed itinerary.

## Left out

- Rendering is not modelled: the JSX, the Leaflet map, markers, icon, polyline, CSS loading and the share button (app/page.tsx:20-24, 37, 70-193). It is presentation built on foreign libraries. From that code, the model keeps only the marker click (`SelectStop`) and the form inputs (`Edit`).
- The client's `fetch("/api/icloud")` effect and its album state are not modelled (app/page.tsx:39-51). This is network I/O. The route's answer is modelled by `Album.Get`.
- The album service client `getImages` is not modelled. It is a third-party network call and becomes the parameter `getImages`.
- `revalidate = 900` is a hosting-platform caching setting, not logic.
- The "Days" statistic is not modelled. It depends on JavaScript `Date` parsing and on floating-point rounding of millisecond differences.
- `parseFloat`, `toLowerCase`, the `/\s+/g` replacement and the `/,\s*/` split are supplied functions (`TextOps`), and their JavaScript semantics are not modelled. A `NaN` coordinate has no `real` counterpart.
- `Math.random` is not modelled. Its results are the parameters `randomId` (album ids) and `suffix` (stop ids). The model does not capture how many random draws happen, or in what order.
- Derivative keys are canonical natural numbers below 2^53. Non-canonical keys such as "0400", non-numeric keys (whose `parseInt` is `NaN`) and keys too large for a double to hold exactly are not modelled; for those, `String(heights[0])` may name no property and the record is dropped where the model keeps it.
- An exception thrown while reshaping a malformed album (for example a `null` photo record) is not modelled. The records of the model are always well-formed, and exceptions enter only through the album service call.
- width, height and ts are integers. Their other JavaScript falsy values (`NaN`, `false`) are not modelled.
- `localeCompare` is modelled as character-code order. Locale collation may differ from it on strings that are not zero-padded ISO dates.
- React state updates are modelled as one atomic change of the page state. Batching and re-rendering are not modelled.
- There is no input for the story field, so `Edit` has no story case and `story` is always "" when a stop is added.
- Page.AddStop: the model promises that the active id becomes the new stop's id, not that the panel shows the new stop. Two stops can share an id (same slug and same random suffix), and the panel shows the first stop with the active id (`ActiveStop`, as `stops.find` does), which may be the older one.
