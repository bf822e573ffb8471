# Carmen coverage check, modelled in Dafny

This project models the two halves of the Carmen coverage check.

- **The server's `/check-coverage` handler** (`Carmen_coverage_v2.js`). It builds a cache key from the request's latitude, longitude and address. On a hit it answers from a `node-cache` with a standard time-to-live of 600 seconds. On a miss it reduces the store's rows to one offer per provider: the cheapest, and the first one seen when prices are equal. It then answers "covered" with those offers, or "not covered". Both answers are cached. A query error answers status 500 and caches nothing.
- **The browser's search form** (`carmen_4.3.js`). Two independent checkboxes select coordinate or address search. The change and input listeners keep the `disabled` flags of the fields and of the search button consistent. The click listener raises an alert, makes exactly one `searchCoverage` call, or does nothing when neither box is checked.

Modules, one file each:

- `wrappers.dfy` (`Wrappers`): `Option`.
- `json.dfy` (`Json`): a scalar request field and the text a template literal makes of it.
- `ttl_cache.dfy` (`TtlCache`): the cache's observable contract, as pure functions `Find`/`Put` and a class `Cache` with `Has`, `Get` and `Set`. Time is a parameter, in milliseconds.
- `coverage.dfy` (`Coverage`): rows, the insertion-ordered object, the grouping loop and the response shaping.
- `check_coverage.dfy` (`CheckCoverage`): the request, the cache key, the handler method and three methods that chain two calls.
- `js_text.dfy` (`JsText`): `String.prototype.trim`, and when `parseFloat` does not return NaN, both as ECMA-262 defines them.
- `search_form.dfy` (`SearchForm`): the form as a class whose fields are the DOM elements' `checked`, `value` and `disabled` properties.

The grouping loop `GroupCheapest` is proved equal to the fold `Group`. The lemmas about `Group` then give the full characterisation:

- each provider's kept entry is copied, all fields together, from that provider's *first cheapest row* (`FirstCheapest`);
- there is exactly one such row per provider;
- providers are listed in the order the rows first name them.

On these points the model follows the code:

- The cache key is `latitude,longitude,address` only. There is no medium list and no canonical number formatting. The server never reads `mediums`.
- The handler does not reject a request with no location. It queries with whatever it was given.
- The "not covered" answer has no `providers` field. It is not an empty list.
- The `status = 'live'` filter is part of the SQL, not a post-filter. Rows reach the model already filtered, and their `status` is copied as it comes.
- Equal prices keep the first row in store order, because the replacement test is a strict `<`.

## Model

| member | source | states |
|---|---|---|
| `TtlCache.Cache.constructor` | Carmen_coverage_v2.js:8 | a new cache holds no entries; every entry later set in it lives `TtlMillis` (600 s) |
| `TtlCache.Cache.Has` | Carmen_coverage_v2.js:28 | true exactly when the key has an entry set no more than 600 000 ms before `now` |
| `TtlCache.Cache.Get` | Carmen_coverage_v2.js:29 | returns the stored value when the entry is live, and absent otherwise |
| `TtlCache.Cache.Set` | Carmen_coverage_v2.js:74 | the new entries are the old ones with the key overwritten by the value stamped `now` |
| `TtlCache.FindAfterPut` | Carmen_coverage_v2.js:8 | a value set at `t` is served at every `now <= t + 600 000` ms and never after |
| `TtlCache.FindAfterPutOther` | Carmen_coverage_v2.js:74 | setting one key does not change what any other key reports |
| `TtlCache.PutOverwrites` | Carmen_coverage_v2.js:74-78 | a second set of the same key replaces the value and restarts its time-to-live |
| `TtlCache.ExpiredIsNeverFound` | Carmen_coverage_v2.js:8 | an entry older than the time-to-live is never returned |
| `Coverage.Assign` | Carmen_coverage_v2.js:53-57 | assignment on a prototype-less object keeps the keys distinct and equal to the properties; an existing key keeps its position, a new key goes last |
| `Coverage.GroupIsOnePerProvider` | Carmen_coverage_v2.js:48-59 | after the reduction each provider appears at most once, and the providers are exactly those named by the rows |
| `Coverage.GroupCheapest` | Carmen_coverage_v2.js:51-59 | the loop, with the corrected guard that looks each provider up as an ordinary key, leaves exactly the object `Group` describes |
| `Coverage.GroupIsMinimal` | Carmen_coverage_v2.js:52 | every row's provider is kept, at a price no higher than that row's price |
| `Coverage.GroupPick` | Carmen_coverage_v2.js:52-58 | a kept entry is one row's product, price and status, and every earlier row of that provider is strictly dearer |
| `Coverage.FirstCheapestUnique` | Carmen_coverage_v2.js:52 | a provider has at most one first cheapest row |
| `Coverage.KeptIsFirstCheapest` | Carmen_coverage_v2.js:51-59 | the entry kept for a provider is that provider's first cheapest row, all four fields copied from it |
| `Coverage.FirstCheapestIsKept` | Carmen_coverage_v2.js:51-59 | conversely, every provider's first cheapest row is the entry kept for that provider |
| `Coverage.GroupOrder` | Carmen_coverage_v2.js:48-65 | the object's key order is the order in which the rows first name the providers |
| `Coverage.SortedRowsKeepFirstRow` | Carmen_coverage_v2.js:41-58 | when rows arrive sorted by ascending price, as the query asks, each provider keeps its first row |
| `Coverage.ResponseShape` | Carmen_coverage_v2.js:62-77 | the message is "Yes, this address is covered." exactly when rows came back, and "No, this address is not covered." exactly when none did; `providers` is absent exactly in the latter case; the address is echoed |
| `Coverage.OffersOnePerProvider` | Carmen_coverage_v2.js:48-70 | the offers name distinct providers, and a provider is offered exactly when some row names it |
| `Coverage.OffersAreFirstCheapestRows` | Carmen_coverage_v2.js:53-70 | every offer is one row's four fields taken together, that row being its provider's first cheapest |
| `Coverage.FirstCheapestRowsAreOffered` | Carmen_coverage_v2.js:53-70 | conversely, every provider's first cheapest row is offered in the response |
| `Coverage.OffersInFirstSeenOrder` | Carmen_coverage_v2.js:65-70 | offers are listed in the order the rows first name their providers |
| `Coverage.AcmeBetaScenario` | Carmen_coverage_v2.js:47-71 | Acme at 30 and 25 plus Beta at 40 gives "covered" with Acme at 25 then Beta at 40 |
| `Coverage.InheritedProviderIsDropped` | Carmen_coverage_v2.js:52 | the guard as written drops a provider named "constructor"; the corrected reduction keeps it and offers it |
| `Coverage.AsWrittenAgreesOffPrototype` | Carmen_coverage_v2.js:51-59 | when no provider is named like an `Object.prototype` member, the guard as written and the corrected reduction give the same object |
| `CheckCoverage.KeyIgnoresMediums` | Carmen_coverage_v2.js:24-25 | requests with equal latitude, longitude and address share a key, whatever their mediums |
| `CheckCoverage.KeyDeterminesFields` | Carmen_coverage_v2.js:25 | if the latitude and longitude texts have no comma, equal keys mean equal latitude, longitude and address texts |
| `CheckCoverage.TextLatitudeCanCollide` | Carmen_coverage_v2.js:25 | two different requests with comma-bearing string coordinates share a key |
| `CheckCoverage.HandleCheckCoverage` | Carmen_coverage_v2.js:23-85 | on a hit at `now`: the stored response, no query, cache unchanged. On a miss: query with (longitude, latitude, address). A query error gives status 500 and leaves the cache unchanged. Rows give the `Respond` answer, which is cached under the key stamped `doneAt`, the instant after the awaited query |
| `CheckCoverage.RepeatWithinTtl` | Carmen_coverage_v2.js:24-29 | after a miss whose reply was cached at `d1`, the same place asked again no more than 600 s after `d1`, with any mediums, gets the identical reply and causes no query |
| `CheckCoverage.RepeatAfterTtl` | Carmen_coverage_v2.js:8-44 | after a miss whose reply was cached at `d1`, the same request asked more than 600 s after `d1` queries the store again |
| `CheckCoverage.ErrorIsNotCached` | Carmen_coverage_v2.js:81-83 | a failed query answers status 500, and the next request queries again |
| `JsText.TrimStart` | carmen_4.3.js:79 | the result is a suffix of the input, starts with a non-blank, and only blanks were dropped |
| `JsText.TrimEnd` | carmen_4.3.js:79 | the result is a prefix of the input, ends with a non-blank, and only blanks were dropped |
| `JsText.TrimIsInnerSlice` | carmen_4.3.js:79-81 | `trim()` is the contiguous part of the input that starts right after its leading blanks |
| `JsText.TrimDropsOnlyBlanks` | carmen_4.3.js:79-81 | everything `trim()` drops before and after that part is white space |
| `JsText.TrimEndsAreNotBlank` | carmen_4.3.js:79-81 | a non-empty `trim()` neither starts nor ends with white space |
| `JsText.TrimEmptyIffBlank` | carmen_4.3.js:79-81 | the trimmed address is empty exactly when the typed address is all white space |
| `JsText.NumberTextIsNotBlank` | carmen_4.3.js:60-63 | a text that `parseFloat` reads as a number is neither empty nor blank |
| `SearchForm.SelectedValues` | carmen_4.3.js:56 | the values of exactly the selected options; empty exactly when none is selected |
| `SearchForm.SelectedValuesOfOne` | carmen_4.3.js:56 | one option gives its value when selected and nothing otherwise |
| `SearchForm.SelectedValuesAppend` | carmen_4.3.js:56 | the values of concatenated option lists are the concatenated values, so they follow option order, once per selected option |
| `SearchForm.Form.constructor` | carmen_4.3.js:1-8 | the form starts in the given state of its elements |
| `SearchForm.Form.ValidateInputs` | carmen_4.3.js:40-47 | the button is disabled exactly unless coordinate mode has latitude and longitude non-empty, or address mode has a non-empty address |
| `SearchForm.Form.ToggleInputs` | carmen_4.3.js:24-35 | coordinates: latitude and longitude enabled exactly when checked, address disabled exactly when checked. Address: the mirror image. Another kind changes no field flag. Afterwards the button agrees with validation |
| `SearchForm.Form.CoordinateCheckboxChanged` | carmen_4.3.js:11-13 | records the checkbox, sets the three field flags for coordinate mode, and leaves the button consistent |
| `SearchForm.Form.AddressCheckboxChanged` | carmen_4.3.js:15-17 | records the checkbox, sets the three field flags for address mode, and leaves the button consistent |
| `SearchForm.Form.LatitudeInput` | carmen_4.3.js:50 | records the typed value and re-validates the button |
| `SearchForm.Form.LongitudeInput` | carmen_4.3.js:51 | records the typed value and re-validates the button |
| `SearchForm.Form.AddressInput` | carmen_4.3.js:52 | records the typed value and re-validates the button |
| `SearchForm.Form.SearchClicked` | carmen_4.3.js:55-89 | Coordinate mode wins when both boxes are checked. It searches iff both texts parse as numbers and a medium is selected, sending (lat, lng, null, mediums); otherwise it alerts. Address mode alerts on a blank address and otherwise sends (null, null, trimmed address, mediums). With no box checked, nothing happens. Every search sent could have been made with the button enabled |

## Left out

- The PostgreSQL pool, the SQL text and PostGIS containment (Carmen_coverage_v2.js:11-17, 34-44) are external. The store is represented by its answer, rows or a query error. This includes how the query's `address = $3` and `ST_MakePoint` treat the `null` parameters the form sends. The query's filtering is not modelled either.
- Express routing, JSON parsing, `res.json` serialisation (a field that is `undefined` is dropped), the `console.error(error)` logging on the error path (Carmen_coverage_v2.js:82) and `app.listen` are I/O plumbing.
- `node-cache` internals: the lazy deletion of expired entries on `has`/`get` and the periodic sweep. Neither changes what is returned, so `Has` and `Get` are modelled as reads. The entry is live while `now <= insertedAt + 600 000` ms, following the library's "expired once the expiry is earlier than now" test. The instant between `has` and `get` is taken to be the same. The clock is an input: `now` for `has`/`get` and a later `doneAt` for `set`; how long the query takes is unconstrained.
- Concurrency and `async`: concurrent requests and a cache stampede. The chained methods look the second request up only after the first's reply is cached.
- Coverage.GroupCheapest and CheckCoverage.HandleCheckCoverage compute the corrected reduction of the finding below, not the guard as written. For a provider named like an `Object.prototype` member, the handler as written drops the provider, and the model keeps it. `Coverage.GroupAsWritten` models the guard as written.
- Floating point: a number in the request is held as the text JavaScript renders it (`Json.Number`). A number the form parses is held as the text it came from (`SearchForm.ParseFloatOf`). `JsText.ParsesAsNumber` states exactly when `parseFloat` gives a number rather than NaN: an optional sign, then "Infinity", a digit, or a point and a digit, after leading white space. The value it gives is opaque.
- Prices are integers. If the price column were a decimal type, the driver would hand strings back and `<` would compare them as text. That case is not modelled.
- JavaScript objects list integer-like keys (such as "42") before the others, in numeric order. The model uses plain insertion order for every key.
- A request field that is an array or an object, and the text a template literal makes of it.
- `fetch`, `response.json`, `innerText`/`innerHTML`, `alert`, `window.open` and `document.write` (carmen_4.3.js:98-145) are network and UI effects. A click's alert or call is returned as `ClickOutcome`. A browser does not fire clicks on a disabled button; the model lets `SearchClicked` run in any state.
- The page's markup and the form's initial state are not part of this model. The constructor takes every field as given.

## Findings

| source | as written | input that shows it | evidently intended | confidence | as-written member | corrected member |
|---|---|---|---|---|---|---|
| Carmen_coverage_v2.js:52 | `!providers[row.provider]` on a plain `{}` also sees `Object.prototype`'s properties. For a provider named "constructor", "toString", "valueOf", "__proto__" and so on, the lookup is a truthy inherited member whose `.price` is `undefined`. The row is skipped, and the provider never appears | store rows `[{provider: "constructor", product: "Fibre 100", status: "live", price: 30}]` answer "Yes, this address is covered." with `providers: []` | the object should have no prototype (`Object.create(null)`, or a `Map`), so every provider of the rows, "__proto__" included, is an ordinary key and is offered. An own-key test alone would still lose "__proto__", whose assignment on `{}` sets the prototype | not executed; follows from JavaScript's property lookup | `Coverage.InheritedProviderIsDropped` | `Coverage.GroupIsOnePerProvider` |

`Coverage.GroupAsWritten` is the reduction with the guard as written. `Coverage.Group` is the corrected one, on a prototype-less object; `Coverage.GroupIsOnePerProvider` proves that it keeps every provider of the rows. The handler and every lemma above use `Group`. `Coverage.AsWrittenAgreesOffPrototype` shows the two agree whenever no provider is named like an inherited member.
