# Steam user inventory loader — Dafny model

A model of `SteamUserInventory` from node-steam-inventory (`src/steam_inventory.js`).
The class loads a Steam user's inventory from one of Steam's two inventory endpoints.
It then normalises the raw payload into flat item records.

The model has five modules:

- `Wrappers` (`wrappers.dfy`): `Option`, `Result` and `Outcome`.
- `JsValues` (`js_values.dfy`): the JavaScript primitives the code touches.
  - A value is `undefined`, `null`, a boolean, an integer number or a string.
  - The module defines truthiness, `||`, destructuring defaults, `Number(...)` coercion, template rendering and `toLowerCase`.
- `Normalizer` (`normalizer.dfy`): the static helpers that turn payloads into records.
  - The class/instance join key, the CDN image URL and the inspect link.
  - `formatItem` with its tag fields, `formatData`, and both schema adapters.
- `Loader` (`loader.dfy`): everything about a single request.
  - Parameter validation, the page-size clamp and the cursor rule.
  - The request each endpoint sends and the response-envelope check.
  - The single-page loads and their formatted variants.
- `Pagination` (`pagination.dfy`): the page driver of the current endpoint.
  - The first page's `total_inventory_count` decides how many more pages are fetched.
  - Each next page is requested with the previous page's last `assetid` as cursor.
  - Also the `load` / `loadAndFormat` dispatch between the two endpoints.

The HTTP client is a parameter `fetch: Request -> Reply`.
It maps a structured request to what the client's promise settles with: a rejection, or a response with a decoded body.
Each load returns the requests it sent, in order, with its result or its error (`Trace`).
A rejected promise is a `Failure`: a `TypeError` from validation, an empty previous page, a failed request, an empty or unsuccessful response, or the legacy adapter's `TypeError` on a payload with assets but no description index (`FormatFailed(DescriptionsMissing)`).

The loops of the source are `method`s with loop invariants.
Each is proved equal to a specification function, and the properties the source promises are lemmas about those functions:

- `getInspectItemLink` and its early return.
- The two tag passes of `formatItem`.
- The push loop of `formatData`.
- The index loop of `formatDataFromNewEndPoint`.
- The countdown list and page loop of `loadAllDataFromNewEndPoint`.
- The `concat` loop of `loadAllDataFromNewEndPointAndFormat`.

The page loop is specified as a state machine:

- `Pager` is either paging, or aborted with an error.
- `Step` is one call of `loadFromNewEndPointNextPage`.
- `Iterate` runs the remaining page count of steps.

Two behaviours of the page loop follow from the source as written and are proved as such:

- A page size of 0 with a positive total makes the countdown endless. The paged load requires `PaginationTerminates`, which excludes that case (see "## Left out").
- A last `assetid` that is falsy or not numeric sends no `start_assetid`, so the next request repeats the first page (`UnusableCursorRepeatsFirstRequest`).

## Model

| member | source | states |
|---|---|---|
| Normalizer.ClassInstanceKey | src/steam_inventory.js:69-74 | the key is null exactly when `classid` or `instanceid` is falsy |
| Normalizer.ClassInstanceKeySplits | src/steam_inventory.js:73 | a non-null key is the rendered class id, then `_`, then the rendered instance id |
| Normalizer.JoinKeysMeetOnlyWhenEqual | src/steam_inventory.js:215-217 | two keys name the same object property iff they are equal; a null key (property `"null"`) meets only another null key |
| Normalizer.ItemImageUrl | src/steam_inventory.js:84-89 | the URL exists iff the selected icon reference is truthy, and is then the CDN prefix followed by the reference |
| Normalizer.FirstInspectLinkIsFirstMatch | src/steam_inventory.js:98-111 | the inspect link is the link of the first action named "Inspect in Game..." with a truthy link, in list order; null when no action qualifies |
| Normalizer.GetInspectItemLink | src/steam_inventory.js:98-111 | the scan with early return yields that first-match link; null when `actions` is absent or empty |
| Normalizer.DefaultTagFieldsAre | src/steam_inventory.js:38-45 | the allow-list gives exactly the properties category, type, exterior and quality, all null |
| Normalizer.TagFieldsLastWins | src/steam_inventory.js:179-189 | reading the tags adds no property beyond the four, so tags outside the allow-list are ignored; each property holds the name of the last tag of its category, or null when none has it |
| Normalizer.FormattedItemShape | src/steam_inventory.js:146-196 | `id` and `assetId` are `id`, or `assetid` when `id` is falsy; amount, class and instance ids are copied; `raw` keeps the asset and description; no description iff the record is flagged `descriptionNotExist`; otherwise name and inspect link come from the description, image is the large URL when there is one and else the small one, and the four tag keys are present |
| Normalizer.FormatItem | src/steam_inventory.js:146-196 | building the record field by field and running both tag passes gives the record `FormattedItem` describes |
| Normalizer.FormattedDataPreservesOrder | src/steam_inventory.js:206-224 | one record per asset; record i is built from asset i and the description its key finds in the index, if any |
| Normalizer.FormatData | src/steam_inventory.js:206-224 | the push loop produces exactly those records, in asset order |
| Normalizer.FormattedOldEndPoint | src/steam_inventory.js:206-238 | the legacy adapter fails (the `TypeError` of `hasOwnProperty` on a missing index) iff `rgDescriptions` is absent or null and `rgInventory` has an asset; otherwise it formats `rgInventory` against `rgDescriptions`, and a missing index with no assets gives no records |
| Normalizer.FormatDataFromOldEndPoint | src/steam_inventory.js:233-238 | the adapter method gives exactly that result, error case included |
| Normalizer.IndexOfLastWins | src/steam_inventory.js:252-256 | the built index has a property iff some description has that key, and it holds the last such description |
| Normalizer.FormatDataFromNewEndPoint | src/steam_inventory.js:247-259 | filling the index in a loop and formatting gives `formatData(assets, index of descriptions)` |
| Normalizer.AdaptersAgree | src/steam_inventory.js:233-259 | when a legacy index holds exactly a description list's entries under their own keys, the built index equals it and both adapters give the same records |
| Normalizer.LegacyFixture | src/steam_inventory.js:206-238 | one legacy asset of class 1_2 with a "Type" tag gives one record with that name, type "Gadget" and a null category |
| Loader.ValidateRequiredParams | src/steam_inventory.js:124-137 | passes iff `steamId` is truthy and all three ids are numeric; otherwise the first failing check in the source's order is the error |
| Loader.CheckEnvelope | src/steam_inventory.js:288-296 | a primitive body is an empty response; an object with falsy `success` is unsuccessful; anything else is accepted unchanged |
| Loader.Send | src/steam_inventory.js:285-297 | a request succeeds iff the client resolves and the envelope is accepted; the result is then the client's response, with an object body; a rejection fails with `RequestFailed`, and a resolved reply fails with the envelope's `EmptyResponse` or `UnsuccessfulResponse` |
| Loader.ClampCount | src/steam_inventory.js:358-360 | counts below 0 or above 5000 become 5000; counts in [0, 5000] pass through |
| Loader.StartAssetId | src/steam_inventory.js:363-365 | `start_assetid` is sent iff the cursor is truthy and numeric, and then carries the cursor |
| Loader.NewEndPointRequest | src/steam_inventory.js:348-365 | defaults 730, 2 and "english" fill absent ids and language, the count is clamped, and the cursor rule decides `start_assetid` |
| Loader.LoadFromNewEndPoint | src/steam_inventory.js:348-368 | invalid parameters reject before anything is sent; otherwise exactly the one request is sent and its envelope decides the result |
| Loader.OldEndPointRequest | src/steam_inventory.js:310-317 | the legacy request carries `steamId`, `appId` and `contextId` with the defaults "", 730 and 2 for absent ones |
| Loader.LoadFromOldEndPoint | src/steam_inventory.js:310-319 | the same, for the legacy request `/profiles/{steamId}/inventory/json/{appId}/{contextId}/` |
| Loader.LoadFromOldEndPointAndFormat | src/steam_inventory.js:329-332 | the legacy load then the legacy adapter; a failed load fails with the same error; a payload without a description index but with assets fails with the adapter's error; otherwise the records of the legacy adapter |
| Loader.LoadFromNewEndPointAndFormat | src/steam_inventory.js:394-397 | one current-endpoint load then the current adapter; a failed load fails with the same error |
| Loader.ClampExamples | src/steam_inventory.js:358-360 | page sizes -1, 0, 5000, 5001 and 6000 are sent as 5000, 0, 5000, 5000 and 5000 |
| Loader.EnvelopeExamples | src/steam_inventory.js:288-296 | a null body is empty, `success: false` is unsuccessful, `success: true` is accepted |
| Pagination.PerPage | src/steam_inventory.js:451-457 | the page size is `perPage`, 5000 when absent, and 5000 when it is below 0 or above 5000; it always lies in [0, 5000] |
| Pagination.FirstPageParams | src/steam_inventory.js:446-469 | the first request carries the defaulted ids and language, the page size as `count` and no cursor |
| Pagination.Exceeds | src/steam_inventory.js:474-475 | the total exceeds the page size iff `Number(total)` is a number above it; a total that is not a number falls to the countdown branch, which then counts no page |
| Pagination.TotalCoercionExamples | src/steam_inventory.js:474-475 | the string total "12000" exceeds 5000 and "5000" does not; undefined, null and "many" never exceed; the numbers 5001 and 5000 behave like their strings |
| Pagination.LastAssetId | src/steam_inventory.js:380-381 | the next cursor is the `assetid` of the page's last asset, undefined when the page has none |
| Pagination.RemainingPages | src/steam_inventory.js:479-483 | no further page iff the total is not a number above the page size; otherwise the pages, with the first, are the fewest that cover the total |
| Pagination.LoadFromNewEndPointNextPage | src/steam_inventory.js:378-384 | a previous page without assets rejects without sending; otherwise the cursor becomes its last `assetid` and the request differs from the previous one in `start_assetid` only |
| Pagination.StepKeepsInvariant | src/steam_inventory.js:485-489 | one page turn keeps the request chain intact: every answered request was accepted, and each next request is the first one with the previous page's last `assetid` as cursor; on a rejection the chain of sent requests is kept and the last one sent is the one that failed (its error is kept) or follows a page without assets |
| Pagination.IterateKeepsInvariant | src/steam_inventory.js:485-489 | any number of page turns keep that chain intact |
| Pagination.IterateCounts | src/steam_inventory.js:485-489 | n page turns send at most n more requests, and add exactly n responses when none aborts |
| Pagination.IterateAborted | src/steam_inventory.js:485-489 | after a rejection no further request is sent and the error is kept |
| Pagination.LoadAllPages | src/steam_inventory.js:468-492 | a successful load returns the responses in request order; each request after the first differs from it only in carrying the previous page's last `assetid`; one request when the total fits the page size, otherwise ceil(total / page size) requests |
| Pagination.LoadAllFailure | src/steam_inventory.js:454-492 | invalid parameters reject with the validation error and send nothing; any other failed load sent the first request and then the cursor chain, every request before the last was accepted, and the load's error is either the last request's error or the empty previous page's `NoLastAsset` |
| Pagination.LoadAllSinglePage | src/steam_inventory.js:472-476 | when the first page's total fits the page size, the first response alone is the result |
| Pagination.TwelveThousandItemsTakeThreeRequests | src/steam_inventory.js:475-490 | 12000 items at 5000 per page take three requests; the second and third carry the last `assetid` of the first and second pages as cursor |
| Pagination.ThreeThousandItemsTakeOneRequest | src/steam_inventory.js:475-476 | 3000 items at 5000 per page take one request |
| Pagination.UnusableCursorRepeatsFirstRequest | src/steam_inventory.js:363-384 | when the previous page's last `assetid` is falsy or not numeric, the next request is the first request again, without a cursor |
| Pagination.LoadAllDataFromNewEndPoint | src/steam_inventory.js:446-492 | the first request, total check, countdown list and page loop send and return exactly what `LoadAll` specifies |
| Pagination.FlattenConcat | src/steam_inventory.js:507-509 | repeated `concat` of a list of lists distributes over joining lists |
| Pagination.FormatPagesConcat | src/steam_inventory.js:507-509 | formatting pages distributes over concatenation of the page list |
| Pagination.FormatPagesLength | src/steam_inventory.js:507-509 | the formatted result has one record per asset of every page |
| Pagination.LoadAllDataFromNewEndPointAndFormat | src/steam_inventory.js:503-512 | the same requests as the paged load; on success the per-page formatted records concatenated in page order, on failure the same error |
| Pagination.UsesNewEndPoint | src/steam_inventory.js:408-431 | an absent flag selects the current endpoint; a given flag selects it iff it is truthy |
| Pagination.Load | src/steam_inventory.js:408-414 | the paged load when `UsesNewEndPoint` selects the current endpoint; for the legacy one the single response as a one-element list, with the same error on failure |
| Pagination.LoadAndFormat | src/steam_inventory.js:425-431 | the paged formatted load for the current endpoint; otherwise the legacy load and adapter, with the adapter's error for a payload without a description index |

## Left out

- HTTP transport: `got`, `requestJSON` and `_request` (lines 55-60, 270-273) are a library call. They are the `fetch` parameter.
- Option merging: `extend`/`clone` of got options (lines 29-31, 56, 271), the constructor, `gotOptions` and the per-page `getGotOptionsPromise` provider (459-463, 486). They only thread opaque options into the client.
- Async behaviour: promises are modelled as a sequential run whose rejection is a `Failure`.
- The error class (lines 9-15): errors are the `LoadError` values. The class itself would throw at `this.constructord.name`; that is not modelled.
- URL strings: a request is the structured query. The fixed host and path text and the string rendering of the query are not modelled.
- Numbers: a value is an integer, with no fractions, NaN literal, Infinity or objects. `Number(...)` of a string accepts "" (as 0) and an optional sign followed by digits. It does not model whitespace trimming, hex, exponents or fractions.
- `Num` is an unbounded integer. `Render` does not switch to exponent notation from 1e21 on and does not lose precision above 2^53. Steam sends ids as strings, so ids are not affected.
- Page sizes are integers or absent. `count` or `perPage` of another type (compared and sent as is by the source) is not modelled.
- Legacy `rgInventory` is a list in the order its properties are enumerated. JavaScript's integer-key ordering of object properties is not modelled.
- An absent `assets`, `descriptions` or `rgInventory` is treated as empty; `for...in` over `undefined` visits nothing. An absent `rgDescriptions` is modelled, with its error. `null` elements inside `actions` or `tags` (on which the source would throw) are not modelled.
- The description index is a plain dictionary. On the object literal the current adapter fills (line 249), the key `"__proto__"` (class id `"_"`, instance id `"proto__"`) would hit the prototype setter and create no own property, so the source leaves such an asset undescribed while `IndexOf`/`Lookup` join it. Steam's ids are numeric, so no real key has that name.
- The action-name test is string equality. JavaScript's loose `==` against non-string names is not modelled.
- Pagination.LoadAllDataFromNewEndPoint: requires `PaginationTerminates`. With a page size of 0 and a positive total, the source computes `Math.ceil(total / 0)`, Infinity, and its countdown never ends. The model assumes that case away rather than modelling a load that never settles.
- Pagination.LoadFromNewEndPointNextPage: the assignment to the caller's `params.cursor` is returned as the updated params value. Aliasing of the caller's object is not modelled.
- A total that is not a number still takes the source's "more pages" branch. There `Math.ceil(NaN) - 1` yields no further page, so the model counts 0 remaining pages.
