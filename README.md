# Clinic backend: treatments and stock, modelled in Dafny

This project models the domain core of a clinic-management backend. A
treatment is recorded for a patient together with its line items, each of
which names an inventory asset and the quantity used. Each item then
decrements that asset's stock, and the new treatment is read back with its
items joined to the asset's name and unit.

The parts modelled are:

- `POST /api/treatments` (`app/api/treatments/route.ts`):
  - normalise the body's alternative field names;
  - validate the patient and the items;
  - insert the treatment;
  - batch-insert its items;
  - decrement each item's asset as a read-then-write, with the result floored at zero;
  - answer with the treatment as the listing shows it.
- `GET /api/treatments?patientId=…`, and the read-composition helper
  `listWithItems` that both routes use.
- `groupAppsByTreatment` (`app/api/_utils/treatments.ts`): index the assets
  by id, then bucket the applications by treatment.
- `normalizeUnit` and the validation chain of `POST /api/assets`
  (`app/api/assets/route.ts`).

## Modules

| file | module | what it holds |
|---|---|---|
| `wrappers.dfy` | `Wrappers` | `Option` (`None` is `null`/`undefined`, `OrElse` is `??`) and `Result` |
| `store.dfy` | `DataStore` | the tables as a value `Tables`, the six store calls as step functions, and the class `Store` whose methods perform them |
| `treatments_route.dfy` | `TreatmentsRoute` | body normalisation, the stock ledger, the listing, the routes as specification functions (`CreateSpec`, `GetSpec`, `ListSpec`) and as methods on a `Store` proved against them |
| `treatments_properties.dfy` | `TreatmentsProperties` | what the treatment routes promise, proved about the specification functions |
| `grouping.dfy` | `TreatmentGrouping` | `groupAppsByTreatment` as a method with two loops, and its properties |
| `assets_route.dfy` | `AssetsRoute` | `normalizeUnit`, `trim`, the asset validation chain, and their properties |

### How the store is modelled

- **Tables.** `treatments` and `treatment_items` are append-only
  sequences. Table order stands in for fetch order. `assets` is a map from
  asset id to row. Treatments and items share one id counter, `nextId`.
- **Failures.** Every store call may fail. A store is created with a failure
  schedule `failing: set<nat>`: the call that would take log position k
  (its index in `log`, which already holds every earlier call) fails exactly
  when k is in `failing`. A read of an asset id that does not
  exist fails as well, as `.single()` does.
- **The call log.** Every call, failed or not, is appended to `log`.
  "No store call was made" therefore means "the log is unchanged", and the
  lemmas also say at which position each call happens.
- **Methods and specifications.** Each route is first written as a total
  function of the tables, with a result of `(Response, Tables)`. The route
  is then written again as a method that calls the `Store` the way the
  source does. The method's `ensures` states that its response and the
  store's new state equal what the function gives.

### JavaScript values

- A line-item quantity goes through `Number(…)`:
  - `null` gives 0;
  - an absent quantity gives NaN, modelled as `None`.
- NaN survives `Math.max(0, …)` and is written back as `null`. A `null`
  stock is read as 0 by the next decrement.
- The date default `new Date().toISOString().slice(0, 10)` is the
  parameter `today`.

### Behaviour of the code worth knowing

- **Missing date.** The code does not reject a missing date. It falls back
  to `application_date`, and then to today's date
  (app/api/treatments/route.ts:74-77).
- **Item quantities.** Item quantities are never validated. Quantities of
  0, negative quantities and NaN quantities are all inserted and applied
  (app/api/treatments/route.ts:105-128).
- **The answer to POST.** Each item of the answer also carries its row
  `id` (app/api/treatments/route.ts:30).

## Model

| member | source | states |
|---|---|---|
| `TreatmentsRoute.NormalizeBody` | app/api/treatments/route.ts:66-94 | The patient check comes first: the patient is missing exactly when the first non-nullish of `patient_id`, `patientId`, `patient` is absent or empty. The item check comes next: there are no items exactly when the patient is present and the item list is empty. On success the request carries that patient, the `date`/`application_date`/today date, the `value_paid ?? value` amount, the `next_date ?? next_application` date and the raw items |
| `TreatmentsRoute.RawItems` | app/api/treatments/route.ts:81-88 | The items come from the first present of `items`, `assets` and `lines`, else `[]`. They keep their length and order. Each item keeps its asset id, and its quantity is `Number(quantity)`, using `qty ?? quantity` for `lines` |
| `TreatmentsRoute.NewQuantity` | app/api/treatments/route.ts:123 | The written stock is `current - qty` when the stock covers the quantity, and 0 otherwise (a null stock counts as 0). It is never negative. It is null exactly when the item quantity is NaN |
| `TreatmentsRoute.FindById` | app/api/treatments/route.ts:133 | `find` returns the first view with the given id. It returns nothing exactly when no view has that id |
| `TreatmentsRoute.Attach` | app/api/treatments/route.ts:27-41 | The `byTreat` dictionary loop and the `map` put every treatment in its place in the list. Each treatment gets exactly its own fetched items, in fetch order |
| `TreatmentsRoute.ListWithItems` | app/api/treatments/route.ts:7-42 | Selects the treatments, stops with `[]` when there are none, then fetches their items in one call and attaches them. A failed call is an error. The result and the new store equal `ListSpec` |
| `TreatmentsRoute.Post` | app/api/treatments/route.ts:61-142 | The response and the new store equal `CreateSpec`. A body that does not parse gives a 500 without any store call |
| `TreatmentsRoute.Write` | app/api/treatments/route.ts:96-135 | Runs the treatment insert, the item insert, the stock phase and the read-back in that order. The first failure answers 500. The result equals `WriteSpec` |
| `TreatmentsRoute.DecrementItem` | app/api/treatments/route.ts:117-128 | One item: read its asset, then write back the new quantity. A failed read, a missing asset or a failed write reports the item's index. The result equals `DecrementOne` |
| `TreatmentsRoute.DecrementStock` | app/api/treatments/route.ts:116-129 | The loop reads and then writes each item's asset in order. It stops at the first failed call and reports that item's index. The result equals `DecrementAll` |
| `TreatmentsRoute.Get` | app/api/treatments/route.ts:44-59 | The response and the new store equal `GetSpec` |
| `TreatmentsRoute.DecrementAllStops` | app/api/treatments/route.ts:122-128 | Once the call for an item has failed, no later item is read or written |
| `DataStore.ItemRows` | app/api/treatments/route.ts:105-109 | The batch rows carry, in input order, consecutive ids from the given first id, the created treatment's id, and each item's asset id and quantity |
| `DataStore.Store.InsertTreatment` | app/api/treatments/route.ts:97-102 | Logs the call. On success it appends one row with the next id and the given fields |
| `DataStore.Store.InsertItems` | app/api/treatments/route.ts:110-113 | Logs the call. On success it appends `ItemRows` for the batch |
| `DataStore.Store.ReadAsset` | app/api/treatments/route.ts:117-122 | Logs the call. It fails on a scheduled failure or a missing asset, and otherwise returns the stock |
| `DataStore.Store.UpdateAsset` | app/api/treatments/route.ts:124-128 | Logs the call. On success it sets the asset's quantity |
| `DataStore.Store.SelectTreatments` | app/api/treatments/route.ts:8-14 | Logs the call. On success it returns the patient's treatments in table order |
| `DataStore.Store.SelectItems` | app/api/treatments/route.ts:20-25 | Logs the call. On success it returns the item rows of the given treatments, joined with their assets |
| `TreatmentsProperties.ApplyAllKeepsAssets` | app/api/treatments/route.ts:116-129 | The stock phase changes quantities only: the same assets remain, with the same names and units |
| `TreatmentsProperties.ApplyAllAt` | app/api/treatments/route.ts:116-129 | Each asset ends at its own items' quantities applied one after another, each time against the latest value |
| `TreatmentsProperties.ApplyAllUntouched` | app/api/treatments/route.ts:116-129 | An asset that no item names keeps its row |
| `TreatmentsProperties.FoldClosedForm` | app/api/treatments/route.ts:123 | With non-negative quantities, flooring after each step equals one floored subtraction of the sum |
| `TreatmentsProperties.StockAfterDecrements` | app/api/treatments/route.ts:116-129 | With non-negative quantities, the final stock of an asset some item names is `max(0, initial - sum of its quantities)`, and an asset no item names is unchanged |
| `TreatmentsProperties.StockNeverNegative` | app/api/treatments/route.ts:123 | A decremented asset holds null or a non-negative value |
| `TreatmentsProperties.TwoItemsOnOneAsset` | app/api/treatments/route.ts:116-129 | Stock 10 with items of 4 and 9 on one asset ends at 0 |
| `TreatmentsProperties.NullAndMissingQuantities` | app/api/treatments/route.ts:108 | A `null` quantity counts as 0: a stock of x >= 0 stays x, and a null stock becomes 0. An absent quantity, which is NaN, writes any stock back as null, and a `null` item after it then writes 0 |
| `TreatmentsProperties.DecrementAllFrame` | app/api/treatments/route.ts:116-129 | The stock phase leaves the treatments, the items, the id counter and the set of assets alone, and only appends to the log |
| `TreatmentsProperties.DecrementAllCalls` | app/api/treatments/route.ts:116-129 | A completed stock phase made exactly two calls per item, in item order: a read of the item's asset, then a write to it |
| `TreatmentsProperties.DecrementAllDone` | app/api/treatments/route.ts:116-129 | A completed stock phase found every item's asset and leaves the ledger's stock |
| `TreatmentsProperties.DecrementAllFailed` | app/api/treatments/route.ts:122-128 | When item k fails (its read failed, its asset is missing, or its write failed), every item before k had its read and its write succeed on an existing asset, so k is the first failure; the items before k are applied and no item from k on is |
| `TreatmentsProperties.DecrementAllWithoutFaults` | app/api/treatments/route.ts:116-129 | Against a store with no failures, the stock phase completes when every item's asset exists |
| `TreatmentsProperties.FetchedItemsOf` | app/api/treatments/route.ts:20-36 | The items the listing attaches to a treatment are exactly its own rows, in table order, each joined with its asset |
| `TreatmentsProperties.ItemsForEmpty` | app/api/treatments/route.ts:40 | A treatment gets `[]` exactly when no fetched row carries its id |
| `TreatmentsProperties.ListShape` | app/api/treatments/route.ts:7-42 | `listWithItems` only reads. It keeps the order of the selected treatments and gives each one exactly its own rows, with the current asset name and unit |
| `TreatmentsProperties.ListNoTreatments` | app/api/treatments/route.ts:17-18 | A patient with no treatments lists as `[]` after a single store call |
| `TreatmentsProperties.ListShowsCreated` | app/api/treatments/route.ts:132-133 | After the inserts, the listing's match for the new id is the new treatment with exactly its new rows |
| `TreatmentsProperties.ReadBackShows` | app/api/treatments/route.ts:132-135 | The read-back changes no table. It answers 500, or 201 with the created treatment and its new rows |
| `TreatmentsProperties.WritePhases` | app/api/treatments/route.ts:96-113 | The two inserts take log positions `|t.log|` and `|t.log| + 1`. A failure of either answers 500 at once: after the first, nothing is written; after the second, only the treatment row is |
| `TreatmentsProperties.CreatedViews` | app/api/treatments/route.ts:29-35 | Each created item shows its own id, asset id, quantity, and the asset's name and unit |
| `TreatmentsProperties.DecrementAllSucceeded` | app/api/treatments/route.ts:116-129 | When every item is applied, each item's read and write succeeded and its asset exists |
| `TreatmentsProperties.StoppedAtUnique` | app/api/treatments/route.ts:116-129 | The item at which a stock phase stops is determined by the run: two stopping items for the same run are the same |
| `TreatmentsProperties.StockFailed` | app/api/treatments/route.ts:116-129 | If the stock phase stops at item k, k is its first failing item (every earlier read and write succeeded), both inserts stay, the items before k are applied, and the route answers 500 |
| `TreatmentsProperties.StockDone` | app/api/treatments/route.ts:114-135 | If the stock phase completes, every item's read and write succeeded, every item is applied, and the read-back answers 500 or the created treatment |
| `TreatmentsProperties.StockOutcomes` | app/api/treatments/route.ts:114-141 | After both inserts, the route answers 201 or 500. The stock phase either stops at its first failing item k with the items before k applied, or has every read and write succeed and applies every item |
| `TreatmentsProperties.WriteOutcomes` | app/api/treatments/route.ts:96-141 | The write phases end in 201 or 500. A 500 leaves one of four states, according to the first failed call: the treatment insert, the item insert, the stock phase at its first failing item, or the read-back after every stock call succeeded. A 201 means one treatment row and N item rows were inserted (item i with the new id, the i-th asset and the i-th quantity), every asset was decremented in turn, and the new treatment is returned with its N items. Ids stay fresh |
| `TreatmentsProperties.CreateRejects` | app/api/treatments/route.ts:61-94 | The statuses are 201, 400 and 500. A 400 happens exactly when validation fails, and it leaves the store untouched with no call made. An unparsable body gives a 500 without any store call |
| `TreatmentsProperties.CreateOutcomes` | app/api/treatments/route.ts:61-142 | POST as a whole: a 400 from validation; a 500 in one of the four partial states; or a 201 with exactly the rows written and the created treatment shown |
| `TreatmentsProperties.EmptyAliasNotSkipped` | app/api/treatments/route.ts:66-72 | An empty `patient_id` is not skipped by `??`. It hides a later `patientId`, so the request is refused with no store call |
| `TreatmentsProperties.CreateWithoutFaults` | app/api/treatments/route.ts:96-135 | Against a store with no failures, a valid body whose assets all exist is answered with 201 |
| `TreatmentsProperties.CreateTwice` | app/api/treatments/route.ts:96-129 | POST is not idempotent: two successful posts of one body create two treatments with distinct ids and decrement the stock twice |
| `TreatmentsProperties.GetOutcomes` | app/api/treatments/route.ts:44-59 | GET only reads. It answers 400 exactly when `patientId` is missing or empty, and otherwise 200 with the listing, or 500 |
| `TreatmentsProperties.GetRequiresPatient` | app/api/treatments/route.ts:46-52 | A missing or empty `patientId` gives 400 before any store call |
| `TreatmentsProperties.GetNoTreatments` | app/api/treatments/route.ts:17-18 | A patient with no treatments gets 200 and `[]` |
| `TreatmentGrouping.IndexById` | app/api/_utils/treatments.ts:30-33 | The first loop keys each asset by its id read as a string. A key is present exactly when some asset id reads it, and it holds the last such asset |
| `TreatmentGrouping.GroupAppsByTreatment` | app/api/_utils/treatments.ts:23-52 | The asset index and the grouping loop produce the keys that occur as treatment ids, and under each key the group `Bucket` describes |
| `TreatmentGrouping.KeysOfMembers` | app/api/_utils/treatments.ts:40-41 | A key is in the output exactly when some application's `String(treatment_id)` is that key |
| `TreatmentGrouping.BucketEmpty` | app/api/_utils/treatments.ts:41 | No group is ever empty: a key's group is empty exactly when the key is not in the output |
| `TreatmentGrouping.PositionsExact` | app/api/_utils/treatments.ts:40-49 | Each application appears exactly once, under its own treatment id. The positions within a group are increasing |
| `TreatmentGrouping.BucketAt` | app/api/_utils/treatments.ts:40-48 | Entry j of a group is the entry of the j-th application with that key, in input order |
| `TreatmentGrouping.TotalEntries` | app/api/_utils/treatments.ts:40-49 | The group sizes add up to the number of applications |
| `TreatmentGrouping.KeyOrderExact` | app/api/_utils/treatments.ts:41 | Keys in first-occurrence order have no duplicates and are exactly the output keys |
| `TreatmentGrouping.LastAssetWins` | app/api/_utils/treatments.ts:30-33 | With duplicate ids, the index holds the last asset with that id. It holds nothing when no asset has that id |
| `TreatmentGrouping.EntryFields` | app/api/_utils/treatments.ts:42-47 | An entry's `asset_id` is `String(app.asset_id)` and its quantity is the application's. Its name and unit come from the indexed asset (a null unit gives `""`), and are `""` and `""` without one |
| `TreatmentGrouping.NumberAndTextCollide` | app/api/_utils/treatments.ts:31-32 | The asset ids 7 and "7" are one key, and the later asset wins |
| `AssetsRoute.NormalizeUnit` | app/api/assets/route.ts:19-27 | The result is always one of `ml`, `mg`, `un` |
| `AssetsRoute.VariantsMeanUn` | app/api/assets/route.ts:24 | Containing one of the six variants is the same as containing `un` |
| `AssetsRoute.NormalizeUnitCases` | app/api/assets/route.ts:19-27 | On the cleaned input: `ml` exactly when it contains `ml` (even alongside `mg`) or none of `ml`, `mg`, `un`; `mg` exactly when it contains `mg` and not `ml`; `un` exactly when it contains `un` and neither of the others |
| `AssetsRoute.NormalizeUnitIdempotent` | app/api/assets/route.ts:19-27 | Applying `normalizeUnit` to its own result gives that result back |
| `AssetsRoute.SpacesIgnored` | app/api/assets/route.ts:20 | Whitespace inserted anywhere does not change the result |
| `AssetsRoute.CaseIgnored` | app/api/assets/route.ts:20 | Upper-casing the input does not change the result |
| `AssetsRoute.TwoMl` | app/api/assets/route.ts:52 | `"2 ML"` gives `ml` |
| `AssetsRoute.EmptyIsMl` | app/api/assets/route.ts:26 | Empty and absent input default to `ml` |
| `AssetsRoute.TrimEmpty` | app/api/assets/route.ts:58-59 | A string trims to `""` exactly when it is all whitespace |
| `AssetsRoute.TrimSlice` | app/api/assets/route.ts:58-59 | `trim()` returns a slice `s[i..j]` of its input, where `s[..i]` and `s[j..]` are all whitespace |
| `AssetsRoute.TrimStartCut` | app/api/assets/route.ts:58-59 | Trimming the start drops the leading whitespace and nothing else |
| `AssetsRoute.TrimEndCut` | app/api/assets/route.ts:58-59 | Trimming the end drops the trailing whitespace and nothing else |
| `AssetsRoute.TrimEdges` | app/api/assets/route.ts:58-59 | A non-empty trimmed string starts and ends with a character that is not whitespace |
| `AssetsRoute.ValidateAsset` | app/api/assets/route.ts:56-71 | The checks run in order. A blank name gives the name error whatever else the body holds. Otherwise a blank laboratory gives the laboratory error. Otherwise a quantity that is not finite, or is at most 0, gives the quantity error (a missing quantity counts as 0). A body that passes gives the row of the trimmed name, the trimmed laboratory, the quantity and the normalised unit |
| `AssetsRoute.ValidatedRow` | app/api/assets/route.ts:58-75 | Only this reaches the insert: the body's name and laboratory with the whitespace at both ends cut, both non-blank and with no whitespace at either end; the body's own quantity, positive and finite; and one of the three units normalised from `unit ?? ''` |
| `AssetsRoute.PostAsset` | app/api/assets/route.ts:63-75 | The route answers 400 exactly when a check fails, with one of the three messages, and otherwise inserts the validated row |
| `AssetsRoute.MessageNamesCheck` | app/api/assets/route.ts:63-71 | Each 400 message names exactly one check: the name, the laboratory or the quantity |
| `AssetsRoute.UnparsedBody` | app/api/assets/route.ts:56-65 | A body that does not parse is read as `{}` and refused for its name |

## Left out

- The database client and the Next.js request and response objects are not modelled. The store is the abstract `Store`, and requests and responses are datatypes.
- The store's ordering and limits (`.order("date", …)`, row limits) are not modelled. `listWithItems` returns the patient's rows in table order (`OfPatient`). `Attach`, `Compose` and `FindById` are proved for treatments and item rows in any order; `ListShape` and `ListShowsCreated` are stated for table order only.
- The store's error message (`e.message`) is not modelled. Every 500 carries the payload `StoreError`.
- CORS headers, the `OPTIONS` handlers, and the ping, health and patients routes are not part of this model.
- `GET /api/assets` is not part of this model.
- The asset insert itself (lines 73-82 of app/api/assets/route.ts) is not modelled. `PostAsset` returns the row that would be inserted, and the 201 and the insert's own 400 are not modelled.
- JavaScript number arithmetic is exact `real` arithmetic in the model. Two floating-point cases are modelled: NaN from an absent item quantity in app/api/treatments/route.ts, and NaN or ±Infinity (`JsNumber.NonFinite`) for the `Number.isFinite` check in app/api/assets/route.ts.
- `Number(…)` on non-numeric JSON values is not modelled: quantities are numbers, `null` or absent. The same is true of `String(…)` on non-string names, laboratories and units in app/api/assets/route.ts. A body's `items`, `assets` or `lines` that is not an array is not modelled either. A non-array `lines` throws at line 84 of app/api/treatments/route.ts, before any store call. A non-array `items` or `assets` with a `length` passes line 90 and throws at line 105, after the treatment insert.
- Unicode case mapping is not modelled. Lowercasing is ASCII only. The whitespace set does match JavaScript's `\s` and `trim()`.
- Numeric ids are non-negative safe integers (at most 2^53 - 1, the type `SafeNat`). `String(n)` writes those as plain decimal numerals, which is what `Decimal` computes. Negative, fractional and larger numeric ids are not modelled. Numbers from 10^21 on would not fit `Decimal` anyway, because `String(n)` writes them in exponent form (`"1e+21"`).
- `patient_id` is modelled as a string, `null` or absent. A non-string value is not modelled. The number `0` or `false` fails `!patient_id` and answers 400. Any other non-string value goes to the insert unchanged.
- Line items that are not objects are not modelled. A `null` element of `lines` throws at line 85 of app/api/treatments/route.ts, before any store call, and the answer is 500. A `null` element of `items` or `assets` throws at line 107, after the treatment insert, so the answer is 500 and the new treatment row stays without items.
- Line items without `asset_id` are not modelled: every modelled item carries an asset id. In the code such an item is inserted with an undefined `asset_id`, and what the store then does with it is outside the model.
- Dictionary keys that collide with JavaScript object prototype properties (`__proto__`, `constructor`) are not modelled.
- Concurrency is not modelled. Two simultaneous requests can race on the unguarded read-then-write of a stock, and the model runs one request at a time.
- The clock is not modelled. The default date is the parameter `today`.
- TreatmentsProperties.StockAfterDecrements: the closed form `max(0, initial - sum)` is stated for non-negative quantities only. With a negative quantity, the floor applied at each step makes the stock depend on the order of the items. `ApplyAllAt` states the general step-by-step result.
